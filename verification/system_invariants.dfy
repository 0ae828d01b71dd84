/**
 What every reachable state of the system satisfies: messages in queues and logs were really
 sent, a correct replica votes once per view, sequence number and kind, and what it finalised
 is certified by a quorum of commits.
 */
module SystemInvariants {
  import opened Messages
  import opened Slotting
  import opened Instances
  import opened Views
  import opened Windows
  import opened WindowInvariants
  import opened WindowRouting
  import opened WindowRuns
  import opened Systems

  predicate InLogs(i: Instance, m: Message) {
    m in i.proposals || m in i.prepares || m in i.commits
  }

  ghost predicate LogsKnown(cfg: Config, sent: set<Message>, w: Window) {
    forall k, m :: 0 <= k < |w.decisions| && InLogs(w.decisions[k], m) ==> Known(cfg, sent, m)
  }

  ghost predicate QueuesKnown(cfg: Config, sent: set<Message>, w: Window) {
    forall k: Key, m :: m in Lookup(w, k) ==> Known(cfg, sent, m)
  }

  /** The instance has cast this vote. */
  ghost predicate Cast(i: Instance, m: Message) {
    match m.kind
    case PrePrepare(_) => true
    case Prepare(d) => i.stage.Rank() >= Preparing.Rank() && d == DigestOf(i)
    case Commit(d) => i.stage.Rank() >= Committing.Rank() && d == DigestOf(i)
  }

  /** A vote of this replica is recorded in its instance for as long as the instance lives. */
  ghost predicate VoteStands(w: Window, m: Message) {
    && m.view <= w.view.seqNo
    && (m.view == w.view.seqNo ==>
          m.seqNo < w.Top() && (m.seqNo >= w.seqNo ==> Cast(w.decisions[m.seqNo - w.seqNo], m)))
  }

  ghost predicate VotesStand(sent: set<Message>, w: Window) {
    forall m :: m in sent && IsVote(m) && m.from == w.me ==> VoteStands(w, m)
  }

  ghost predicate SameBallot(a: Message, b: Message) {
    IsVote(a) && IsVote(b) && a.from == b.from && a.view == b.view && a.seqNo == b.seqNo && TagOf(a) == TagOf(b)
  }

  /** No correct replica votes two ways in one ballot. */
  ghost predicate VotesUnique(cfg: Config, sent: set<Message>) {
    forall a, b :: a in sent && b in sent && a.from in cfg.correct && SameBallot(a, b) ==> a.kind == b.kind
  }

  ghost predicate WindowOk(cfg: Config, sent: set<Message>, w: Window) {
    && Good(w) && w.view == cfg.views(w.view.seqNo)
    && LogsKnown(cfg, sent, w) && QueuesKnown(cfg, sent, w)
  }

  ghost predicate ReplicaOk(cfg: Config, sent: set<Message>, n: Node, r: Replica) {
    && r.window.me == n
    && WindowOk(cfg, sent, r.window)
    && VotesStand(sent, r.window)
    && (r.last.Some? ==> Certified(cfg, sent, r.last.value))
  }

  ghost predicate AllAuthentic(sent: set<Message>) {
    forall m :: m in sent ==> Authentic(m)
  }

  ghost predicate SysInv(cfg: Config, s: System) {
    && cfg.Valid() && s.replicas.Keys == cfg.correct
    && AllAuthentic(s.sent) && VotesUnique(cfg, s.sent)
    && (forall n :: n in s.replicas ==> ReplicaOk(cfg, s.sent, n, s.replicas[n]))
  }

  // More sent messages: nothing known is forgotten

  lemma CertifiedGrows(cfg: Config, sent: set<Message>, more: set<Message>, p: CompletedBatch)
    requires sent <= more && Certified(cfg, sent, p)
    ensures Certified(cfg, more, p)
  {
  }

  lemma WindowOkGrows(cfg: Config, sent: set<Message>, more: set<Message>, w: Window)
    requires sent <= more && WindowOk(cfg, sent, w)
    ensures WindowOk(cfg, more, w)
  {
    hide Good, Lookup, InLogs;
    forall k, m | 0 <= k < |w.decisions| && InLogs(w.decisions[k], m) ensures Known(cfg, more, m) {
      assert Known(cfg, sent, m);
    }
    forall k: Key, m | m in Lookup(w, k) ensures Known(cfg, more, m) {
      assert Known(cfg, sent, m);
    }
  }

  /** Someone else's vote, or no vote at all, leaves a replica as it was. */
  lemma ReplicaOkGrows(cfg: Config, sent: set<Message>, m: Message, n: Node, r: Replica)
    requires ReplicaOk(cfg, sent, n, r) && (IsVote(m) ==> m.from != n)
    ensures ReplicaOk(cfg, sent + {m}, n, r)
  {
    hide WindowOk, Certified, VoteStands;
    WindowOkGrows(cfg, sent, sent + {m}, r.window);
    if r.last.Some? {
      CertifiedGrows(cfg, sent, sent + {m}, r.last.value);
    }
  }

  lemma InjectKeeps(cfg: Config, s: System, m: Message)
    requires SysInv(cfg, s) && Enabled(cfg, s, Inject(m))
    ensures SysInv(cfg, s.(sent := s.sent + {m}))
  {
    hide ReplicaOk, Authentic, Config.ViewOk;
    forall n | n in s.replicas ensures ReplicaOk(cfg, s.sent + {m}, n, s.replicas[n]) {
      ReplicaOkGrows(cfg, s.sent, m, n, s.replicas[n]);
    }
  }

  // A replica changes without voting

  lemma StandsAdvance(w: Window, x: Window, m: Message)
    requires Advances(w, x) && VoteStands(w, m)
    ensures VoteStands(x, m)
  {
  }

  lemma VotesStandAdvance(sent: set<Message>, w: Window, x: Window)
    requires Advances(w, x) && VotesStand(sent, w)
    ensures VotesStand(sent, x)
  {
    hide Advances, VoteStands;
    assert x.me == w.me by { MeStays(w, x); }
    forall m | m in sent && IsVote(m) && m.from == w.me ensures VoteStands(x, m) {
      StandsAdvance(w, x, m);
    }
  }

  lemma MeStays(w: Window, x: Window)
    requires Advances(w, x)
    ensures x.me == w.me
  {
  }

  lemma QuietKeeps(cfg: Config, s: System, n: Node, r: Replica)
    requires SysInv(cfg, s) && n in s.replicas
    requires Advances(s.replicas[n].window, r.window) && WindowOk(cfg, s.sent, r.window)
    requires r.last.Some? ==> Certified(cfg, s.sent, r.last.value)
    ensures SysInv(cfg, With(s, n, r, None))
  {
    hide Advances, WindowOk, Certified, VotesStand, Config.Valid, AllAuthentic, VotesUnique;
    VotesStandAdvance(s.sent, s.replicas[n].window, r.window);
    MeStays(s.replicas[n].window, r.window);
    var t := With(s, n, r, None);
    assert t.replicas.Keys == s.replicas.Keys;
  }

  // A replica votes

  lemma VoteCast(w: Window, m: Message)
    requires Inv(w) && Deliver(w, m).sent.Some?
    ensures var v := Deliver(w, m).sent.value;
            && IsVote(v) && Authentic(v) && v.from == w.me && VoteStands(Deliver(w, m).window, v)
            && v.view == w.view.seqNo && w.seqNo <= v.seqNo < w.Top()
    ensures var v := Deliver(w, m).sent.value;
            forall prior: Message :: SameBallot(prior, v) ==> !VoteStands(w, prior)
  {
    hide Coupled, Awake, OffersStarted, InLeaderSpace, Voted, MetadataOf, DigestOf;
    var k := m.seqNo - w.seqNo;
    ProcessEvolves(w.me, w.decisions[k], m);
    hide Instances.Process;
    var v := Deliver(w, m).sent.value;
    assert w.decisions[k].seqNo == m.seqNo;
    forall prior: Message | SameBallot(prior, v) ensures !VoteStands(w, prior) {
    }
  }

  lemma UniqueGrows(cfg: Config, sent: set<Message>, w: Window, v: Message)
    requires VotesUnique(cfg, sent) && VotesStand(sent, w) && v.from == w.me
    requires forall prior: Message :: SameBallot(prior, v) ==> !VoteStands(w, prior)
    ensures VotesUnique(cfg, sent + {v})
  {
    hide VoteStands;
    forall a, b | a in sent + {v} && b in sent + {v} && a.from in cfg.correct && SameBallot(a, b)
      ensures a.kind == b.kind
    {
      assert SameBallot(b, a);
    }
  }

  lemma DeliverLogs(cfg: Config, sent: set<Message>, w: Window, m: Message)
    requires LogsKnown(cfg, sent, w) && Known(cfg, sent, m)
    ensures LogsKnown(cfg, sent, Deliver(w, m).window)
  {
    hide Push, DigestOf, MetadataOf, InLeaderSpace, Voted;
    var x := Deliver(w, m).window;
    forall k, l | 0 <= k < |x.decisions| && InLogs(x.decisions[k], l) ensures Known(cfg, sent, l) {
      assert InLogs(w.decisions[k], l) || l == m;
    }
  }

  lemma DeliverOk(cfg: Config, sent: set<Message>, w: Window, m: Message)
    requires WindowOk(cfg, sent, w) && Known(cfg, sent, m)
    ensures WindowOk(cfg, sent, Deliver(w, m).window) && Advances(w, Deliver(w, m).window)
  {
    DeliverLogs(cfg, sent, w, m);
    DeliverGood(w, m);
    DeliverKeeps(w, m);
    DeliverOffers(w, m);
    hide Inv, WellRouted, Deliver, Lookup, LogsKnown, Advances, Known;
    forall k: Key, l | l in Lookup(Deliver(w, m).window, k) ensures Known(cfg, sent, l) {
      DeliverRoutes(w, m, k);
    }
  }

  lemma DeliverStep(cfg: Config, s: System, n: Node, m: Message)
    requires SysInv(cfg, s) && n in s.replicas && Known(cfg, s.sent, m)
    ensures var step := Deliver(s.replicas[n].window, m);
            SysInv(cfg, With(s, n, s.replicas[n].(window := step.window), step.sent))
  {
    var r := s.replicas[n];
    DeliverOk(cfg, s.sent, r.window, m);
    var step := Deliver(r.window, m);
    var q := r.(window := step.window);
    QuietKeeps(cfg, s, n, q);
    if step.sent.Some? {
      VoteCast(r.window, m);
      UniqueGrows(cfg, s.sent, r.window, step.sent.value);
      VoteAdded(cfg, With(s, n, q, None), n, step.sent.value);
    }
  }

  lemma VoteAdded(cfg: Config, s: System, n: Node, v: Message)
    requires SysInv(cfg, s) && n in s.replicas && IsVote(v) && Authentic(v) && v.from == n
    requires VoteStands(s.replicas[n].window, v) && VotesUnique(cfg, s.sent + {v})
    ensures SysInv(cfg, s.(sent := s.sent + {v}))
  {
    hide Config.ViewOk, Authentic, VoteStands, VotesUnique, WindowOk, Certified;
    forall k | k in s.replicas ensures ReplicaOk(cfg, s.sent + {v}, k, s.replicas[k]) {
      if k == n {
        WindowOkGrows(cfg, s.sent, s.sent + {v}, s.replicas[k].window);
        if s.replicas[k].last.Some? {
          CertifiedGrows(cfg, s.sent, s.sent + {v}, s.replicas[k].last.value);
        }
      } else {
        ReplicaOkGrows(cfg, s.sent, v, k, s.replicas[k]);
      }
    }
  }

  // The other operations: nothing enters a log, and nothing unknown enters a queue

  lemma QueueOk(cfg: Config, sent: set<Message>, w: Window, m: Message)
    requires WindowOk(cfg, sent, w) && Known(cfg, sent, m)
    ensures WindowOk(cfg, sent, Queue(w, m)) && Advances(w, Queue(w, m))
  {
    QueueLogs(cfg, sent, w, m);
    QueueGood(w, m);
    QueueKeeps(w, m);
    hide Inv, WellRouted, Queue, Lookup, LogsKnown, Advances, Known;
    forall k: Key, l | l in Lookup(Queue(w, m), k) ensures Known(cfg, sent, l) {
      QueueRoutes(w, m, k);
    }
  }

  lemma QueueLogs(cfg: Config, sent: set<Message>, w: Window, m: Message)
    requires LogsKnown(cfg, sent, w)
    ensures LogsKnown(cfg, sent, Queue(w, m))
  {
    hide Push;
  }

  lemma {:induction false} PollLogs(cfg: Config, sent: set<Message>, w: Window)
    requires Inv(w) && LogsKnown(cfg, sent, w)
    ensures LogsKnown(cfg, sent, PollWindow(w).0)
    decreases Waiting(w.decisions), |w.signals|
  {
    hide Coupled, Numbered, Awake, OffersStarted, LogsKnown, Wake;
    if w.signals != {} {
      var s := Min(w.signals);
      if s < w.seqNo {
        StaleSignalKeeps(w, s);
        SameInstances(cfg, sent, w, w.(signals := w.signals - {s}));
        PollLogs(cfg, sent, w.(signals := w.signals - {s}));
      } else {
        WakeKeeps(w, s);
        WakeLogs(cfg, sent, w, s);
        if !Wake(w, s).1.NextMessage? {
          PollLogs(cfg, sent, Wake(w, s).0);
        }
      }
    }
  }

  lemma SameInstances(cfg: Config, sent: set<Message>, w: Window, x: Window)
    requires LogsKnown(cfg, sent, w) && x.decisions == w.decisions
    ensures LogsKnown(cfg, sent, x)
  {
  }

  lemma WakeLogs(cfg: Config, sent: set<Message>, w: Window, s: nat)
    requires w.seqNo <= s < w.Top() && s in w.signals && LogsKnown(cfg, sent, w)
    ensures LogsKnown(cfg, sent, Wake(w, s).0)
  {
  }

  lemma PollOk(cfg: Config, sent: set<Message>, w: Window)
    requires WindowOk(cfg, sent, w)
    ensures SignalsInWindow(w) && WindowOk(cfg, sent, PollWindow(w).0) && Advances(w, PollWindow(w).0)
    ensures PollWindow(w).1.Some? ==> Known(cfg, sent, PollWindow(w).1.value)
  {
    hide Numbered, Awake, OffersStarted;
    PollLogs(cfg, sent, w);
    PollGood(w);
    PollKeeps(w);
    InPlaceAdvances(w, PollWindow(w).0);
    hide WellRouted, PollWindow, Lookup, LogsKnown, Advances, Known;
    forall k: Key, l | l in Lookup(PollWindow(w).0, k) ensures Known(cfg, sent, l) {
      PollRoutes(w, k);
    }
    if PollWindow(w).1.Some? {
      var m := PollWindow(w).1.value;
      PollRoutes(w, KeyOf(m));
      assert m in Lookup(w, KeyOf(m));
    }
  }

  lemma NextOk(cfg: Config, sent: set<Message>, w: Window)
    requires WindowOk(cfg, sent, w)
    ensures w.decisions != [] && WindowOk(cfg, sent, Next(w)) && Advances(w, Next(w))
  {
    hide Awake, OffersStarted, Numbered;
    NextGood(w);
    NextKeeps(w);
    var x := Next(w);
    forall k, m | 0 <= k < |x.decisions| && InLogs(x.decisions[k], m) ensures Known(cfg, sent, m) {
      assert k < |x.decisions| - 1 && x.decisions[k] == w.decisions[k + 1];
    }
    hide WellRouted, Lookup, LogsKnown, Advances, Known;
    forall k: Key, l | l in Lookup(Next(w), k) ensures Known(cfg, sent, l) {
      NextRoutes(w, k);
    }
  }

  lemma InstallSeqLogs(cfg: Config, sent: set<Message>, w: Window, n: nat)
    requires Inv(w) && n >= w.seqNo && LogsKnown(cfg, sent, w)
    ensures LogsKnown(cfg, sent, InstallSeq(w, n))
  {
    hide Numbered, Awake, OffersStarted, Known;
    var x := InstallSeq(w, n);
    forall k, m | 0 <= k < |x.decisions| && InLogs(x.decisions[k], m) ensures Known(cfg, sent, m) {
      if n < w.seqNo + w.watermark {
        assert k < w.watermark - (n - w.seqNo) && x.decisions[k] == w.decisions[k + (n - w.seqNo)];
      }
    }
  }

  lemma InstallSeqOk(cfg: Config, sent: set<Message>, w: Window, n: nat)
    requires WindowOk(cfg, sent, w) && n >= w.seqNo
    ensures Safe(w, InstallSeqOp(n)) && WindowOk(cfg, sent, InstallSeq(w, n)) && Advances(w, InstallSeq(w, n))
  {
    hide Awake, OffersStarted, Numbered;
    InstallSeqLogs(cfg, sent, w, n);
    InstallSeqGood(w, n);
    InstallSeqKeeps(w, n);
    assert InstallSeq(w, n).view == w.view;
    hide WellRouted, Lookup, LogsKnown, Advances, Known, InstallSeq;
    forall k: Key, l | l in Lookup(InstallSeq(w, n), k) ensures Known(cfg, sent, l) {
      InstallSeqRoutes(w, n, k);
    }
  }

  lemma EmptyLogs(cfg: Config, sent: set<Message>, w: Window)
    requires Inv(w)
    requires forall k :: 0 <= k < |w.decisions| ==> w.decisions[k].stage.Initialize?
    ensures LogsKnown(cfg, sent, w)
  {
    hide VotesFor, ProposalsFor, Known, Awake, OffersStarted;
    forall k, m | 0 <= k < |w.decisions| ensures !InLogs(w.decisions[k], m) {
      assert Coupled(w.decisions[k]);
    }
  }

  lemma InstallViewOk(cfg: Config, sent: set<Message>, w: Window, v: View)
    requires WindowOk(cfg, sent, w) && cfg.Valid() && v == cfg.views(v.seqNo)
    ensures v.Valid()
    ensures WindowOk(cfg, sent, InstallView(w, v)) && Advances(w, InstallView(w, v))
  {
    assert cfg.ViewOk(v.seqNo);
    hide Awake, OffersStarted, Numbered, Config.ViewOk;
    InstallViewGood(w, v);
    InstallViewKeeps(w, v);
    if v.seqNo > w.view.seqNo {
      EmptyLogs(cfg, sent, InstallView(w, v));
      hide WellRouted, Lookup, LogsKnown, Advances, Known, InstallView, View.Valid;
      forall k: Key, l | l in Lookup(InstallView(w, v), k) ensures Known(cfg, sent, l) {
        InstallViewRoutes(w, v, k);
      }
    }
  }

  lemma EnterViewOk(cfg: Config, sent: set<Message>, w: Window, v: View)
    requires WindowOk(cfg, sent, w) && cfg.Valid() && v == cfg.views(v.seqNo) && v.seqNo > w.view.seqNo
    ensures v.Valid() && |w.decisions| >= 1 && w.watermark >= 1
    ensures WindowOk(cfg, sent, EnterView(w, v)) && Advances(w, EnterView(w, v))
  {
    hide Awake, OffersStarted, Numbered, Config.ViewOk;
    InstallViewOk(cfg, sent, w, v);
    EnterViewGood(w, v);
    EnterViewKeeps(w, v);
    hide WellRouted, InstallView, Known, Advances, View.Valid;
    EnteredAlike(w, v);
    var x, y := InstallView(w, v), EnterView(w, v);
    forall k, m | 0 <= k < |y.decisions| && InLogs(y.decisions[k], m) ensures Known(cfg, sent, m) {
      assert InLogs(x.decisions[k], m);
    }
  }

  lemma EnteredAlike(w: Window, v: View)
    requires |w.decisions| >= 1 && w.watermark >= 1 && v.seqNo > w.view.seqNo
    ensures var x, y := InstallView(w, v), EnterView(w, v);
            && |x.decisions| == |y.decisions|
            && (forall k, m :: 0 <= k < |y.decisions| ==> (InLogs(y.decisions[k], m) <==> InLogs(x.decisions[k], m)))
            && (forall k: Key :: Lookup(y, k) == Lookup(x, k))
  {
    hide InstallView;
  }

  lemma ProposeOk(cfg: Config, sent: set<Message>, w: Window)
    requires WindowOk(cfg, sent, w)
    ensures WindowOk(cfg, sent, Propose(w).0) && Advances(w, Propose(w).0)
  {
    ProposeGood(w);
    ProposeKeeps(w);
    hide Inv, WellRouted, Known, Advances;
    SameInstances(cfg, sent, w, Propose(w).0);
    forall k: Key ensures Lookup(Propose(w).0, k) == Lookup(w, k) {
      GuardApart(w, Propose(w).0.guard, k);
    }
  }

  // What is finalised is certified

  lemma FinalisedCertified(cfg: Config, sent: set<Message>, w: Window)
    requires WindowOk(cfg, sent, w) && w.decisions != [] && w.decisions[0].stage.Decided?
    ensures Certified(cfg, sent, Complete(w.decisions[0]))
  {
    hide Awake, OffersStarted, WellRouted, Lookup, DigestOf, ProposalsFor;
    DecidedCertified(cfg, sent, w, 0);
  }

  /** A decided instance holds a quorum of commits, all really sent by members of its view. */
  lemma DecidedCertified(cfg: Config, sent: set<Message>, w: Window, k: nat)
    requires WindowOk(cfg, sent, w) && k < |w.decisions| && w.decisions[k].stage.Decided?
    ensures var i := w.decisions[k];
            Certificate(cfg, sent, i.commits, w.view.seqNo, i.seqNo, Commit(DigestOf(i))) && i.commits != []
  {
    hide Awake, OffersStarted, WellRouted, Lookup, DigestOf, ProposalsFor;
    var i := w.decisions[k];
    assert Coupled(i) && i.view == w.view;
    assert |i.commits| == i.view.Quorum() >= 1;
    forall j | 0 <= j < |i.commits| ensures Known(cfg, sent, i.commits[j]) {
      assert InLogs(i, i.commits[j]);
    }
  }

  /** An instance past its prepares holds a quorum of them, all really sent by members of its view. */
  lemma PreparedCertified(cfg: Config, sent: set<Message>, w: Window, k: nat)
    requires WindowOk(cfg, sent, w) && k < |w.decisions| && w.decisions[k].stage.Rank() >= Committing.Rank()
    ensures var i := w.decisions[k];
            Certificate(cfg, sent, i.prepares, w.view.seqNo, i.seqNo, Prepare(DigestOf(i)))
  {
    hide Awake, OffersStarted, WellRouted, Lookup, DigestOf, ProposalsFor;
    var i := w.decisions[k];
    assert Coupled(i) && i.view == w.view;
    forall j | 0 <= j < |i.prepares| ensures Known(cfg, sent, i.prepares[j]) {
      assert InLogs(i, i.prepares[j]);
    }
  }

  // Every step

  lemma ActKeeps(cfg: Config, s: System, n: Node, op: Op)
    requires SysInv(cfg, s) && Enabled(cfg, s, Act(n, op)) && Allowed(s.replicas[n].window, op)
    ensures Safe(s.replicas[n].window, op)
    ensures SysInv(cfg, With(s, n, Outcome(s.replicas[n], op), Sends(s.replicas[n].window, op)))
  {
    var r := s.replicas[n];
    StepGood(r.window, op);
    hide Inv, WellRouted, LogsKnown, QueuesKnown, Advances, Config.Valid, VotesUnique, AllAuthentic, VotesStand;
    match op {
      case QueueOp(m) =>
        QueueOk(cfg, s.sent, r.window, m);
        QuietKeeps(cfg, s, n, Outcome(r, op));
      case DeliverOp(m) => DeliverStep(cfg, s, n, m);
      case PollOp => PollStep(cfg, s, n);
      case NextOp =>
        NextOk(cfg, s.sent, r.window);
        FinalisedCertified(cfg, s.sent, r.window);
        QuietKeeps(cfg, s, n, Outcome(r, op));
      case InstallViewOp(v) =>
        InstallViewOk(cfg, s.sent, r.window, v);
        QuietKeeps(cfg, s, n, Outcome(r, op));
      case EnterViewOp(v) =>
        EnterViewOk(cfg, s.sent, r.window, v);
        QuietKeeps(cfg, s, n, Outcome(r, op));
      case ProposeOp =>
        ProposeOk(cfg, s.sent, r.window);
        QuietKeeps(cfg, s, n, Outcome(r, op));
    }
  }

  lemma WithTwice(s: System, n: Node, r: Replica, q: Replica, out: Option<Message>)
    ensures With(With(s, n, r, None), n, q, out) == With(s, n, q, out)
  {
  }

  lemma PollStep(cfg: Config, s: System, n: Node)
    requires SysInv(cfg, s) && n in s.replicas && !s.replicas[n].syncing
    ensures Safe(s.replicas[n].window, PollOp)
    ensures SysInv(cfg, With(s, n, Outcome(s.replicas[n], PollOp), Sends(s.replicas[n].window, PollOp)))
  {
    hide Good, LogsKnown, QueuesKnown, Advances, Config.Valid, VotesUnique, AllAuthentic, VotesStand, PollWindow,
         Deliver;
    var r := s.replicas[n];
    PollOk(cfg, s.sent, r.window);
    var (x, m) := PollWindow(r.window);
    QuietKeeps(cfg, s, n, r.(window := x));
    if m.Some? {
      var mid := With(s, n, r.(window := x), None);
      DeliverStep(cfg, mid, n, m.value);
      var step := Deliver(x, m.value);
      WithTwice(s, n, r.(window := x), r.(window := step.window), step.sent);
    }
  }

  lemma StepKeeps(cfg: Config, s: System, e: Event, t: System)
    requires SysInv(cfg, s) && Enabled(cfg, s, e) && StepTo(s, e, t)
    ensures SysInv(cfg, t) && s.sent <= t.sent
  {
    hide Inv, WellRouted, LogsKnown, QueuesKnown, Config.Valid, VotesUnique, AllAuthentic, VotesStand;
    match e {
      case Inject(m) => InjectKeeps(cfg, s, m);
      case StartSync(n) => SyncKeeps(cfg, s, n);
      case Act(n, op) => ActKeeps(cfg, s, n, op);
      case CatchUp(n, k, last) =>
        InstallSeqOk(cfg, s.sent, s.replicas[n].window, k);
        QuietKeeps(cfg, s, n, Replica(InstallSeq(s.replicas[n].window, k), s.replicas[n].syncing, last));
    }
  }

  lemma SyncKeeps(cfg: Config, s: System, n: Node)
    requires SysInv(cfg, s) && n in s.replicas
    ensures SysInv(cfg, With(s, n, s.replicas[n].(syncing := true), None))
  {
    hide WindowOk, Config.Valid, VotesUnique, AllAuthentic, VotesStand, Certified;
    var t := With(s, n, s.replicas[n].(syncing := true), None);
    assert t.replicas.Keys == s.replicas.Keys;
  }

  lemma StartOk(cfg: Config, s: System)
    requires cfg.Valid() && Start(cfg, s)
    ensures SysInv(cfg, s)
  {
    assert cfg.ViewOk(0);
    forall n | n in s.replicas ensures ReplicaOk(cfg, s.sent, n, s.replicas[n]) {
      CreateGood(n, cfg.watermark, 0, cfg.views(0));
      NothingWaiting(n, cfg.watermark, cfg.views(0));
    }
  }

  lemma NothingWaiting(n: Node, watermark: nat, view: View)
    ensures var w := Create(n, watermark, 0, view);
            && (forall k, m :: 0 <= k < |w.decisions| ==> !InLogs(w.decisions[k], m))
            && (forall k: Key, m :: m !in Lookup(w, k))
  {
  }

  /** Every reachable state satisfies the invariant. */
  lemma {:induction false} ReachableOk(cfg: Config, trace: seq<System>, events: seq<Event>, k: nat)
    requires IsExecution(cfg, trace, events) && k <= |events|
    ensures SysInv(cfg, trace[k])
  {
    hide SysInv, Enabled, StepTo, Start, Config.Valid;
    if k == 0 {
      StartOk(cfg, trace[0]);
    } else {
      ReachableOk(cfg, trace, events, k - 1);
      StepKeeps(cfg, trace[k - 1], events[k - 1], trace[k]);
    }
  }

  /** No operation of a correct replica indexes outside its window or unwraps nothing. */
  lemma NoPanic(cfg: Config, trace: seq<System>, events: seq<Event>, k: nat)
    requires IsExecution(cfg, trace, events) && k < |events| && events[k].Act?
    ensures events[k].node in trace[k].replicas && Safe(trace[k].replicas[events[k].node].window, events[k].op)
  {
    ReachableOk(cfg, trace, events, k);
    assert StepTo(trace[k], events[k], trace[k + 1]);
    hide SysInv, Start, Config.Valid, MayAct, Safe, Outcome, Sends, Apply;
    ActKeeps(cfg, trace[k], events[k].node, events[k].op);
  }

  lemma {:induction false} SentGrows(cfg: Config, trace: seq<System>, events: seq<Event>, j: nat, k: nat)
    requires IsExecution(cfg, trace, events) && j <= k <= |events|
    ensures trace[j].sent <= trace[k].sent
  {
    hide SysInv, Enabled, StepTo, Start, Config.Valid;
    if j < k {
      SentGrows(cfg, trace, events, j, k - 1);
      ReachableOk(cfg, trace, events, k - 1);
      StepKeeps(cfg, trace[k - 1], events[k - 1], trace[k]);
    }
  }
}
