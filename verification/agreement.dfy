/**
 Agreement within a view, and what a view change gets to see of it.
 */
module Agreement {
  import opened Messages
  import opened Instances
  import opened Views
  import opened Windows
  import opened WindowInvariants
  import opened WindowRouting
  import opened WindowRuns
  import opened Systems
  import opened SystemInvariants
  import Quorums

  /** The senders of a certificate are a quorum of the members of its view. */
  lemma CertificateSenders(cfg: Config, sent: set<Message>, log: seq<Message>, view: nat, seqNo: nat, vote: Kind)
    requires cfg.Valid() && Certificate(cfg, sent, log, view, seqNo, vote)
    ensures Senders(log) <= cfg.views(view).MemberSet() && |Senders(log)| >= cfg.views(view).Quorum()
    ensures forall n :: n in Senders(log) ==>
              exists m :: m in sent && m.from == n && m.view == view && m.seqNo == seqNo && m.kind == vote
  {
    SendersCount(log);
    SendersAre(log);
    forall n | n in Senders(log)
      ensures n in cfg.views(view).MemberSet()
      ensures exists m :: m in sent && m.from == n && m.view == view && m.seqNo == seqNo && m.kind == vote
    {
      var k :| 0 <= k < |log| && log[k].from == n;
      assert Known(cfg, sent, log[k]);
    }
  }

  /** Two quorums of one view share a correct member. */
  lemma SharedCorrect(cfg: Config, view: nat, a: set<Node>, b: set<Node>) returns (c: Node)
    requires cfg.Valid()
    requires a <= cfg.views(view).MemberSet() && b <= cfg.views(view).MemberSet()
    requires |a| >= cfg.views(view).Quorum() && |b| >= cfg.views(view).Quorum()
    ensures c in a && c in b && c in cfg.correct
  {
    assert cfg.ViewOk(view);
    DistinctCount(cfg.views(view).members);
    c := Quorums.QuorumsShareCorrect(a, b, cfg.views(view).MemberSet(), cfg.faulty);
  }

  lemma CertificatesAgree(cfg: Config, sent: set<Message>, a: seq<Message>, b: seq<Message>, view: nat, seqNo: nat,
                          voteA: Kind, voteB: Kind)
    requires cfg.Valid() && VotesUnique(cfg, sent)
    requires Certificate(cfg, sent, a, view, seqNo, voteA) && Certificate(cfg, sent, b, view, seqNo, voteB)
    requires (voteA.Prepare? && voteB.Prepare?) || (voteA.Commit? && voteB.Commit?)
    ensures voteA == voteB
  {
    CertificateSenders(cfg, sent, a, view, seqNo, voteA);
    CertificateSenders(cfg, sent, b, view, seqNo, voteB);
    var c := SharedCorrect(cfg, view, Senders(a), Senders(b));
    var m :| m in sent && m.from == c && m.view == view && m.seqNo == seqNo && m.kind == voteA;
    var n :| n in sent && n.from == c && n.view == view && n.seqNo == seqNo && n.kind == voteB;
    assert SameBallot(m, n);
  }

  lemma CertificateGrows(cfg: Config, sent: set<Message>, more: set<Message>, log: seq<Message>, view: nat, seqNo: nat,
                         vote: Kind)
    requires sent <= more && Certificate(cfg, sent, log, view, seqNo, vote)
    ensures Certificate(cfg, more, log, view, seqNo, vote)
  {
  }

  /** The replica `n` holds, as its instance number `seqNo` of view `view`, the instance `i`. */
  ghost predicate Holds(s: System, n: Node, view: nat, seqNo: nat, i: Instance) {
    && n in s.replicas
    && var w := s.replicas[n].window;
       w.view.seqNo == view && w.seqNo <= seqNo < w.Top() && w.decisions[seqNo - w.seqNo] == i
  }

  lemma HeldOk(cfg: Config, s: System, n: Node, view: nat, seqNo: nat, i: Instance)
    requires SysInv(cfg, s) && Holds(s, n, view, seqNo, i)
    ensures i.seqNo == seqNo && i.view == cfg.views(view) && Coupled(i)
    ensures forall m :: m in i.proposals ==> Authentic(m) && m.kind.PrePrepare?
    ensures i.stage.Rank() >= Committing.Rank() ==>
              Certificate(cfg, s.sent, i.prepares, view, seqNo, Prepare(DigestOf(i)))
    ensures i.stage.Decided? ==> Certificate(cfg, s.sent, i.commits, view, seqNo, Commit(DigestOf(i)))
  {
    hide Config.ViewOk, Certificate, VotesUnique, VotesStand, QueuesKnown, WellRouted, Awake, OffersStarted;
    hide DigestOf, VotesFor, Known, Authentic;
    assert ReplicaOk(cfg, s.sent, n, s.replicas[n]);
    var w := s.replicas[n].window;
    if i.stage.Rank() >= Committing.Rank() {
      PreparedCertified(cfg, s.sent, w, seqNo - w.seqNo);
    }
    if i.stage.Decided? {
      DecidedCertified(cfg, s.sent, w, seqNo - w.seqNo);
    }
    forall m | m in i.proposals ensures Authentic(m) && m.kind.PrePrepare? {
      ProposalAuthentic(cfg, s.sent, i, m, w, seqNo - w.seqNo);
    }
  }

  lemma ProposalAuthentic(cfg: Config, sent: set<Message>, i: Instance, m: Message, w: Window, k: nat)
    requires k < |w.decisions| && w.decisions[k] == i && Coupled(i) && m in i.proposals
    requires LogsKnown(cfg, sent, w) && AllAuthentic(sent)
    ensures Authentic(m) && m.kind.PrePrepare?
  {
    hide Authentic, VotesFor, DigestOf;
    assert InLogs(i, m);
    assert Known(cfg, sent, m);
    var k :| 0 <= k < |i.proposals| && i.proposals[k] == m;
  }

  /** Agreement within a view. At whatever times two correct replicas have gathered a quorum of
      prepares for the same view and sequence number, and so also once they have decided, they
      hold the same digest and the same sequence of client requests. */
  lemma InViewAgreement(cfg: Config, trace: seq<System>, events: seq<Event>, view: nat, seqNo: nat,
                        a: nat, x: Node, i: Instance, b: nat, y: Node, j: Instance)
    requires IsExecution(cfg, trace, events) && a <= |events| && b <= |events|
    requires Holds(trace[a], x, view, seqNo, i) && i.stage.Rank() >= Committing.Rank()
    requires Holds(trace[b], y, view, seqNo, j) && j.stage.Rank() >= Committing.Rank()
    ensures DigestOf(i) == DigestOf(j)
    ensures OrderedRequests(i.proposals, i.view.leaders) == OrderedRequests(j.proposals, j.view.leaders)
  {
    hide Enabled, StepTo, Start, Certificate, Coupled, DigestOf, Holds;
    var end := |events|;
    ReachableOk(cfg, trace, events, a);
    ReachableOk(cfg, trace, events, b);
    ReachableOk(cfg, trace, events, end);
    SentGrows(cfg, trace, events, a, end);
    SentGrows(cfg, trace, events, b, end);
    HeldOk(cfg, trace[a], x, view, seqNo, i);
    HeldOk(cfg, trace[b], y, view, seqNo, j);
    CertificateGrows(cfg, trace[a].sent, trace[end].sent, i.prepares, view, seqNo, Prepare(DigestOf(i)));
    CertificateGrows(cfg, trace[b].sent, trace[end].sent, j.prepares, view, seqNo, Prepare(DigestOf(j)));
    CertificatesAgree(cfg, trace[end].sent, i.prepares, j.prepares, view, seqNo,
                      Prepare(DigestOf(i)), Prepare(DigestOf(j)));
    EqualDigestsEqualBatches(i, j);
  }

  // What a view change sees

  /** From state `s` on, the replica casts no further vote in view `v`. */
  ghost predicate Silent(s: System, t: System, c: Node, v: nat) {
    && c in t.replicas
    && (t.replicas[c].window.view.seqNo > v || (t.replicas[c].window.view.seqNo == v && t.replicas[c].syncing))
    && (forall m :: m in t.sent && IsVote(m) && m.from == c && m.view == v ==> m in s.sent)
  }

  lemma SendsVote(w: Window, op: Op)
    requires Good(w) && (op.PollOp? ==> SignalsInWindow(w)) && Sends(w, op).Some?
    ensures op.DeliverOp? || op.PollOp?
    ensures Sends(w, op).value.from == w.me && Sends(w, op).value.view == w.view.seqNo
  {
    hide WellRouted, Numbered, Awake, OffersStarted;
    if op.DeliverOp? {
      VoteCast(w, op.message);
    } else {
      PollKeeps(w);
      VoteCast(PollWindow(w).0, PollWindow(w).1.value);
    }
  }

  lemma ViewNeverFalls(w: Window, op: Op)
    requires Good(w) && Allowed(w, op) && Safe(w, op) && !op.InstallSeqOp?
    ensures Apply(w, op).view.seqNo >= w.view.seqNo && Apply(w, op).me == w.me
  {
    hide WellRouted, Numbered, Awake, OffersStarted;
    match op {
      case QueueOp(m) => QueueKeeps(w, m);
      case DeliverOp(m) =>
      case PollOp => PollKeeps(w);
      case NextOp =>
      case InstallViewOp(v) => InstallViewKeeps(w, v);
      case EnterViewOp(v) => EnterViewKeeps(w, v);
      case ProposeOp =>
    }
  }

  lemma SilentStep(cfg: Config, s: System, t: System, e: Event, u: System, c: Node, v: nat)
    requires SysInv(cfg, t) && Enabled(cfg, t, e) && StepTo(t, e, u) && Silent(s, t, c, v)
    ensures Silent(s, u, c, v)
  {
    assert c !in cfg.faulty;
    hide SysInv;
    match e {
      case Inject(m) =>
      case StartSync(n) =>
      case Act(n, op) => SilentAct(cfg, s, t, n, op, u, c, v);
      case CatchUp(n, k, last) => SilentCatchUp(cfg, s, t, n, k, last, u, c, v);
    }
  }

  lemma SilentCatchUp(cfg: Config, s: System, t: System, n: Node, k: nat, last: Option<CompletedBatch>, u: System,
                      c: Node, v: nat)
    requires SysInv(cfg, t) && Enabled(cfg, t, CatchUp(n, k, last))
    requires StepTo(t, CatchUp(n, k, last), u) && Silent(s, t, c, v)
    ensures Silent(s, u, c, v)
  {
    hide LogsKnown, QueuesKnown, Good, VotesUnique, VotesStand, Config.Valid;
    InstallSeqOk(cfg, t.sent, t.replicas[n].window, k);
    assert InstallSeq(t.replicas[n].window, k).view == t.replicas[n].window.view by {
      JumpView(t.replicas[n].window, k);
    }
    hide InstallSeq;
  }

  /** What an operation does to the phase: the view does not fall, the phase ends only with
      a later view, and a vote is for the current view, outside the synchronisation phase. */
  lemma ActPhase(cfg: Config, sent: set<Message>, r: Replica, op: Op)
    requires Good(r.window) && Allowed(r.window, op) && Safe(r.window, op) && MayAct(cfg, sent, r, op)
    ensures var q := Outcome(r, op);
            && q.window.view.seqNo >= r.window.view.seqNo
            && (q.window.view.seqNo == r.window.view.seqNo ==> q.syncing == r.syncing)
    ensures Sends(r.window, op).Some? ==>
              !r.syncing && Sends(r.window, op).value.from == r.window.me
              && Sends(r.window, op).value.view == r.window.view.seqNo
  {
    hide WellRouted, Numbered, Awake, OffersStarted;
    ViewNeverFalls(r.window, op);
    if Sends(r.window, op).Some? {
      SendsVote(r.window, op);
    }
    if op.EnterViewOp? {
      EnterViewKeeps(r.window, op.view);
    }
  }

  lemma SilentAct(cfg: Config, s: System, t: System, n: Node, op: Op, u: System, c: Node, v: nat)
    requires SysInv(cfg, t) && Enabled(cfg, t, Act(n, op)) && StepTo(t, Act(n, op), u) && Silent(s, t, c, v)
    ensures Silent(s, u, c, v)
  {
    hide LogsKnown, QueuesKnown, VotesUnique, VotesStand, Good, Config.Valid, AllAuthentic;
    hide Apply, Sends, Outcome, MayAct, Allowed;
    assert ReplicaOk(cfg, t.sent, n, t.replicas[n]);
    ActKeeps(cfg, t, n, op);
    ActPhase(cfg, t.sent, t.replicas[n], op);
    SilentWith(s, t, n, Outcome(t.replicas[n], op), Sends(t.replicas[n].window, op), c, v);
  }

  lemma SilentWith(s: System, t: System, n: Node, q: Replica, sent: Option<Message>, c: Node, v: nat)
    requires Silent(s, t, c, v) && n in t.replicas
    requires var r := t.replicas[n];
             && q.window.view.seqNo >= r.window.view.seqNo
             && (q.window.view.seqNo == r.window.view.seqNo ==> q.syncing == r.syncing)
             && (sent.Some? ==> !r.syncing && sent.value.from == n && sent.value.view == r.window.view.seqNo)
    ensures Silent(s, With(t, n, q, sent), c, v)
  {
  }

  lemma {:induction false} StaysSilent(cfg: Config, trace: seq<System>, events: seq<Event>, c: Node, v: nat, j: nat,
                                       k: nat)
    requires IsExecution(cfg, trace, events) && j <= k <= |events|
    requires c in trace[j].replicas && trace[j].replicas[c].window.view.seqNo == v && trace[j].replicas[c].syncing
    ensures Silent(trace[j], trace[k], c, v)
  {
    hide SysInv, Enabled, StepTo, Start, Config.Valid;
    if j < k {
      StaysSilent(cfg, trace, events, c, v, j, k - 1);
      ReachableOk(cfg, trace, events, k - 1);
      SilentStep(cfg, trace[j], trace[k - 1], events[k - 1], trace[k], c, v);
    }
  }

  /** When the correct replica `c` takes part in a collect at state `s`: it is in the
      synchronisation phase of view `v`, with `seqNo` at the front or just finalised. */
  ghost predicate ReadyToReport(s: System, c: Node, v: nat, seqNo: nat) {
    && c in s.replicas && s.replicas[c].syncing
    && s.replicas[c].window.view.seqNo == v
    && (s.replicas[c].window.seqNo == seqNo
        || (s.replicas[c].window.seqNo == seqNo + 1
            && s.replicas[c].last.Some? && s.replicas[c].last.value.seqNo == seqNo))
  }

  /** The collect data of `c` shows the value `d`: a quorum of prepares for it in view `v`, or
      the proof of `seqNo`, which holds `d` whenever it was decided in that view. */
  ghost predicate Reports(s: System, c: Node, f: nat, v: nat, seqNo: nat, d: Digest)
    requires c in s.replicas && s.replicas[c].window.decisions != []
  {
    || (var p := Collect(s.replicas[c].window.decisions[0], f);
        p.inExec == seqNo && p.quorumPrepares == Some(ViewDecision(v, d)))
    || (s.replicas[c].last.Some? && s.replicas[c].last.value.seqNo == seqNo
        && (ProofView(s.replicas[c].last.value) == v ==> s.replicas[c].last.value.digest == d))
  }

  /** A replica that committed to `d` before it reports, reports `d`. */
  lemma CommittedReports(cfg: Config, s: System, c: Node, v: nat, seqNo: nat, d: Digest, m: Message,
                         all: set<Message>, log: seq<Message>)
    requires SysInv(cfg, s) && ReadyToReport(s, c, v, seqNo) && cfg.views(v).F() >= 1
    requires m in s.sent && m.from == c && m.view == v && m.seqNo == seqNo && m.kind == Commit(d)
    requires s.sent <= all && VotesUnique(cfg, all) && Certificate(cfg, all, log, v, seqNo, Commit(d))
    ensures s.replicas[c].window.decisions != [] && Reports(s, c, cfg.views(v).F(), v, seqNo, d)
  {
    hide Config.ViewOk, LogsKnown, QueuesKnown, WellRouted, Awake, OffersStarted;
    hide DigestOf, WriteSet, ProposalsFor, VotesUnique, Certificate;
    var r := s.replicas[c];
    assert ReplicaOk(cfg, s.sent, c, r);
    assert VoteStands(r.window, m);
    if r.window.seqNo == seqNo {
      var i := r.window.decisions[0];
      assert Coupled(i) && Cast(i, m) && i.view == cfg.views(v);
      assert |i.prepares| == cfg.views(v).Quorum();
    } else {
      var p := r.last.value;
      if ProofView(p) == v {
        CertificateGrows(cfg, s.sent, all, p.commits, v, seqNo, Commit(p.digest));
        CertificatesAgree(cfg, all, p.commits, log, v, seqNo, Commit(p.digest), Commit(d));
      }
    }
  }

  /** At some time the correct replica `x` has decided the instance `i` of number `seqNo` in view
      `v`; a quorum of that view hands in collects, the correct ones at the times `when`. */
  ghost predicate Collected(cfg: Config, trace: seq<System>, events: seq<Event>, v: nat, seqNo: nat,
                            a: nat, x: Node, i: Instance, when: map<Node, nat>) {
    && IsExecution(cfg, trace, events) && a <= |events|
    && Holds(trace[a], x, v, seqNo, i) && i.stage.Decided?
    && when.Keys <= cfg.views(v).MemberSet() && |when.Keys| >= cfg.views(v).Quorum()
    && (forall n :: n in when && n in cfg.correct ==>
          when[n] <= |events| && ReadyToReport(trace[when[n]], n, v, seqNo))
  }

  /** The collect of the correct replica `c` shows the value of `i`. */
  ghost predicate Reported(cfg: Config, trace: seq<System>, v: nat, seqNo: nat, i: Instance, when: map<Node, nat>,
                           c: Node) {
    && c in when && c in cfg.correct && when[c] < |trace|
    && c in trace[when[c]].replicas && trace[when[c]].replicas[c].window.decisions != []
    && Reports(trace[when[c]], c, cfg.views(v).F(), v, seqNo, DigestOf(i))
  }

  /** With f >= 1, some correct collect of the quorum shows the decided value. */
  lemma VisibleCollect(cfg: Config, trace: seq<System>, events: seq<Event>, v: nat, seqNo: nat,
                       a: nat, x: Node, i: Instance, when: map<Node, nat>) returns (c: Node)
    requires Collected(cfg, trace, events, v, seqNo, a, x, i, when) && cfg.views(v).F() >= 1
    ensures Reported(cfg, trace, v, seqNo, i, when, c)
  {
    hide Enabled, StepTo, Start, Coupled, DigestOf, Reports, VotesUnique, VotesStand, WindowOk;
    var end, d := |events|, DigestOf(i);
    ReachableOk(cfg, trace, events, a);
    ReachableOk(cfg, trace, events, end);
    HeldOk(cfg, trace[a], x, v, seqNo, i);
    SentGrows(cfg, trace, events, a, end);
    CertificateGrows(cfg, trace[a].sent, trace[end].sent, i.commits, v, seqNo, Commit(d));
    CertificateSenders(cfg, trace[end].sent, i.commits, v, seqNo, Commit(d));
    c := SharedCorrect(cfg, v, Senders(i.commits), when.Keys);
    var m :| m in trace[end].sent && m.from == c && m.view == v && m.seqNo == seqNo && m.kind == Commit(d);
    var s := trace[when[c]];
    ReachableOk(cfg, trace, events, when[c]);
    StaysSilent(cfg, trace, events, c, v, when[c], end);
    SentGrows(cfg, trace, events, when[c], end);
    CommittedReports(cfg, s, c, v, seqNo, d, m, trace[end].sent, i.commits);
  }
}
