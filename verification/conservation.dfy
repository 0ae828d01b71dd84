/**
 No message is lost. Whatever a replica is handed for one instance, in whatever order, before its
 view has begun, before its turn has come or out of step with the phases: once there is nothing
 left to poll, it has been counted.
 */
module Conservation {
  import opened Messages
  import opened Slotting
  import opened Instances
  import opened Views
  import opened Windows
  import opened WindowInvariants
  import opened WindowRouting
  import opened WindowRuns
  import HashSpace
  import Quorums

  /** One instance: its view and number, and what its leaders propose in it. */
  datatype Matter = Matter(view: View, seqNo: nat, proposals: seq<Message>) {
    ghost predicate Valid() {
      view.Valid() && AreProposals(view, seqNo, proposals)
    }

    function Digest(): Digest {
      BatchDigest(view, proposals)
    }

    /** A proposal of the batch, or a vote for it. */
    ghost predicate Concerns(m: Message) {
      && m.view == view.seqNo && m.seqNo == seqNo
      && match m.kind
         case PrePrepare(_) => m in proposals
         case Prepare(d) => d == Digest()
         case Commit(d) => d == Digest()
    }
  }

  // Which batch an instance is about

  lemma ProposalIs(v: View, seqNo: nat, ps: seq<Message>, log: seq<Message>, k: nat)
    requires v.Valid() && AreProposals(v, seqNo, ps) && k < |v.leaders|
    requires forall m :: m in log ==> m in ps
    ensures ProposalOf(log, v.leaders[k]).Some? ==> ProposalOf(log, v.leaders[k]).value == ps[k]
  {
    hide ProposalOf, InOwnSpace, Authentic;
    ProposalOfVoter(log, v.leaders[k]);
    if ProposalOf(log, v.leaders[k]).Some? {
      var m := ProposalOf(log, v.leaders[k]).value;
      var j :| 0 <= j < |ps| && ps[j] == m;
      assert v.leaders[j] == v.leaders[k];
    }
  }

  /** An instance that collected all its proposals from `ps` is about the batch `ps`. */
  lemma SameBatch(i: Instance, a: Matter)
    requires a.Valid() && Coupled(i) && i.view == a.view && i.stage.Rank() >= Preparing.Rank()
    requires forall m :: m in i.proposals ==> m in a.proposals
    ensures DigestOf(i) == a.Digest()
  {
    var leaders, ps := a.view.leaders, a.proposals;
    FullCountFillsEverySlot(i.proposals, leaders);
    AllVoted(a);
    OrderingAt(i.proposals, leaders);
    OrderingAt(ps, leaders);
    hide ProposalOf, Ordering, AreProposals, VotesFor, View.Valid;
    forall k | 0 <= k < |leaders| ensures Ordering(i.proposals, leaders)[k] == Ordering(ps, leaders)[k] {
      ProposalIs(a.view, a.seqNo, ps, i.proposals, k);
      ProposalIs(a.view, a.seqNo, ps, ps, k);
    }
    assert Ordering(i.proposals, leaders) == Ordering(ps, leaders);
  }

  lemma AllVoted(a: Matter)
    requires a.Valid()
    ensures forall k :: 0 <= k < |a.view.leaders| ==> ProposalOf(a.proposals, a.view.leaders[k]).Some?
  {
    hide InOwnSpace, Authentic;
    forall k | 0 <= k < |a.view.leaders| ensures ProposalOf(a.proposals, a.view.leaders[k]).Some? {
      SendersAre(a.proposals);
      ProposalOfVoter(a.proposals, a.view.leaders[k]);
    }
  }

  // What a window has of a message

  /** Counted, or past the stage in which it would count. */
  predicate Done(i: Instance, m: Message) {
    i.stage.Rank() > TakenAt(TagOf(m)).Rank() || m.from in Senders(LogOf(i, TagOf(m)))
  }

  /** The message waits, or is done with, or is for what lies behind. */
  predicate Has(w: Window, m: Message) {
    || !Current(w, KeyOf(m))
    || m in Lookup(w, KeyOf(m))
    || (InWindow(w, m) && Done(w.decisions[m.seqNo - w.seqNo], m))
  }

  /** No other proposals were heard of for this instance. */
  ghost predicate OnlyThese(w: Window, a: Matter) {
    && (w.view.seqNo == a.view.seqNo ==> w.view == a.view)
    && (forall m :: m in Lookup(w, Key(a.view.seqNo, a.seqNo, PrePrepareTag)) ==> m in a.proposals)
    && (w.view == a.view && w.seqNo <= a.seqNo < w.Top() ==>
          forall m :: m in w.decisions[a.seqNo - w.seqNo].proposals ==> m in a.proposals)
  }

  lemma {:induction false} SendersGrow(log: seq<Message>, more: seq<Message>)
    requires log <= more
    ensures Senders(log) <= Senders(more)
  {
    if |log| < |more| {
      SendersGrow(log, more[..|more| - 1]);
    } else {
      assert log == more;
    }
  }

  lemma DoneEvolves(i: Instance, j: Instance, m: Message)
    requires Evolves(i, j) && Done(i, m)
    ensures Done(j, m)
  {
    SendersGrow(LogOf(i, TagOf(m)), LogOf(j, TagOf(m)));
  }

  /** What a window had, it still has after it advanced, if what waited goes on waiting. */
  lemma StillHas(w: Window, x: Window, m: Message)
    requires Has(w, m) && Advances(w, x)
    requires Current(x, KeyOf(m)) && m in Lookup(w, KeyOf(m)) ==> m in Lookup(x, KeyOf(m))
    ensures Has(x, m)
  {
    hide Lookup, Evolves, Done;
    if Current(x, KeyOf(m)) && m !in Lookup(w, KeyOf(m)) {
      assert InWindow(w, m) && x.view == w.view;
      DoneEvolves(w.decisions[m.seqNo - w.seqNo], x.decisions[m.seqNo - x.seqNo], m);
    }
  }

  // Arrival

  lemma ProcessSettles(me: Node, i: Instance, m: Message)
    requires Early(i, m) || Done(i, m) || (Belongs(i, m) && InBounds(me, i, m))
    ensures var j := Process(me, i, m).instance;
            m in j.inbox.mail.Get(TagOf(m)) || Done(j, m)
  {
    hide Process, Belongs, InBounds, Voted, Done;
    ProcessFilesExactly(me, i, m);
    ProcessLogsExactly(me, i, m);
    ProcessEvolves(me, i, m);
    if Done(i, m) {
      DoneEvolves(i, Process(me, i, m).instance, m);
    } else {
      NotDone(i, m);
      if !Early(i, m) {
        assert LogOf(Process(me, i, m).instance, TagOf(m)) == LogOf(i, TagOf(m)) + [m];
        IsCounted(Process(me, i, m).instance, LogOf(i, TagOf(m)), m);
      }
    }
  }

  lemma NotDone(i: Instance, m: Message)
    requires !Done(i, m)
    ensures i.stage.Rank() <= TakenAt(TagOf(m)).Rank() && !Voted(LogOf(i, TagOf(m)), m.from)
    ensures !Early(i, m) ==> i.stage == TakenAt(TagOf(m))
  {
  }

  lemma IsCounted(j: Instance, log: seq<Message>, m: Message)
    requires LogOf(j, TagOf(m)) == log + [m]
    ensures Done(j, m)
  {
    SendersAppend(log, m);
  }

  /** Whatever concerns the matter is wanted once its time has come. */
  lemma ConcernsBelong(me: Node, i: Instance, a: Matter, m: Message)
    requires a.Valid() && Coupled(i) && i.view == a.view && i.seqNo == a.seqNo && a.Concerns(m) && !Early(i, m)
    requires forall p :: p in i.proposals ==> p in a.proposals
    ensures Belongs(i, m) && InBounds(me, i, m)
  {
    if m.kind.PrePrepare? {
      hide Coupled, Authentic;
    } else {
      SameBatch(i, a);
      hide Coupled, DigestOf, BatchDigest;
    }
  }

  lemma Arrives(w: Window, a: Matter, m: Message)
    requires Inv(w) && a.Valid() && a.Concerns(m) && OnlyThese(w, a)
    ensures Has(Deliver(w, m).window, m)
  {
    hide Deliver, OnlyThese, Matter.Valid, Process, Done, Coupled, Inv, Lookup;
    DeliverRoutes(w, m, KeyOf(m));
    DeliverActs(w, m);
    var x := Deliver(w, m).window;
    if InWindow(w, m) {
      var i := w.decisions[m.seqNo - w.seqNo];
      InstanceOf(w, m);
      HeardOnly(w, a, m);
      if !Early(i, m) {
        ConcernsBelong(w.me, i, a, m);
      }
      ProcessSettles(w.me, i, m);
      InMail(x, m);
    } else if Current(w, KeyOf(m)) {
      assert Waits(w, m);
    }
  }

  lemma InstanceOf(w: Window, m: Message)
    requires Inv(w) && InWindow(w, m)
    ensures var i := w.decisions[m.seqNo - w.seqNo]; i.seqNo == m.seqNo && i.view == w.view && Coupled(i)
  {
  }

  lemma HeardOnly(w: Window, a: Matter, m: Message)
    requires OnlyThese(w, a) && a.Concerns(m) && InWindow(w, m)
    ensures w.view == a.view && m.seqNo == a.seqNo
    ensures forall p :: p in w.decisions[m.seqNo - w.seqNo].proposals ==> p in a.proposals
  {
    hide Lookup;
  }

  lemma InMail(w: Window, m: Message)
    requires InWindow(w, m)
    ensures Lookup(w, KeyOf(m)) == w.decisions[m.seqNo - w.seqNo].inbox.mail.Get(TagOf(m))
  {
  }

  lemma IsFiled(w: Window, m: Message)
    requires Inv(w)
    ensures Has(Queue(w, m), m)
  {
    hide Inv, Lookup;
    QueueRoutes(w, m, KeyOf(m));
    QueueFrame(w, m);
  }

  lemma QueueFrame(w: Window, m: Message)
    ensures Queue(w, m).view == w.view && Queue(w, m).seqNo == w.seqNo && Queue(w, m).Top() == w.Top()
  {
    hide Push;
  }

  // Every operation

  /** What the matter asks of its surroundings: one proposal of each leader, one view under each
      number, and no jump that loses messages. */
  ghost predicate Orderly(w: Window, op: Op, a: Matter) {
    match op
    case QueueOp(m) => Faithful(m, a)
    case DeliverOp(m) => Faithful(m, a)
    case InstallSeqOp(n) => n >= w.seqNo && JumpIsSafe(w, n)
    case InstallViewOp(v) => v.seqNo == a.view.seqNo ==> v == a.view
    case EnterViewOp(v) => v.seqNo == a.view.seqNo ==> v == a.view
    case _ => true
  }

  ghost predicate Faithful(m: Message, a: Matter) {
    m.kind.PrePrepare? && m.view == a.view.seqNo && m.seqNo == a.seqNo ==> m in a.proposals
  }

  /** What waits in `w` and is not behind in `x` waits in `x`. */
  ghost predicate Preserves(w: Window, x: Window) {
    forall k: Key :: Current(x, k) ==> Lookup(x, k) == Lookup(w, k)
  }

  /** The accepted proposals of `x` are those of `w`; new instances have none. */
  ghost predicate SameProposals(w: Window, x: Window) {
    x.view == w.view && w.seqNo <= x.seqNo ==>
      forall k :: 0 <= k < |x.decisions| ==>
        if x.seqNo - w.seqNo + k < |w.decisions|
        then x.decisions[k].proposals == w.decisions[x.seqNo - w.seqNo + k].proposals
        else x.decisions[k].proposals == []
  }

  lemma OnlyTheseStay(w: Window, x: Window, a: Matter)
    requires OnlyThese(w, a) && Inv(x) && Advances(w, x) && SameProposals(w, x)
    requires x.view.seqNo == a.view.seqNo ==> x.view == a.view
    requires forall m :: m in Lookup(x, Key(a.view.seqNo, a.seqNo, PrePrepareTag)) ==> m in a.proposals
    requires x.view.seqNo > w.view.seqNo ==> forall k :: 0 <= k < |x.decisions| ==> x.decisions[k].proposals == []
    ensures OnlyThese(x, a)
  {
    hide Lookup, Inv, Evolves, Carried;
  }

  lemma NothingBehind(w: Window, k: Key)
    requires !Current(w, k)
    ensures Lookup(w, k) == []
  {
  }

  lemma PreservedOnly(w: Window, x: Window, a: Matter)
    requires OnlyThese(w, a) && Preserves(w, x)
    ensures forall m :: m in Lookup(x, Key(a.view.seqNo, a.seqNo, PrePrepareTag)) ==> m in a.proposals
  {
    var k := Key(a.view.seqNo, a.seqNo, PrePrepareTag);
    if !Current(x, k) {
      NothingBehind(x, k);
    }
    hide Lookup;
  }

  /** An operation that only moves the window along keeps what it has. */
  lemma MovesAlong(w: Window, x: Window, a: Matter, m: Message)
    requires OnlyThese(w, a) && Inv(x) && Advances(w, x) && SameProposals(w, x) && Preserves(w, x)
    requires x.view.seqNo == a.view.seqNo ==> x.view == a.view
    requires x.view.seqNo > w.view.seqNo ==> forall k :: 0 <= k < |x.decisions| ==> x.decisions[k].proposals == []
    ensures OnlyThese(x, a) && (Has(w, m) ==> Has(x, m))
  {
    PreservedOnly(w, x, a);
    hide Lookup, Inv, Evolves, Carried;
    OnlyTheseStay(w, x, a);
    if Has(w, m) {
      StillHas(w, x, m);
    }
  }

  lemma NextMoves(w: Window)
    requires Inv(w)
    ensures Inv(Next(w)) && Advances(w, Next(w)) && SameProposals(w, Next(w)) && Preserves(w, Next(w))
    ensures Next(w).view == w.view
  {
    NextKeeps(w);
    hide Lookup, Inv, Evolves, Carried;
    forall k: Key | Current(Next(w), k) ensures Lookup(Next(w), k) == Lookup(w, k) {
      NextRoutes(w, k);
    }
  }

  lemma JumpMoves(w: Window, n: nat)
    requires Inv(w) && n >= w.seqNo && JumpIsSafe(w, n)
    ensures var x := InstallSeq(w, n);
            Inv(x) && Advances(w, x) && SameProposals(w, x) && Preserves(w, x) && x.view == w.view
  {
    JumpConservesExactly(w, n);
    InstallSeqKeeps(w, n);
    JumpView(w, n);
    JumpProposals(w, n);
    hide Lookup, Inv, Evolves, Carried, InstallSeq, JumpIsSafe, SameProposals;
  }

  lemma JumpProposals(w: Window, n: nat)
    requires |w.decisions| == w.watermark && w.tbo.seqNo == w.seqNo <= n
    ensures SameProposals(w, InstallSeq(w, n))
  {
  }

  lemma Unlogged(w: Window)
    requires Inv(w)
    ensures forall k :: 0 <= k < |w.decisions| && w.decisions[k].stage.Initialize? ==> w.decisions[k].proposals == []
  {
    hide Awake, OffersStarted, VotesFor, ProposalsFor;
    forall k | 0 <= k < |w.decisions| && w.decisions[k].stage.Initialize? ensures w.decisions[k].proposals == [] {
      assert Coupled(w.decisions[k]);
    }
  }

  lemma ViewMoves(w: Window, v: View)
    requires Good(w) && v.Valid()
    ensures var x := InstallView(w, v);
            && Inv(x) && Advances(w, x) && SameProposals(w, x) && Preserves(w, x)
            && x.view == (if v.seqNo > w.view.seqNo then v else w.view)
            && (x.view.seqNo > w.view.seqNo ==> forall k :: 0 <= k < |x.decisions| ==> x.decisions[k].proposals == [])
  {
    InstallViewKeeps(w, v);
    Unlogged(InstallView(w, v));
    hide Lookup, Inv, Evolves, Carried, WellRouted;
    if v.seqNo > w.view.seqNo {
      hide InstallView;
      forall k: Key | Current(InstallView(w, v), k) ensures Lookup(InstallView(w, v), k) == Lookup(w, k) {
        InstallViewRoutes(w, v, k);
      }
    }
  }

  /** Skipping the start of the front instance is seen neither in the queues nor in the logs. */
  lemma EnterMoves(w: Window, v: View)
    requires Good(w) && v.Valid() && v.seqNo > w.view.seqNo && |w.decisions| >= 1 && w.watermark >= 1
    ensures var x := EnterView(w, v);
            && Inv(x) && Advances(w, x) && SameProposals(w, x) && Preserves(w, x) && x.view == v
            && (forall k :: 0 <= k < |x.decisions| ==> x.decisions[k].proposals == [])
  {
    hide Lookup, Inv, Evolves, Carried, WellRouted, InstallView, View.Valid, Current;
    EnterViewKeeps(w, v);
    ViewMoves(w, v);
    EntersBy(w, v);
    var x := InstallView(w, v);
    SkipUnseen(x);
    forall k: Key | Current(EnterView(w, v), k) ensures Lookup(EnterView(w, v), k) == Lookup(w, k) {
      assert Lookup(Skipped(x), k) == Lookup(x, k);
    }
  }

  function Skipped(w: Window): Window
    requires w.decisions != []
  {
    w.(decisions := w.decisions[0 := SkipInit(w.decisions[0])])
  }

  lemma EntersBy(w: Window, v: View)
    requires Inv(w) && v.Valid() && v.seqNo > w.view.seqNo && |w.decisions| >= 1 && w.watermark >= 1
    ensures InstallView(w, v).decisions != [] && EnterView(w, v) == Skipped(InstallView(w, v))
  {
    InstallViewKeeps(w, v);
    hide Numbered, Awake, OffersStarted, InstallView;
  }

  lemma SkipUnseen(w: Window)
    requires w.decisions != []
    ensures forall k: Key :: Lookup(Skipped(w), k) == Lookup(w, k) && (Current(Skipped(w), k) <==> Current(w, k))
    ensures forall k :: 0 <= k < |w.decisions| ==> Skipped(w).decisions[k].proposals == w.decisions[k].proposals
  {
    forall k: Key ensures Lookup(Skipped(w), k) == Lookup(w, k) {
      assert Skipped(w).Top() == w.Top();
    }
  }

  // Operations that take a message

  lemma QueueMoves(w: Window, a: Matter, p: Message, m: Message)
    requires Inv(w) && OnlyThese(w, a) && Faithful(p, a)
    ensures Inv(Queue(w, p)) && OnlyThese(Queue(w, p), a)
    ensures Has(w, m) || p == m ==> Has(Queue(w, p), m)
  {
    QueueKeeps(w, p);
    QueueFrame(w, p);
    QueueProposals(w, p);
    QueueRoutes(w, p, Key(a.view.seqNo, a.seqNo, PrePrepareTag));
    QueueRoutes(w, p, KeyOf(m));
    IsFiled(w, p);
    hide Lookup, Inv, Evolves, Carried, Queue;
    OnlyTheseStay(w, Queue(w, p), a);
    if Has(w, m) {
      StillHas(w, Queue(w, p), m);
    }
  }

  lemma QueueProposals(w: Window, p: Message)
    ensures SameProposals(w, Queue(w, p))
  {
    QueueLogs(w, p);
    hide Queue;
  }

  lemma QueueLogs(w: Window, p: Message)
    ensures var x := Queue(w, p);
            && x.view == w.view && x.seqNo == w.seqNo && |x.decisions| == |w.decisions|
            && (forall k :: 0 <= k < |w.decisions| ==> x.decisions[k].proposals == w.decisions[k].proposals)
  {
    hide Push;
  }

  /** At most the message itself joins the proposals of its own instance. */
  lemma DeliverProposals(w: Window, a: Matter, p: Message)
    requires Inv(w) && OnlyThese(w, a) && Faithful(p, a)
    ensures OnlyThese(Deliver(w, p).window, a)
  {
    hide Inv, Lookup, Deliver, Process, Evolves, Current;
    DeliverLooks(w, a, p);
    DeliverActs(w, p);
    var x := Deliver(w, p).window;
    if x.view == a.view && x.seqNo <= a.seqNo < x.Top() {
      var at := a.seqNo - w.seqNo;
      if InWindow(w, p) && p.seqNo == a.seqNo {
        ProcessLogsExactly(w.me, w.decisions[at], p);
        AtMostOne(w.decisions[at], x.decisions[at], p, a);
      } else {
        assert x.decisions[at] == w.decisions[at];
      }
    }
  }

  lemma DeliverLooks(w: Window, a: Matter, p: Message)
    requires Inv(w) && OnlyThese(w, a) && Faithful(p, a)
    ensures forall m :: m in Lookup(Deliver(w, p).window, Key(a.view.seqNo, a.seqNo, PrePrepareTag)) ==>
              m in a.proposals
  {
    hide Inv, Lookup, Deliver, Waits;
    DeliverRoutes(w, p, Key(a.view.seqNo, a.seqNo, PrePrepareTag));
  }

  lemma AtMostOne(i: Instance, j: Instance, p: Message, a: Matter)
    requires forall m :: m in i.proposals ==> m in a.proposals
    requires Faithful(p, a) && p.view == a.view.seqNo && p.seqNo == a.seqNo
    requires forall t :: LogOf(j, t) == LogOf(i, t) || (t == TagOf(p) && LogOf(j, t) == LogOf(i, t) + [p])
    ensures forall m :: m in j.proposals ==> m in a.proposals
  {
    assert LogOf(j, PrePrepareTag) == j.proposals && LogOf(i, PrePrepareTag) == i.proposals;
  }

  lemma DeliverMoves(w: Window, a: Matter, p: Message, m: Message)
    requires Inv(w) && a.Valid() && OnlyThese(w, a) && Faithful(p, a) && a.Concerns(m)
    ensures Inv(Deliver(w, p).window) && OnlyThese(Deliver(w, p).window, a)
    ensures Has(w, m) || p == m ==> Has(Deliver(w, p).window, m)
  {
    DeliverKeeps(w, p);
    DeliverProposals(w, a, p);
    DeliverRoutes(w, p, KeyOf(m));
    hide Lookup, Inv, Evolves, Carried, Deliver, OnlyThese, Matter.Valid, Matter.Concerns;
    if Has(w, m) {
      StillHas(w, Deliver(w, p).window, m);
    } else if p == m {
      Arrives(w, a, m);
    }
  }

  lemma WakeProposals(w: Window, s: nat)
    requires w.seqNo <= s < w.Top() && s in w.signals
    ensures SameProposals(w, Wake(w, s).0)
  {
  }

  lemma SameProposalsTrans(w: Window, x: Window, y: Window)
    requires SameProposals(w, x) && SameProposals(x, y) && InPlace(w, x) && InPlace(x, y)
    ensures SameProposals(w, y)
  {
    hide Evolves;
  }

  lemma {:induction false} PollProposals(w: Window)
    requires Inv(w)
    ensures SameProposals(w, PollWindow(w).0)
    decreases Waiting(w.decisions), |w.signals|
  {
    hide Coupled, Numbered, Awake, OffersStarted, Wake, Waiting, Evolves, SameProposals, InPlace;
    if w.signals == {} {
      Unmoved(w);
    } else {
      var s := Min(w.signals);
      if s < w.seqNo {
        var x := w.(signals := w.signals - {s});
        StaleSignalKeeps(w, s);
        PollProposals(x);
        PollKeeps(x);
        Unsignalled(w, s);
        SameProposalsTrans(w, x, PollWindow(x).0);
      } else {
        WakeKeeps(w, s);
        WakeProposals(w, s);
        var (x, result) := Wake(w, s);
        if !result.NextMessage? {
          PollProposals(x);
          PollKeeps(x);
          SameProposalsTrans(w, x, PollWindow(x).0);
        }
      }
    }
  }

  lemma Unmoved(w: Window)
    ensures SameProposals(w, w)
  {
  }

  lemma Unsignalled(w: Window, s: nat)
    ensures SameProposals(w, w.(signals := w.signals - {s}))
  {
  }

  /** Polling takes at most one message out, and hands it to its instance. */
  lemma PollTakes(w: Window, a: Matter, m: Message)
    requires Good(w) && OnlyThese(w, a)
    ensures var (x, p) := PollWindow(w);
            && Inv(x) && OnlyThese(x, a) && (p.Some? ==> Faithful(p.value, a))
            && (Has(w, m) ==> Has(x, m) || p == Some(m))
  {
    var (x, p) := PollWindow(w);
    hide Inv, WellRouted, Lookup, PollWindow, Evolves, Carried, Advances, SameProposals, Has;
    PollKeeps(w);
    PollProposals(w);
    InPlaceAdvances(w, x);
    PollLooks(w, a);
    PollLeaves(w, m);
    hide InPlace;
    OnlyTheseStay(w, x, a);
    if Has(w, m) && p != Some(m) {
      StillHas(w, x, m);
    }
  }

  lemma PollLooks(w: Window, a: Matter)
    requires Good(w) && OnlyThese(w, a)
    ensures var (x, p) := PollWindow(w);
            && x.view == w.view && (x.view.seqNo == a.view.seqNo ==> x.view == a.view)
            && (forall m :: m in Lookup(x, Key(a.view.seqNo, a.seqNo, PrePrepareTag)) ==> m in a.proposals)
            && (p.Some? ==> Faithful(p.value, a))
  {
    var k := Key(a.view.seqNo, a.seqNo, PrePrepareTag);
    PollKeeps(w);
    PollRoutes(w, k);
    hide Inv, WellRouted, Lookup, PollWindow, Evolves;
    var (x, p) := PollWindow(w);
    if p.Some? && KeyOf(p.value) == k {
      assert p.value in Lookup(w, k);
    }
  }

  lemma PollLeaves(w: Window, m: Message)
    requires Good(w)
    ensures var (x, p) := PollWindow(w);
            m in Lookup(w, KeyOf(m)) && p != Some(m) ==> m in Lookup(x, KeyOf(m))
  {
    PollRoutes(w, KeyOf(m));
    hide Inv, WellRouted, Lookup, PollWindow;
  }

  lemma PollMoves(w: Window, a: Matter, m: Message)
    requires Good(w) && a.Valid() && OnlyThese(w, a) && a.Concerns(m)
    ensures OnlyThese(Apply(w, PollOp), a) && (Has(w, m) ==> Has(Apply(w, PollOp), m))
  {
    PollTakes(w, a, m);
    var (x, p) := PollWindow(w);
    hide Inv, WellRouted, Has, OnlyThese, PollWindow, Deliver, Matter.Valid, Matter.Concerns;
    if p.Some? {
      DeliverMoves(x, a, p.value, m);
    }
  }

  /** No operation loses a message that concerns the matter; one that is handed in is had. */
  lemma StepKeepsMessages(w: Window, op: Op, a: Matter, m: Message)
    requires Good(w) && Allowed(w, op) && Safe(w, op) && a.Valid() && a.Concerns(m)
    requires OnlyThese(w, a) && Orderly(w, op, a)
    ensures OnlyThese(Apply(w, op), a)
    ensures Has(w, m) || op == QueueOp(m) || op == DeliverOp(m) ==> Has(Apply(w, op), m)
  {
    hide Lookup, WellRouted, Numbered, Awake, OffersStarted, Has, OnlyThese, SameProposals, Preserves, Advances,
         Faithful, JumpIsSafe, Matter.Valid, Matter.Concerns;
    match op {
      case QueueOp(p) => QueueMoves(w, a, p, m);
      case DeliverOp(p) => DeliverMoves(w, a, p, m);
      case PollOp => PollMoves(w, a, m);
      case NextOp =>
        NextMoves(w);
        SameView(w, a);
        MovesAlong(w, Next(w), a, m);
      case InstallSeqOp(n) =>
        JumpMoves(w, n);
        SameView(w, a);
        MovesAlong(w, InstallSeq(w, n), a, m);
      case InstallViewOp(v) =>
        ViewMoves(w, v);
        SameView(w, a);
        MovesAlong(w, InstallView(w, v), a, m);
      case EnterViewOp(v) =>
        EnterMoves(w, v);
        MovesAlong(w, EnterView(w, v), a, m);
      case ProposeOp => ProposeMoves(w, a, m);
    }
  }

  lemma SameView(w: Window, a: Matter)
    requires OnlyThese(w, a)
    ensures w.view.seqNo == a.view.seqNo ==> w.view == a.view
  {
  }

  lemma ProposeMoves(w: Window, a: Matter, m: Message)
    requires OnlyThese(w, a)
    ensures OnlyThese(Propose(w).0, a) && (Has(w, m) ==> Has(Propose(w).0, m))
  {
    var x := Propose(w).0;
    forall k: Key ensures Lookup(x, k) == Lookup(w, k) {
    }
  }

  // Whole runs

  ghost predicate HandedIn(ops: seq<Op>, k: nat, m: Message)
    requires k <= |ops|
  {
    exists j :: 0 <= j < k && (ops[j] == QueueOp(m) || ops[j] == DeliverOp(m))
  }

  ghost predicate OrderlyRun(trace: seq<Window>, ops: seq<Op>, a: Matter) {
    && IsRun(trace, ops) && a.Valid() && OnlyThese(trace[0], a)
    && (forall k :: 0 <= k < |ops| ==> Orderly(trace[k], ops[k], a))
  }

  /** Over every run: what was handed in waits, counts, or lies behind. */
  lemma {:induction false} NothingIsLost(trace: seq<Window>, ops: seq<Op>, k: nat, a: Matter, m: Message)
    requires OrderlyRun(trace, ops, a) && k <= |ops| && a.Concerns(m)
    ensures OnlyThese(trace[k], a) && (HandedIn(ops, k, m) ==> Has(trace[k], m))
  {
    hide Good, Allowed, Safe, Apply, OnlyThese, Has, Orderly, Matter.Valid, Matter.Concerns;
    if k > 0 {
      NothingIsLost(trace, ops, k - 1, a, m);
      RunsStayGood(trace, ops, k - 1);
      StepKeepsMessages(trace[k - 1], ops[k - 1], a, m);
      if HandedIn(ops, k, m) {
        assert HandedIn(ops, k - 1, m) || ops[k - 1] == QueueOp(m) || ops[k - 1] == DeliverOp(m);
      }
    }
  }

  // A quorum that was heard decides

  /** Of each of the leaders a proposal, of each of the voters a prepare and a commit came in. */
  ghost predicate Heard(ops: seq<Op>, k: nat, a: Matter, voters: set<Node>)
    requires k <= |ops|
  {
    && (forall j :: 0 <= j < |a.proposals| ==> HandedIn(ops, k, a.proposals[j]))
    && (forall n :: n in voters ==> VoteCame(ops, k, a, n, Prepare(a.Digest())))
    && (forall n :: n in voters ==> VoteCame(ops, k, a, n, Commit(a.Digest())))
  }

  ghost predicate VoteCame(ops: seq<Op>, k: nat, a: Matter, n: Node, kind: Kind)
    requires k <= |ops|
  {
    exists m :: HandedIn(ops, k, m) && m.from == n && m.view == a.view.seqNo && m.seqNo == a.seqNo && m.kind == kind
  }

  /** Polling `w` finds nothing more to process, and leaves `x`. */
  ghost predicate Quiet(w: Window, x: Window) {
    SignalsInWindow(w) && PollWindow(w) == (x, None)
  }

  /** Of a window with nothing left to poll: what is had of its instance is counted. */
  lemma QuietCounts(w: Window, x: Window, a: Matter, m: Message)
    requires Good(w) && OnlyThese(w, a) && Has(w, m) && a.Concerns(m)
    requires Quiet(w, x) && x.view == a.view && x.seqNo <= a.seqNo < x.Top()
    requires var i := x.decisions[a.seqNo - x.seqNo]; i.stage == TakenAt(TagOf(m))
    ensures m.from in Senders(LogOf(x.decisions[a.seqNo - x.seqNo], TagOf(m)))
  {
    hide PollWindow, Inv, WellRouted, OnlyThese, NeedsPoll, InPlace, Lookup;
    var i := x.decisions[a.seqNo - x.seqNo];
    PollTakes(w, a, m);
    PollKeeps(w);
    InMail(x, m);
    assert !NeedsPoll(i);
    NothingAwaited(i, m);
  }

  lemma NothingAwaited(i: Instance, m: Message)
    requires !NeedsPoll(i) && i.stage == TakenAt(TagOf(m))
    ensures i.inbox.mail.Get(TagOf(m)) == []
  {
  }

  lemma FullLog(log: seq<Message>, nodes: set<Node>)
    requires nodes <= Senders(log) && DistinctSenders(log)
    ensures |log| >= |nodes|
  {
    SendersCount(log);
    Quorums.SubsetCount(nodes, Senders(log));
  }

  /** An instance that has counted everyone of its stage does not stay in it. */
  lemma NotComplete(i: Instance, t: Tag, nodes: set<Node>)
    requires Coupled(i) && i.stage == TakenAt(t) && |nodes| >= Needed(i.view, t)
    ensures !(nodes <= Senders(LogOf(i, t)))
  {
    hide DigestOf, Senders;
    if nodes <= Senders(LogOf(i, t)) {
      FullLog(LogOf(i, t), nodes);
      assert false;
    }
  }

  lemma QuietStage(w: Window, x: Window, a: Matter)
    requires Good(w) && Quiet(w, x) && x.view == a.view && x.seqNo <= a.seqNo < x.Top()
    ensures var i := x.decisions[a.seqNo - x.seqNo];
            && Coupled(i) && i.view == a.view && !i.stage.Initialize?
  {
    PollKeeps(w);
    assert !NeedsPoll(x.decisions[a.seqNo - x.seqNo]);
    hide PollWindow, Coupled, WellRouted, Awake, OffersStarted, FlagUp;
  }

  lemma LeadersCount(a: Matter)
    requires a.Valid()
    ensures |NodeSet(a.view.leaders)| == |a.view.leaders|
    ensures forall n :: n in NodeSet(a.view.leaders) ==> exists j :: 0 <= j < |a.proposals| && a.proposals[j].from == n
    ensures forall j :: 0 <= j < |a.proposals| ==> a.Concerns(a.proposals[j]) && TagOf(a.proposals[j]).PrePrepareTag?
  {
    DistinctCount(a.view.leaders);
    hide InOwnSpace, Authentic;
    forall n | n in NodeSet(a.view.leaders) ensures exists j :: 0 <= j < |a.proposals| && a.proposals[j].from == n {
      var j :| 0 <= j < |a.view.leaders| && a.view.leaders[j] == n;
      assert a.proposals[j].from == n;
    }
  }

  /** The law of progress. In every run, whatever the order in which the proposals of a batch and
      the votes of a quorum came in, and whatever else came with them: when there is nothing left
      to poll, the instance is decided, unless its view or its number lies behind. */
  lemma QuorumHeardDecides(trace: seq<Window>, ops: seq<Op>, k: nat, a: Matter, voters: set<Node>, x: Window)
    requires OrderlyRun(trace, ops, a) && k <= |ops| && Heard(ops, k, a, voters) && |voters| >= a.view.Quorum()
    requires Quiet(trace[k], x) && x.view == a.view && x.seqNo <= a.seqNo < x.Top()
    ensures x.decisions[a.seqNo - x.seqNo].stage.Decided?
  {
    hide OrderlyRun, Heard, Quiet, Coupled, Matter.Valid, Senders, View.Quorum, Good;
    var i := x.decisions[a.seqNo - x.seqNo];
    RunFacts(trace, ops, k, a);
    QuietStage(trace[k], x, a);
    LeadersCount(a);
    if !i.stage.Decided? {
      var t := Awaited(i.stage).value;
      var nodes := if t.PrePrepareTag? then NodeSet(a.view.leaders) else voters;
      forall n | n in nodes ensures n in Senders(LogOf(i, t)) {
        IsHeard(trace, ops, k, a, voters, x, t, n);
      }
      NotComplete(i, t, nodes);
      assert false;
    }
  }

  lemma RunFacts(trace: seq<Window>, ops: seq<Op>, k: nat, a: Matter)
    requires OrderlyRun(trace, ops, a) && k <= |ops|
    ensures a.Valid() && |trace| == |ops| + 1 && Good(trace[k])
  {
    hide Good, Orderly, OnlyThese, Matter.Valid, Apply, Allowed, Safe;
    RunsStayGood(trace, ops, k);
  }

  lemma IsHeard(trace: seq<Window>, ops: seq<Op>, k: nat, a: Matter, voters: set<Node>, x: Window, t: Tag, n: Node)
    requires OrderlyRun(trace, ops, a) && k <= |ops| && k < |trace| && Heard(ops, k, a, voters) && Good(trace[k])
    requires Quiet(trace[k], x) && x.view == a.view && x.seqNo <= a.seqNo < x.Top()
    requires x.decisions[a.seqNo - x.seqNo].stage == TakenAt(t) && a.Valid()
    requires if t.PrePrepareTag? then n in NodeSet(a.view.leaders) else n in voters
    ensures n in Senders(LogOf(x.decisions[a.seqNo - x.seqNo], t))
  {
    hide OrderlyRun, Heard, HandedIn, Quiet, Matter.Valid, Matter.Concerns, Senders, OnlyThese, Has, Good;
    var m := Arrival(ops, k, a, voters, t, n);
    NothingIsLost(trace, ops, k, a, m);
    QuietCounts(trace[k], x, a, m);
  }

  /** A message of the given kind that came from the given node. */
  lemma Arrival(ops: seq<Op>, k: nat, a: Matter, voters: set<Node>, t: Tag, n: Node) returns (m: Message)
    requires a.Valid() && k <= |ops| && Heard(ops, k, a, voters)
    requires if t.PrePrepareTag? then n in NodeSet(a.view.leaders) else n in voters
    ensures HandedIn(ops, k, m) && a.Concerns(m) && m.from == n && TagOf(m) == t
  {
    hide HandedIn, Matter.Digest;
    if t.PrePrepareTag? {
      LeadersCount(a);
      var j :| 0 <= j < |a.proposals| && a.proposals[j].from == n;
      m := a.proposals[j];
    } else {
      var kind := if t.PrepareTag? then Prepare(a.Digest()) else Commit(a.Digest());
      assert VoteCame(ops, k, a, n, kind);
      m :| HandedIn(ops, k, m) && m.from == n && m.view == a.view.seqNo && m.seqNo == a.seqNo && m.kind == kind;
    }
  }
}
