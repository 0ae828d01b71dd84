/**
 Whole runs of one replica's window: any mix of operations keeps it whole and panic-free,
 a correct leader never proposes twice, and batches leave in an unbroken order.
 */
module WindowRuns {
  import opened Messages
  import opened Slotting
  import opened Instances
  import opened Views
  import opened Windows
  import opened WindowInvariants
  import opened WindowRouting

  datatype Op =
    | QueueOp(message: Message)
    | DeliverOp(message: Message)
    | PollOp
    | NextOp
    | InstallSeqOp(n: nat)
    | InstallViewOp(view: View)
    | EnterViewOp(view: View)
    | ProposeOp

  /** What the surroundings guarantee: views are well formed, and a view change moves forward. */
  ghost predicate Allowed(w: Window, op: Op) {
    match op
    case InstallViewOp(v) => v.Valid()
    case EnterViewOp(v) => v.Valid() && v.seqNo > w.view.seqNo
    case _ => true
  }

  /** The operation neither indexes outside the window nor unwraps nothing. */
  ghost predicate Safe(w: Window, op: Op) {
    match op
    case PollOp => SignalsInWindow(w)
    case NextOp => w.decisions != []
    case InstallSeqOp(_) => |w.decisions| == w.watermark && w.tbo.seqNo == w.seqNo
    case EnterViewOp(v) => |w.decisions| >= 1 && w.watermark >= 1
    case _ => true
  }

  ghost function Apply(w: Window, op: Op): Window
    requires Allowed(w, op) && Safe(w, op)
  {
    match op
    case QueueOp(m) => Queue(w, m)
    case DeliverOp(m) => Deliver(w, m).window
    case PollOp =>
      var (x, m) := PollWindow(w);
      if m.Some? then Deliver(x, m.value).window else x
    case NextOp => Next(w)
    case InstallSeqOp(n) => InstallSeq(w, n)
    case InstallViewOp(v) => InstallView(w, v)
    case EnterViewOp(v) => EnterView(w, v)
    case ProposeOp => Propose(w).0
  }

  ghost predicate Good(w: Window) {
    Inv(w) && WellRouted(w)
  }

  // Routing is kept by every operation

  lemma RoutingFrom(w: Window, x: Window)
    requires WellRouted(w)
    requires forall k: Key, m :: m in Lookup(x, k) ==> m in Lookup(w, k) || KeyOf(m) == k
    ensures WellRouted(x)
  {
    hide Lookup;
  }

  lemma CreateGood(me: Node, watermark: nat, seqNo: nat, view: View)
    requires watermark >= 1 && view.Valid()
    ensures Good(Create(me, watermark, seqNo, view))
  {
    CreateInv(me, watermark, seqNo, view);
  }

  lemma QueueGood(w: Window, m: Message)
    requires Good(w)
    ensures Good(Queue(w, m))
  {
    hide Inv, Lookup, Queue;
    QueueKeeps(w, m);
    forall k: Key, x | x in Lookup(Queue(w, m), k) ensures x in Lookup(w, k) || KeyOf(x) == k {
      QueueRoutes(w, m, k);
    }
    RoutingFrom(w, Queue(w, m));
  }

  lemma DeliverGood(w: Window, m: Message)
    requires Good(w)
    ensures Good(Deliver(w, m).window)
  {
    hide Inv, Lookup, Deliver;
    DeliverKeeps(w, m);
    forall k: Key, x | x in Lookup(Deliver(w, m).window, k) ensures x in Lookup(w, k) || KeyOf(x) == k {
      DeliverRoutes(w, m, k);
    }
    RoutingFrom(w, Deliver(w, m).window);
  }

  lemma PollGood(w: Window)
    requires Good(w)
    ensures SignalsInWindow(w) && Good(PollWindow(w).0)
  {
    hide Lookup, PollWindow, Numbered, Awake, OffersStarted;
    PollKeeps(w);
    forall k: Key, x | x in Lookup(PollWindow(w).0, k) ensures x in Lookup(w, k) || KeyOf(x) == k {
      PollRoutes(w, k);
    }
    RoutingFrom(w, PollWindow(w).0);
  }

  lemma NextGood(w: Window)
    requires Good(w)
    ensures w.decisions != [] && Good(Next(w))
  {
    hide Lookup, Numbered, Awake, OffersStarted;
    NextKeeps(w);
    forall k: Key, x | x in Lookup(Next(w), k) ensures x in Lookup(w, k) || KeyOf(x) == k {
      NextRoutes(w, k);
    }
    RoutingFrom(w, Next(w));
  }

  lemma InstallSeqGood(w: Window, n: nat)
    requires Good(w)
    ensures Good(InstallSeq(w, n))
  {
    hide Lookup, Numbered, Awake, OffersStarted, Restart;
    InstallSeqKeeps(w, n);
    forall k: Key, x | x in Lookup(InstallSeq(w, n), k) ensures x in Lookup(w, k) || KeyOf(x) == k {
      InstallSeqRoutes(w, n, k);
    }
    RoutingFrom(w, InstallSeq(w, n));
  }

  lemma InstallSeqRoutes(w: Window, n: nat, k: Key)
    requires Inv(w)
    ensures Lookup(InstallSeq(w, n), k) == Lookup(w, k) || Lookup(InstallSeq(w, n), k) == []
  {
    hide Numbered, Awake, OffersStarted, Select;
    if k.view == w.view.seqNo {
      if n < w.seqNo {
        assert forall t: Tag, j: nat :: Slot(NO_SLOTS.Get(t), j) == [];
      } else if n < w.seqNo + w.watermark {
        ShortJumpRoutes(w, n, k);
      } else {
        LongJumpRoutes(w, n, k);
      }
    }
  }

  lemma InstallViewGood(w: Window, v: View)
    requires Good(w) && v.Valid()
    ensures Good(InstallView(w, v))
  {
    hide Lookup, Numbered, Awake, OffersStarted, QueueAll, Reset;
    InstallViewKeeps(w, v);
    if v.seqNo > w.view.seqNo {
      forall k: Key, x | x in Lookup(InstallView(w, v), k) ensures x in Lookup(w, k) || KeyOf(x) == k {
        InstallViewRoutes(w, v, k);
      }
      RoutingFrom(w, InstallView(w, v));
    }
  }

  lemma EnterViewGood(w: Window, v: View)
    requires Good(w) && v.Valid() && v.seqNo > w.view.seqNo
    ensures Good(EnterView(w, v))
  {
    hide Coupled, Numbered, Awake, OffersStarted, InstallView, WellRouted;
    InstallViewGood(w, v);
    EnterViewKeeps(w, v);
    var x := InstallView(w, v);
    assert forall k: Key :: Lookup(EnterView(w, v), k) == Lookup(x, k);
    RoutingKept(x, EnterView(w, v));
  }

  lemma RoutingKept(w: Window, x: Window)
    requires WellRouted(w) && forall k: Key :: Lookup(x, k) == Lookup(w, k)
    ensures WellRouted(x)
  {
    hide Lookup;
  }

  lemma GuardApart(w: Window, guard: Guard, k: Key)
    ensures Lookup(w.(guard := guard), k) == Lookup(w, k)
  {
  }

  lemma ProposeGood(w: Window)
    requires Good(w)
    ensures Good(Propose(w).0)
  {
    hide Inv, WellRouted;
    ProposeKeeps(w);
    forall k: Key ensures Lookup(Propose(w).0, k) == Lookup(w, k) {
      GuardApart(w, Propose(w).0.guard, k);
    }
    hide Propose, Lookup;
    RoutingKept(w, Propose(w).0);
  }

  /** Every operation, backward jumps included, is panic-free and keeps the window whole. */
  lemma StepGood(w: Window, op: Op)
    requires Good(w) && Allowed(w, op)
    ensures Safe(w, op) && Good(Apply(w, op))
  {
    hide WellRouted, Numbered, Awake, OffersStarted;
    match op {
      case QueueOp(m) => QueueGood(w, m);
      case DeliverOp(m) => DeliverGood(w, m);
      case PollOp =>
        PollGood(w);
        var (x, m) := PollWindow(w);
        if m.Some? {
          DeliverGood(x, m.value);
        }
      case NextOp => NextGood(w);
      case InstallSeqOp(n) => InstallSeqGood(w, n);
      case InstallViewOp(v) => InstallViewGood(w, v);
      case EnterViewOp(v) => EnterViewGood(w, v);
      case ProposeOp => ProposeGood(w);
    }
  }

  // No operation but a jump takes anything back

  lemma OpAdvances(w: Window, op: Op)
    requires Good(w) && Allowed(w, op) && Safe(w, op) && !op.InstallSeqOp?
    ensures Advances(w, Apply(w, op))
  {
    hide WellRouted, Numbered, Awake, OffersStarted, Carried;
    match op {
      case QueueOp(m) => QueueKeeps(w, m);
      case DeliverOp(m) => DeliverKeeps(w, m);
      case PollOp => PollAdvances(w);
      case NextOp => NextKeeps(w);
      case InstallViewOp(v) => InstallViewKeeps(w, v);
      case EnterViewOp(v) => EnterViewKeeps(w, v);
      case ProposeOp => ProposeKeeps(w);
    }
  }

  lemma PollAdvances(w: Window)
    requires Inv(w)
    ensures Advances(w, Apply(w, PollOp))
  {
    hide Numbered, Awake, OffersStarted, PollWindow, Deliver;
    PollKeeps(w);
    var (x, m) := PollWindow(w);
    if m.Some? {
      DeliverKeeps(x, m.value);
      AdvancesTrans(w, x, Deliver(x, m.value).window);
    } else {
      InPlaceAdvances(w, x);
    }
  }

  lemma AdvancesTrans(w: Window, x: Window, y: Window)
    requires InPlace(w, x) && Advances(x, y)
    ensures Advances(w, y)
  {
    hide Evolves;
    if y.view == x.view && x.seqNo <= y.seqNo {
      forall k | 0 <= k < |y.decisions| && y.seqNo - w.seqNo + k < |w.decisions|
        ensures Evolves(w.decisions[y.seqNo - w.seqNo + k], y.decisions[k])
      {
        var j := y.seqNo - w.seqNo + k;
        EvolvesTrans(w.decisions[j], x.decisions[j], y.decisions[k]);
      }
    }
  }

  // Offers to the proposer

  /** The proposer gets the lowest number on offer, in the current view, and no other is withdrawn. */
  lemma ProposeTakesLeast(w: Window)
    requires Inv(w)
    ensures var (x, r) := Propose(w);
            && (r.None? <==> w.guard.available == {})
            && (r.Some? ==> r.value.1 == w.view && r.value.0 in w.guard.available
                            && forall s :: s in w.guard.available ==> r.value.0 <= s)
            && (forall s :: s in x.guard.available <==> s in w.guard.available && (r.Some? ==> s != r.value.0))
  {
    hide Numbered, Awake;
  }

  /** After a forward jump exactly the offers that are not left behind are still open; a jump back
      withdraws them all. */
  lemma JumpOffersExactly(w: Window, n: nat, s: nat)
    requires Inv(w)
    ensures s in InstallSeq(w, n).guard.available <==> w.seqNo <= n <= s && s in w.guard.available
  {
    hide Numbered, Awake, Refill;
  }

  // Runs

  /** A run from a good window; a step that would panic may be followed by anything. */
  ghost predicate IsRun(trace: seq<Window>, ops: seq<Op>) {
    && |trace| == |ops| + 1 && Good(trace[0])
    && (forall k :: 0 <= k < |ops| ==>
          Allowed(trace[k], ops[k]) && (Safe(trace[k], ops[k]) ==> trace[k + 1] == Apply(trace[k], ops[k])))
  }

  /** At every point of every run the window is whole and the next operation is safe: exactly
      `watermark` instances, numbered consecutively, with the future queue in step. */
  lemma {:induction false} RunsStayGood(trace: seq<Window>, ops: seq<Op>, k: nat)
    requires IsRun(trace, ops) && k <= |ops|
    ensures Good(trace[k])
    ensures k < |ops| ==> Safe(trace[k], ops[k]) && trace[k + 1] == Apply(trace[k], ops[k])
  {
    hide Good;
    if k > 0 {
      RunsStayGood(trace, ops, k - 1);
      StepGood(trace[k - 1], ops[k - 1]);
    }
    if k < |ops| {
      StepGood(trace[k], ops[k]);
    }
  }

  // A leader proposes once

  /** No jump back to a sequence number already left behind. */
  ghost predicate Forward(trace: seq<Window>, ops: seq<Op>)
    requires |trace| == |ops| + 1
  {
    forall k :: 0 <= k < |ops| && ops[k].InstallSeqOp? ==> ops[k].n >= trace[k].seqNo
  }

  /** The (sequence number, view) pairs spoken for by one step: taken by the proposer, or
      proposed in the message that completed a view change. */
  ghost function Claims(w: Window, op: Op): set<(nat, nat)> {
    match op
    case ProposeOp => (match Propose(w).1 case Some(p) => {(p.0, p.1.seqNo)} case None => {})
    case EnterViewOp(v) => {(w.seqNo, v.seqNo)}
    case _ => {}
  }

  ghost function ClaimedBefore(trace: seq<Window>, ops: seq<Op>, k: nat): set<(nat, nat)>
    requires |trace| == |ops| + 1 && k <= |ops|
  {
    if k == 0 then {} else ClaimedBefore(trace, ops, k - 1) + Claims(trace[k - 1], ops[k - 1])
  }

  /** Nothing claimed is still on offer, nor can it come on offer again. */
  ghost predicate Settled(w: Window, claimed: set<(nat, nat)>) {
    forall c :: c in claimed ==>
      c.1 <= w.view.seqNo &&
      (c.1 == w.view.seqNo ==>
         c.0 < w.Top() && c.0 !in w.guard.available
         && (c.0 >= w.seqNo ==> !w.decisions[c.0 - w.seqNo].stage.Initialize?))
  }

  /** New offers are of instances that had not started. */
  ghost predicate OffersOnlyNew(w: Window, x: Window) {
    && (x.view.seqNo > w.view.seqNo ==> x.guard.available == {})
    && (x.view.seqNo == w.view.seqNo ==>
          forall s :: s in x.guard.available && s !in w.guard.available ==>
            w.seqNo <= s < w.Top() && w.decisions[s - w.seqNo].stage.Initialize?)
  }

  lemma SettledStep(w: Window, x: Window, claimed: set<(nat, nat)>)
    requires Settled(w, claimed) && Advances(w, x) && OffersOnlyNew(w, x)
    ensures Settled(x, claimed)
  {
  }

  lemma WakeOffers(w: Window, s: nat)
    requires w.seqNo <= s < w.Top() && s in w.signals
    ensures OffersOnlyNew(w, Wake(w, s).0)
  {
  }

  lemma OffersTrans(w: Window, x: Window, y: Window)
    requires InPlace(w, x) && OffersOnlyNew(w, x) && InPlace(x, y) && OffersOnlyNew(x, y)
    ensures OffersOnlyNew(w, y)
  {
  }

  lemma {:induction false} PollOffers(w: Window)
    requires Inv(w)
    ensures OffersOnlyNew(w, PollWindow(w).0)
    decreases Waiting(w.decisions), |w.signals|
  {
    hide Coupled, Numbered, Awake, OffersStarted, Wake, InPlace, Waiting;
    if w.signals != {} {
      var s := Min(w.signals);
      var x := if s < w.seqNo then w.(signals := w.signals - {s}) else Wake(w, s).0;
      if s < w.seqNo {
        StaleSignalKeeps(w, s);
      } else {
        WakeKeeps(w, s);
        WakeOffers(w, s);
      }
      if s < w.seqNo || !Wake(w, s).1.NextMessage? {
        PollOffers(x);
        PollKeeps(x);
        OffersTrans(w, x, PollWindow(w).0);
      }
    }
  }

  lemma DeliverOffers(w: Window, m: Message)
    ensures Deliver(w, m).window.guard == w.guard && Deliver(w, m).window.view == w.view
  {
  }

  lemma StepSettled(w: Window, op: Op, claimed: set<(nat, nat)>)
    requires Good(w) && Allowed(w, op) && Safe(w, op) && Settled(w, claimed)
    requires op.InstallSeqOp? ==> op.n >= w.seqNo
    ensures Settled(Apply(w, op), claimed + Claims(w, op))
    ensures Claims(w, op) !! claimed
  {
    hide WellRouted, Numbered, Awake, Coupled, OffersStarted, Settled, Queue, Deliver, Advances;
    match op {
      case QueueOp(m) => QueueKeeps(w, m); SettledStep(w, Queue(w, m), claimed);
      case DeliverOp(m) => DeliverKeeps(w, m); DeliverOffers(w, m); SettledStep(w, Deliver(w, m).window, claimed);
      case PollOp => PollSettled(w, claimed);
      case NextOp => NextKeeps(w); SettledStep(w, Next(w), claimed);
      case InstallSeqOp(n) => InstallSeqSettled(w, n, claimed);
      case InstallViewOp(v) => InstallViewKeeps(w, v); SettledStep(w, InstallView(w, v), claimed);
      case EnterViewOp(v) => EnterViewSettled(w, v, claimed);
      case ProposeOp => ProposeSettled(w, claimed);
    }
    assert claimed + {} == claimed;
  }

  lemma EnterViewSettled(w: Window, v: View, claimed: set<(nat, nat)>)
    requires Inv(w) && v.Valid() && v.seqNo > w.view.seqNo && Settled(w, claimed)
    ensures Settled(EnterView(w, v), claimed + {(w.seqNo, v.seqNo)})
    ensures (w.seqNo, v.seqNo) !in claimed
  {
    hide Coupled, Numbered, Awake, InstallView, OffersStarted;
    EnterViewKeeps(w, v);
    SettledStep(w, EnterView(w, v), claimed);
  }

  lemma ProposeSettled(w: Window, claimed: set<(nat, nat)>)
    requires Inv(w) && Settled(w, claimed)
    ensures Settled(Propose(w).0, claimed + Claims(w, ProposeOp))
    ensures Claims(w, ProposeOp) !! claimed
  {
    hide Coupled, Numbered, Awake;
  }

  lemma PollSettled(w: Window, claimed: set<(nat, nat)>)
    requires Inv(w) && Settled(w, claimed)
    ensures Settled(Apply(w, PollOp), claimed)
  {
    hide Settled, Numbered, Awake, OffersStarted, PollWindow, Deliver;
    var (x, m) := PollWindow(w);
    PollKeeps(w);
    InPlaceAdvances(w, x);
    PollOffers(w);
    SettledStep(w, x, claimed);
    if m.Some? {
      var y := Deliver(x, m.value).window;
      DeliverKeeps(x, m.value);
      DeliverOffers(x, m.value);
      SettledStep(x, y, claimed);
    }
  }

  lemma InstallSeqSettled(w: Window, n: nat, claimed: set<(nat, nat)>)
    requires Inv(w) && Settled(w, claimed) && n >= w.seqNo
    ensures Settled(InstallSeq(w, n), claimed)
  {
    hide Settled, Numbered, Awake, OffersStarted, Refill;
    InstallSeqKeeps(w, n);
    SettledStep(w, InstallSeq(w, n), claimed);
  }

  lemma {:induction false} RunsStaySettled(trace: seq<Window>, ops: seq<Op>, k: nat)
    requires IsRun(trace, ops) && Forward(trace, ops) && k <= |ops|
    ensures Settled(trace[k], ClaimedBefore(trace, ops, k))
  {
    hide Good, Settled;
    if k > 0 {
      RunsStayGood(trace, ops, k - 1);
      RunsStaySettled(trace, ops, k - 1);
      StepSettled(trace[k - 1], ops[k - 1], ClaimedBefore(trace, ops, k - 1));
    } else {
      SettledAtFirst(trace[0]);
    }
  }

  lemma SettledAtFirst(w: Window)
    ensures Settled(w, {})
  {
  }

  /** A correct leader proposes at most once for each sequence number and view, and never for
      the instance whose proposal came with the view change. */
  lemma LeaderNeverProposesTwice(trace: seq<Window>, ops: seq<Op>, k: nat)
    requires IsRun(trace, ops) && Forward(trace, ops) && k < |ops|
    ensures Claims(trace[k], ops[k]) !! ClaimedBefore(trace, ops, k)
  {
    hide Good, Settled;
    RunsStayGood(trace, ops, k);
    RunsStaySettled(trace, ops, k);
    StepSettled(trace[k], ops[k], ClaimedBefore(trace, ops, k));
  }

  // A leader gets to propose

  /** From `w` to `x` no offer is withdrawn, and an instance that started was offered. */
  ghost predicate OffersStarts(w: Window, x: Window) {
    && |x.decisions| == |w.decisions| && w.guard.available <= x.guard.available
    && (forall k :: 0 <= k < |w.decisions| && w.decisions[k].stage.Initialize? ==>
          x.decisions[k].stage.Initialize? || w.seqNo + k in x.guard.available)
  }

  lemma WakeOffersStart(w: Window, s: nat)
    requires w.seqNo <= s < w.Top() && s in w.signals && w.me in w.view.leaders
    ensures OffersStarts(w, Wake(w, s).0)
  {
    hide Waiting;
  }

  lemma {:induction false} PollOffersStarts(w: Window)
    requires Inv(w) && w.me in w.view.leaders
    ensures OffersStarts(w, PollWindow(w).0)
    decreases Waiting(w.decisions), |w.signals|
  {
    hide Coupled, Numbered, Awake, OffersStarted, Wake, Waiting;
    if w.signals != {} {
      var s := Min(w.signals);
      var x := if s < w.seqNo then w.(signals := w.signals - {s}) else Wake(w, s).0;
      if s < w.seqNo {
        StaleSignalKeeps(w, s);
      } else {
        WakeKeeps(w, s);
        WakeOffersStart(w, s);
      }
      if s < w.seqNo || !Wake(w, s).1.NextMessage? {
        PollOffersStarts(x);
      }
    }
  }

  /** Once a leader's poll asks for new input, every instance that had not started was offered
      to its proposer. */
  lemma LeaderIsOfferedEveryInstance(w: Window)
    requires Inv(w) && w.me in w.view.leaders && PollWindow(w).1.None?
    ensures forall k :: 0 <= k < |w.decisions| && w.decisions[k].stage.Initialize? ==>
              w.seqNo + k in PollWindow(w).0.guard.available
  {
    hide Numbered, Awake, OffersStarted, PollWindow, InPlace, Coupled;
    PollKeeps(w);
    PollOffersStarts(w);
  }

  // Batches leave in order

  function Retired(ops: seq<Op>): nat {
    if ops == [] then 0 else Retired(ops[..|ops| - 1]) + if ops[|ops| - 1].NextOp? then 1 else 0
  }

  lemma StepSeqNo(w: Window, op: Op)
    requires Good(w) && Allowed(w, op) && Safe(w, op) && !op.InstallSeqOp?
    ensures Apply(w, op).seqNo == w.seqNo + if op.NextOp? then 1 else 0
  {
    hide WellRouted, Numbered, Awake, OffersStarted;
    match op {
      case QueueOp(m) => QueueKeeps(w, m);
      case DeliverOp(m) =>
      case PollOp => PollKeeps(w);
      case NextOp =>
      case InstallViewOp(v) => InstallViewKeeps(w, v);
      case EnterViewOp(v) => EnterViewKeeps(w, v);
      case ProposeOp =>
    }
  }

  /** Instances may decide in any order, yet over any run without jumps the instance at the
      front, the only one that can be finalised, is the start plus the number finalised so far. */
  lemma {:induction false} FinalisedInUnbrokenOrder(trace: seq<Window>, ops: seq<Op>, k: nat)
    requires IsRun(trace, ops) && k <= |ops|
    requires forall j :: 0 <= j < |ops| ==> !ops[j].InstallSeqOp?
    ensures trace[k].seqNo == trace[0].seqNo + Retired(ops[..k])
    ensures trace[k].decisions != [] && trace[k].decisions[0].seqNo == trace[0].seqNo + Retired(ops[..k])
  {
    hide WellRouted, Awake, OffersStarted, Coupled, Apply;
    RunsStayGood(trace, ops, k);
    if k > 0 {
      FinalisedInUnbrokenOrder(trace, ops, k - 1);
      RunsStayGood(trace, ops, k - 1);
      StepSeqNo(trace[k - 1], ops[k - 1]);
      assert ops[..k][..k - 1] == ops[..k - 1];
    }
  }
}
