/**
 What every operation on the window keeps: exactly `watermark` coupled instances numbered
 consecutively from the current sequence number, queues in step, no lost wake-up, and no
 sequence number on offer to the proposer twice.
 */
module WindowInvariants {
  import opened Messages
  import opened Slotting
  import opened Instances
  import opened Views
  import opened Windows

  ghost predicate Numbered(w: Window) {
    forall k :: 0 <= k < |w.decisions| ==>
      w.decisions[k].seqNo == w.seqNo + k && w.decisions[k].view == w.view && Coupled(w.decisions[k])
  }

  /** An instance that would make progress if it were polled. */
  ghost predicate NeedsPoll(i: Instance) {
    i.stage.Initialize? || (Awaited(i.stage).Some? && i.inbox.mail.Get(Awaited(i.stage).value) != [])
  }

  /** Queued messages of the awaited kind keep the instance's own flag up. */
  ghost predicate FlagUp(i: Instance) {
    Awaited(i.stage).Some? && i.inbox.mail.Get(Awaited(i.stage).value) != [] ==> i.inbox.signalled
  }

  /** Every instance that needs polling is signalled. */
  ghost predicate Awake(w: Window) {
    forall k :: 0 <= k < |w.decisions| ==>
      FlagUp(w.decisions[k]) && (NeedsPoll(w.decisions[k]) ==> w.seqNo + k in w.signals)
  }

  /** A sequence number is on offer only to a leader, and only once its instance has started. */
  ghost predicate OffersStarted(w: Window) {
    && w.guard.view == w.view
    && (w.me !in w.view.leaders ==> w.guard.available == {})
    && (forall s :: s in w.guard.available ==>
          s < w.Top() && (s >= w.seqNo ==> !w.decisions[s - w.seqNo].stage.Initialize?))
  }

  ghost predicate Inv(w: Window) {
    && w.watermark >= 1 && |w.decisions| == w.watermark && w.tbo.seqNo == w.seqNo
    && w.view.Valid()
    && Numbered(w)
    && SignalsInWindow(w)
    && Awake(w)
    && OffersStarted(w)
  }

  /** Every instance of `x` is an evolution of one of `w`, or new and untouched. */
  ghost predicate Carried(w: Window, x: Window)
    requires w.seqNo <= x.seqNo
  {
    forall k :: 0 <= k < |x.decisions| ==>
      if x.seqNo - w.seqNo + k < |w.decisions| then Evolves(w.decisions[x.seqNo - w.seqNo + k], x.decisions[k])
      else x.decisions[k].stage.Initialize?
  }

  /** How a window may change without a backward jump: to a later view, or within the view
      with every surviving instance evolved. */
  ghost predicate Advances(w: Window, x: Window) {
    && x.me == w.me
    && (w.view.seqNo < x.view.seqNo
        || (x.view == w.view && w.seqNo <= x.seqNo && w.Top() <= x.Top() && Carried(w, x)))
  }

  /** An advance that moves neither the view nor the sequence number. */
  ghost predicate InPlace(w: Window, x: Window) {
    && x.me == w.me && x.view == w.view && x.seqNo == w.seqNo && x.watermark == w.watermark
    && |x.decisions| == |w.decisions|
    && (forall k :: 0 <= k < |w.decisions| ==> Evolves(w.decisions[k], x.decisions[k]))
  }

  lemma InPlaceAdvances(w: Window, x: Window)
    requires InPlace(w, x)
    ensures Advances(w, x)
  {
    hide Evolves;
  }

  lemma EvolvesRefl(i: Instance)
    ensures Evolves(i, i)
  {
  }

  lemma InitReady(n: nat, view: View, tbo: Tbo, k: nat)
    requires view.Valid()
    ensures var i := Init(n, view, tbo.InboxAt(k)); Coupled(i) && FlagUp(i)
  {
  }

  lemma RefillReady(tbo: Tbo, first: nat, view: View, count: nat)
    requires view.Valid()
    ensures forall k :: 0 <= k < count ==>
              Coupled(Refill(tbo, first, view, count)[k]) && FlagUp(Refill(tbo, first, view, count)[k])
  {
    forall k | 0 <= k < count
      ensures Coupled(Refill(tbo, first, view, count)[k]) && FlagUp(Refill(tbo, first, view, count)[k])
    {
      InitReady(first + k, view, tbo, k);
    }
  }

  // Each operation keeps the invariant

  lemma CreateInv(me: Node, watermark: nat, seqNo: nat, view: View)
    requires watermark >= 1 && view.Valid()
    ensures Inv(Create(me, watermark, seqNo, view))
  {
    RefillReady(Tbo(seqNo, NO_SLOTS), seqNo, view, watermark);
  }

  lemma EnqueueReady(i: Instance, m: Message)
    ensures Coupled(i) ==> Coupled(Enqueue(i, m))
    ensures FlagUp(Enqueue(i, m))
    ensures Evolves(i, Enqueue(i, m))
  {
  }

  lemma ReadyAt(w: Window, k: nat)
    requires Inv(w) && k < |w.decisions|
    ensures Coupled(w.decisions[k]) && FlagUp(w.decisions[k]) && w.decisions[k].seqNo == w.seqNo + k
    ensures NeedsPoll(w.decisions[k]) ==> w.seqNo + k in w.signals
  {
  }

  function Update(w: Window, k: nat, i: Instance, signals: set<nat>, offered: set<nat>): Window
    requires k < |w.decisions|
  {
    w.(decisions := w.decisions[k := i], signals := signals, guard := w.guard.(available := offered))
  }

  lemma UpdateInPlace(w: Window, k: nat, i: Instance, signals: set<nat>, offered: set<nat>)
    requires k < |w.decisions| && Evolves(w.decisions[k], i)
    ensures InPlace(w, Update(w, k, i, signals, offered)) && Advances(w, Update(w, k, i, signals, offered))
  {
    hide Evolves;
    forall j | 0 <= j < |w.decisions| && j != k ensures Evolves(w.decisions[j], w.decisions[j]) {
      EvolvesRefl(w.decisions[j]);
    }
    InPlaceAdvances(w, Update(w, k, i, signals, offered));
  }

  /** Replacing one instance by a ready evolution of it, with its signal, keeps everything. */
  lemma UpdateKeeps(w: Window, k: nat, i: Instance, signals: set<nat>, offered: set<nat>)
    requires Inv(w) && k < |w.decisions|
    requires Coupled(i) && FlagUp(i) && Evolves(w.decisions[k], i)
    requires w.signals - {w.seqNo + k} <= signals <= w.signals + {w.seqNo + k}
    requires NeedsPoll(i) ==> w.seqNo + k in signals
    requires w.guard.available <= offered <= w.guard.available + {w.seqNo + k}
    requires offered != w.guard.available ==> !i.stage.Initialize? && w.me in w.view.leaders
    ensures Inv(Update(w, k, i, signals, offered))
    ensures InPlace(w, Update(w, k, i, signals, offered)) && Advances(w, Update(w, k, i, signals, offered))
  {
    hide Coupled, FlagUp, NeedsPoll, InPlace, Advances;
    UpdateInPlace(w, k, i, signals, offered);
  }

  lemma RefiledKeeps(w: Window, slots: PerKind<Slots>, later: Slots)
    requires Inv(w)
    ensures var x := w.(tbo := w.tbo.(slots := slots), later := later); Inv(x) && Advances(w, x)
  {
    hide Coupled, FlagUp, NeedsPoll;
    forall k | 0 <= k < |w.decisions| ensures Evolves(w.decisions[k], w.decisions[k]) {
      EvolvesRefl(w.decisions[k]);
    }
  }

  lemma QueueKeeps(w: Window, m: Message)
    requires Inv(w)
    ensures Inv(Queue(w, m)) && Advances(w, Queue(w, m))
    ensures Queue(w, m).seqNo == w.seqNo && Queue(w, m).view == w.view && Queue(w, m).guard == w.guard
    ensures forall k :: 0 <= k < |w.decisions| ==> Queue(w, m).decisions[k].stage == w.decisions[k].stage
  {
    hide Inv, Advances, Coupled, FlagUp, NeedsPoll, Evolves, Push;
    if m.view == w.view.seqNo && w.seqNo <= m.seqNo < w.Top() {
      var k := m.seqNo - w.seqNo;
      EnqueueReady(w.decisions[k], m);
      ReadyAt(w, k);
      UpdateKeeps(w, k, Enqueue(w.decisions[k], m), w.signals + {m.seqNo}, w.guard.available);
    } else {
      RefiledKeeps(w, Queue(w, m).tbo.slots, Queue(w, m).later);
    }
  }

  lemma ProcessReady(me: Node, i: Instance, m: Message)
    requires Coupled(i) && FlagUp(i)
    ensures var s := Instances.Process(me, i, m);
            && Coupled(s.instance) && FlagUp(s.instance) && Evolves(i, s.instance)
            && (i.stage.Initialize? <==> s.instance.stage.Initialize?)
            && (NeedsPoll(s.instance) ==> NeedsPoll(i) || s.status.Queued? || s.status.Transitioned?)
  {
    ProcessKeepsCoupling(me, i, m);
    ProcessEvolves(me, i, m);
  }

  lemma DeliverKeeps(w: Window, m: Message)
    requires Inv(w)
    ensures Inv(Deliver(w, m).window) && Advances(w, Deliver(w, m).window)
  {
    hide Inv, Advances, Coupled, NeedsPoll, FlagUp, Evolves, Instances.Process, Push;
    if m.view == w.view.seqNo && w.seqNo <= m.seqNo < w.Top() {
      var k := m.seqNo - w.seqNo;
      ReadyAt(w, k);
      ProcessReady(w.me, w.decisions[k], m);
      UpdateKeeps(w, k, Instances.Process(w.me, w.decisions[k], m).instance,
                  Deliver(w, m).window.signals, w.guard.available);
    } else {
      RefiledKeeps(w, Deliver(w, m).window.tbo.slots, Deliver(w, m).window.later);
    }
  }

  lemma PollReady(i: Instance)
    requires Coupled(i) && FlagUp(i)
    ensures var (j, r) := Instances.Poll(i);
            && Coupled(j) && FlagUp(j) && Evolves(i, j)
            && (r.TryPropose? <==> i.stage.Initialize?) && !j.stage.Initialize?
            && (r.Recv? || r.PollDecided? ==> !NeedsPoll(j))
            && (r.NextMessage? ==> NeedsPoll(i))
  {
    PollKeepsCoupling(i);
  }

  lemma WakeKeeps(w: Window, s: nat)
    requires Inv(w) && s in w.signals && w.seqNo <= s < w.Top()
    ensures Inv(Wake(w, s).0) && InPlace(w, Wake(w, s).0)
  {
    hide Coupled, FlagUp, NeedsPoll, Evolves, Inv, InPlace, Advances, Instances.Poll, Waiting;
    ReadyAt(w, s - w.seqNo);
    PollReady(w.decisions[s - w.seqNo]);
    var (i, result) := Instances.Poll(w.decisions[s - w.seqNo]);
    var (x, _) := Wake(w, s);
    UpdateKeeps(w, s - w.seqNo, i, x.signals, x.guard.available);
  }

  lemma StaleSignalKeeps(w: Window, s: nat)
    requires Inv(w) && s < w.seqNo
    ensures Inv(w.(signals := w.signals - {s})) && InPlace(w, w.(signals := w.signals - {s}))
  {
    hide Coupled, FlagUp, NeedsPoll;
  }

  /** Nothing evolves backwards over a whole poll. */
  lemma EvolvesTrans(i: Instance, j: Instance, k: Instance)
    requires Evolves(i, j) && Evolves(j, k)
    ensures Evolves(i, k)
  {
  }

  lemma InPlaceTrans(w: Window, x: Window, y: Window)
    requires InPlace(w, x) && InPlace(x, y)
    ensures InPlace(w, y)
  {
    hide Evolves;
    forall k | 0 <= k < |w.decisions| ensures Evolves(w.decisions[k], y.decisions[k]) {
      EvolvesTrans(w.decisions[k], x.decisions[k], y.decisions[k]);
    }
  }

  /** No lost wake-up: polling keeps the window whole, and when it asks for new input no
      instance holds a queued message that its stage would accept. */
  lemma {:induction false} PollKeeps(w: Window)
    requires Inv(w)
    ensures Inv(PollWindow(w).0) && InPlace(w, PollWindow(w).0)
    ensures PollWindow(w).1.None? ==>
              PollWindow(w).0.signals == {} &&
              forall k :: 0 <= k < |PollWindow(w).0.decisions| ==> !NeedsPoll(PollWindow(w).0.decisions[k])
    decreases Waiting(w.decisions), |w.signals|
  {
    hide Coupled, FlagUp, NeedsPoll, Evolves, Instances.Poll, Numbered, OffersStarted, Awake, InPlace, Wake;
    if w.signals == {} {
      PollNothing(w);
    } else {
      var s := Min(w.signals);
      if s < w.seqNo {
        StaleSignalKeeps(w, s);
        PollKeeps(w.(signals := w.signals - {s}));
        InPlaceTrans(w, w.(signals := w.signals - {s}), PollWindow(w).0);
      } else {
        WakeKeeps(w, s);
        var (x, result) := Wake(w, s);
        if !result.NextMessage? {
          PollKeeps(x);
          InPlaceTrans(w, x, PollWindow(w).0);
        }
      }
    }
  }

  /** Lower numbers go first: no instance before that of the message handed out needs polling. */
  lemma {:induction false} PollTakesLowest(w: Window, k: nat)
    requires Inv(w) && PollWindow(w).1.Some?
    requires k < |PollWindow(w).0.decisions| && w.seqNo + k < Woken(w)
    ensures !NeedsPoll(PollWindow(w).0.decisions[k])
    decreases Waiting(w.decisions), |w.signals|
  {
    hide Coupled, FlagUp, NeedsPoll, Evolves, Instances.Poll, Numbered, OffersStarted, InPlace;
    PollKeeps(w);
    var s := Min(w.signals);
    if s < w.seqNo {
      StaleSignalKeeps(w, s);
      PollTakesLowest(w.(signals := w.signals - {s}), k);
    } else {
      WakeKeeps(w, s);
      if !Wake(w, s).1.NextMessage? {
        PollTakesLowest(Wake(w, s).0, k);
      }
    }
  }

  /** The instance whose message a poll hands out. */
  ghost function Woken(w: Window): nat
    requires SignalsInWindow(w) && PollWindow(w).1.Some?
    decreases Waiting(w.decisions), |w.signals|
  {
    var s := Min(w.signals);
    if s < w.seqNo then Woken(w.(signals := w.signals - {s}))
    else if Wake(w, s).1.NextMessage? then s
    else Woken(Wake(w, s).0)
  }

  lemma PollNothing(w: Window)
    requires Inv(w) && w.signals == {}
    ensures PollWindow(w) == (w, None) && InPlace(w, w)
    ensures forall k :: 0 <= k < |w.decisions| ==> !NeedsPoll(w.decisions[k])
  {
    hide Coupled, FlagUp, NeedsPoll;
  }

  lemma NextKeeps(w: Window)
    requires Inv(w)
    ensures Inv(Next(w)) && Advances(w, Next(w))
  {
    hide Coupled, FlagUp, NeedsPoll;
    InitReady(w.Top(), w.view, w.tbo, 0);
  }

  lemma RestartKeeps(w: Window, n: nat, tbo: Tbo)
    requires w.watermark >= 1 && w.view.Valid() && w.guard.view == w.view && tbo.seqNo + w.watermark == n
    ensures Inv(Restart(w, n, tbo))
  {
    RefillReady(tbo, n, w.view, w.watermark);
  }

  lemma ShortJumpKeeps(w: Window, n: nat)
    requires Inv(w) && w.seqNo <= n < w.seqNo + w.watermark
    ensures Inv(InstallSeq(w, n)) && Advances(w, InstallSeq(w, n))
  {
    hide Coupled, FlagUp, NeedsPoll, Advances;
    RefillReady(w.tbo, w.Top(), w.view, n - w.seqNo);
    ShortJumpAdvances(w, n);
  }

  lemma ShortJumpAdvances(w: Window, n: nat)
    requires |w.decisions| == w.watermark && w.tbo.seqNo == w.seqNo <= n < w.seqNo + w.watermark
    ensures Advances(w, InstallSeq(w, n))
  {
    hide Evolves;
    forall k | 0 <= k < |w.decisions| ensures Evolves(w.decisions[k], w.decisions[k]) {
      EvolvesRefl(w.decisions[k]);
    }
  }

  /** All four ways of jumping keep the window whole. */
  lemma InstallSeqKeeps(w: Window, n: nat)
    requires Inv(w)
    ensures Inv(InstallSeq(w, n)) && InstallSeq(w, n).seqNo == n
    ensures n >= w.seqNo ==> Advances(w, InstallSeq(w, n))
  {
    hide Coupled, FlagUp, NeedsPoll, Evolves;
    if n < w.seqNo {
      RefillReady(Tbo(n, NO_SLOTS), n, w.view, w.watermark);
    } else if n >= w.seqNo + w.watermark {
      var overflow := n - w.seqNo - w.watermark;
      RestartKeeps(w, n,
                   if overflow >= |w.tbo.slots.pre| then Tbo(n - w.watermark, NO_SLOTS) else w.tbo.Advance(overflow));
    } else {
      ShortJumpKeeps(w, n);
    }
  }

  lemma {:induction false} QueueAllKeeps(w: Window, ms: seq<Message>)
    requires Inv(w)
    ensures Inv(QueueAll(w, ms))
    ensures QueueAll(w, ms).seqNo == w.seqNo && QueueAll(w, ms).view == w.view && QueueAll(w, ms).guard == w.guard
    ensures |QueueAll(w, ms).decisions| == |w.decisions| && QueueAll(w, ms).me == w.me
    ensures forall k :: 0 <= k < |w.decisions| ==> QueueAll(w, ms).decisions[k].stage == w.decisions[k].stage
  {
    if ms != [] {
      QueueAllKeeps(w, ms[..|ms| - 1]);
      QueueKeeps(QueueAll(w, ms[..|ms| - 1]), ms[|ms| - 1]);
    }
  }

  lemma ResetKeeps(w: Window, v: View)
    requires Inv(w) && v.Valid() && v.seqNo > w.view.seqNo
    ensures Inv(Reset(w, v))
  {
    hide Coupled;
    RefillReady(Tbo(w.seqNo, NO_SLOTS), w.seqNo, v, w.watermark);
  }

  lemma InstallViewKeeps(w: Window, v: View)
    requires Inv(w) && v.Valid()
    ensures Inv(InstallView(w, v)) && Advances(w, InstallView(w, v))
    ensures InstallView(w, v).seqNo == w.seqNo
    ensures v.seqNo > w.view.seqNo ==>
              && InstallView(w, v).view == v && InstallView(w, v).guard.available == {}
              && (forall k :: 0 <= k < |InstallView(w, v).decisions| ==>
                    InstallView(w, v).decisions[k].stage.Initialize?)
  {
    if v.seqNo > w.view.seqNo {
      ResetKeeps(w, v);
      QueueAllKeeps(Reset(w, v), Slot(w.later, v.seqNo - w.view.seqNo - 1));
    }
  }

  lemma EnterViewKeeps(w: Window, v: View)
    requires Inv(w) && v.Valid() && v.seqNo > w.view.seqNo
    ensures Inv(EnterView(w, v)) && Advances(w, EnterView(w, v))
    ensures EnterView(w, v).view == v && EnterView(w, v).seqNo == w.seqNo
    ensures EnterView(w, v).decisions[0].stage.PrePreparing? && EnterView(w, v).guard.available == {}
  {
    InstallViewKeeps(w, v);
    var x := InstallView(w, v);
    assert Coupled(SkipInit(x.decisions[0]));
  }

  /** Entering the current view once more keeps the window whole if its front instance has
      accepted nothing yet. */
  lemma EnterAgainKeeps(w: Window, v: View)
    requires Inv(w) && v.seqNo <= w.view.seqNo && Untouched(w.decisions[0])
    ensures Inv(EnterView(w, v)) && Advances(w, EnterView(w, v)) && EnterView(w, v).decisions[0].stage.PrePreparing?
  {
    var i := w.decisions[0];
    ReadyAt(w, 0);
    SkipInitExactly(i);
    assert FlagUp(SkipInit(i)) && (NeedsPoll(SkipInit(i)) ==> NeedsPoll(i));
    assert EnterView(w, v) == Update(w, 0, SkipInit(i), w.signals, w.guard.available);
    hide Inv, Coupled, FlagUp, NeedsPoll, EnterView;
    UpdateKeeps(w, 0, SkipInit(i), w.signals, w.guard.available);
  }

  lemma FewerOffersKeep(w: Window, available: set<nat>)
    requires Inv(w) && available <= w.guard.available
    ensures var x := w.(guard := w.guard.(available := available)); Inv(x) && InPlace(w, x)
  {
    hide Coupled, FlagUp, NeedsPoll, Evolves;
    forall k | 0 <= k < |w.decisions| ensures Evolves(w.decisions[k], w.decisions[k]) {
      EvolvesRefl(w.decisions[k]);
    }
  }

  lemma ProposeKeeps(w: Window)
    requires Inv(w)
    ensures Inv(Propose(w).0) && Advances(w, Propose(w).0)
  {
    hide Inv, InPlace, Advances;
    FewerOffersKeep(w, Propose(w).0.guard.available);
    InPlaceAdvances(w, Propose(w).0);
  }
}
