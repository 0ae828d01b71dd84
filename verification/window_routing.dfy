/**
 Routing: the many queues of the window behave like one plain map from (view, sequence
 number, kind) to the messages waiting there, in order of arrival.
 */
module WindowRouting {
  import opened Messages
  import opened Slotting
  import opened Instances
  import opened Views
  import opened Windows
  import opened WindowInvariants

  datatype Key = Key(view: nat, seqNo: nat, tag: Tag)

  function KeyOf(m: Message): Key {
    Key(m.view, m.seqNo, TagOf(m))
  }

  function Select(ms: seq<Message>, seqNo: nat, tag: Tag): seq<Message> {
    if ms == [] then []
    else
      var last := ms[|ms| - 1];
      Select(ms[..|ms| - 1], seqNo, tag) + if last.seqNo == seqNo && TagOf(last) == tag then [last] else []
  }

  /** The messages waiting under a key, wherever the window keeps them. */
  function Lookup(w: Window, k: Key): seq<Message> {
    if k.view > w.view.seqNo then Select(Slot(w.later, k.view - w.view.seqNo - 1), k.seqNo, k.tag)
    else if k.view < w.view.seqNo || k.seqNo < w.seqNo then []
    else if k.seqNo < w.Top() then w.decisions[k.seqNo - w.seqNo].inbox.mail.Get(k.tag)
    else Slot(w.tbo.slots.Get(k.tag), k.seqNo - w.Top())
  }

  /** Still of interest: not for an older view and not for a retired instance. */
  predicate Current(w: Window, k: Key) {
    k.view >= w.view.seqNo && (k.view == w.view.seqNo ==> k.seqNo >= w.seqNo)
  }

  /** Every waiting message waits under its own key. */
  ghost predicate WellRouted(w: Window) {
    forall k: Key, m :: m in Lookup(w, k) ==> KeyOf(m) == k
  }

  lemma SelectAppend(ms: seq<Message>, m: Message, seqNo: nat, tag: Tag)
    ensures Select(ms + [m], seqNo, tag) ==
            Select(ms, seqNo, tag) + if m.seqNo == seqNo && TagOf(m) == tag then [m] else []
  {
    assert (ms + [m])[..|ms|] == ms;
  }

  lemma {:induction false} SelectMembers(ms: seq<Message>, m: Message)
    requires m in ms
    ensures m in Select(ms, m.seqNo, TagOf(m))
  {
    if m != ms[|ms| - 1] {
      SelectMembers(ms[..|ms| - 1], m);
    }
  }

  lemma LaterRoutes(w: Window, m: Message, k: Key)
    requires m.view > w.view.seqNo
    ensures Lookup(Later(w, m), k) == Lookup(w, k) + if KeyOf(m) == k then [m] else []
  {
    hide Push, Select, Slot;
    if k.view > w.view.seqNo {
      var at := k.view - w.view.seqNo - 1;
      PushAt(w.later, m.view - w.view.seqNo - 1, m, at);
      if m.view == k.view {
        SelectAppend(Slot(w.later, at), m, k.seqNo, k.tag);
      } else {
        assert Slot(Later(w, m).later, at) == Slot(w.later, at) + [] == Slot(w.later, at);
      }
    }
  }

  lemma BeyondRoutes(w: Window, m: Message, k: Key)
    requires |w.decisions| == w.watermark && w.tbo.seqNo == w.seqNo
    requires m.view == w.view.seqNo && m.seqNo >= w.Top()
    ensures Lookup(Beyond(w, m), k) == Lookup(w, k) + if KeyOf(m) == k then [m] else []
  {
    if k.view == w.view.seqNo && k.seqNo >= w.Top() && k.tag == TagOf(m) {
      PushAt(w.tbo.slots.Get(k.tag), m.seqNo - w.Top(), m, k.seqNo - w.Top());
    }
  }

  /** Filing a message appends it under its key, unless it is no longer of interest. */
  lemma QueueRoutes(w: Window, m: Message, k: Key)
    requires Inv(w)
    ensures Lookup(Queue(w, m), k) == Lookup(w, k) + if KeyOf(m) == k && Current(w, k) then [m] else []
  {
    hide Coupled, Numbered, Awake, OffersStarted, Push, Select;
    if m.view > w.view.seqNo {
      LaterRoutes(w, m, k);
    } else if m.view == w.view.seqNo && m.seqNo >= w.Top() {
      BeyondRoutes(w, m, k);
    }
  }

  predicate InWindow(w: Window, m: Message) {
    m.view == w.view.seqNo && w.seqNo <= m.seqNo < w.Top()
  }

  /** The message comes too early: its view is a later one, its instance has not been opened, or
      is not at the stage that takes it. */
  predicate Waits(w: Window, m: Message) {
    || m.view > w.view.seqNo
    || (m.view == w.view.seqNo && m.seqNo >= w.Top())
    || (InWindow(w, m) && Early(w.decisions[m.seqNo - w.seqNo], m))
  }

  /** Processing a message leaves the waiting ones alone, and files the message itself
      exactly if it comes too early; the status says so. */
  lemma DeliverRoutes(w: Window, m: Message, k: Key)
    requires Inv(w)
    ensures var step := Deliver(w, m);
            && Lookup(step.window, k) == Lookup(w, k) + (if Waits(w, m) && KeyOf(m) == k then [m] else [])
            && (step.status.Queued? <==> Waits(w, m))
  {
    hide Coupled, Numbered, Awake, OffersStarted, Push, Select, Instances.Process;
    if InWindow(w, m) {
      ProcessFilesExactly(w.me, w.decisions[m.seqNo - w.seqNo], m);
    } else if m.view > w.view.seqNo {
      LaterRoutes(w, m, k);
    } else if m.view == w.view.seqNo && m.seqNo >= w.Top() {
      BeyondRoutes(w, m, k);
    }
  }

  /** What is not filed is processed by its instance, if that is still open, and nobody else. */
  lemma DeliverActs(w: Window, m: Message)
    requires Inv(w)
    ensures var step := Deliver(w, m);
            && step.window.view == w.view && step.window.seqNo == w.seqNo && |step.window.decisions| == |w.decisions|
            && (forall k :: 0 <= k < |w.decisions| && w.seqNo + k != m.seqNo ==>
                  step.window.decisions[k] == w.decisions[k])
            && (InWindow(w, m) ==>
                  Instances.Step(step.window.decisions[m.seqNo - w.seqNo], step.status, step.sent) ==
                  Instances.Process(w.me, w.decisions[m.seqNo - w.seqNo], m))
            && (!Current(w, KeyOf(m)) ==> step == WindowStep(w, Ignored, None))
            && (!InWindow(w, m) ==> step.window.decisions == w.decisions && step.sent == None)
  {
    hide Coupled, Numbered, Awake, OffersStarted, Push, Select, Instances.Process;
  }

  /** Retiring the front instance forgets its messages and no others. */
  lemma NextRoutes(w: Window, k: Key)
    requires Inv(w)
    ensures Lookup(Next(w), k) == if Current(Next(w), k) then Lookup(w, k) else []
  {
    hide Coupled, Awake, OffersStarted, Select;
    if k.view == w.view.seqNo && k.seqNo >= w.Top() {
      DropAt(w.tbo.slots.Get(k.tag), 1, k.seqNo - w.Top());
    }
  }

  /** A jump shorter than the window forgets the skipped instances and no others. */
  lemma ShortJumpRoutes(w: Window, n: nat, k: Key)
    requires Inv(w) && w.seqNo <= n < w.seqNo + w.watermark
    ensures Lookup(InstallSeq(w, n), k) == if Current(InstallSeq(w, n), k) then Lookup(w, k) else []
  {
    hide Coupled, Awake, OffersStarted, Select;
  }

  lemma RestartRoutes(w: Window, n: nat, tbo: Tbo, k: Key)
    requires k.view == w.view.seqNo
    ensures Lookup(Restart(w, n, tbo), k) == if k.seqNo >= n then Slot(tbo.slots.Get(k.tag), k.seqNo - n) else []
  {
    if k.seqNo >= n + w.watermark {
      DropAt(tbo.slots.Get(k.tag), w.watermark, k.seqNo - n - w.watermark);
    }
  }

  /** What a long jump keeps depends on how far the queue of pre-prepares reaches. */
  lemma LongJumpRoutes(w: Window, n: nat, k: Key)
    requires Inv(w) && n >= w.seqNo + w.watermark && k.view == w.view.seqNo
    ensures Lookup(InstallSeq(w, n), k) ==
            if k.seqNo >= n && n - w.Top() < |w.tbo.slots.pre| then Lookup(w, k) else []
  {
    hide Coupled, Numbered, Awake, OffersStarted, Select, Refill, Restart;
    var overflow := n - w.Top();
    if overflow >= |w.tbo.slots.pre| {
      RestartRoutes(w, n, Tbo(n - w.watermark, NO_SLOTS), k);
    } else {
      RestartRoutes(w, n, w.tbo.Advance(overflow), k);
      if k.seqNo >= n {
        DropAt(w.tbo.slots.Get(k.tag), overflow, k.seqNo - n);
      }
    }
  }

  /** No message that is still of interest gets lost by the jump to `n`. */
  ghost predicate JumpConserves(w: Window, n: nat)
    requires Inv(w)
  {
    forall k: Key :: Current(InstallSeq(w, n), k) ==> Lookup(InstallSeq(w, n), k) == Lookup(w, k)
  }

  /** What the caller can check before the jump: it is short, or it does not outrun the queued
      pre-prepares, or nothing is queued at or after the target. */
  ghost predicate JumpIsSafe(w: Window, n: nat) {
    || n < w.seqNo + w.watermark
    || n - w.Top() < |w.tbo.slots.pre|
    || forall j :: j >= n - w.Top() ==> Slot(w.tbo.slots.prep, j) == [] && Slot(w.tbo.slots.com, j) == []
  }

  /** A forward jump conserves the waiting messages exactly in the safe cases. Only the queue
      of pre-prepares is consulted, so queued prepares and commits can be dropped. */
  lemma JumpConservesExactly(w: Window, n: nat)
    requires Inv(w) && n >= w.seqNo
    ensures JumpConserves(w, n) <==> JumpIsSafe(w, n)
  {
    hide Coupled, Numbered, Awake, OffersStarted, Select, Refill, Drop;
    InstallSeqKeeps(w, n);
    var x := InstallSeq(w, n);
    assert x.view == w.view && x.later == w.later && x.seqNo == n;
    if n < w.seqNo + w.watermark {
      forall k: Key | Current(x, k) ensures Lookup(x, k) == Lookup(w, k) {
        ShortJumpRoutes(w, n, k);
      }
    } else {
      LongJumpConserves(w, n);
    }
  }

  lemma LongJumpConserves(w: Window, n: nat)
    requires Inv(w) && n >= w.seqNo + w.watermark
    ensures JumpConserves(w, n) <==> JumpIsSafe(w, n)
  {
    hide Coupled, Numbered, Awake, OffersStarted, Select, Refill, Drop;
    var x := InstallSeq(w, n);
    var overflow := n - w.Top();
    InstallSeqKeeps(w, n);
    assert x.view == w.view && x.later == w.later && x.seqNo == n;
    forall k: Key | k.view == w.view.seqNo
      ensures Lookup(x, k) == if k.seqNo >= n && overflow < |w.tbo.slots.pre| then Lookup(w, k) else []
    {
      LongJumpRoutes(w, n, k);
    }
    if JumpIsSafe(w, n) {
      forall k: Key | Current(x, k) ensures Lookup(x, k) == Lookup(w, k) {
        if k.view == w.view.seqNo && overflow >= |w.tbo.slots.pre| {
          assert Lookup(w, k) == Slot(w.tbo.slots.Get(k.tag), k.seqNo - w.Top());
        }
      }
    } else {
      var j :| j >= overflow && (Slot(w.tbo.slots.prep, j) != [] || Slot(w.tbo.slots.com, j) != []);
      var tag := if Slot(w.tbo.slots.prep, j) != [] then PrepareTag else CommitTag;
      var k := Key(w.view.seqNo, w.Top() + j, tag);
      assert Lookup(x, k) == [] && Lookup(w, k) == Slot(w.tbo.slots.Get(tag), j);
      assert Current(x, k) && !JumpConserves(w, n);
    }
  }

  lemma LostByJump(w: Window, m: Message)
    requires Inv(w) && w.view.seqNo == m.view && m.seqNo >= w.seqNo + w.watermark
    requires m in Lookup(w, KeyOf(m)) && |w.tbo.slots.pre| == 0
    ensures !JumpIsSafe(w, m.seqNo) && !JumpConserves(w, m.seqNo)
    ensures Current(InstallSeq(w, m.seqNo), KeyOf(m)) && Lookup(InstallSeq(w, m.seqNo), KeyOf(m)) == []
  {
    hide Numbered, Awake, OffersStarted;
    InstallSeqKeeps(w, m.seqNo);
    LongJumpRoutes(w, m.seqNo, KeyOf(m));
    JumpView(w, m.seqNo);
    hide InstallSeq, Lookup, JumpIsSafe;
    assert !JumpConserves(w, m.seqNo);
    JumpConservesExactly(w, m.seqNo);
  }

  /** Such losses are real, for every size of the window: a prepare or commit from beyond a new
      window is filed, and the jump to its own sequence number loses it. */
  lemma JumpLosesVote(me: Node, watermark: nat, v: View, m: Message)
    requires watermark >= 1 && v.Valid() && !m.kind.PrePrepare? && m.view == v.seqNo && m.seqNo >= watermark
    ensures var w := Queue(Create(me, watermark, 0, v), m);
            && Inv(w) && m in Lookup(w, KeyOf(m))
            && !JumpIsSafe(w, m.seqNo) && !JumpConserves(w, m.seqNo)
            && Current(InstallSeq(w, m.seqNo), KeyOf(m)) && Lookup(InstallSeq(w, m.seqNo), KeyOf(m)) == []
  {
    var c := Create(me, watermark, 0, v);
    CreateInv(me, watermark, 0, v);
    QueueKeeps(c, m);
    QueueRoutes(c, m, KeyOf(m));
    assert Current(c, KeyOf(m));
    FiledBeyond(me, watermark, v, m);
    hide Inv, Queue, Create, Lookup, InstallSeq, JumpIsSafe, JumpConserves;
    LostByJump(Queue(c, m), m);
  }

  lemma JumpView(w: Window, n: nat)
    requires |w.decisions| == w.watermark && w.tbo.seqNo == w.seqNo
    ensures InstallSeq(w, n).view == w.view
  {
  }

  lemma FiledBeyond(me: Node, watermark: nat, v: View, m: Message)
    requires watermark >= 1 && !m.kind.PrePrepare? && m.view == v.seqNo && m.seqNo >= watermark
    ensures var w := Queue(Create(me, watermark, 0, v), m);
            && |w.tbo.slots.pre| == 0 && w.seqNo == 0 && w.watermark == watermark && w.view == v
            && |w.decisions| == watermark && w.tbo.seqNo == 0
  {
    hide Push;
  }

  /** Messages for a later view are released when that view is installed, and only then. */
  lemma InstallViewRoutes(w: Window, v: View, k: Key)
    requires Inv(w) && WellRouted(w) && v.Valid() && v.seqNo > w.view.seqNo
    ensures Lookup(InstallView(w, v), k) == if Current(InstallView(w, v), k) then Lookup(w, k) else []
  {
    var early := Slot(w.later, v.seqNo - w.view.seqNo - 1);
    assert InstallView(w, v) == QueueAll(Reset(w, v), early);
    assert Reset(w, v).view == v && Reset(w, v).seqNo == w.seqNo;
    assert k.view == v.seqNo ==> Lookup(w, k) == Select(early, k.seqNo, k.tag);
    hide Inv, Lookup, Reset, QueueAll, WellRouted, InstallView, Slot, View.Valid, Select;
    ResetKeeps(w, v);
    InstallViewKeeps(w, v);
    EarlyMessagesMatch(w, v);
    ResetRoutes(w, v, k);
    QueueAllRoutes(Reset(w, v), early, k);
  }

  lemma EarlyMessagesMatch(w: Window, v: View)
    requires WellRouted(w) && v.seqNo > w.view.seqNo
    ensures forall m :: m in Slot(w.later, v.seqNo - w.view.seqNo - 1) ==> m.view == v.seqNo
  {
    var early := Slot(w.later, v.seqNo - w.view.seqNo - 1);
    forall m | m in early ensures m.view == v.seqNo {
      var k := Key(v.seqNo, m.seqNo, TagOf(m));
      SelectMembers(early, m);
      assert m in Lookup(w, k);
      assert KeyOf(m) == k;
    }
  }

  lemma ResetRoutes(w: Window, v: View, k: Key)
    requires v.seqNo > w.view.seqNo
    ensures Lookup(Reset(w, v), k) == if k.view > v.seqNo then Lookup(w, k) else []
  {
    if k.view > v.seqNo {
      DropAt(w.later, v.seqNo - w.view.seqNo, k.view - v.seqNo - 1);
    }
  }

  lemma {:induction false} QueueAllRoutes(w: Window, ms: seq<Message>, k: Key)
    requires Inv(w) && forall m :: m in ms ==> m.view == w.view.seqNo
    ensures Lookup(QueueAll(w, ms), k) ==
            Lookup(w, k) + if k.view == w.view.seqNo && k.seqNo >= w.seqNo then Select(ms, k.seqNo, k.tag) else []
  {
    hide Inv, Lookup, Queue;
    if ms != [] {
      var rest, m := ms[..|ms| - 1], ms[|ms| - 1];
      QueueAllRoutes(w, rest, k);
      QueueAllKeeps(w, rest);
      QueueRoutes(QueueAll(w, rest), m, k);
      assert KeyOf(m) == k ==> k.view == w.view.seqNo;
    }
  }

  // Polling

  lemma PollInstanceRoutes(i: Instance)
    ensures var (j, r) := Instances.Poll(i);
            forall t :: i.inbox.mail.Get(t) ==
              (if r.NextMessage? && Awaited(i.stage) == Some(t) then [r.message] else []) + j.inbox.mail.Get(t)
    ensures Instances.Poll(i).1.NextMessage? ==> Awaited(i.stage).Some? && Instances.Poll(i).0.stage == i.stage
  {
  }

  lemma WakeRoutes(w: Window, s: nat, k: Key)
    requires Inv(w) && WellRouted(w) && s in w.signals && w.seqNo <= s < w.Top()
    ensures var (x, r) := Wake(w, s);
            && Lookup(w, k) == (if r.NextMessage? && KeyOf(r.message) == k then [r.message] else []) + Lookup(x, k)
            && (r.NextMessage? ==> r.message.view == w.view.seqNo && r.message.seqNo == s
                                   && Awaited(x.decisions[s - w.seqNo].stage) == Some(TagOf(r.message)))
  {
    hide Coupled, Numbered, Awake, OffersStarted, Select, Instances.Poll, Waiting;
    var i := w.decisions[s - w.seqNo];
    PollInstanceRoutes(i);
    var (j, r) := Instances.Poll(i);
    if r.NextMessage? {
      var own := Key(w.view.seqNo, s, Awaited(i.stage).value);
      assert r.message in Lookup(w, own);
    }
  }

  lemma WakeKeepsRouting(w: Window, s: nat)
    requires Inv(w) && WellRouted(w) && s in w.signals && w.seqNo <= s < w.Top()
    ensures WellRouted(Wake(w, s).0)
  {
    hide Inv, Lookup, Wake;
    var (x, r) := Wake(w, s);
    forall k: Key, m | m in Lookup(x, k) ensures KeyOf(m) == k {
      WakeRoutes(w, s, k);
      assert m in Lookup(w, k);
    }
  }

  lemma StaleSignalRoutes(w: Window, s: nat)
    ensures forall k: Key :: Lookup(w.(signals := w.signals - {s}), k) == Lookup(w, k)
  {
  }

  /** Polling hands out the oldest message of the kind its instance awaits, removes it from
      under its key, and touches nothing else. */
  lemma {:induction false} PollRoutes(w: Window, k: Key)
    requires Inv(w) && WellRouted(w)
    ensures var (x, m) := PollWindow(w);
            && Lookup(w, k) == (if m.Some? && KeyOf(m.value) == k then [m.value] else []) + Lookup(x, k)
            && (m.Some? ==> m.value.view == x.view.seqNo && x.seqNo <= m.value.seqNo < x.Top()
                            && Awaited(x.decisions[m.value.seqNo - x.seqNo].stage) == Some(TagOf(m.value)))
    decreases Waiting(w.decisions), |w.signals|
  {
    hide Coupled, Numbered, Awake, OffersStarted, Lookup, Wake, InPlace, Waiting;
    if w.signals != {} {
      var s := Min(w.signals);
      if s < w.seqNo {
        StaleSignalKeeps(w, s);
        StaleSignalRoutes(w, s);
        PollRoutes(w.(signals := w.signals - {s}), k);
      } else {
        WakeKeeps(w, s);
        WakeRoutes(w, s, k);
        WakeFrame(w, s);
        if !Wake(w, s).1.NextMessage? {
          WakeKeepsRouting(w, s);
          PollRoutes(Wake(w, s).0, k);
        }
      }
    }
  }

  lemma {:induction false} WokenIs(w: Window)
    requires Inv(w) && WellRouted(w) && PollWindow(w).1.Some?
    ensures PollWindow(w).1.value.seqNo == Woken(w)
    decreases Waiting(w.decisions), |w.signals|
  {
    hide Coupled, Numbered, Awake, OffersStarted, Lookup, Wake, InPlace, Waiting;
    var s := Min(w.signals);
    if s < w.seqNo {
      StaleSignalKeeps(w, s);
      StaleSignalRoutes(w, s);
      WokenIs(w.(signals := w.signals - {s}));
    } else {
      WakeKeeps(w, s);
      if Wake(w, s).1.NextMessage? {
        WakeRoutes(w, s, KeyOf(Wake(w, s).1.message));
      } else {
        WakeKeepsRouting(w, s);
        WokenIs(Wake(w, s).0);
      }
    }
  }

  /** Lower numbers go first: when a message is handed out, no instance before its own has one that
      its stage would take. */
  lemma PollsLowestFirst(w: Window, k: nat)
    requires Inv(w) && WellRouted(w) && PollWindow(w).1.Some?
    requires var (x, m) := PollWindow(w); x.seqNo + k < m.value.seqNo && k < |x.decisions|
    ensures !NeedsPoll(PollWindow(w).0.decisions[k])
  {
    hide WellRouted, PollWindow, NeedsPoll, Woken, Numbered, Awake, OffersStarted;
    PollKeeps(w);
    WokenIs(w);
    PollTakesLowest(w, k);
  }

  lemma WakeFrame(w: Window, s: nat)
    requires w.seqNo <= s < w.Top() && s in w.signals
    ensures var x := Wake(w, s).0; x.view == w.view && x.seqNo == w.seqNo && x.Top() == w.Top()
  {
  }
}
