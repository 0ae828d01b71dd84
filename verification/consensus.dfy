/**
 The consensus handler as the replica runs it: a deque of instances, a deduplicated
 wake-up heap, queues of vectors and the guard shared with the proposer. Every method is
 proved to do to the value model of module `Windows` exactly what that model prescribes.
 */
module ConsensusHandler {
  import opened Messages
  import opened Slotting
  import opened Instances
  import opened Views
  import opened Windows
  import opened WindowInvariants
  import P = Proposers

  lemma LeastExists(heap: multiset<nat>) returns (m: nat)
    requires heap != multiset{}
    ensures m in heap && forall x :: x in heap ==> m <= x
  {
    var e :| e in heap;
    var elements := set x | x in heap;
    assert e in elements;
    m := Min(elements);
    forall x | x in heap ensures m <= x {
      assert x in elements;
    }
  }

  method PeekMin(heap: multiset<nat>) returns (m: nat)
    requires heap != multiset{}
    ensures m in heap && forall x :: x in heap ==> m <= x
  {
    ghost var least := LeastExists(heap);
    m :| m in heap && forall x :: x in heap ==> m <= x;
  }

  function Elements(heap: multiset<nat>): set<nat> {
    set s | s in heap
  }

  lemma ElementsChange(heap: multiset<nat>, s: nat)
    ensures Elements(multiset{}) == {}
    ensures Elements(heap + multiset{s}) == Elements(heap) + {s}
    ensures heap[s] == 1 ==> Elements(heap - multiset{s}) == Elements(heap) - {s}
    ensures s in Elements(heap) <==> s in heap
  {
  }

  /** Sequence numbers waiting to be polled: a min-heap, and a set that keeps it free of duplicates. */
  class Signals {
    var nos: set<nat>
    var heap: multiset<nat>

    ghost predicate Valid()
      reads this
    {
      heap == multiset(nos)
    }

    constructor ()
      ensures Valid() && nos == {}
    {
      nos, heap := {}, multiset{};
    }

    method PopSignalled() returns (r: Option<nat>)
      requires Valid()
      modifies this
      ensures Valid()
      ensures r == if old(nos) == {} then None else Some(Min(old(nos)))
      ensures nos == if r.Some? then old(nos) - {r.value} else old(nos)
    {
      if heap == multiset{} {
        assert forall x :: x in nos ==> x in heap;
        assert nos == {};
        return None;
      }
      var s := PeekMin(heap);
      assert s in nos && forall x :: x in nos ==> s <= x by {
        assert forall x :: x in nos <==> x in heap;
      }
      heap := heap - multiset{s};
      nos := nos - {s};
      return Some(s);
    }

    method PushSignalled(s: nat)
      requires Valid()
      modifies this
      ensures Valid() && nos == old(nos) + {s}
    {
      if s !in nos {
        nos := nos + {s};
        heap := heap + multiset{s};
      }
    }

    method Clear()
      modifies this
      ensures Valid() && nos == {}
    {
      nos, heap := {}, multiset{};
    }
  }

  /** Messages beyond the window, one vector of queues for each kind. */
  class TboQueue {
    const watermark: nat
    var currSeq: nat
    var getQueue: bool
    var prePrepares: Slots
    var prepares: Slots
    var commits: Slots

    ghost function Model(): Tbo
      reads this
    {
      Tbo(currSeq, PerKind(prePrepares, prepares, commits))
    }

    constructor (currSeq: nat, watermark: nat)
      ensures this.watermark == watermark && Model() == Tbo(currSeq, NO_SLOTS)
    {
      this.currSeq, this.watermark, getQueue := currSeq, watermark, false;
      prePrepares, prepares, commits := [], [], [];
    }

    /** Nothing reads this flag. */
    method Signal()
      modifies `getQueue
      ensures getQueue
    {
      getQueue := true;
    }

    method AdvanceQueue() returns (inbox: Inbox)
      modifies this
      ensures Model() == old(Model()).Advance(1) && inbox == old(Model()).InboxAt(0)
    {
      var mail := PerKind(Slot(prePrepares, 0), Slot(prepares, 0), Slot(commits, 0));
      NextInstanceQueue();
      return Inbox(mail.pre != [] || mail.prep != [] || mail.com != [], mail);
    }

    method NextInstanceQueue()
      modifies this
      ensures Model() == old(Model()).Advance(1)
    {
      currSeq := currSeq + 1;
      prePrepares, prepares, commits := Drop(prePrepares, 1), Drop(prepares, 1), Drop(commits, 1);
    }

    /** File the message, or drop it if it is for an instance before the base of this queue. */
    method Queue(m: Message)
      modifies this
      ensures Model() ==
        if m.seqNo < currSeq + watermark then old(Model())
        else old(Model()).(slots := old(Model()).slots.Set(TagOf(m),
               Push(old(Model()).slots.Get(TagOf(m)), m.seqNo - currSeq - watermark, m)))
      ensures currSeq == old(currSeq) && getQueue == old(getQueue)
    {
      if m.seqNo >= currSeq + watermark {
        var k := m.seqNo - currSeq - watermark;
        match m.kind {
          case PrePrepare(_) => prePrepares := Push(prePrepares, k, m);
          case Prepare(_) => prepares := Push(prepares, k, m);
          case Commit(_) => commits := Push(commits, k, m);
        }
      }
    }

    method Clear()
      modifies `getQueue, `prePrepares, `prepares, `commits
      ensures Model() == Tbo(currSeq, NO_SLOTS) && !getQueue
    {
      getQueue := false;
      prePrepares, prepares, commits := [], [], [];
    }
  }

  /** Hands sequence numbers to the proposer thread, lowest first. */
  class ProposerConsensusGuard {
    var heap: multiset<nat>
    var view: View

    constructor (view: View)
      ensures heap == multiset{} && this.view == view
    {
      heap, this.view := multiset{}, view;
    }

    method NextSeqNo() returns (r: Option<(nat, View)>)
      modifies this
      ensures view == old(view)
      ensures r.None? <==> old(heap) == multiset{}
      ensures r.None? ==> heap == old(heap)
      ensures r.Some? ==> r.value.1 == view && r.value.0 in old(heap) && heap == old(heap) - multiset{r.value.0}
      ensures r.Some? ==> forall x :: x in old(heap) ==> r.value.0 <= x
    {
      if heap == multiset{} {
        return None;
      }
      var s := PeekMin(heap);
      heap := heap - multiset{s};
      return Some((s, view));
    }

    method MakeSeqAvailable(s: nat)
      modifies this
      ensures heap == old(heap) + multiset{s} && view == old(view)
    {
      heap := heap + multiset{s};
    }

    method InstallSeqNo(n: nat)
      modifies this
      ensures view == old(view)
      ensures forall x :: heap[x] == if x >= n then old(heap)[x] else 0
    {
      while heap != multiset{}
        invariant view == old(view)
        invariant heap <= old(heap)
        invariant forall x :: x >= n ==> heap[x] == old(heap)[x]
        decreases |heap|
      {
        var least := PeekMin(heap);
        if least >= n {
          break;
        }
        heap := heap - multiset{least};
      }
    }

    method InstallView(view: View)
      modifies this
      ensures heap == multiset{} && this.view == view
    {
      this.view := view;
      heap := multiset{};
    }

    method Clear()
      modifies this
      ensures heap == multiset{} && view == old(view)
    {
      heap := multiset{};
    }
  }

  datatype PollStatus = ReceiveInput | NextInput(message: Message) | FrontDecided

  lemma RangeStep(a: set<nat>, lo: nat, hi: nat)
    requires lo <= hi
    ensures a + Range(lo, lo) == a
    ensures a + Range(lo, hi) + {hi} == a + Range(lo, hi + 1)
  {
  }

  lemma RefillStep(ds: seq<Instance>, tbo: Tbo, first: nat, view: View, k: nat)
    ensures ds + Refill(tbo, first, view, 0) == ds
    ensures ds + Refill(tbo, first, view, k) + [Init(first + k, view, tbo.InboxAt(k))] ==
            ds + Refill(tbo, first, view, k + 1)
  {
  }

  lemma AdvanceOnce(t: Tbo, k: nat)
    ensures t.Advance(0) == t
    ensures t.Advance(k).InboxAt(0) == t.InboxAt(k)
    ensures t.Advance(k).Advance(1) == t.Advance(k + 1)
  {
  }

  class Consensus {
    const nodeId: Node
    const watermark: nat
    const signals: Signals
    const tbo: TboQueue
    const guard: ProposerConsensusGuard

    var seqNo: nat
    var view: View
    var decisions: seq<Instance>
    var viewQueue: Slots

    ghost function Model(): Window
      reads this, signals, tbo, guard
    {
      Window(nodeId, watermark, seqNo, view, signals.nos, decisions, tbo.Model(), viewQueue,
             Guard(Elements(guard.heap), guard.view))
    }

    ghost predicate Connected()
      reads this, signals, tbo, guard
    {
      signals.Valid() && tbo.watermark == watermark && (forall s :: guard.heap[s] <= 1)
    }

    ghost predicate Valid()
      reads this, signals, tbo, guard
    {
      Connected() && Inv(Model())
    }

    constructor (nodeId: Node, view: View, seqNo: nat, watermark: nat)
      requires watermark >= 1 && view.Valid()
      ensures Valid() && Model() == Create(nodeId, watermark, seqNo, view)
      ensures fresh(signals) && fresh(tbo) && fresh(guard)
    {
      this.nodeId, this.watermark, this.seqNo, this.view := nodeId, watermark, seqNo, view;
      decisions, viewQueue := [], [];
      signals := new Signals();
      tbo := new TboQueue(seqNo, watermark);
      guard := new ProposerConsensusGuard(view);
      new;
      CreateInv(nodeId, watermark, seqNo, view);
      hide Inv, Refill;
      AppendFresh(seqNo, view, watermark);
      assert Model() == Create(nodeId, watermark, seqNo, view);
    }

    method EnqueueDecision(seqNo: nat, view: View, inbox: Inbox)
      requires signals.Valid()
      modifies `decisions, signals
      ensures signals.Valid() && signals.nos == old(signals.nos) + {seqNo}
      ensures decisions == old(decisions) + [Init(seqNo, view, inbox)]
    {
      signals.PushSignalled(seqNo);
      decisions := decisions + [Init(seqNo, view, inbox)];
    }

    /** Fill up the window with new instances that have no queued messages. */
    method AppendFresh(first: nat, view: View, ghost count: nat)
      requires signals.Valid() && |decisions| + count == watermark
      modifies `decisions, signals
      ensures signals.Valid() && signals.nos == old(signals.nos) + Range(first, first + count)
      ensures decisions == old(decisions) + Refill(Tbo(first, NO_SLOTS), first, view, count)
    {
      hide Range, Refill, Init;
      var n := first;
      RangeStep(signals.nos, first, first);
      RefillStep(decisions, Tbo(first, NO_SLOTS), first, view, 0);
      while |decisions| < watermark
        invariant first <= n <= first + count && |decisions| == |old(decisions)| + n - first
        invariant signals.Valid() && signals.nos == old(signals.nos) + Range(first, n)
        invariant decisions == old(decisions) + Refill(Tbo(first, NO_SLOTS), first, view, n - first)
      {
        RangeStep(old(signals.nos), first, n);
        RefillStep(old(decisions), Tbo(first, NO_SLOTS), first, view, n - first);
        assert Tbo(first, NO_SLOTS).InboxAt(n - first) == EMPTY_INBOX;
        EnqueueDecision(n, view, EMPTY_INBOX);
        n := n + 1;
      }
    }

    /** Fill up the window with new instances that take their messages from the future queue. */
    method AppendFromTbo(first: nat, view: View, count: nat)
      requires signals.Valid() && |decisions| + count == watermark
      modifies `decisions, signals, tbo
      ensures signals.Valid() && signals.nos == old(signals.nos) + Range(first, first + count)
      ensures decisions == old(decisions) + Refill(old(tbo.Model()), first, view, count)
      ensures tbo.Model() == old(tbo.Model()).Advance(count)
    {
      hide Slot, Drop, Range, Refill, Init;
      var n := first;
      AdvanceOnce(tbo.Model(), 0);
      RangeStep(signals.nos, first, first);
      RefillStep(decisions, tbo.Model(), first, view, 0);
      while |decisions| < watermark
        invariant first <= n <= first + count && |decisions| == |old(decisions)| + n - first
        invariant signals.Valid() && signals.nos == old(signals.nos) + Range(first, n)
        invariant decisions == old(decisions) + Refill(old(tbo.Model()), first, view, n - first)
        invariant tbo.Model() == old(tbo.Model()).Advance(n - first)
      {
        AdvanceOnce(old(tbo.Model()), n - first);
        RangeStep(old(signals.nos), first, n);
        RefillStep(old(decisions), old(tbo.Model()), first, view, n - first);
        var inbox := tbo.AdvanceQueue();
        EnqueueDecision(n, view, inbox);
        n := n + 1;
      }
    }

    /** Put aside a message for the view `index` views ahead. */
    method EnqueueOtherViewMessage(index: nat, m: Message)
      requires index >= 1
      modifies `viewQueue
      ensures viewQueue == Push(old(viewQueue), index - 1, m)
    {
      while |viewQueue| <= index - 1
        invariant Push(viewQueue, index - 1, m) == Push(old(viewQueue), index - 1, m)
      {
        PushPadded(viewQueue, index - 1, m);
        viewQueue := viewQueue + [[]];
      }
      PushWithin(viewQueue, index - 1, m);
      viewQueue := viewQueue[index - 1 := viewQueue[index - 1] + [m]];
    }

    method QueueMessage(m: Message)
      requires Valid()
      modifies this, signals, tbo
      ensures Valid() && Model() == Queue(old(Model()), m)
    {
      QueueKeeps(Model(), m);
      ghost var model := Queue(Model(), m);
      hide Inv, Push, Elements;
      if m.view > view.seqNo {
        EnqueueOtherViewMessage(m.view - view.seqNo, m);
      } else if m.view == view.seqNo && m.seqNo >= seqNo {
        var k := m.seqNo - seqNo;
        if k >= |decisions| {
          tbo.Queue(m);
        } else {
          QueueInWindow(k, m);
        }
      }
      assert Model() == model;
    }

    method QueueInWindow(k: nat, m: Message)
      requires Connected() && k < |decisions|
      modifies `decisions, signals
      ensures Connected() && signals.nos == old(signals.nos) + {m.seqNo}
      ensures decisions == old(decisions)[k := Enqueue(old(decisions)[k], m)]
    {
      decisions := decisions[k := Enqueue(decisions[k], m)];
      signals.PushSignalled(m.seqNo);
    }

    /** Use the lowest signal: drop it if it is stale, else poll its instance. */
    method PollOne() returns (r: PollResult)
      requires Valid() && signals.nos != {}
      modifies this, signals, guard
      ensures Valid()
      ensures Min(old(signals.nos)) < seqNo ==>
                r.Recv? && Model() == old(Model()).(signals := old(signals.nos) - {Min(old(signals.nos))})
      ensures Min(old(signals.nos)) >= seqNo ==>
                Min(old(signals.nos)) < old(Model()).Top() && (Model(), r) == Wake(old(Model()), Min(old(signals.nos)))
    {
      hide Elements, Instances.Poll, Numbered, Awake, OffersStarted, Wake, InPlace;
      ghost var model, s0 := Model(), Min(signals.nos);
      if s0 < seqNo {
        StaleSignalKeeps(model, s0);
      } else {
        WakeKeeps(model, s0);
        NotYetOffered(model, s0);
      }
      var popped := signals.PopSignalled();
      if popped.value < seqNo {
        return Recv;
      }
      r := PollInstance(popped.value, model);
    }

    method PollInstance(s: nat, ghost model: Window) returns (r: PollResult)
      requires Connected() && Model() == model.(signals := model.signals - {s})
      requires seqNo <= s < model.Top() && s in model.signals
      requires Instances.Poll(decisions[s - seqNo]).1.TryPropose? ==> s !in Elements(guard.heap)
      modifies this, signals, guard
      ensures Connected() && (Model(), r) == Wake(model, s)
    {
      hide Elements, Instances.Poll, Waiting;
      assert model.signals - {s} + {s} == model.signals;
      var (i, result) := Instances.Poll(decisions[s - seqNo]);
      decisions := decisions[s - seqNo := i];
      Repost(s, result);
      return result;
    }

    /** Signal an instance again if it may have more to do, and offer it if it just started. */
    method Repost(s: nat, result: PollResult)
      requires Connected() && (result.TryPropose? ==> s !in Elements(guard.heap))
      modifies signals, guard
      ensures Connected() && guard.view == old(guard.view)
      ensures signals.nos == if result.Recv? || result.PollDecided? then old(signals.nos) else old(signals.nos) + {s}
      ensures Elements(guard.heap) == if result.TryPropose? && nodeId in view.leaders
                                      then old(Elements(guard.heap)) + {s} else old(Elements(guard.heap))
    {
      ElementsChange(guard.heap, s);
      if result.NextMessage? || result.TryPropose? {
        signals.PushSignalled(s);
      }
      if result.TryPropose? && nodeId in view.leaders {
        guard.MakeSeqAvailable(s);
      }
    }

    /** Poll until an instance has a message to process or no signal is left. */
    method Poll() returns (r: PollStatus)
      requires Valid()
      modifies this, signals, guard
      ensures Valid()
      ensures SignalsInWindow(old(Model()))
      ensures Model() == PollWindow(old(Model())).0
      ensures r == match PollWindow(old(Model())).1
                   case Some(m) => NextInput(m)
                   case None => if decisions[0].stage.Decided? then FrontDecided else ReceiveInput
    {
      hide Numbered, Awake, OffersStarted, Wake, Waiting;
      while signals.nos != {}
        invariant Valid() && SignalsInWindow(old(Model()))
        invariant PollWindow(Model()) == PollWindow(old(Model()))
        decreases Waiting(decisions), |signals.nos|
      {
        var result := PollOne();
        if result.NextMessage? {
          return NextInput(result.message);
        }
      }
      return if decisions[0].stage.Decided? then FrontDecided else ReceiveInput;
    }

    method ProcessMessage(m: Message) returns (status: Status, sent: Option<Message>)
      requires Valid()
      modifies this, signals, tbo
      ensures Valid() && WindowStep(Model(), status, sent) == Deliver(old(Model()), m)
    {
      DeliverKeeps(Model(), m);
      ReadyNumbers(Model());
      ghost var step := Deliver(Model(), m);
      hide Inv, Push, Instances.Process;
      sent := None;
      if m.view > view.seqNo {
        EnqueueOtherViewMessage(m.view - view.seqNo, m);
        status := Queued;
      } else if m.view < view.seqNo || m.seqNo < seqNo {
        status := Ignored;
      } else if m.seqNo - seqNo >= |decisions| {
        tbo.Queue(m);
        status := Queued;
      } else {
        status, sent := ProcessInWindow(m);
      }
      assert Model() == step.window;
    }

    method ProcessInWindow(m: Message) returns (status: Status, sent: Option<Message>)
      requires Connected() && m.view == view.seqNo && seqNo <= m.seqNo < seqNo + |decisions|
      requires decisions[m.seqNo - seqNo].seqNo == m.seqNo
      modifies `decisions, signals
      ensures Connected() && WindowStep(Model(), status, sent) == Deliver(old(Model()), m)
    {
      hide Instances.Process, Elements;
      var k := m.seqNo - seqNo;
      var result := Instances.Process(nodeId, decisions[k], m);
      decisions := decisions[k := result.instance];
      if result.status.Queued? || result.status.Transitioned? {
        signals.PushSignalled(m.seqNo);
      }
      status, sent := result.status, result.sent;
    }

    predicate CanFinalize()
      reads this
    {
      decisions != [] && decisions[0].stage.Decided?
    }

    /** How many batches can be finalised now: the longest decided prefix of the window. */
    method FinalizeableCount() returns (count: nat)
      ensures count == DecidedPrefix(decisions)
    {
      count := 0;
      while count < |decisions| && decisions[count].stage.Decided?
        invariant count <= |decisions|
        invariant DecidedPrefix(decisions) == count + DecidedPrefix(decisions[count..])
      {
        count := count + 1;
      }
    }

    /** Retire the front instance and open a new one at the far end of the window. */
    method NextInstance() returns (retired: Instance)
      requires Valid()
      modifies this, signals, tbo
      ensures Valid() && retired == old(decisions[0]) && Model() == Next(old(Model()))
    {
      NextKeeps(Model());
      ReadyNumbers(Model());
      ghost var model := Next(Model());
      hide Inv, Slot, Drop;
      retired := decisions[0];
      decisions := decisions[1..];
      seqNo := seqNo + 1;
      var inbox := tbo.AdvanceQueue();
      var novel := if decisions != [] then decisions[|decisions| - 1].seqNo + 1 else seqNo;
      EnqueueDecision(novel, view, inbox);
      assert Model() == model;
    }

    /** Hand over the front batch if it is decided. */
    method Finalize() returns (b: Option<CompletedBatch>)
      requires Valid()
      modifies this, signals, tbo
      ensures Valid()
      ensures b == if old(CanFinalize()) then Some(Complete(old(decisions[0]))) else None
      ensures Model() == if old(CanFinalize()) then Next(old(Model())) else old(Model())
    {
      hide Numbered, Awake, OffersStarted, Coupled;
      if !decisions[0].stage.Decided? {
        return None;
      }
      var retired := NextInstance();
      return Some(Complete(retired));
    }

    /** Jump to sequence number `n`; the source closes with the two assertions kept here. */
    method InstallSequenceNumber(n: nat)
      requires Valid()
      modifies this, signals, tbo, guard
      ensures Valid() && |old(Model()).decisions| == watermark && old(Model()).tbo.seqNo == old(seqNo)
      ensures Model() == InstallSeq(old(Model()), n)
    {
      InstallSeqKeeps(Model(), n);
      ReadyNumbers(Model());
      ReadyNumbers(InstallSeq(Model(), n));
      hide Inv, InstallSeq;
      Jump(n);
      tbo.Signal();
      assert tbo.currSeq == seqNo;
      assert decisions[0].seqNo == seqNo;
    }

    method Jump(n: nat)
      requires Connected() && |decisions| == watermark >= 1 && tbo.currSeq == seqNo
      requires decisions[watermark - 1].seqNo + 1 == seqNo + watermark
      modifies this, signals, tbo, guard
      ensures Connected() && Model() == InstallSeq(old(Model()), n)
    {
      hide InstallSeq;
      if n < seqNo {
        JumpBack(n);
      } else if n - seqNo >= |decisions| {
        JumpFar(n);
      } else {
        JumpNear(n);
      }
    }

    method DropOffersBelow(n: nat)
      requires Connected()
      modifies guard
      ensures Connected() && guard.view == old(guard.view)
      ensures Elements(guard.heap) == From(old(Elements(guard.heap)), n)
    {
      ghost var heap := guard.heap;
      guard.InstallSeqNo(n);
      HeapFrom(heap, guard.heap, n);
    }

    method JumpBack(n: nat)
      requires Connected() && n < seqNo && |decisions| == watermark && tbo.currSeq == seqNo
      modifies this, signals, tbo, guard
      ensures Connected() && Model() == InstallSeq(old(Model()), n)
    {
      hide Range, Refill, InstallSeq, Elements, From;
      JumpIs(Model(), n);
      NothingFrom(n);
      ClearAllQueues();
      AppendFresh(n, view, watermark);
      tbo.currSeq := n;
      seqNo := n;
      DropOffersBelow(n);
    }

    method ClearAllQueues()
      modifies `decisions, signals, guard, tbo`getQueue, tbo`prePrepares, tbo`prepares, tbo`commits
      ensures decisions == [] && signals.Valid() && signals.nos == {} && guard.heap == multiset{}
      ensures tbo.Model() == Tbo(tbo.currSeq, NO_SLOTS) && guard.view == old(guard.view)
    {
      decisions := [];
      tbo.Clear();
      signals.Clear();
      guard.Clear();
    }

    method JumpFar(n: nat)
      requires Connected() && tbo.currSeq == seqNo && n >= seqNo && n - seqNo >= |decisions| == watermark
      modifies this, signals, tbo, guard
      ensures Connected() && Model() == InstallSeq(old(Model()), n)
    {
      hide Range, Refill, InstallSeq, Elements, From;
      JumpIs(Model(), n);
      NothingFrom(n);
      decisions := [];
      signals.Clear();
      guard.Clear();
      RefillFar(n);
      seqNo := n;
      DropOffersBelow(n);
    }

    /** Populate an emptied window at `n`, from whatever the future queue holds for it. */
    method RefillFar(n: nat)
      requires signals.Valid() && signals.nos == {} && decisions == []
      requires tbo.currSeq == seqNo && n >= seqNo + watermark
      modifies `decisions, signals, tbo
      ensures signals.Valid() && signals.nos == Range(n, n + watermark)
      ensures var queues := if n - seqNo - watermark >= |old(tbo.prePrepares)| then Tbo(n - watermark, NO_SLOTS)
                            else old(tbo.Model()).Advance(n - seqNo - watermark);
              decisions == Refill(queues, n, view, watermark) && tbo.Model() == queues.Advance(watermark)
    {
      hide Range, Refill;
      var overflow := n - seqNo - watermark;
      if overflow >= |tbo.prePrepares| {
        tbo.Clear();
        tbo.currSeq := n;
        AppendFresh(n, view, watermark);
        RefillEmpty(n, n - watermark, n, view, watermark);
      } else {
        AdvanceOnce(tbo.Model(), 0);
        for k := 0 to overflow
          invariant tbo.Model() == old(tbo.Model()).Advance(k)
          modifies tbo
        {
          AdvanceOnce(old(tbo.Model()), k);
          tbo.NextInstanceQueue();
        }
        AppendFromTbo(n, view, watermark);
      }
    }

    method JumpNear(n: nat)
      requires Connected() && seqNo <= n && n - seqNo < |decisions| == watermark && tbo.currSeq == seqNo
      requires decisions[watermark - 1].seqNo + 1 == seqNo + watermark
      modifies this, signals, tbo, guard
      ensures Connected() && Model() == InstallSeq(old(Model()), n)
    {
      hide Range, Refill, InstallSeq, Elements, From;
      JumpIs(Model(), n);
      var jump := n - seqNo;
      for k := 0 to jump
        invariant decisions == old(decisions)[k..]
        modifies `decisions
      {
        decisions := decisions[1..];
      }
      var first := decisions[|decisions| - 1].seqNo + 1;
      AppendFromTbo(first, view, jump);
      seqNo := n;
      DropOffersBelow(n);
    }

    /** Move to a later view: forget everything of the old one, then file what came early. */
    method InstallView(v: View)
      requires Valid() && v.Valid()
      modifies this, signals, tbo, guard
      ensures Valid() && Model() == Windows.InstallView(old(Model()), v)
    {
      hide Numbered, Awake, OffersStarted, Reset, QueueAll;
      if v.seqNo <= view.seqNo {
        return;
      }
      ResetKeeps(Model(), v);
      var early := Slot(viewQueue, v.seqNo - view.seqNo - 1);
      StartView(v);
      QueueEarly(early);
    }

    method StartView(v: View)
      requires Connected() && v.seqNo > view.seqNo && tbo.currSeq == seqNo
      modifies this, signals, tbo, guard
      ensures Connected() && Model() == Reset(old(Model()), v)
    {
      hide Refill, Range, Elements;
      ElementsChange(multiset{}, 0);
      var index := v.seqNo - view.seqNo;
      view := v;
      guard.InstallView(v);
      ClearAllQueues();
      AppendFresh(seqNo, v, watermark);
      viewQueue := Drop(viewQueue, index);
    }

    method QueueEarly(early: seq<Message>)
      requires Valid()
      modifies this, signals, tbo
      ensures Valid() && Model() == QueueAll(old(Model()), early)
    {
      hide Inv, QueueAll, Queue;
      ghost var model := Model();
      QueueAllNone(model);
      assert early[..0] == [];
      for k := 0 to |early|
        invariant Valid() && Model() == QueueAll(model, early[..k])
      {
        QueueAllStep(model, early, k);
        QueueMessage(early[k]);
      }
      assert early[..|early|] == early;
    }

    /** Register the requests of a proposal, so that the proposer does not repeat them. */
    static method TellFilter(m: Message, filter: P.ViewChangeFilter)
      requires filter.Valid()
      modifies filter
      ensures filter.Valid()
      ensures filter.seen == if m.kind.PrePrepare? then P.Largest(InfosOf(m.kind.requests)) else old(filter.seen)
    {
      if m.kind.PrePrepare? {
        var infos := [];
        for k := 0 to |m.kind.requests|
          invariant DescribesAll(infos, m.kind.requests[..k])
        {
          infos := infos + [InfoOf(m.kind.requests[k])];
        }
        assert m.kind.requests[..|m.kind.requests|] == m.kind.requests;
        InfosDescribeExactly(infos, m.kind.requests);
        filter.InstallSyncMessageRequests(infos);
      }
    }

    /** Finish a view change: enter the view, let the proposer's filter know the requests of the
        proposal that came with the change, withhold the first instance from the proposer, and
        process that proposal. */
    method FinalizeViewChange(v: View, m: Message, filter: P.ViewChangeFilter)
      returns (status: Status, sent: Option<Message>)
      requires Valid() && v.Valid() && filter.Valid()
      requires v.seqNo > view.seqNo || (decisions != [] && Untouched(decisions[0]))
      modifies this, signals, tbo, guard, filter
      ensures Valid() && |old(Model()).decisions| >= 1 && watermark >= 1
      ensures WindowStep(Model(), status, sent) == Deliver(EnterView(old(Model()), v), m)
      ensures filter.Valid()
      ensures filter.seen == if m.kind.PrePrepare? then P.Largest(InfosOf(m.kind.requests)) else old(filter.seen)
    {
      if v.seqNo > view.seqNo {
        EnterViewKeeps(Model(), v);
      } else {
        EnterAgainKeeps(Model(), v);
      }
      InstallViewKeeps(Model(), v);
      ghost var model := EnterView(Model(), v);
      hide Inv, Windows.InstallView;
      InstallView(v);
      TellFilter(m, filter);
      ReadyNumbers(Model());
      decisions := decisions[0 := SkipInit(decisions[0])];
      assert Model() == model;
      status, sent := ProcessMessage(m);
    }

    method CollectIncompleteProof(f: nat) returns (p: IncompleteProof)
      requires Valid()
      ensures decisions != [] && p == Collect(decisions[0], f)
    {
      p := Collect(decisions[0], f);
    }

    /** What the proposer thread gets when it asks for work. */
    method NextProposal() returns (r: Option<(nat, View)>)
      requires Valid()
      modifies guard
      ensures Valid() && (Model(), r) == Propose(old(Model()))
    {
      ProposeKeeps(Model());
      ghost var model := Propose(Model()).0;
      hide Inv;
      ghost var before := guard.heap;
      r := guard.NextSeqNo();
      if r.Some? {
        assert r.value.0 in Elements(before) && Min(Elements(before)) == r.value.0;
        ElementsChange(before, r.value.0);
      }
      assert Model() == model;
    }
  }

  function DecidedPrefix(ds: seq<Instance>): (n: nat)
    ensures n <= |ds|
    ensures forall k :: 0 <= k < n ==> ds[k].stage.Decided?
    ensures n < |ds| ==> !ds[n].stage.Decided?
  {
    if ds == [] || !ds[0].stage.Decided? then 0 else 1 + DecidedPrefix(ds[1..])
  }

  lemma ReadyNumbers(w: Window)
    requires Inv(w)
    ensures w.decisions != [] && |w.decisions| == w.watermark && w.tbo.seqNo == w.seqNo
    ensures forall k :: 0 <= k < |w.decisions| ==> w.decisions[k].seqNo == w.seqNo + k
  {
    hide Coupled;
  }

  lemma NotYetOffered(w: Window, s: nat)
    requires Inv(w) && w.seqNo <= s < w.Top()
    ensures w.decisions[s - w.seqNo].stage.Initialize? ==> s !in w.guard.available
    ensures Instances.Poll(w.decisions[s - w.seqNo]).1.TryPropose? ==> w.decisions[s - w.seqNo].stage.Initialize?
  {
    hide Coupled, Numbered, Awake;
  }

  /** The parts of a jump, before the proposer's offers below the target are dropped. */
  lemma JumpIs(w: Window, n: nat)
    requires |w.decisions| == w.watermark && w.tbo.seqNo == w.seqNo
    ensures n < w.seqNo ==>
              InstallSeq(w, n) == w.(seqNo := n, decisions := Refill(Tbo(n, NO_SLOTS), n, w.view, w.watermark),
                tbo := Tbo(n, NO_SLOTS), signals := Range(n, n + w.watermark), guard := w.guard.(available := {}))
    ensures n >= w.seqNo && n - w.seqNo >= w.watermark ==>
              var queues := if n - w.seqNo - w.watermark >= |w.tbo.slots.pre| then Tbo(n - w.watermark, NO_SLOTS)
                            else w.tbo.Advance(n - w.seqNo - w.watermark);
              InstallSeq(w, n) == w.(seqNo := n, decisions := Refill(queues, n, w.view, w.watermark),
                tbo := queues.Advance(w.watermark), signals := Range(n, n + w.watermark),
                guard := w.guard.(available := {}))
    ensures n >= w.seqNo && n - w.seqNo < w.watermark ==>
              var jump := n - w.seqNo;
              InstallSeq(w, n) == w.(seqNo := n,
                                     decisions := w.decisions[jump..] + Refill(w.tbo, w.Top(), w.view, jump),
                tbo := w.tbo.Advance(jump), signals := w.signals + Range(w.Top(), w.Top() + jump),
                guard := w.guard.(available := From(w.guard.available, n)))
  {
    hide Refill, Range, From, Drop;
  }

  lemma RefillEmpty(a: nat, b: nat, first: nat, view: View, count: nat)
    ensures Refill(Tbo(a, NO_SLOTS), first, view, count) == Refill(Tbo(b, NO_SLOTS), first, view, count)
  {
  }

  lemma QueueAllStep(w: Window, ms: seq<Message>, k: nat)
    requires k < |ms|
    ensures QueueAll(w, ms[..k + 1]) == Queue(QueueAll(w, ms[..k]), ms[k])
  {
    assert ms[..k + 1][..k] == ms[..k];
  }

  lemma QueueAllNone(w: Window)
    ensures QueueAll(w, []) == w
  {
  }

  lemma NothingFrom(n: nat)
    ensures From(Elements(multiset{}), n) == {} && Elements(multiset{}) == {}
  {
  }

  lemma HeapFrom(before: multiset<nat>, after: multiset<nat>, n: nat)
    requires forall x :: before[x] <= 1
    requires forall x :: after[x] == if x >= n then before[x] else 0
    ensures forall x :: after[x] <= 1
    ensures Elements(after) == From(Elements(before), n)
  {
  }
}
