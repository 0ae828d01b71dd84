/**
 The sliding window of overlapping consensus instances as a value, with the queue of
 messages beyond the window, the queue of messages for later views, the wake-up set and
 the sequence numbers offered to the proposer.
 */
module Windows {
  import opened Messages
  import opened Slotting
  import opened Instances
  import opened Views

  type Slots = seq<seq<Message>>

  /** Messages for instances beyond the window; slot 0 belongs to `seqNo` plus the watermark. */
  datatype Tbo = Tbo(seqNo: nat, slots: PerKind<Slots>) {
    function Advance(n: nat): Tbo {
      Tbo(seqNo + n, PerKind(Drop(slots.pre, n), Drop(slots.prep, n), Drop(slots.com, n)))
    }

    function InboxAt(k: nat): Inbox {
      var mail := PerKind(Slot(slots.pre, k), Slot(slots.prep, k), Slot(slots.com, k));
      Inbox(mail.pre != [] || mail.prep != [] || mail.com != [], mail)
    }
  }

  const NO_SLOTS: PerKind<Slots> := PerKind([], [], [])

  /** The sequence numbers the proposer may take, and the view it proposes in. */
  datatype Guard = Guard(available: set<nat>, view: View)

  datatype Window = Window(
    me: Node, watermark: nat, seqNo: nat, view: View, signals: set<nat>,
    decisions: seq<Instance>, tbo: Tbo, later: Slots, guard: Guard)
  {
    function Top(): nat {
      seqNo + |decisions|
    }
  }

  // Building runs of instances

  function Range(lo: nat, hi: nat): (r: set<nat>)
    ensures forall s :: s in r <==> lo <= s < hi
  {
    if lo >= hi then {} else Range(lo, hi - 1) + {hi - 1}
  }

  /** `count` new instances numbered from `first`, with the first slots of `tbo` as inboxes. */
  function Refill(tbo: Tbo, first: nat, view: View, count: nat): (r: seq<Instance>)
    ensures |r| == count
    ensures forall k :: 0 <= k < count ==> r[k] == Init(first + k, view, tbo.InboxAt(k))
  {
    if count == 0 then []
    else Refill(tbo, first, view, count - 1) + [Init(first + count - 1, view, tbo.InboxAt(count - 1))]
  }

  function Create(me: Node, watermark: nat, seqNo: nat, view: View): Window {
    Window(me, watermark, seqNo, view, Range(seqNo, seqNo + watermark),
           Refill(Tbo(seqNo, NO_SLOTS), seqNo, view, watermark),
           Tbo(seqNo, NO_SLOTS), [], Guard({}, view))
  }

  // Operations

  function Later(w: Window, m: Message): Window
    requires m.view > w.view.seqNo
  {
    w.(later := Push(w.later, m.view - w.view.seqNo - 1, m))
  }

  function Beyond(w: Window, m: Message): Window
    requires m.seqNo >= w.seqNo
  {
    if m.seqNo < w.tbo.seqNo + w.watermark then w
    else
      var queue := w.tbo.slots.Get(TagOf(m));
      w.(tbo := w.tbo.(slots :=
        w.tbo.slots.Set(TagOf(m), Push(queue, m.seqNo - w.tbo.seqNo - w.watermark, m))))
  }

  /** File a message that cannot be processed now. */
  function Queue(w: Window, m: Message): Window {
    if m.view > w.view.seqNo then Later(w, m)
    else if m.view < w.view.seqNo || m.seqNo < w.seqNo then w
    else if m.seqNo >= w.Top() then Beyond(w, m)
    else
      var k := m.seqNo - w.seqNo;
      w.(decisions := w.decisions[k := Enqueue(w.decisions[k], m)], signals := w.signals + {m.seqNo})
  }

  datatype WindowStep = WindowStep(window: Window, status: Status, sent: Option<Message>)

  function Deliver(w: Window, m: Message): WindowStep {
    if m.view > w.view.seqNo then WindowStep(Later(w, m), Queued, None)
    else if m.view < w.view.seqNo || m.seqNo < w.seqNo then WindowStep(w, Ignored, None)
    else if m.seqNo >= w.Top() then WindowStep(Beyond(w, m), Queued, None)
    else
      var k := m.seqNo - w.seqNo;
      var step := Instances.Process(w.me, w.decisions[k], m);
      var signals := if step.status.Queued? || step.status.Transitioned? then w.signals + {w.decisions[k].seqNo}
                     else w.signals;
      WindowStep(w.(decisions := w.decisions[k := step.instance], signals := signals), step.status, step.sent)
  }

  ghost function Min(s: set<nat>): (m: nat)
    requires s != {}
    ensures m in s && forall x :: x in s ==> m <= x
  {
    var y :| y in s;
    if s == {y} then y
    else
      var m := Min(s - {y});
      assert forall x :: x in s ==> x == y || x in s - {y};
      if y < m then y else m
  }

  function Waiting(ds: seq<Instance>): nat {
    if ds == [] then 0
    else Waiting(ds[..|ds| - 1]) + if ds[|ds| - 1].stage.Initialize? then 1 else 0
  }

  lemma {:induction false} WaitingUpdate(ds: seq<Instance>, k: nat, i: Instance)
    requires k < |ds|
    ensures Waiting(ds[k := i]) ==
            Waiting(ds) + (if i.stage.Initialize? then 1 else 0) - (if ds[k].stage.Initialize? then 1 else 0)
  {
    var rest := ds[..|ds| - 1];
    if k < |rest| {
      WaitingUpdate(rest, k, i);
      assert ds[k := i][..|ds| - 1] == rest[k := i];
    } else {
      assert ds[k := i][..|ds| - 1] == rest;
    }
  }

  ghost predicate SignalsInWindow(w: Window) {
    forall s :: s in w.signals ==> s < w.Top()
  }

  /** Poll the instance numbered `s`. Either it starts, or it uses up its signal, or it
      has a message; a start is announced to the proposer if this replica leads. */
  function Wake(w: Window, s: nat): (r: (Window, PollResult))
    requires w.seqNo <= s < w.Top() && s in w.signals
    ensures r.1.TryPropose? ==> Waiting(r.0.decisions) < Waiting(w.decisions)
    ensures r.1.Recv? || r.1.PollDecided? ==>
              Waiting(r.0.decisions) == Waiting(w.decisions) && |r.0.signals| < |w.signals|
  {
    var k := s - w.seqNo;
    var (i, result) := Instances.Poll(w.decisions[k]);
    WaitingUpdate(w.decisions, k, i);
    var offered := if result.TryPropose? && w.me in w.view.leaders then w.guard.available + {s}
                   else w.guard.available;
    var signals := if result.Recv? || result.PollDecided? then w.signals - {s} else w.signals;
    (w.(decisions := w.decisions[k := i], signals := signals, guard := w.guard.(available := offered)), result)
  }

  /** Wake the signalled instances in ascending order until one has a message to process. */
  ghost function PollWindow(w: Window): (r: (Window, Option<Message>))
    requires SignalsInWindow(w)
    decreases Waiting(w.decisions), |w.signals|
  {
    if w.signals == {} then (w, None)
    else
      var s := Min(w.signals);
      if s < w.seqNo then PollWindow(w.(signals := w.signals - {s}))
      else
        var (x, result) := Wake(w, s);
        if result.NextMessage? then (x, Some(result.message)) else PollWindow(x)
  }

  /** Retire the front instance and open one at the far end. */
  function Next(w: Window): Window
    requires w.decisions != []
  {
    w.(seqNo := w.seqNo + 1,
       decisions := w.decisions[1..] + [Init(w.Top(), w.view, w.tbo.InboxAt(0))],
       tbo := w.tbo.Advance(1),
       signals := w.signals + {w.Top()})
  }

  /** Start afresh at `n` with the queues `tbo`. */
  function Restart(w: Window, n: nat, tbo: Tbo): Window {
    w.(seqNo := n, decisions := Refill(tbo, n, w.view, w.watermark), tbo := tbo.Advance(w.watermark),
       signals := Range(n, n + w.watermark), guard := w.guard.(available := {}))
  }

  function From(s: set<nat>, n: nat): set<nat> {
    set x | x in s && x >= n
  }

  /** Jump to sequence number `n`. */
  function InstallSeq(w: Window, n: nat): Window
    requires |w.decisions| == w.watermark && w.tbo.seqNo == w.seqNo
  {
    if n < w.seqNo then
      Restart(w, n, Tbo(n, NO_SLOTS)).(tbo := Tbo(n, NO_SLOTS))
    else if n - w.seqNo >= w.watermark then
      var overflow := n - w.seqNo - w.watermark;
      Restart(w, n,
              if overflow >= |w.tbo.slots.pre| then Tbo(n - w.watermark, NO_SLOTS) else w.tbo.Advance(overflow))
    else
      var jump := n - w.seqNo;
      w.(seqNo := n,
         decisions := w.decisions[jump..] + Refill(w.tbo, w.Top(), w.view, jump),
         tbo := w.tbo.Advance(jump),
         signals := w.signals + Range(w.Top(), w.Top() + jump),
         guard := w.guard.(available := From(w.guard.available, n)))
  }

  function QueueAll(w: Window, ms: seq<Message>): Window {
    if ms == [] then w else Queue(QueueAll(w, ms[..|ms| - 1]), ms[|ms| - 1])
  }

  /** The window at the start of a later view, before its early messages are filed. */
  function Reset(w: Window, v: View): Window
    requires v.seqNo > w.view.seqNo
  {
    Window(w.me, w.watermark, w.seqNo, v, Range(w.seqNo, w.seqNo + w.watermark),
           Refill(Tbo(w.seqNo, NO_SLOTS), w.seqNo, v, w.watermark),
           Tbo(w.tbo.seqNo, NO_SLOTS), Drop(w.later, v.seqNo - w.view.seqNo), Guard({}, v))
  }

  function InstallView(w: Window, v: View): Window {
    if v.seqNo <= w.view.seqNo then w
    else QueueAll(Reset(w, v), Slot(w.later, v.seqNo - w.view.seqNo - 1))
  }

  /** Enter a view whose first proposal came with the view change. */
  function EnterView(w: Window, v: View): Window
    requires |w.decisions| >= 1 && w.watermark >= 1
  {
    var installed := InstallView(w, v);
    if installed.decisions == [] then installed
    else installed.(decisions := installed.decisions[0 := SkipInit(installed.decisions[0])])
  }

  /** The proposer takes the lowest sequence number on offer. */
  ghost function Propose(w: Window): (r: (Window, Option<(nat, View)>)) {
    if w.guard.available == {} then (w, None)
    else
      var s := Min(w.guard.available);
      (w.(guard := w.guard.(available := w.guard.available - {s})), Some((s, w.guard.view)))
  }
}
