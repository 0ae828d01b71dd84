/**
 Where view-change messages wait. The three queues of the synchronizer behave like one plain map
 from (queue, view) to the messages waiting there, in order of arrival: what comes too early is
 kept until its view is the next one and its phase has come.
 */
module ChangeRouting {
  import opened Messages
  import opened Slotting
  import opened Views
  import opened ViewChanges
  import opened Waiting
  import S = StopSafety

  /** STOPs and join votes wait in one line, in the order in which they came. */
  datatype Line = StopLine | DataLine | SyncLine

  datatype Place = Place(line: Line, seqNo: nat)

  function PlaceOf(m: Change): Place {
    Place(match m.kind
          case Stop => StopLine
          case Join(_) => StopLine
          case StopData => DataLine
          case Sync => SyncLine,
          m.seqNo)
  }

  function LineIn(s: State, line: Line): ViewChanges.Slots {
    match line
    case StopLine => s.stop
    case DataLine => s.stopData
    case SyncLine => s.sync
  }

  /** The messages waiting in a line for a view. */
  function Lookup(s: State, p: Place): seq<Change> {
    if p.seqNo <= s.view.seqNo then [] else Slot(LineIn(s, p.line), p.seqNo - s.view.seqNo - 1)
  }

  ghost predicate WellRouted(s: State) {
    forall p: Place, m :: m in Lookup(s, p) ==> PlaceOf(m) == p
  }

  /** Filing appends a message in its place, unless its view has begun. */
  lemma QueueRoutes(s: State, m: Change, p: Place)
    ensures Lookup(Queue(s, m), p) == Lookup(s, p) + if PlaceOf(m) == p && m.seqNo > s.view.seqNo then [m] else []
  {
    hide Push, Slot;
    if m.seqNo > s.view.seqNo && p.seqNo > s.view.seqNo {
      PushAt(LineIn(s, p.line), m.seqNo - s.view.seqNo - 1, m, p.seqNo - s.view.seqNo - 1);
    }
  }

  // What is consumed, and what is kept

  /** The messages for the next view that a phase deals with on the spot. */
  predicate Consumes(phase: Phase, kind: ChangeKind) {
    match phase
    case Init => false
    case Stopping => kind.Stop? || kind.Join?
    case Stopping2 => kind.Stop? || kind.Join?
    case ViewStopping(_) => kind.Join?
    case ViewStopping2(_) => kind.Join?
    case StoppingData(_) => kind.StopData?
    case Syncing => kind.Sync?
    case SyncingState => false
  }

  /** While it collects, a replica does not keep a STOP-DATA for a view that others lead. */
  predicate Misdirected(s: State, m: Change)
    requires s.phase.StoppingData? ==> s.next.Some? && s.next.value.members != []
  {
    && s.phase.StoppingData? && m.kind.StopData? && m.seqNo != s.view.seqNo + 1
    && NewView(m.seqNo, |s.next.value.members|).Leader() != s.me
  }

  predicate Keeps(s: State, m: Change)
    requires s.phase.StoppingData? ==> s.next.Some? && s.next.value.members != []
  {
    && m.seqNo > s.view.seqNo && !(m.seqNo == s.view.seqNo + 1 && Consumes(s.phase, m.kind))
    && !Misdirected(s, m)
  }

  lemma SameLines(s: State, t: State, p: Place)
    requires t.view == s.view && t.stop == s.stop && t.stopData == s.stopData && t.sync == s.sync
    ensures Lookup(t, p) == Lookup(s, p)
  {
  }

  /** Entering the next view forgets what waited for it, and moves nothing else. */
  lemma EnterRoutes(s: State, p: Place)
    requires s.next.Some? && s.next.value.seqNo == s.view.seqNo + 1
    ensures Lookup(EnterNext(s), p) == if p.seqNo > s.view.seqNo + 1 then Lookup(s, p) else []
  {
    hide Slot, Drop;
    if p.seqNo > s.view.seqNo + 1 {
      DropAt(LineIn(s, p.line), 1, p.seqNo - s.view.seqNo - 2);
    }
  }

  /** What waits after processing: as before, and the message itself if it is kept; what waited for
      a view that was entered is gone. */
  ghost predicate Routed(s: State, m: Change, t: State, p: Place)
    requires s.phase.StoppingData? ==> s.next.Some? && s.next.value.members != []
  {
    if t.view == s.view then Lookup(t, p) == Lookup(s, p) + (if Keeps(s, m) && PlaceOf(m) == p then [m] else [])
    else t.view.seqNo == s.view.seqNo + 1 && Lookup(t, p) == if p.seqNo > t.view.seqNo then Lookup(s, p) else []
  }

  lemma StoppingRoutes(s: State, m: Change, p: Place)
    requires Inv(s) && (s.phase.Stopping? || s.phase.Stopping2?)
    ensures Routed(s, m, ProcessStopping(s, m).state, p)
  {
    QueueRoutes(s, m, p);
    QueueSame(s, m);
    hide Queue, NextView, View.F, Slot;
  }

  lemma ViewStoppingRoutes(s: State, m: Change, received: nat, p: Place)
    requires Inv(s) && (s.phase.ViewStopping? || s.phase.ViewStopping2?)
    ensures Routed(s, m, ProcessViewStopping(s, m, received).state, p)
  {
    QueueRoutes(s, m, p);
    QueueSame(s, m);
    hide Queue, NextViewWithNode, View.F, View.Quorum, View.Leader, Slot, Top, Record;
  }

  lemma FinalizeRoutes(s: State, verdict: Verdict, p: Place)
    requires s.next.Some? && s.next.value.seqNo == s.view.seqNo + 1
    ensures var t := Finalize(s, verdict).state;
            if t.view == s.view then Lookup(t, p) == Lookup(s, p)
            else t.view.seqNo == s.view.seqNo + 1 && Lookup(t, p) == if p.seqNo > t.view.seqNo then Lookup(s, p) else []
  {
    EnterRoutes(s, p);
    SameLines(s, s.(phase := SyncingState), p);
    hide Lookup, Drop;
  }

  lemma StoppingDataRoutes(s: State, m: Change, verdict: Verdict, p: Place)
    requires Inv(s) && s.phase.StoppingData?
    ensures Routed(s, m, ProcessStoppingData(s, m, verdict).state, p)
  {
    var t := s.(collects := s.collects + {m.from});
    QueueRoutes(s, m, p);
    QueueSame(s, m);
    SameLines(s, t, p);
    SameLines(s, t.(phase := StoppingData(s.phase.collected + 1)), p);
    FinalizeRoutes(t, verdict, p);
    assert s.next.Some? && s.next.value.members != [] && s.next.value.seqNo == s.view.seqNo + 1;
    hide Queue, View.F, View.Quorum, View.Leader, NewView, Lookup, Finalize, Inv;
  }

  lemma SyncingRoutes(s: State, m: Change, verdict: Verdict, p: Place)
    requires Inv(s) && s.phase.Syncing?
    ensures Routed(s, m, ProcessSyncing(s, m, verdict).state, p)
  {
    QueueRoutes(s, m, p);
    QueueSame(s, m);
    FinalizeRoutes(s, verdict, p);
    hide Queue, View.F, View.Leader, Lookup, Finalize;
  }

  /** Whatever the phase, a message that it does not deal with on the spot is kept in its place if
      its view has not begun, and nothing else that waits is touched. */
  lemma ProcessRoutes(s: State, m: Change, verdict: Verdict, p: Place)
    requires Inv(s) && !s.phase.SyncingState?
    ensures Routed(s, m, Process(s, m, verdict).state, p)
  {
    QueueRoutes(s, m, p);
    QueueSame(s, m);
    hide Queue, ProcessStopping, ProcessViewStopping, ProcessStoppingData, ProcessSyncing, Lookup, View.F, View.Leader;
    match s.phase {
      case Init =>
      case Stopping => StoppingRoutes(s, m, p);
      case Stopping2 => StoppingRoutes(s, m, p);
      case ViewStopping(received) => ViewStoppingRoutes(s, m, received, p);
      case ViewStopping2(received) => ViewStoppingRoutes(s, m, received, p);
      case StoppingData(_) => StoppingDataRoutes(s, m, verdict, p);
      case Syncing => SyncingRoutes(s, m, verdict, p);
    }
  }

  lemma TriggerRoutes(s: State, n: Node, p: Place)
    ensures Lookup(TimeOut(s).state, p) == Lookup(s, p) && Lookup(StartJoin(s, n).state, p) == Lookup(s, p)
  {
    SameLines(s, TimeOut(s).state, p);
    SameLines(s, StartJoin(s, n).state, p);
  }

  // Polling

  /** The line that a phase reads. */
  function Awaited(phase: Phase): Line {
    if phase.StoppingData? then DataLine else if phase.Syncing? then SyncLine else StopLine
  }

  function Front(s: State): Place {
    Place(Awaited(s.phase), s.view.seqNo + 1)
  }

  /** Polling hands out the oldest message for the next view in the line that the phase reads, and
      takes it from there; it finds nothing exactly if there is none or nobody signalled. */
  lemma PollRoutes(s: State, p: Place)
    ensures var (t, r) := Poll(s);
            && (r.NextMessage? <==> s.getQueue && !s.phase.SyncingState? && Lookup(s, Front(s)) != [])
            && (r.ResumeViewChange? <==> s.getQueue && s.phase.SyncingState?)
            && Lookup(s, p) == (if r.NextMessage? && p == Front(s) then [r.message] else []) + Lookup(t, p)
            && t.view == s.view && (t.phase != s.phase ==> s.phase.Init? && r.NextMessage?)
  {
  }

  /** An idle replica that takes a message from the line begins the round that the message asks for. */
  lemma PollBegins(s: State)
    ensures var (t, r) := Poll(s);
            s.phase.Init? && r.NextMessage? ==>
              t.phase == if r.message.kind.Join? then ViewStopping(0) else Stopping
  {
  }

  // Whole executions

  lemma RoutedWell(s: State, m: Change, t: State)
    requires WellRouted(s) && (s.phase.StoppingData? ==> s.next.Some? && s.next.value.members != [])
    requires forall p: Place :: Routed(s, m, t, p)
    ensures WellRouted(t)
  {
    hide Lookup;
    forall p: Place, x | x in Lookup(t, p) ensures PlaceOf(x) == p {
      assert Routed(s, m, t, p);
    }
  }

  lemma ProcessWell(s: State, m: Change, verdict: Verdict)
    requires Inv(s) && !s.phase.SyncingState? && WellRouted(s)
    ensures WellRouted(Process(s, m, verdict).state)
  {
    hide Process, WellRouted, Routed;
    forall p: Place ensures Routed(s, m, Process(s, m, verdict).state, p) {
      ProcessRoutes(s, m, verdict, p);
    }
    RoutedWell(s, m, Process(s, m, verdict).state);
  }

  lemma PollWell(s: State)
    requires WellRouted(s)
    ensures WellRouted(Poll(s).0)
    ensures Poll(s).1.NextMessage? ==> PlaceOf(Poll(s).1.message) == Front(s)
  {
    hide Lookup, Poll;
    var (t, r) := Poll(s);
    forall p: Place, m | m in Lookup(t, p) ensures PlaceOf(m) == p {
      PollRoutes(s, p);
      assert m in Lookup(s, p);
    }
    if r.NextMessage? {
      PollRoutes(s, Front(s));
      assert r.message in Lookup(s, Front(s));
    }
  }

  /** The message was handed to the replica by a poll, in some step from `j` on and before `k`. */
  ghost predicate PolledBetween(trace: seq<S.World>, events: seq<S.Event>, j: nat, k: nat, n: Node, m: Change) {
    exists i :: j <= i < k && i < |events| && i < |trace| && events[i].PollNext? && Handles(trace[i], events[i], n, m)
  }

  /** In place, or past its time. */
  ghost predicate Waits(s: State, m: Change) {
    m in Lookup(s, PlaceOf(m)) || s.view.seqNo >= m.seqNo
  }

  lemma RoutedWaits(s: State, x: Change, t: State, m: Change)
    requires (s.phase.StoppingData? ==> s.next.Some? && s.next.value.members != []) && Routed(s, x, t, PlaceOf(m))
    requires Waits(s, m)
    ensures Waits(t, m)
  {
    hide Lookup;
  }

  lemma TakesWaits(s: State, x: Change, verdict: Verdict, m: Change)
    requires Inv(s) && !s.phase.SyncingState? && WellRouted(s)
    ensures var t := Process(s, x, verdict).state;
            WellRouted(t) && (Waits(s, m) ==> Waits(t, m)) && (Keeps(s, x) ==> Waits(t, x))
  {
    ProcessWell(s, x, verdict);
    ProcessRoutes(s, x, verdict, PlaceOf(m));
    ProcessRoutes(s, x, verdict, PlaceOf(x));
    hide Process, WellRouted, Lookup, Inv;
    assert s.phase.StoppingData? ==> s.next.Some? && s.next.value.members != [] by { InvNext(s); }
    if Waits(s, m) {
      RoutedWaits(s, x, Process(s, x, verdict).state, m);
    }
  }

  lemma InvNext(s: State)
    requires Inv(s)
    ensures s.phase.StoppingData? ==> s.next.Some? && s.next.value.members != []
  {
  }

  lemma PollWaits(s: State, m: Change)
    requires WellRouted(s) && Waits(s, m)
    ensures Waits(Poll(s).0, m) || Poll(s).1 == NextMessage(m)
  {
    hide Lookup, Poll, WellRouted;
    PollRoutes(s, PlaceOf(m));
  }

  /** A step leaves a waiting message in its place, unless it is polled. */
  lemma StepWaits(cfg: S.Config, w: S.World, e: S.Event, x: S.World, n: Node, m: Change)
    requires S.WorldInv(cfg, w) && S.Enabled(cfg, w, e) && S.StepTo(w, e, x) && n in w.replicas
    requires WellRouted(w.replicas[n])
    ensures n in x.replicas && WellRouted(x.replicas[n])
    ensures Waits(w.replicas[n], m) ==> Waits(x.replicas[n], m) || (e.PollNext? && Handles(w, e, n, m))
  {
    var s := w.replicas[n];
    if e.Inject? || e.node != n {
      OthersStay(cfg, w, e, x, n);
    } else {
      assert S.ReplicaOk(cfg, w, n, s);
      InvOf(cfg, w, n, s);
      S.PollOk(cfg, w, n, s);
      InvOf(cfg, w, n, Poll(s).0);
      hide S.WorldInv, S.ReplicaOk, Inv, Process, Poll, Queue, WellRouted, Waits, TimeOut, StartJoin;
      if e.Receive? {
        TakesWaits(s, e.message, e.verdict, m);
      } else if e.PollNext? {
        PolledWaits(s, e.verdict, m);
      } else if e.PutAside? {
        PutAsideWaits(s, e.message, m);
      } else {
        QuietWaits(s, if e.ToldToAdmit? then e.joining else n, m);
      }
    }
  }

  lemma PolledWaits(s: State, verdict: Verdict, m: Change)
    requires WellRouted(s) && Inv(Poll(s).0) && (Poll(s).1.NextMessage? ==> !Poll(s).0.phase.SyncingState?)
    ensures var (t, r) := Poll(s);
            var u := if r.NextMessage? then Process(t, r.message, verdict).state else t;
            WellRouted(u) && (Waits(s, m) ==> Waits(u, m) || r == NextMessage(m))
  {
    hide Process, Poll, WellRouted, Waits, Inv;
    PollWell(s);
    var (t, r) := Poll(s);
    if Waits(s, m) {
      PollWaits(s, m);
    }
    if r.NextMessage? {
      TakesWaits(t, r.message, verdict, m);
    }
  }

  lemma PutAsideWaits(s: State, x: Change, m: Change)
    requires WellRouted(s)
    ensures WellRouted(Queue(s, x)) && (Waits(s, m) || x == m ==> Waits(Queue(s, x), m))
  {
    hide Lookup, Queue;
    QueueSame(s, x);
    forall p: Place, y | y in Lookup(Queue(s, x), p) ensures PlaceOf(y) == p {
      QueueRoutes(s, x, p);
    }
    QueueRoutes(s, x, PlaceOf(m));
  }

  lemma QuietWaits(s: State, n: Node, m: Change)
    requires WellRouted(s)
    ensures WellRouted(TimeOut(s).state) && WellRouted(StartJoin(s, n).state) && WellRouted(s.(getQueue := true))
    ensures Waits(s, m) ==>
              Waits(TimeOut(s).state, m) && Waits(StartJoin(s, n).state, m) && Waits(s.(getQueue := true), m)
  {
    hide Lookup;
    forall p: Place
      ensures Lookup(TimeOut(s).state, p) == Lookup(s, p) == Lookup(StartJoin(s, n).state, p)
      ensures Lookup(s.(getQueue := true), p) == Lookup(s, p)
    {
      TriggerRoutes(s, n, p);
      SameLines(s, s.(getQueue := true), p);
    }
    assert TimeOut(s).state.view == s.view && StartJoin(s, n).state.view == s.view;
  }

  lemma {:induction false} RunsStayRouted(cfg: S.Config, trace: seq<S.World>, events: seq<S.Event>, k: nat, n: Node)
    requires S.IsExecution(cfg, trace, events) && k <= |events| && n in cfg.correct
    ensures n in trace[k].replicas && WellRouted(trace[k].replicas[n])
  {
    hide S.Enabled, S.StepTo, S.WorldInv;
    if k > 0 {
      hide WellRouted;
      RunsStayRouted(cfg, trace, events, k - 1, n);
      S.ReachableOk(cfg, trace, events, k - 1);
      StepWaits(cfg, trace[k - 1], events[k - 1], trace[k], n, Change(0, 0, Stop));
    }
  }

  /** Over every execution: what waits goes on waiting until it is polled or its view has begun. */
  lemma {:induction false} StaysQueued(cfg: S.Config, trace: seq<S.World>, events: seq<S.Event>, j: nat, k: nat,
                                       n: Node, m: Change)
    requires S.IsExecution(cfg, trace, events) && j <= k <= |events| && n in cfg.correct
    requires n in trace[j].replicas && Waits(trace[j].replicas[n], m)
    ensures n in trace[k].replicas
    ensures Waits(trace[k].replicas[n], m) || PolledBetween(trace, events, j, k, n, m)
  {
    hide S.Enabled, S.StepTo, S.WorldInv, WellRouted, Waits, Handles;
    RunsStayRouted(cfg, trace, events, k, n);
    if j < k {
      StaysQueued(cfg, trace, events, j, k - 1, n, m);
      if Waits(trace[k - 1].replicas[n], m) {
        RunsStayRouted(cfg, trace, events, k - 1, n);
        S.ReachableOk(cfg, trace, events, k - 1);
        StepWaits(cfg, trace[k - 1], events[k - 1], trace[k], n, m);
      } else {
        var i :| j <= i < k - 1 && events[i].PollNext? && Handles(trace[i], events[i], n, m);
        assert PolledBetween(trace, events, j, k, n, m);
      }
    }
  }

  /** The step gives the replica the message, while that is of no use to its phase. */
  ghost predicate ComesEarly(w: S.World, e: S.Event, n: Node, m: Change) {
    && n in w.replicas && m.seqNo > w.replicas[n].view.seqNo
    && (e == S.PutAside(n, m)
        || (e.Receive? && e.node == n && e.message == m && Inv(w.replicas[n]) && Keeps(w.replicas[n], m)))
  }

  lemma EarlyIsKept(cfg: S.Config, w: S.World, e: S.Event, x: S.World, n: Node, m: Change)
    requires S.WorldInv(cfg, w) && S.Enabled(cfg, w, e) && S.StepTo(w, e, x) && ComesEarly(w, e, n, m)
    requires WellRouted(w.replicas[n])
    ensures n in x.replicas && Waits(x.replicas[n], m)
  {
    var s := w.replicas[n];
    hide S.WorldInv, Process, Poll, Queue, WellRouted, Waits;
    if e.PutAside? {
      PutAsideWaits(s, m, m);
    } else {
      TakesWaits(s, m, e.verdict, m);
    }
  }

  /** No early message is missed. Over every execution: if a STOP, a join vote, a STOP-DATA or a SYNC
      came before its phase, and later, in the view before its own, the replica polls the line of
      that message and finds nothing more, then the message was polled in between. */
  lemma EarlyMessagesAreFound(cfg: S.Config, trace: seq<S.World>, events: seq<S.Event>, j: nat, k: nat, n: Node,
                              m: Change)
    requires S.IsExecution(cfg, trace, events) && j < k <= |events| && n in cfg.correct
    requires ComesEarly(trace[j], events[j], n, m)
    requires n in trace[k].replicas
    requires var s := trace[k].replicas[n];
             s.view.seqNo + 1 == m.seqNo && PlaceOf(m).line == Awaited(s.phase) && s.getQueue && Poll(s).1.Recv?
    ensures PolledBetween(trace, events, j, k, n, m)
  {
    RunsStayRouted(cfg, trace, events, j, n);
    S.ReachableOk(cfg, trace, events, j);
    assert S.Enabled(cfg, trace[j], events[j]) && S.StepTo(trace[j], events[j], trace[j + 1]);
    hide S.Enabled, S.StepTo, S.WorldInv, WellRouted, Handles, ComesEarly, Poll, Lookup;
    EarlyIsKept(cfg, trace[j], events[j], trace[j + 1], n, m);
    StaysQueued(cfg, trace, events, j + 1, k, n, m);
    var s := trace[k].replicas[n];
    PollRoutes(s, Front(s));
    assert PlaceOf(m) == Front(s) && !Waits(s, m);
    if i :| j + 1 <= i < k && events[i].PollNext? && Handles(trace[i], events[i], n, m) {
      assert PolledBetween(trace, events, j, k, n, m);
    }
  }
}
