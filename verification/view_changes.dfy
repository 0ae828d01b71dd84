/**
 The view-change protocol of one replica as a value. How many STOP messages were counted is
 not kept apart here: it is the number of distinct senders on record. The class
 `Synchronizer` counts, and is proved to agree.
 */
module ViewChanges {
  import opened Messages
  import opened Views
  import opened Slotting

  datatype ChangeKind = Stop | Join(node: Node) | StopData | Sync

  /** A view-change message; `seqNo` is the number of the view it would install. */
  datatype Change = Change(from: Node, seqNo: nat, kind: ChangeKind)

  /** The two counting phases come in pairs: the second once this replica has sent its own. */
  datatype Phase =
    | Init
    | Stopping
    | Stopping2
    | ViewStopping(received: nat)
    | ViewStopping2(received: nat)
    | StoppingData(collected: nat)
    | Syncing
    | SyncingState
  {
    /** A quorum asked for the next view, and it is being installed. */
    predicate Leaving() {
      StoppingData? || Syncing? || SyncingState?
    }
  }

  type Slots = seq<seq<Change>>

  datatype State = State(
    me: Node, phase: Phase, view: View, next: Option<View>,
    getQueue: bool, stop: Slots, stopData: Slots, sync: Slots,
    stopped: set<Node>, adding: Option<Node>, votes: map<Node, set<Node>>, collects: set<Node>)

  datatype Report =
    | Nil
    | Running
    | Installed
    | Joined(node: Node)
    | RunCst
    | Unimplemented

  datatype Step = Step(state: State, report: Report, sent: Option<Change>)

  datatype Polled = Recv | NextMessage(message: Change) | ResumeViewChange

  /** What comes of the leader's collects: nothing to propose, too far behind, or a new view. */
  datatype Verdict = NoValue | Behind | Commit

  function Start(me: Node, view: View): State {
    State(me, Init, view, None, false, [], [], [], {}, None, map[], {})
  }

  // Queues

  function File(queue: Slots, view: View, m: Change): Slots {
    if m.seqNo <= view.seqNo then queue else Push(queue, m.seqNo - view.seqNo - 1, m)
  }

  function Queue(s: State, m: Change): State {
    match m.kind
    case Stop => s.(stop := File(s.stop, s.view, m))
    case Join(_) => s.(stop := File(s.stop, s.view, m))
    case StopData => s.(stopData := File(s.stopData, s.view, m))
    case Sync => s.(sync := File(s.sync, s.view, m))
  }

  function Rest(queue: Slots): Slots {
    if Slot(queue, 0) == [] then queue else [queue[0][1..]] + queue[1..]
  }

  function PollStops(s: State): (State, Polled) {
    var waiting := Slot(s.stop, 0);
    if waiting == [] then (s.(getQueue := false), Recv)
    else
      var phase := if s.phase != Init then s.phase
                   else if waiting[0].kind.Join? then ViewStopping(0) else Stopping;
      (s.(phase := phase, stop := Rest(s.stop)), NextMessage(waiting[0]))
  }

  function Poll(s: State): (State, Polled) {
    if !s.getQueue then (s, Recv)
    else match s.phase
      case StoppingData(_) =>
        if Slot(s.stopData, 0) == [] then (s.(getQueue := false), Recv)
        else (s.(stopData := Rest(s.stopData)), NextMessage(s.stopData[0][0]))
      case Syncing =>
        if Slot(s.sync, 0) == [] then (s.(getQueue := false), Recv)
        else (s.(sync := Rest(s.sync)), NextMessage(s.sync[0][0]))
      case SyncingState => (s, ResumeViewChange)
      case _ => PollStops(s)
  }

  // Processing

  function StopReport(count: nat, view: View): Report {
    if count > view.F() then Running else Nil
  }

  function OwnStop(s: State): Change {
    Change(s.me, s.view.seqNo + 1, Stop)
  }

  /** A quorum asks for the view `next`: forget who asked, and wait for its leader. */
  function MoveOn(s: State, next: View): State
    requires next.members != []
  {
    s.(next := Some(next), stopped := {}, phase := if next.Leader() == s.me then StoppingData(0) else Syncing)
  }

  function ProcessStopping(s: State, m: Change): Step
    requires s.view.members != []
  {
    var report := StopReport(|s.stopped|, s.view);
    if (m.kind.Stop? || m.kind.Join?) && m.seqNo != s.view.seqNo + 1 then Step(Queue(s, m), report, None)
    else if m.kind.Join? || (m.kind.Stop? && m.from in s.stopped) then Step(s, report, None)
    else if !m.kind.Stop? then Step(Queue(s, m), report, None)
    else
      var t := s.(stopped := s.stopped + {m.from});
      if s.phase.Stopping? then
        if |t.stopped| > s.view.F() then Step(t.(phase := Stopping2), Running, Some(OwnStop(s)))
        else Step(t, Nil, None)
      else if |t.stopped| >= s.view.Quorum() then Step(MoveOn(t, NextView(s.view)), Running, None)
      else Step(t, Running, None)
  }

  function VotesFor(votes: map<Node, set<Node>>, n: Node): set<Node> {
    if n in votes then votes[n] else {}
  }

  function Record(votes: map<Node, set<Node>>, n: Node, voter: Node): (r: map<Node, set<Node>>)
    ensures n in r && voter in r[n]
  {
    votes[n := VotesFor(votes, n) + {voter}]
  }

  /** First of the nodes when sorted by descending number of voters, lower identifiers first. */
  ghost predicate IsTop(votes: map<Node, set<Node>>, n: Node) {
    n in votes && forall k :: k in votes ==> |votes[k]| < |votes[n]| || (|votes[k]| == |votes[n]| && n <= k)
  }

  lemma {:induction false} TopExists(votes: map<Node, set<Node>>) returns (n: Node)
    requires votes != map[]
    ensures IsTop(votes, n)
    decreases |votes.Keys|
  {
    var k :| k in votes;
    var rest := votes - {k};
    assert rest.Keys == votes.Keys - {k};
    assert forall j :: j in votes ==> j == k || j in rest;
    if rest == map[] {
      n := k;
    } else {
      var m := TopExists(rest);
      n := if |votes[m]| < |votes[k]| || (|votes[m]| == |votes[k]| && k <= m) then k else m;
    }
  }

  ghost function Top(votes: map<Node, set<Node>>): (n: Node)
    requires votes != map[]
    ensures IsTop(votes, n)
  {
    TopIsThere(votes);
    var n :| IsTop(votes, n);
    n
  }

  lemma TopIsThere(votes: map<Node, set<Node>>)
    requires votes != map[]
    ensures exists n :: IsTop(votes, n)
  {
    var n := TopExists(votes);
  }

  /** Enough messages came: if the node with the most voters has a quorum, move on with it. */
  ghost function Admit(s: State, n: Node, received: nat): Step
    requires s.view.members != [] && s.votes != map[]
  {
    var top := Top(s.votes);
    if |s.votes[top]| >= s.view.Quorum() then
      Step(MoveOn(s.(adding := Some(n)), NextViewWithNode(s.view, top)), Running, None)
    else if received >= |s.view.members| then Step(s, Unimplemented, None)
    else Step(s, Running, None)
  }

  ghost function ProcessJoin(s: State, m: Change, received: nat): Step
    requires s.view.members != [] && m.kind.Join?
  {
    var t := s.(votes := Record(s.votes, m.kind.node, m.from));
    if received < s.view.Quorum() then Step(t.(phase := ViewStopping2(received)), Running, None)
    else Admit(t.(phase := ViewStopping(received)), m.kind.node, received)
  }

  ghost function ProcessViewStopping(s: State, m: Change, received: nat): Step
    requires s.view.members != []
  {
    if (m.kind.Stop? || m.kind.Join?) && m.seqNo != s.view.seqNo + 1 then
      Step(Queue(s, m), StopReport(received, s.view), None)
    else match m.kind
      case Stop => Step(Queue(s, m).(phase := Stopping), Running, None)
      case Join(_) => ProcessJoin(s, m, received + 1)
      case _ => Step(Queue(s, m), StopReport(received, s.view), None)
  }

  function EnterNext(s: State): State
    requires s.next.Some? && s.next.value.seqNo == s.view.seqNo + 1
  {
    s.(view := s.next.value, next := None, phase := Init,
       stop := Drop(s.stop, 1), stopData := Drop(s.stopData, 1), sync := Drop(s.sync, 1),
       adding := None, votes := if s.adding.Some? then map[] else s.votes)
  }

  function Finalize(s: State, verdict: Verdict): Step
    requires s.next.Some? && s.next.value.seqNo == s.view.seqNo + 1
  {
    match verdict
    case NoValue => Step(s, Running, None)
    case Behind => Step(s.(phase := SyncingState), RunCst, None)
    case Commit => Step(EnterNext(s), if s.adding.Some? then Joined(s.adding.value) else Installed, None)
  }

  function ProcessStoppingData(s: State, m: Change, verdict: Verdict): Step
    requires s.phase.StoppingData? && s.next.Some? && s.next.value.members != []
    requires s.next.value.seqNo == s.view.seqNo + 1
  {
    var next := s.next.value;
    if !m.kind.StopData? then Step(Queue(s, m), Running, None)
    else if m.seqNo != next.seqNo then
      Step(if NewView(m.seqNo, |next.members|).Leader() == s.me then Queue(s, m) else s, Running, None)
    else if next.Leader() != s.me || m.from in s.collects then Step(s, Running, None)
    else
      var t := s.(collects := s.collects + {m.from});
      if s.phase.collected + 1 < next.Quorum() then
        Step(t.(phase := StoppingData(s.phase.collected + 1)), Running, None)
      else Finalize(t, verdict)
  }

  function ProcessSyncing(s: State, m: Change, verdict: Verdict): Step
    requires s.next.Some? && s.next.value.members != [] && s.next.value.seqNo == s.view.seqNo + 1
  {
    if !m.kind.Sync? || m.seqNo != s.next.value.seqNo then Step(Queue(s, m), Running, None)
    else if m.from != s.next.value.Leader() then Step(s, Running, None)
    else Finalize(s, verdict)
  }

  /** No replica sits on the STOPs of more than f others without having sent its own, nor on
      those of a quorum without leaving; only for f = 0 the second takes one more message. */
  ghost predicate Prompt(s: State) {
    && (s.phase.Stopping? ==> |s.stopped| <= s.view.F())
    && (s.phase.Stopping2? ==> |s.stopped| < s.view.Quorum() || s.view.F() == 0)
  }

  /** What every operation keeps: senders are on record only while STOPs are counted, each
      threshold is acted on, and a next view, one above the current, is chosen before leaving. */
  ghost predicate Inv(s: State) {
    && s.view.members != []
    && Prompt(s)
    && (!s.phase.Stopping? && !s.phase.Stopping2? ==> s.stopped == {})
    && (s.next.Some? ==> s.next.value.members != [] && s.next.value.seqNo == s.view.seqNo + 1
                         && s.next.value.F() >= s.view.F())
    && (s.phase.Leaving() ==> s.next.Some?)
  }

  /** Processing of one message. In `SyncingState` the source does not expect any. */
  ghost function Process(s: State, m: Change, verdict: Verdict): Step
    requires Inv(s) && !s.phase.SyncingState?
  {
    match s.phase
    case Init => Step(Queue(s, m), Nil, None)
    case Stopping => ProcessStopping(s, m)
    case Stopping2 => ProcessStopping(s, m)
    case ViewStopping(received) => ProcessViewStopping(s, m, received)
    case ViewStopping2(received) => ProcessViewStopping(s, m, received)
    case StoppingData(_) => ProcessStoppingData(s, m, verdict)
    case Syncing => ProcessSyncing(s, m, verdict)
  }

  function Cleared(s: State): State {
    s.(stopped := {}, collects := {}, adding := None, votes := map[])
  }

  /** Client requests timed out here. */
  function TimeOut(s: State): Step {
    match s.phase
    case Stopping => Step(s.(phase := Stopping2), Running, Some(OwnStop(s)))
    case ViewStopping(_) => Step(s.(phase := Stopping2), Running, Some(OwnStop(s)))
    case ViewStopping2(_) => Step(s.(phase := Stopping2), Running, Some(OwnStop(s)))
    case Init => Step(Cleared(s).(phase := Stopping2), Running, Some(OwnStop(s)))
    case SyncingState => Step(Cleared(s).(phase := Stopping2), Running, Some(OwnStop(s)))
    case _ => Step(s, Running, None)
  }

  /** This replica is told to admit a node. */
  function StartJoin(s: State, n: Node): Step {
    if n in s.view.members || !s.phase.Init? then Step(s, Nil, None)
    else Step(Cleared(s).(phase := ViewStopping2(0)), Running, Some(Change(s.me, s.view.seqNo + 1, Join(n))))
  }

  /** What the replica answers when told to admit a node. */
  datatype JoinAnswer =
    | AlreadyPartOfQuorum
    | OnGoingQuorumChange(node: Node)
    | OnGoingViewChange
    | InProgress

  function AnswerJoin(s: State, n: Node): (r: JoinAnswer)
    ensures r.InProgress? <==> StartJoin(s, n).sent.Some?
    ensures r.AlreadyPartOfQuorum? <==> n in s.view.members
  {
    if n in s.view.members then AlreadyPartOfQuorum
    else if s.phase.Init? then InProgress
    else if s.phase.Leaving() && s.adding.Some? then OnGoingQuorumChange(s.adding.value)
    else OnGoingViewChange
  }

  lemma QueueKeeps(s: State, m: Change)
    requires Inv(s)
    ensures Inv(Queue(s, m))
  {
    hide File;
  }

  lemma QueueSame(s: State, m: Change)
    ensures var t := Queue(s, m);
            t.me == s.me && t.view == s.view && t.next == s.next && t.phase == s.phase && t.stopped == s.stopped
  {
    hide File;
  }

  lemma FinalizeKeeps(s: State, verdict: Verdict)
    requires Inv(s) && s.phase.Leaving()
    ensures Inv(Finalize(s, verdict).state)
  {
  }

  lemma StoppingKeeps(s: State, m: Change)
    requires Inv(s) && (s.phase.Stopping? || s.phase.Stopping2?)
    ensures Inv(ProcessStopping(s, m).state)
  {
    hide Queue, NextView, View.F, View.Leader;
    QueueKeeps(s, m);
  }

  lemma ViewStoppingKeeps(s: State, m: Change, received: nat)
    requires Inv(s) && (s.phase.ViewStopping? || s.phase.ViewStopping2?)
    ensures Inv(ProcessViewStopping(s, m, received).state)
  {
    hide Queue, NextViewWithNode, View.F, View.Quorum, View.Leader, Top, Record;
    QueueKeeps(s, m);
    QueueSame(s, m);
  }

  lemma ProcessKeeps(s: State, m: Change, verdict: Verdict)
    requires Inv(s) && !s.phase.SyncingState?
    ensures Inv(Process(s, m, verdict).state)
  {
    hide Inv, Queue, ProcessStopping, ProcessViewStopping, Finalize;
    QueueKeeps(s, m);
    match s.phase {
      case Init =>
      case Stopping => StoppingKeeps(s, m);
      case Stopping2 => StoppingKeeps(s, m);
      case ViewStopping(received) => ViewStoppingKeeps(s, m, received);
      case ViewStopping2(received) => ViewStoppingKeeps(s, m, received);
      case StoppingData(_) => StoppingDataKeeps(s, m, verdict);
      case Syncing => FinalizeKeeps(s, verdict);
    }
  }

  lemma StoppingDataKeeps(s: State, m: Change, verdict: Verdict)
    requires Inv(s) && s.phase.StoppingData?
    ensures Inv(ProcessStoppingData(s, m, verdict).state)
  {
    hide Queue, Finalize, View.F, View.Quorum, View.Leader, NewView;
    QueueKeeps(s, m);
    FinalizeKeeps(s.(collects := s.collects + {m.from}), verdict);
  }

  lemma NoneStopped(s: State)
    requires Inv(s) && !s.phase.Stopping? && !s.phase.Stopping2?
    ensures s.stopped == {}
  {
  }

  lemma PollKeeps(s: State)
    requires Inv(s)
    ensures Inv(Poll(s).0)
  {
  }

  lemma TriggerKeeps(s: State, n: Node)
    requires Inv(s)
    ensures Inv(TimeOut(s).state) && Inv(StartJoin(s, n).state)
  {
  }

  // A quorum of STOPs is noticed at once exactly if f >= 1, or nobody else is there to ask

  ghost predicate LeavesAtQuorum(s: State, v: View) {
    s.view == v && |s.stopped| >= v.Quorum() ==> s.phase.Leaving()
  }

  /** With f = 0 the first STOP makes a quorum, but is spent on amplification: from the very start,
      a STOP of another member that arrives, waits and is polled leaves the replica with a quorum
      on record, its own STOP sent, and the view not left. */
  lemma AmplifiesWithoutLeaving(me: Node, v: View, m: Change, verdict: Verdict)
    requires v.F() == 0 && me in v.members && m.from in v.members && m.from != me
    requires m.kind.Stop? && m.seqNo == v.seqNo + 1
    ensures var s := Process(Start(me, v), m, verdict).state.(getQueue := true);
            var (t, polled) := Poll(s);
            && polled == NextMessage(m) && Inv(t) && !t.phase.SyncingState? && t.me == me && t.view == v
            && var step := Process(t, m, verdict);
               && step.sent == Some(Change(me, v.seqNo + 1, Stop)) && step.state.stopped == {m.from}
               && step.state.view == v && !LeavesAtQuorum(step.state, v)
  {
  }

  /** In view `v`, the replica processes a message of another member. */
  ghost predicate FromOther(s: State, v: View, m: Change) {
    && Inv(s) && s.view == v && !s.phase.SyncingState?
    && s.me in v.members && m.from in v.members && m.from != s.me
  }

  /** Whatever message of another member a replica of view `v` processes, it does not sit on a
      quorum of STOPs without leaving: exactly if f >= 1 or there is no other member. */
  lemma NoticesQuorumExactly(v: View)
    requires v.members != []
    ensures (forall s, m, verdict :: FromOther(s, v, m) ==> LeavesAtQuorum(Process(s, m, verdict).state, v))
            <==> v.F() >= 1 || forall n :: n in v.members ==> n == v.members[0]
  {
    hide Process, Queue, Poll;
    if v.F() >= 1 {
      forall s, m, verdict | FromOther(s, v, m) ensures LeavesAtQuorum(Process(s, m, verdict).state, v) {
        ProcessKeeps(s, m, verdict);
      }
    } else if n :| n in v.members && n != v.members[0] {
      var m := Change(n, v.seqNo + 1, Stop);
      AmplifiesWithoutLeaving(v.members[0], v, m, NoValue);
      var t := Poll(Process(Start(v.members[0], v), m, NoValue).state.(getQueue := true)).0;
      assert FromOther(t, v, m) && !LeavesAtQuorum(Process(t, m, NoValue).state, v);
    }
  }
}
