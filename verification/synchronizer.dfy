/**
 The view-change state machine of a replica, with the counters it really keeps.
 */
module Synchronizers {
  import opened Messages
  import opened Views
  import opened Slotting
  import opened ViewChanges

  datatype ProtoPhase =
    | PInit
    | PStopping(count: nat)
    | PStopping2(count: nat)
    | PViewStopping(received: nat)
    | PViewStopping2(received: nat)
    | PStoppingData(collected: nat)
    | PSyncing
    | PSyncingState
  {
    function Abs(): Phase {
      match this
      case PInit => Init
      case PStopping(_) => Stopping
      case PStopping2(_) => Stopping2
      case PViewStopping(i) => ViewStopping(i)
      case PViewStopping2(i) => ViewStopping2(i)
      case PStoppingData(i) => StoppingData(i)
      case PSyncing => Syncing
      case PSyncingState => SyncingState
    }
  }

  /** First entry of the vote counts sorted by descending count. */
  method TopVoted(votes: map<Node, set<Node>>) returns (top: Node, count: nat)
    requires votes != map[]
    ensures top == Top(votes) && count == |votes[top]|
  {
    var left := votes.Keys;
    var k :| k in left;
    left, top, count := left - {k}, k, |votes[k]|;
    while left != {}
      invariant left <= votes.Keys && top in votes && count == |votes[top]|
      invariant forall j :: j in votes && j !in left ==> |votes[j]| < count || (|votes[j]| == count && top <= j)
    {
      k :| k in left;
      left := left - {k};
      if |votes[k]| > count || (|votes[k]| == count && k < top) {
        top, count := k, |votes[k]|;
      }
    }
    assert IsTop(votes, top);
    assert IsTop(votes, Top(votes));
  }

  /** The state that begins and ends a view change. Messages that wait for their time go
      through the library's queues, of which slot k holds those for k views further on. */
  class Synchronizer {
    const me: Node
    var phase: ProtoPhase
    var view: View
    var nextView: Option<View>
    var getQueue: bool
    var stop: ViewChanges.Slots
    var stopData: ViewChanges.Slots
    var sync: ViewChanges.Slots
    var stopped: set<Node>
    var currentlyAddingNode: Option<Node>
    var currentlyAdding: map<Node, set<Node>>
    var collects: set<Node>

    ghost function Model(): State
      reads this
    {
      State(me, phase.Abs(), view, nextView, getQueue, stop, stopData, sync, stopped, currentlyAddingNode,
            currentlyAdding, collects)
    }

    /** The STOP counter is the number of distinct senders on record. */
    ghost predicate Counted()
      reads `phase, `stopped
    {
      phase.PStopping? || phase.PStopping2? ==> phase.count == |stopped|
    }

    ghost predicate Valid()
      reads this
    {
      Inv(Model()) && Counted()
    }

    constructor (me: Node, view: View)
      requires view.members != []
      ensures Valid() && Model() == Start(me, view)
    {
      this.me, this.phase, this.view, this.nextView := me, PInit, view, None;
      this.getQueue, this.stop, this.stopData, this.sync := false, [], [], [];
      this.stopped, this.currentlyAddingNode, this.currentlyAdding, this.collects := {}, None, map[], {};
    }

    method Signal()
      requires Valid()
      modifies `getQueue
      ensures Valid() && Model() == old(Model()).(getQueue := true)
    {
      getQueue := true;
    }

    method QueueChange(m: Change)
      modifies `stop, `stopData, `sync
      ensures Model() == Queue(old(Model()), m)
    {
      hide File;
      match m.kind {
        case Stop => stop := File(stop, view, m);
        case Join(_) => stop := File(stop, view, m);
        case StopData => stopData := File(stopData, view, m);
        case Sync => sync := File(sync, view, m);
      }
    }

    method PollStops() returns (r: Polled)
      requires Counted() && (phase.PInit? ==> stopped == {})
      modifies `getQueue, `stop, `phase
      ensures Counted() && (Model(), r) == ViewChanges.PollStops(old(Model()))
    {
      if |stop| > 0 && |stop[0]| > 0 {
        var m := stop[0][0];
        stop := [stop[0][1..]] + stop[1..];
        if phase.PInit? {
          phase := if m.kind.Join? then PViewStopping(0) else PStopping(0);
        }
        return NextMessage(m);
      }
      getQueue := false;
      return Recv;
    }

    method Poll() returns (r: Polled)
      requires Valid()
      modifies this
      ensures Valid() && (Model(), r) == ViewChanges.Poll(old(Model()))
    {
      PollKeeps(Model());
      if phase.PInit? {
        NoneStopped(Model());
      }
      hide Inv, ViewChanges.PollStops;
      if !getQueue {
        return Recv;
      }
      match phase {
        case PStoppingData(_) =>
          if |stopData| > 0 && |stopData[0]| > 0 {
            r := NextMessage(stopData[0][0]);
            stopData := [stopData[0][1..]] + stopData[1..];
          } else {
            getQueue, r := false, Recv;
          }
        case PSyncing =>
          if |sync| > 0 && |sync[0]| > 0 {
            r := NextMessage(sync[0][0]);
            sync := [sync[0][1..]] + sync[1..];
          } else {
            getQueue, r := false, Recv;
          }
        case PSyncingState => r := ResumeViewChange;
        case _ => r := PollStops();
      }
    }

    method ClearVotes()
      modifies `stopped, `collects, `currentlyAddingNode, `currentlyAdding
      ensures Model() == Cleared(old(Model()))
    {
      stopped, collects, currentlyAddingNode, currentlyAdding := {}, {}, None, map[];
    }

    /** Trigger a view change, because of local timeouts or, from `Stopping` and with one more
        sender on record than counted, because of the STOPs of others. */
    method BeginViewChange(timedOut: bool) returns (sent: Option<Change>)
      requires !timedOut ==> phase.PStopping?
      requires if phase.PStopping? || phase.PStopping2? then |stopped| == phase.count + if timedOut then 0 else 1
               else stopped == {}
      modifies this
      ensures Counted()
      ensures (Model(), sent) == (TimeOut(old(Model())).state, TimeOut(old(Model())).sent)
    {
      match phase {
        case PStopping(i) => phase := PStopping2(if timedOut then i else i + 1);
        case PViewStopping(_) => phase := PStopping2(0);
        case PViewStopping2(_) => phase := PStopping2(0);
        case PInit =>
          ClearVotes();
          phase := PStopping2(0);
        case PSyncingState =>
          ClearVotes();
          phase := PStopping2(0);
        case _ => return None;
      }
      sent := Some(Change(me, view.seqNo + 1, Stop));
    }

    /** Local timeouts: the entry point of a view change that starts here. */
    method ClientRequestsTimedOut() returns (sent: Option<Change>)
      requires Valid()
      modifies this
      ensures Valid()
      ensures (Model(), sent) == (TimeOut(old(Model())).state, TimeOut(old(Model())).sent)
    {
      TriggerKeeps(Model(), me);
      sent := BeginViewChange(true);
    }

    method StartJoinQuorum(joining: Node) returns (sent: Option<Change>, answer: JoinAnswer)
      requires Valid()
      modifies this
      ensures Valid() && answer == AnswerJoin(old(Model()), joining)
      ensures (Model(), sent) == (StartJoin(old(Model()), joining).state, StartJoin(old(Model()), joining).sent)
    {
      TriggerKeeps(Model(), joining);
      hide Inv;
      if joining in view.members {
        return None, AlreadyPartOfQuorum;
      }
      match phase {
        case PInit =>
          ClearVotes();
          phase := PViewStopping2(0);
          return Some(Change(me, view.seqNo + 1, Join(joining))), InProgress;
        case PStoppingData(_) => answer := AnswerLeaving();
        case PSyncingState => answer := AnswerLeaving();
        case PSyncing => answer := AnswerLeaving();
        case _ => answer := OnGoingViewChange;
      }
      sent := None;
    }

    method AnswerLeaving() returns (answer: JoinAnswer)
      ensures answer == if currentlyAddingNode.Some? then OnGoingQuorumChange(currentlyAddingNode.value)
                        else OnGoingViewChange
    {
      if currentlyAddingNode.Some? {
        return OnGoingQuorumChange(currentlyAddingNode.value);
      }
      return OnGoingViewChange;
    }

    /** A quorum asks for `next`: the recorded requests are drained, and collects are sent. */
    method HandleStoppingQuorum(next: View)
      requires next.members != []
      modifies `nextView, `stopped, `phase
      ensures Model() == MoveOn(old(Model()), next) && !phase.PStopping? && !phase.PStopping2?
    {
      nextView, stopped := Some(next), {};
      phase := if next.Leader() == me then PStoppingData(0) else PSyncing;
    }

    method ProcessStop(m: Change) returns (report: Report, sent: Option<Change>)
      requires Valid() && (phase.PStopping? || phase.PStopping2?)
      modifies this
      ensures Counted() && Step(Model(), report, sent) == ProcessStopping(old(Model()), m)
    {
      hide Queue;
      var i := phase.count;
      report, sent := StopReport(i, view), None;
      if (m.kind.Stop? || m.kind.Join?) && m.seqNo != view.seqNo + 1 {
        QueueChange(m);
      } else if m.kind.Join? || (m.kind.Stop? && m.from in stopped) {
      } else if !m.kind.Stop? {
        QueueChange(m);
      } else {
        report, sent := CountStop(m);
      }
    }

    method CountStop(m: Change) returns (report: Report, sent: Option<Change>)
      requires Valid() && (phase.PStopping? || phase.PStopping2?)
      requires m.kind.Stop? && m.seqNo == view.seqNo + 1 && m.from !in stopped
      modifies this
      ensures Counted() && Step(Model(), report, sent) == ProcessStopping(old(Model()), m)
    {
      var i := phase.count + 1;
      stopped := stopped + {m.from};
      if phase.PStopping? {
        if i > view.F() {
          sent := BeginViewChange(false);
          return Running, sent;
        }
        phase := PStopping(i);
        return Nil, None;
      }
      if i >= view.Quorum() {
        HandleStoppingQuorum(NextView(view));
      } else {
        phase := PStopping2(i);
      }
      return Running, None;
    }

    method ProcessViewStop(m: Change) returns (report: Report, sent: Option<Change>)
      requires (phase.PViewStopping? || phase.PViewStopping2?) && view.members != [] && stopped == {}
      modifies this
      ensures Counted() && Step(Model(), report, sent) == ProcessViewStopping(old(Model()), m, old(phase.received))
    {
      hide Queue, ProcessJoin;
      report, sent := StopReport(phase.received, view), None;
      if m.kind.Join? && m.seqNo == view.seqNo + 1 {
        report := CountJoin(m);
      } else if m.kind.Stop? && m.seqNo == view.seqNo + 1 {
        QueueChange(m);
        phase := PStopping(0);
        report := Running;
      } else {
        QueueChange(m);
      }
    }

    method CountJoin(m: Change) returns (report: Report)
      requires (phase.PViewStopping? || phase.PViewStopping2?) && view.members != []
      requires m.kind.Join? && m.seqNo == view.seqNo + 1
      modifies `currentlyAdding, `currentlyAddingNode, `nextView, `stopped, `phase
      ensures Step(Model(), report, None) == ProcessJoin(old(Model()), m, old(phase.received) + 1)
      ensures !phase.PStopping? && !phase.PStopping2?
    {
      hide Admit, Record;
      var received := phase.received + 1;
      currentlyAdding := Record(currentlyAdding, m.kind.node, m.from);
      if received >= view.Quorum() {
        phase := PViewStopping(received);
        report := TryAdmit(m.kind.node, received);
      } else {
        phase := PViewStopping2(received);
        report := Running;
      }
    }

    method TryAdmit(node: Node, received: nat) returns (report: Report)
      requires currentlyAdding != map[] && view.members != [] && phase.PViewStopping?
      modifies `currentlyAddingNode, `nextView, `stopped, `phase
      ensures Step(Model(), report, None) == Admit(old(Model()), node, received)
      ensures !phase.PStopping? && !phase.PStopping2?
    {
      var top, count := TopVoted(currentlyAdding);
      report := Running;
      if count >= view.Quorum() {
        currentlyAddingNode := Some(node);
        HandleStoppingQuorum(NextViewWithNode(view, top));
      } else if received >= |view.members| {
        report := Unimplemented;
      }
    }

    method FinalizeViewChange(verdict: Verdict) returns (report: Report)
      requires nextView.Some? && nextView.value.seqNo == view.seqNo + 1 && phase.Abs().Leaving()
      modifies this
      ensures Counted() && Step(Model(), report, None) == Finalize(old(Model()), verdict)
    {
      hide Drop;
      match verdict {
        case NoValue => report := Running;
        case Behind =>
          phase := PSyncingState;
          report := RunCst;
        case Commit => report := AdvanceView();
      }
    }

    method AdvanceView() returns (report: Report)
      requires nextView.Some? && nextView.value.seqNo == view.seqNo + 1
      modifies this
      ensures Counted() && Step(Model(), report, None) == Finalize(old(Model()), Verdict.Commit)
    {
      hide Drop;
      view, nextView, phase := nextView.value, None, PInit;
      stop, stopData, sync := Drop(stop, 1), Drop(stopData, 1), Drop(sync, 1);
      if currentlyAddingNode.Some? {
        report := Joined(currentlyAddingNode.value);
        currentlyAddingNode, currentlyAdding := None, map[];
      } else {
        report := Installed;
      }
    }

    method ProcessStopData(m: Change, verdict: Verdict) returns (report: Report)
      requires Valid() && phase.PStoppingData?
      modifies this
      ensures Counted() && Step(Model(), report, None) == ProcessStoppingData(old(Model()), m, verdict)
    {
      hide Queue, Finalize;
      var next := nextView.value;
      report := Running;
      if !m.kind.StopData? {
        QueueChange(m);
      } else if m.seqNo != next.seqNo {
        if NewView(m.seqNo, |next.members|).Leader() == me {
          QueueChange(m);
        }
      } else if next.Leader() == me && m.from !in collects {
        collects := collects + {m.from};
        if phase.collected + 1 < next.Quorum() {
          phase := PStoppingData(phase.collected + 1);
        } else {
          report := FinalizeViewChange(verdict);
        }
      }
    }

    method ProcessSync(m: Change, verdict: Verdict) returns (report: Report)
      requires Valid() && phase.PSyncing?
      modifies this
      ensures Counted() && Step(Model(), report, None) == ProcessSyncing(old(Model()), m, verdict)
    {
      hide Queue, Finalize;
      report := Running;
      if !m.kind.Sync? || m.seqNo != nextView.value.seqNo {
        QueueChange(m);
      } else if m.from == nextView.value.Leader() {
        report := FinalizeViewChange(verdict);
      }
    }

    /** Advance the state machine with one message. The verdict on the collects, which needs
        the log and the pending requests, comes from outside. */
    method ProcessMessage(m: Change, verdict: Verdict) returns (report: Report, sent: Option<Change>)
      requires Valid() && !phase.PSyncingState?
      modifies this
      ensures Valid() && Step(Model(), report, sent) == Process(old(Model()), m, verdict)
    {
      ProcessKeeps(Model(), m, verdict);
      hide Queue, ProcessStopping, ProcessViewStopping, ProcessStoppingData, ProcessSyncing;
      sent := None;
      match phase {
        case PInit =>
          QueueChange(m);
          report := Nil;
        case PStopping(_) => report, sent := ProcessStop(m);
        case PStopping2(_) => report, sent := ProcessStop(m);
        case PViewStopping(_) => report, sent := ProcessViewStop(m);
        case PViewStopping2(_) => report, sent := ProcessViewStop(m);
        case PStoppingData(_) => report := ProcessStopData(m, verdict);
        case PSyncing => report := ProcessSync(m, verdict);
      }
    }
  }
}
