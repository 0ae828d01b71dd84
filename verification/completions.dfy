/**
 How view changes end: what the reports say, which verdicts count, whose votes and collects are
 forgotten, and when the members change.
 */
module Completions {
  import opened Messages
  import opened Views
  import opened ViewChanges
  import opened JoinVotes
  import opened Waiting
  import S = StopSafety

  /** A node is being admitted only while the replica leaves its view; the next view has one member
      more exactly then. */
  ghost predicate Settled(s: State) {
    && (s.adding.Some? ==> s.phase.Leaving())
    && (s.phase.Leaving() ==>
          s.next.Some? && |s.next.value.members| == |s.view.members| + if s.adding.Some? then 1 else 0)
  }

  lemma QueueSettled(s: State, m: Change)
    requires Settled(s)
    ensures Settled(Queue(s, m)) && Queue(s, m).adding == s.adding && Queue(s, m).votes == s.votes
  {
    hide File;
  }

  lemma StoppingSettled(s: State, m: Change)
    requires Inv(s) && Settled(s) && (s.phase.Stopping? || s.phase.Stopping2?)
    ensures Settled(ProcessStopping(s, m).state)
  {
    QueueSettled(s, m);
    hide Queue, View.F, View.Leader;
  }

  lemma ViewStoppingSettled(s: State, m: Change, received: nat)
    requires Inv(s) && Settled(s) && InRound(s)
    ensures Settled(ProcessViewStopping(s, m, received).state)
  {
    QueueSettled(s, m);
    QueueSame(s, m);
    hide Queue, View.F, View.Leader, View.Quorum, Admit, Record, Inv;
    if IsJoin(s, m) {
      AdmitSettled(s.(votes := Record(s.votes, m.kind.node, m.from), phase := ViewStopping(received + 1)),
                   m.kind.node, received + 1);
    }
  }

  lemma AdmitSettled(s: State, n: Node, received: nat)
    requires s.view.members != [] && s.votes != map[] && Settled(s) && InRound(s)
    ensures Settled(Admit(s, n, received).state)
  {
    hide View.F, View.Leader, View.Quorum, Top;
  }

  lemma LeavingSettled(s: State, m: Change, verdict: Verdict)
    requires Inv(s) && Settled(s) && (s.phase.StoppingData? || s.phase.Syncing?)
    ensures Settled(Process(s, m, verdict).state)
  {
    QueueSettled(s, m);
    QueueSame(s, m);
    hide Queue, View.F, View.Leader, View.Quorum, NewView;
  }

  lemma ProcessSettled(s: State, m: Change, verdict: Verdict)
    requires Inv(s) && Settled(s) && !s.phase.SyncingState?
    ensures Settled(Process(s, m, verdict).state)
  {
    hide Settled, Inv, Queue, ProcessStopping, ProcessViewStopping;
    if s.phase.StoppingData? || s.phase.Syncing? {
      hide Process;
      LeavingSettled(s, m, verdict);
    } else {
      match s.phase {
        case Init => QueueSettled(s, m);
        case Stopping => StoppingSettled(s, m);
        case Stopping2 => StoppingSettled(s, m);
        case ViewStopping(received) => ViewStoppingSettled(s, m, received);
        case ViewStopping2(received) => ViewStoppingSettled(s, m, received);
      }
    }
  }

  lemma QuietSettled(s: State, n: Node)
    requires Settled(s)
    ensures Settled(Poll(s).0) && Settled(TimeOut(s).state) && Settled(StartJoin(s, n).state)
    ensures Settled(s.(getQueue := true))
  {
    hide Rest;
  }

  lemma StepSettled(cfg: S.Config, w: S.World, e: S.Event, x: S.World, n: Node)
    requires S.WorldInv(cfg, w) && S.Enabled(cfg, w, e) && S.StepTo(w, e, x) && n in w.replicas
    requires Settled(w.replicas[n])
    ensures n in x.replicas && Settled(x.replicas[n])
  {
    var s := w.replicas[n];
    if e.Inject? || e.node != n {
      OthersStay(cfg, w, e, x, n);
    } else {
      assert S.ReplicaOk(cfg, w, n, s);
      InvOf(cfg, w, n, s);
      S.PollOk(cfg, w, n, s);
      InvOf(cfg, w, n, Poll(s).0);
      hide S.WorldInv, S.ReplicaOk, Inv, Process, Poll, Queue, Settled, TimeOut, StartJoin;
      QuietSettled(s, if e.ToldToAdmit? then e.joining else n);
      if e.Receive? {
        ProcessSettled(s, e.message, e.verdict);
      } else if e.PollNext? && Poll(s).1.NextMessage? {
        ProcessSettled(Poll(s).0, Poll(s).1.message, e.verdict);
      } else if e.PutAside? {
        QueueSettled(s, e.message);
      }
    }
  }

  lemma {:induction false} RunsStaySettled(cfg: S.Config, trace: seq<S.World>, events: seq<S.Event>, k: nat, n: Node)
    requires S.IsExecution(cfg, trace, events) && k <= |events| && n in cfg.correct
    ensures n in trace[k].replicas && Settled(trace[k].replicas[n])
  {
    hide S.Enabled, S.StepTo, S.WorldInv;
    if k > 0 {
      hide Settled;
      RunsStaySettled(cfg, trace, events, k - 1, n);
      S.ReachableOk(cfg, trace, events, k - 1);
      StepSettled(cfg, trace[k - 1], events[k - 1], trace[k], n);
    }
  }

  // The last message of a view change

  /** The message with which the replica has all that it waited for. */
  predicate Completes(s: State, m: Change)
    requires s.phase.Syncing? || s.phase.StoppingData? ==> s.next.Some? && s.next.value.members != []
  {
    || (s.phase.Syncing? && m == SyncFor(s))
    || (s.phase.StoppingData? && IsFresh(s, m) && s.next.value.Leader() == s.me
        && s.phase.collected + 1 >= s.next.value.Quorum())
  }

  lemma CompletesDefined(s: State)
    requires Inv(s)
    ensures s.phase.Syncing? || s.phase.StoppingData? ==> s.next.Some? && s.next.value.members != []
  {
  }

  /** How the step relates to its verdict. */
  ghost predicate Ends(s: State, m: Change, verdict: Verdict, step: Step)
    requires s.phase.Syncing? || s.phase.StoppingData? ==> s.next.Some? && s.next.value.members != []
  {
    && (step.state.view != s.view <==> Completes(s, m) && verdict.Commit?)
    && (step.state.view != s.view ==>
          s.next.Some? && step.state.view == s.next.value && step.state.phase.Init?)
    && (step.state.phase.SyncingState? <==> Completes(s, m) && verdict.Behind?)
    && (step.report.RunCst? <==> step.state.phase.SyncingState?)
  }

  lemma FinalizeEnds(s: State, t: State, m: Change, verdict: Verdict)
    requires s.phase.Syncing? || s.phase.StoppingData? ==> s.next.Some? && s.next.value.members != []
    requires Completes(s, m) && t.view == s.view && t.next == s.next && !t.phase.SyncingState?
    requires s.next.Some? && s.next.value.seqNo == s.view.seqNo + 1
    ensures Ends(s, m, verdict, Finalize(t, verdict))
  {
    hide Completes;
  }

  lemma CollectingEnds(s: State, m: Change, verdict: Verdict)
    requires Inv(s) && s.phase.StoppingData?
    ensures s.next.Some? && s.next.value.members != []
    ensures Ends(s, m, verdict, ProcessStoppingData(s, m, verdict))
  {
    QueueSame(s, m);
    if Completes(s, m) {
      FinalizeEnds(s, s.(collects := s.collects + {m.from}), m, verdict);
    }
    hide Queue, View.F, View.Leader, View.Quorum, NewView, Finalize;
  }

  lemma SyncingEnds(s: State, m: Change, verdict: Verdict)
    requires Inv(s) && s.phase.Syncing?
    ensures s.next.Some? && s.next.value.members != []
    ensures Ends(s, m, verdict, ProcessSyncing(s, m, verdict))
  {
    QueueSame(s, m);
    if Completes(s, m) {
      FinalizeEnds(s, s, m, verdict);
    }
    hide Queue, View.F, View.Leader, Finalize;
  }

  /** The step does not end a view change. */
  predicate GoesOn(s: State, step: Step) {
    && step.state.view == s.view && !step.state.phase.SyncingState?
    && (step.report.Nil? || step.report.Running? || step.report.Unimplemented?)
  }

  lemma StoppingGoesOn(s: State, m: Change)
    requires s.view.members != [] && (s.phase.Stopping? || s.phase.Stopping2?)
    ensures GoesOn(s, ProcessStopping(s, m))
  {
    QueueSame(s, m);
    hide Queue, View.F, View.Leader, View.Quorum, NextView;
  }

  lemma RoundGoesOn(s: State, m: Change, received: nat)
    requires s.view.members != [] && InRound(s)
    ensures GoesOn(s, ProcessViewStopping(s, m, received))
  {
    QueueSame(s, m);
    hide Queue, View.F, View.Leader, View.Quorum, NextViewWithNode, Top, Record;
  }

  lemma BeforeGoesOn(s: State, m: Change, verdict: Verdict)
    requires Inv(s) && !s.phase.Leaving()
    ensures GoesOn(s, Process(s, m, verdict))
  {
    hide ProcessStopping, ProcessViewStopping, Queue, View.F;
    match s.phase {
      case Init => QueueSame(s, m);
      case Stopping => StoppingGoesOn(s, m);
      case Stopping2 => StoppingGoesOn(s, m);
      case ViewStopping(received) => RoundGoesOn(s, m, received);
      case ViewStopping2(received) => RoundGoesOn(s, m, received);
    }
  }

  /** Before a replica leaves its view, no verdict counts. */
  lemma NothingEnds(s: State, m: Change, verdict: Verdict)
    requires Inv(s) && !s.phase.Leaving()
    ensures Ends(s, m, verdict, Process(s, m, verdict))
  {
    hide Process, Inv;
    BeforeGoesOn(s, m, verdict);
  }

  /** A view change ends exactly with that message, and as the verdict says: in the next view, in
      waiting for state, or not at all. */
  lemma EndsExactly(s: State, m: Change, verdict: Verdict)
    requires Inv(s) && !s.phase.SyncingState?
    ensures s.phase.Syncing? || s.phase.StoppingData? ==> s.next.Some? && s.next.value.members != []
    ensures Ends(s, m, verdict, Process(s, m, verdict))
  {
    CompletesDefined(s);
    hide Inv, Ends, ProcessStoppingData, ProcessSyncing;
    if s.phase.StoppingData? {
      CollectingEnds(s, m, verdict);
    } else if s.phase.Syncing? {
      SyncingEnds(s, m, verdict);
    } else {
      hide Process;
      NothingEnds(s, m, verdict);
    }
  }

  /** How the report relates to the members and the votes. */
  ghost predicate Tells(s: State, step: Step) {
    var t := step.state;
    && (step.report.Installed? <==> t.view != s.view && |t.view.members| == |s.view.members|)
    && (step.report.Joined? <==> t.view != s.view && |t.view.members| == |s.view.members| + 1)
    && (step.report.Joined? ==> s.adding == Some(step.report.node) && t.votes == map[])
    && (step.report.Installed? ==> t.votes == s.votes)
    && (t.view != s.view ==> t.adding == None)
  }

  lemma StaysTells(s: State, step: Step)
    requires step.state.view == s.view && !step.report.Installed? && !step.report.Joined?
    ensures Tells(s, step)
  {
  }

  lemma FinalizeTells(s: State, t: State, verdict: Verdict)
    requires Settled(s) && s.phase.Leaving() && s.next.value.seqNo == s.view.seqNo + 1
    requires t.view == s.view && t.next == s.next && t.adding == s.adding && t.votes == s.votes
    ensures Tells(s, Finalize(t, verdict))
  {
  }

  lemma LeavingTells(s: State, m: Change, verdict: Verdict)
    requires Inv(s) && Settled(s) && (s.phase.StoppingData? || s.phase.Syncing?)
    ensures Tells(s, Process(s, m, verdict))
  {
    QueueSame(s, m);
    FinalizeTells(s, s, verdict);
    FinalizeTells(s, s.(collects := s.collects + {m.from}), verdict);
    hide Queue, View.F, View.Leader, View.Quorum, NewView, Finalize, Tells, Settled;
    var step := Process(s, m, verdict);
    if step.state.view == s.view && !step.report.Installed? && !step.report.Joined? {
      StaysTells(s, step);
    }
  }

  lemma BeforeTells(s: State, m: Change, verdict: Verdict)
    requires Inv(s) && !s.phase.Leaving()
    ensures Tells(s, Process(s, m, verdict))
  {
    hide Process, Inv, Tells;
    BeforeGoesOn(s, m, verdict);
    StaysTells(s, Process(s, m, verdict));
  }

  /** What the report of a view change means, and what the next round of join votes starts from. A
      view reported as installed has as many members as before, one reported as joined one more;
      only then are the votes forgotten. */
  lemma ReportsMembersExactly(s: State, m: Change, verdict: Verdict)
    requires Inv(s) && Settled(s) && !s.phase.SyncingState?
    ensures Tells(s, Process(s, m, verdict))
  {
    hide Process, Tells, Settled, Inv;
    if s.phase.Leaving() {
      LeavingTells(s, m, verdict);
    } else {
      BeforeTells(s, m, verdict);
    }
  }

  // Beginning

  /** The switch to the view-change phase: a replica is busy with a view change once more than f
      STOPs are on record, or its own STOP is out and another one counts. */
  lemma StopsReportExactly(s: State, m: Change, verdict: Verdict)
    requires Inv(s) && (s.phase.Stopping? || s.phase.Stopping2?)
    ensures var step := Process(s, m, verdict);
            step.report == Running <==>
              || |step.state.stopped| > s.view.F() || step.state.phase.Leaving()
              || (s.phase.Stopping2? && step.state.stopped != s.stopped)
    ensures Process(s, m, verdict).report == Running || Process(s, m, verdict).report == Nil
  {
    QueueSame(s, m);
    hide Queue, View.F, NextView;
  }

  /** The same in a round of join votes, of which the first one counts. */
  lemma RoundReportsExactly(s: State, m: Change, verdict: Verdict)
    requires Inv(s) && InRound(s)
    ensures var step := Process(s, m, verdict);
            step.report == Nil <==>
              Received(s) <= s.view.F() && !((m.kind.Stop? || m.kind.Join?) && m.seqNo == s.view.seqNo + 1)
  {
    hide Queue, View.F, View.Quorum, View.Leader, NextViewWithNode, Top, Record;
  }

  /** STOPs take precedence: one for the next view ends a round of join votes, and nothing else
      makes the replica count STOPs instead. */
  lemma StopEndsRoundExactly(s: State, m: Change, verdict: Verdict)
    requires Inv(s) && InRound(s)
    ensures Process(s, m, verdict).state.phase == Stopping <==> m.kind.Stop? && m.seqNo == s.view.seqNo + 1
  {
    QueueSame(s, m);
    hide Queue, View.F, View.Quorum, View.Leader, NextViewWithNode, Top, Record;
  }

  /** Nothing is on record of any view change. */
  predicate Clean(s: State) {
    s.stopped == {} && s.collects == {} && s.votes == map[] && s.adding == None
  }

  /** A timeout makes the replica ask for the next view exactly if it has not asked yet. From
      rest, or from waiting for state, it starts clean; otherwise what is on record stays. */
  lemma TimeOutAsksExactly(s: State)
    ensures var step := TimeOut(s);
            && (step.sent.Some? <==> !s.phase.Stopping2? && !s.phase.StoppingData? && !s.phase.Syncing?)
            && (step.sent.Some? ==> step.state.phase == Stopping2 && step.sent.value == StopFor(s))
            && (step.sent.None? ==> step.state == s)
            && (s.phase.Init? || s.phase.SyncingState? ==> Clean(step.state))
            && (!s.phase.Init? && !s.phase.SyncingState? ==>
                  step.state.stopped == s.stopped && step.state.collects == s.collects && step.state.votes == s.votes)
            && step.state.view == s.view
  {
  }

  function StopFor(s: State): Change {
    Change(s.me, s.view.seqNo + 1, Stop)
  }

  /** A replica that is told to admit a node begins a round exactly if the node is new and it is at
      rest. That round is clean, so that, whatever messages follow, it reports the node it adds. */
  lemma ToldRoundReportsTop(s: State, n: Node, ms: seq<Change>, m: Change)
    requires Inv(s)
    ensures var step := StartJoin(s, n);
            && (step.sent.Some? <==> n !in s.view.members && s.phase.Init?)
            && (step.sent.None? ==> step.state == s)
            && (step.sent.Some? ==>
                  && step.sent.value == Change(s.me, s.view.seqNo + 1, Join(n))
                  && InRound(step.state) && Received(step.state) == 0 && Clean(step.state)
                  && step.state.view == s.view && step.state.view.members != []
                  && !Misreports(After(step.state, ms), m))
  {
    if n !in s.view.members && s.phase.Init? {
      var t := StartJoin(s, n).state;
      assert InRound(t) && t.votes == map[] && t.view == s.view;
      hide After, Misreports, TakeJoin, NextViewWithNode;
      CleanRoundReportsTop(t, ms, m);
    }
  }

  /** What the replica answers when told to admit a node: which change is under way, and for whom. */
  lemma AnswersExactly(s: State, n: Node)
    requires Inv(s) && Settled(s)
    ensures var r := AnswerJoin(s, n);
            && (r == AlreadyPartOfQuorum <==> n in s.view.members)
            && (r == InProgress <==> n !in s.view.members && s.phase.Init?)
            && (r.OnGoingQuorumChange? <==>
                  n !in s.view.members && s.phase.Leaving() && |s.next.value.members| == |s.view.members| + 1)
            && (r.OnGoingQuorumChange? ==> s.adding == Some(r.node))
  {
    hide View.F;
  }
}
