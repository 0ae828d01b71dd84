/**
 How votes come to be left over: a round of join votes that STOPs cut short, in an execution of
 the whole system, leads into the next view with its votes still on record, and there lets the
 wrong node be reported.
 */
module JoinScenarios {
  import opened Messages
  import opened Views
  import opened Slotting
  import opened ViewChanges
  import opened JoinVotes
  import opened StopScenarios
  import S = StopSafety
  import HashSpace
  import Quorums

  /** The replica `me`, which is watched and does not lead the next view, another correct one, a
      faulty one, and a node that wants to join. */
  ghost predicate Setting(cfg: S.Config, me: Node, x: Node, b: Node, a: Node) {
    var v := cfg.first;
    && Deployed(cfg)
    && me in v.members && me in cfg.correct && me != NextView(v).Leader()
    && x in v.members && x in cfg.correct && x != me
    && b in v.members && b in cfg.faulty && a !in v.members
  }

  /** The watched replica in the middle of a round, with two votes for `a`. */
  function MidRound(v: View, me: Node, x: Node, b: Node, a: Node): State {
    Start(me, v).(getQueue := true, stop := [[]], phase := ViewStopping2(2), votes := map[a := {x, b}])
  }

  lemma FilesJoin(s: State, m: Change, verdict: Verdict)
    requires Inv(s) && s.phase.Init? && s.stop == [] && m.kind.Join? && m.seqNo == s.view.seqNo + 1
    ensures Process(s, m, verdict) == Step(s.(stop := [[m]]), Nil, None)
  {
    assert Slot(s.stop, 0) + [m] == [m] && Drop(s.stop, 1) == [];
    assert Push(s.stop, 0, m) == [[m]];
  }

  lemma PollsJoin(s: State, m: Change)
    requires Inv(s) && s.phase.Init? && s.getQueue && s.stop == [[m]] && m.kind.Join?
    ensures var t := s.(phase := ViewStopping(0), stop := [[]]); Poll(s) == (t, NextMessage(m)) && Inv(t)
  {
    assert s.stop[0][1..] == [] && s.stop[1..] == [];
    assert Rest(s.stop) == [[]];
  }

  lemma CountsJoin(s: State, m: Change, verdict: Verdict)
    requires Inv(s) && InRound(s) && IsJoin(s, m) && Received(s) + 1 < s.view.Quorum()
    ensures Process(s, m, verdict) ==
            Step(s.(votes := Record(s.votes, m.kind.node, m.from), phase := ViewStopping2(Received(s) + 1)),
                 Running, None)
    ensures Inv(Process(s, m, verdict).state)
  {
    ProcessKeeps(s, m, verdict);
  }

  /** A vote arrives at a replica that is idle, waits, and opens a round. */
  lemma RoundOpens(cfg: S.Config, w: S.World, me: Node, s: State, m: Change) returns (y: S.World)
    requires me in w.replicas && m in w.sent && w.replicas[me] == s
    requires Inv(s) && s.phase.Init? && s.stop == [] && IsJoin(s, m) && 1 < s.view.Quorum()
    ensures CanReach(cfg, w, y) && y.sent == w.sent
    ensures var t := s.(getQueue := true, stop := [[]], phase := ViewStopping2(1),
                        votes := Record(s.votes, m.kind.node, m.from));
            y.replicas == w.replicas[me := t] && Inv(t)
  {
    var queued := s.(stop := [[m]], getQueue := true);
    FilesJoin(s, m, NoValue);
    PollsJoin(queued, m);
    CountsJoin(queued.(phase := ViewStopping(0), stop := [[]]), m, NoValue);
    hide CanReach, Process, Poll, Inv, Record;
    var w1 := Receives(cfg, w, me, m, NoValue);
    var w2 := IsSignalled(cfg, w1, me);
    ReachesOn(cfg, w, w1, w2);
    y := Polls(cfg, w2, me, queued.(phase := ViewStopping(0), stop := [[]]), m, NoValue);
    ReachesOn(cfg, w, w2, y);
    assert y.replicas == w.replicas[me := y.replicas[me]];
  }

  function Opened(v: View, me: Node, x: Node, a: Node): State {
    Start(me, v).(getQueue := true, stop := [[]], phase := ViewStopping2(1), votes := Record(map[], a, x))
  }

  lemma SecondVote(v: View, me: Node, x: Node, b: Node, a: Node)
    requires v.members != [] && v.Quorum() >= 3
    ensures var t := Opened(v, me, x, a);
            var step := Process(t, Change(b, v.seqNo + 1, Join(a)), NoValue);
            step.state == MidRound(v, me, x, b, a) && step.sent == None
  {
    var t := Opened(v, me, x, a);
    CountsJoin(t, Change(b, v.seqNo + 1, Join(a)), NoValue);
    assert t.votes[a] == {x} && {x} + {b} == {x, b};
    assert Record(t.votes, a, b) == map[a := {x, b}];
  }

  /** Two votes reach the watched replica. */
  lemma RoundBegins(cfg: S.Config, w: S.World, me: Node, x: Node, b: Node, a: Node) returns (y: S.World)
    requires Setting(cfg, me, x, b, a) && w == Initial(cfg)
    ensures var v := cfg.first;
            && CanReach(cfg, w, y) && x in w.replicas && me in w.replicas
            && y.replicas == w.replicas[x := StartJoin(Start(x, v), a).state][me := MidRound(v, me, x, b, a)]
  {
    var v := cfg.first;
    assert v.Quorum() >= 3 && Inv(Start(me, v));
    var jx, jb := Change(x, v.seqNo + 1, Join(a)), Change(b, v.seqNo + 1, Join(a));
    SecondVote(v, me, x, b, a);
    hide CanReach, View.F, View.Quorum, NewView, NextView, S.Config.Valid, Process, Record, Inv, MidRound;
    var w1 := IsTold(cfg, w, x, a);
    var w2 := Says(cfg, w1, jb);
    ReachesOn(cfg, w, w1, w2);
    var w3 := RoundOpens(cfg, w2, me, Start(me, v), jx);
    ReachesOn(cfg, w, w2, w3);
    y := Receives(cfg, w3, me, jb, NoValue);
    ReachesOn(cfg, w, w3, y);
  }

  /** The others are still in their view. */
  lemma OthersReady(cfg: S.Config, y: S.World, me: Node, x: Node, b: Node, a: Node, others: seq<Node>)
    requires Setting(cfg, me, x, b, a) && forall n :: n in others ==> n in Others(cfg, me)
    requires var v := cfg.first;
             y.replicas == Initial(cfg).replicas[x := StartJoin(Start(x, v), a).state][me := MidRound(v, me, x, b, a)]
    ensures AllReady(y, others, cfg.first)
  {
    OthersCount(cfg, me);
    hide Ready, MidRound, StartJoin, Others, S.Config.Valid;
    forall n | n in others ensures n in y.replicas && Ready(y.replicas[n], n, cfg.first) {
      StartsReady(n, cfg.first, a);
    }
  }

  lemma StartsReady(n: Node, v: View, a: Node)
    requires v.members != []
    ensures Ready(Start(n, v), n, v) && Ready(StartJoin(Start(n, v), a).state, n, v)
  {
  }

  /** The watched replica in the first round of the next view: one message counted, but two voters
      on record. */
  function LeftOver(v: View, me: Node, x: Node, b: Node, a: Node): State
    requires v.members != []
  {
    MidRound(v, me, x, b, a).(view := NextView(v), phase := ViewStopping2(1))
  }

  lemma MidRoundStops(v: View, me: Node, x: Node, b: Node, a: Node)
    requires v.members != []
    ensures var s := MidRound(v, me, x, b, a);
            TimeOut(s) == Step(s.(phase := Stopping2), Running, Some(StopOf(me, v))) && Inv(s.(phase := Stopping2))
  {
  }

  lemma MidRoundEnters(v: View, me: Node, x: Node, b: Node, a: Node)
    requires v.members != [] && me != NextView(v).Leader()
    ensures var s := MoveOn(MidRound(v, me, x, b, a), NextView(v));
            && s.phase.Syncing? && s.next == Some(NextView(v))
            && EnterNext(s) == MidRound(v, me, x, b, a).(view := NextView(v), phase := Init, stop := [])
  {
    var s := MoveOn(MidRound(v, me, x, b, a), NextView(v));
    assert Drop(s.stop, 1) == [] && Drop(s.stopData, 1) == [] && Drop(s.sync, 1) == [];
  }

  /** The next view begins with the votes of the last. */
  lemma NextRoundBegins(cfg: S.Config, w: S.World, me: Node, x: Node, b: Node, a: Node) returns (y: S.World)
    requires Setting(cfg, me, x, b, a) && me in w.replicas
    requires w.replicas[me] == MoveOn(MidRound(cfg.first, me, x, b, a), NextView(cfg.first)) && Inv(w.replicas[me])
    ensures CanReach(cfg, w, y) && w.sent <= y.sent
    ensures y.replicas == w.replicas[me := LeftOver(cfg.first, me, x, b, a)]
    ensures Inv(LeftOver(cfg.first, me, x, b, a))
  {
    var v := cfg.first;
    var s := w.replicas[me];
    var t := MidRound(v, me, x, b, a).(view := NextView(v), phase := Init, stop := []);
    var vote := Change(b, v.seqNo + 2, Join(a));
    assert 1 < NextView(v).Quorum() && b in cfg.faulty;
    MidRoundEnters(v, me, x, b, a);
    hide CanReach, Process, Inv, View.F, View.Quorum, NextView, NewView, S.Config.Valid, EnterNext, MoveOn;
    var w1 := EntersBySync(cfg, w, me, s);
    var w2 := Says(cfg, w1, vote);
    ReachesOn(cfg, w, w1, w2);
    y := RoundOpens(cfg, w2, me, t, vote);
    ReachesOn(cfg, w, w2, y);
    assert Record(t.votes, a, b) == t.votes by { assert {x, b} + {b} == {x, b}; }
    assert y.replicas == w.replicas[me := LeftOver(v, me, x, b, a)];
  }

  /** From the start to a round in the next view with leftover votes; the others have also entered
      that view. */
  lemma LeftOverReached(cfg: S.Config, me: Node, x: Node, b: Node, a: Node, others: seq<Node>) returns (y: S.World)
    requires Setting(cfg, me, x, b, a)
    requires HashSpace.Distinct(others) && forall n :: n in others <==> n in Others(cfg, me)
    ensures CanReach(cfg, Initial(cfg), y) && AllIn(y, others, NextView(cfg.first))
    ensures me in y.replicas && y.replicas[me] == LeftOver(cfg.first, me, x, b, a) && Inv(y.replicas[me])
  {
    var v, w := cfg.first, Initial(cfg);
    MidRoundStops(v, me, x, b, a);
    var w1 := RoundBegins(cfg, w, me, x, b, a);
    OthersReady(cfg, w1, me, x, b, a, others);
    var qs := OtherCorrect(cfg, me, 2 * v.F());
    assert me !in others && me !in qs && v.Quorum() == |qs + [me]|;
    var s := MidRound(v, me, x, b, a);
    assert MoveOn(s.(phase := Stopping2), NextView(v)) == MoveOn(s, NextView(v));
    hide CanReach, Initial, Setting, Inv, View.Quorum, View.F, NextView, LeftOver, MidRound, MoveOn, Others, Asked,
         Ready, TimeOut;
    var w2 := TimesOut(cfg, w1, me);
    ReachesOn(cfg, w, w1, w2);
    var w3 := AllAsk(cfg, w2, others, v);
    ReachesOn(cfg, w, w2, w3);
    var w4 := QuorumArrives(cfg, w3, me, s.(phase := Stopping2), qs + [me]);
    ReachesOn(cfg, w, w3, w4);
    var w5 := NextRoundBegins(cfg, w4, me, x, b, a);
    ReachesOn(cfg, w, w4, w5);
    y := AllEnter(cfg, w5, others, v, qs + [me]);
    ReachesOn(cfg, w, w5, y);
  }

  // Votes go on in the next view

  function JoinOf(n: Node, v: View, a: Node): Change {
    Change(n, v.seqNo + 1, Join(a))
  }

  /** All of `ns` are told to admit `a`, and vote for it. */
  lemma {:induction false} AllTold(cfg: S.Config, w: S.World, ns: seq<Node>, v: View, a: Node) returns (y: S.World)
    requires HashSpace.Distinct(ns) && AllIn(w, ns, v) && a !in v.members
    ensures CanReach(cfg, w, y) && OnlyThese(w, y, ns) && forall n :: n in ns ==> JoinOf(n, v, a) in y.sent
  {
    hide CanReach, Inv, StartJoin;
    if ns == [] {
      y := w;
      CanStay(cfg, w);
    } else {
      var rest, n := ns[..|ns| - 1], ns[|ns| - 1];
      assert forall k :: k in ns <==> k in rest || k == n;
      var u := AllTold(cfg, w, rest, v, a);
      assert n !in rest && u.replicas[n] == w.replicas[n];
      y := IsTold(cfg, u, n, a);
      ReachesOn(cfg, w, u, y);
    }
  }

  /** The leftover round after the votes of `ns`: always one voter more than messages counted. */
  function Going(v: View, me: Node, x: Node, b: Node, a: Node, ns: seq<Node>): State
    requires v.members != []
  {
    LeftOver(v, me, x, b, a).(phase := ViewStopping2(1 + |ns|), votes := map[a := {x, b} + NodeSet(ns)])
  }

  lemma OneMoreVote(v: View, me: Node, x: Node, b: Node, a: Node, ns: seq<Node>, n: Node)
    requires v.members != [] && Inv(Going(v, me, x, b, a, ns)) && 2 + |ns| < NextView(v).Quorum()
    ensures var step := Process(Going(v, me, x, b, a, ns), JoinOf(n, NextView(v), a), NoValue);
            step.state == Going(v, me, x, b, a, ns + [n]) && step.sent == None && Inv(step.state)
  {
    var s := Going(v, me, x, b, a, ns);
    CountsJoin(s, JoinOf(n, NextView(v), a), NoValue);
    assert NodeSet(ns + [n]) == NodeSet(ns) + {n};
    assert {x, b} + NodeSet(ns) + {n} == {x, b} + NodeSet(ns + [n]);
    assert Record(s.votes, a, n) == map[a := {x, b} + NodeSet(ns + [n])];
  }

  lemma {:induction false} VotesArrive(cfg: S.Config, w: S.World, v: View, me: Node, x: Node, b: Node, a: Node,
                                       ns: seq<Node>)
    returns (y: S.World)
    requires v.members != [] && me in w.replicas && w.replicas[me] == LeftOver(v, me, x, b, a) && Inv(w.replicas[me])
    requires 1 + |ns| < NextView(v).Quorum() && forall n :: n in ns ==> JoinOf(n, NextView(v), a) in w.sent
    ensures CanReach(cfg, w, y) && y.sent == w.sent && me in y.replicas
    ensures y.replicas[me] == Going(v, me, x, b, a, ns) && Inv(y.replicas[me])
  {
    if ns == [] {
      y := w;
      CanStay(cfg, w);
      assert {x, b} + NodeSet(ns) == {x, b};
    } else {
      var rest, n := ns[..|ns| - 1], ns[|ns| - 1];
      assert ns == rest + [n];
      hide CanReach, Process, Inv, View.Quorum, NextView, Going;
      var u := VotesArrive(cfg, w, v, me, x, b, a, rest);
      OneMoreVote(v, me, x, b, a, rest, n);
      y := Receives(cfg, u, me, JoinOf(n, NextView(v), a), NoValue);
      ReachesOn(cfg, w, u, y);
    }
  }

  /** The wrong node is reported: `a` has a quorum of voters and is added, but the message that
      completes the count is for `c`. */
  lemma LastVote(v: View, me: Node, x: Node, b: Node, a: Node, c: Node, ns: seq<Node>)
    requires v.F() >= 1 && v.members != [] && c != a && Inv(Going(v, me, x, b, a, ns))
    requires HashSpace.Distinct(ns) && |ns| == 2 * v.F() - 1 && x !in ns && b !in ns && x != b
    ensures var s := Going(v, me, x, b, a, ns);
            var step := Process(s, JoinOf(b, s.view, c), NoValue);
            && step.sent == None && step.state.phase.Leaving()
            && step.state.adding == Some(c) && step.state.next == Some(NextViewWithNode(s.view, a))
    ensures Misreports(Going(v, me, x, b, a, ns), JoinOf(b, NextView(v), c))
  {
    var s := Going(v, me, x, b, a, ns);
    var m := JoinOf(b, s.view, c);
    var votes := Record(s.votes, c, b);
    DistinctCount(ns);
    assert |votes[a]| == s.view.Quorum() by {
      assert |{x, b}| == 2 && {x, b} !! NodeSet(ns);
    }
    assert votes[c] == {b} && |votes[c]| == 1;
    assert Top(votes) == a;
    TakesJoin(s, m, NoValue);
    AddsItsNode(s.view, a);
    AddsItsNode(s.view, c);
  }

  /** Some correct members other than `me` and `x`. */
  lemma Voters(cfg: S.Config, me: Node, x: Node, others: seq<Node>) returns (ns: seq<Node>)
    requires Deployed(cfg) && x in Others(cfg, me)
    requires HashSpace.Distinct(others) && forall n :: n in others <==> n in Others(cfg, me)
    ensures HashSpace.Distinct(ns) && |ns| == 2 * cfg.first.F() - 1 && x !in ns
    ensures forall n :: n in ns ==> n in others && n in cfg.correct
  {
    OthersCount(cfg, me);
    var chosen := Quorums.SubsetOfSize(Others(cfg, me) - {x}, 2 * cfg.first.F() - 1);
    ns := Enumerate(chosen);
  }

  /** From the start to a leftover round in which `a` has a quorum of voters, and the last vote, for
      `c`, is on its way. */
  lemma VotesGo(cfg: S.Config, me: Node, x: Node, b: Node, a: Node, c: Node, others: seq<Node>, ns: seq<Node>)
    returns (y: S.World)
    requires Setting(cfg, me, x, b, a) && 1 + |ns| < NextView(cfg.first).Quorum()
    requires HashSpace.Distinct(others) && forall n :: n in others <==> n in Others(cfg, me)
    requires HashSpace.Distinct(ns) && forall n :: n in ns ==> n in others
    ensures CanReach(cfg, Initial(cfg), y) && JoinOf(b, NextView(cfg.first), c) in y.sent
    ensures me in y.replicas && y.replicas[me] == Going(cfg.first, me, x, b, a, ns) && Inv(y.replicas[me])
  {
    var v := cfg.first;
    NodesDiffer(cfg, me, x, b, a);
    hide CanReach, Initial, Setting, Others, Inv, Process, NextView, Going, LeftOver, Ready, View.Quorum;
    assert me !in ns by { OthersNotMe(cfg, me); }
    var y0 := LeftOverReached(cfg, me, x, b, a, others);
    var y1 := AllTold(cfg, y0, ns, NextView(v), a);
    ReachesOn(cfg, Initial(cfg), y0, y1);
    var y2 := VotesArrive(cfg, y1, v, me, x, b, a, ns);
    ReachesOn(cfg, Initial(cfg), y1, y2);
    y := Says(cfg, y2, JoinOf(b, NextView(v), c));
    ReachesOn(cfg, Initial(cfg), y2, y);
  }

  lemma OthersNotMe(cfg: S.Config, me: Node)
    ensures me !in Others(cfg, me)
  {
  }

  /** Votes that STOPs left over do make a view change report the wrong node. In every setting, and
      for every other node `c`, there is an execution that ends with a replica receiving the vote
      of a member, in a round of join votes, by which it leaves its view to add `a` and reports
      `c`. */
  lemma LeftOverVotesMisreport(cfg: S.Config, me: Node, x: Node, b: Node, a: Node, c: Node)
    returns (trace: seq<S.World>, events: seq<S.Event>, m: Change)
    requires Setting(cfg, me, x, b, a) && c != a
    ensures S.IsExecution(cfg, trace, events) && |events| >= 1 && events[|events| - 1] == S.Receive(me, m, NoValue)
    ensures me in trace[|events| - 1].replicas && me in trace[|events|].replicas
    ensures var s, t := trace[|events| - 1].replicas[me], trace[|events|].replicas[me];
            && m.from in s.view.members && InRound(s) && !Tidy(s) && Misreports(s, m)
            && t.phase.Leaving() && t.adding == Some(c) && t.next == Some(NextViewWithNode(s.view, a))
  {
    hide S.IsExecution, S.Enabled, S.StepTo, CanReach, Initial, Setting, Others, Inv, Process, NextView, Going,
         Misreports, Tidy, View.Quorum, View.F, NextViewWithNode, InRound;
    var v := cfg.first;
    var others := Enumerate(Others(cfg, me));
    NodesDiffer(cfg, me, x, b, a);
    var ns := Voters(cfg, me, x, others);
    QuorumFits(v, ns);
    var s := Going(v, me, x, b, a, ns);
    m := JoinOf(b, NextView(v), c);
    var y := VotesGo(cfg, me, x, b, a, c, others, ns);
    LastVote(v, me, x, b, a, c, ns);
    GoingUntidy(v, me, x, b, a, ns);
    var z := ReceivesNow(cfg, y, me, m, NoValue);
    trace, events := ExecutesOn(cfg, y, S.Receive(me, m, NoValue), z);
    trace, events := trace + [z], events + [S.Receive(me, m, NoValue)];
  }

  lemma QuorumFits(v: View, ns: seq<Node>)
    requires v.members != [] && v.F() >= 1 && |ns| == 2 * v.F() - 1
    ensures 1 + |ns| < NextView(v).Quorum()
  {
  }

  lemma GoingUntidy(v: View, me: Node, x: Node, b: Node, a: Node, ns: seq<Node>)
    requires v.members != [] && HashSpace.Distinct(ns) && x !in ns && b !in ns && x != b
    ensures var s := Going(v, me, x, b, a, ns);
            InRound(s) && !s.phase.SyncingState? && !Tidy(s) && s.view == NextView(v)
  {
    DistinctCount(ns);
    assert |{x, b}| == 2 && {x, b} !! NodeSet(ns);
    var s := Going(v, me, x, b, a, ns);
    assert a in s.votes && |s.votes[a]| == 2 + |ns| > Received(s);
  }

  lemma NodesDiffer(cfg: S.Config, me: Node, x: Node, b: Node, a: Node)
    requires Setting(cfg, me, x, b, a)
    ensures Deployed(cfg) && x != b && b !in Others(cfg, me) && x in Others(cfg, me) && b in cfg.faulty && cfg.Valid()
    ensures cfg.first.F() >= 1 && cfg.first.members != []
    ensures a !in NextView(cfg.first).members && b in NextView(cfg.first).members
  {
  }
}
