/**
 View changes that really happen: executions in which replicas time out, ask for the next view,
 and enter it.
 */
module StopScenarios {
  import opened Messages
  import opened Views
  import opened Slotting
  import opened ViewChanges
  import opened Paths
  import S = StopSafety
  import HashSpace
  import Quorums

  // Steps of the system

  ghost function Steps(cfg: S.Config): (S.World, S.Event, S.World) -> bool {
    (w: S.World, e: S.Event, x: S.World) => S.Enabled(cfg, w, e) && S.StepTo(w, e, x)
  }

  ghost predicate CanReach(cfg: S.Config, w: S.World, x: S.World) {
    Reaches(Steps(cfg), w, x)
  }

  lemma ReachesOn(cfg: S.Config, w: S.World, x: S.World, y: S.World)
    requires CanReach(cfg, w, x) && CanReach(cfg, x, y)
    ensures CanReach(cfg, w, y)
  {
    Follow(Steps(cfg), w, x, y);
  }

  lemma CanStay(cfg: S.Config, w: S.World)
    ensures CanReach(cfg, w, w)
  {
    Stays(Steps(cfg), w);
  }

  lemma Steps1(cfg: S.Config, w: S.World, e: S.Event, x: S.World)
    requires S.Enabled(cfg, w, e) && S.StepTo(w, e, x)
    ensures CanReach(cfg, w, x)
  {
    Take(Steps(cfg), w, e, x);
  }

  /** Someone faulty, or anyone with a STOP-DATA or a SYNC, speaks. */
  lemma Says(cfg: S.Config, w: S.World, m: Change) returns (x: S.World)
    requires m.from in cfg.faulty || m.kind.StopData? || m.kind.Sync?
    ensures CanReach(cfg, w, x) && x == w.(sent := w.sent + {m})
  {
    x := w.(sent := w.sent + {m});
    Steps1(cfg, w, S.Inject(m), x);
  }

  /** A step that processes a message, and sends nothing. */
  lemma ReceivesNow(cfg: S.Config, w: S.World, n: Node, m: Change, verdict: Verdict) returns (x: S.World)
    requires n in w.replicas && m in w.sent && Inv(w.replicas[n]) && !w.replicas[n].phase.SyncingState?
    requires Process(w.replicas[n], m, verdict).sent == None
    ensures S.Enabled(cfg, w, S.Receive(n, m, verdict)) && S.StepTo(w, S.Receive(n, m, verdict), x)
    ensures x == w.(replicas := w.replicas[n := Process(w.replicas[n], m, verdict).state])
  {
    hide Process, Inv;
    x := w.(replicas := w.replicas[n := Process(w.replicas[n], m, verdict).state]);
    assert x == S.With(w, n, Process(w.replicas[n], m, verdict).state, None);
  }

  lemma Receives(cfg: S.Config, w: S.World, n: Node, m: Change, verdict: Verdict) returns (x: S.World)
    requires n in w.replicas && m in w.sent && Inv(w.replicas[n]) && !w.replicas[n].phase.SyncingState?
    requires Process(w.replicas[n], m, verdict).sent == None
    ensures CanReach(cfg, w, x) && x == w.(replicas := w.replicas[n := Process(w.replicas[n], m, verdict).state])
  {
    hide Process, Inv, S.Enabled, S.StepTo;
    x := ReceivesNow(cfg, w, n, m, verdict);
    Steps1(cfg, w, S.Receive(n, m, verdict), x);
  }

  /** As before, perhaps sending something. */
  lemma Hears(cfg: S.Config, w: S.World, n: Node, m: Change, verdict: Verdict) returns (x: S.World)
    requires n in w.replicas && m in w.sent && Inv(w.replicas[n]) && !w.replicas[n].phase.SyncingState?
    ensures var step := Process(w.replicas[n], m, verdict);
            && CanReach(cfg, w, x) && x.replicas == w.replicas[n := step.state] && w.sent <= x.sent
            && (step.sent.Some? ==> step.sent.value in x.sent)
  {
    hide Process, Inv;
    x := S.With(w, n, Process(w.replicas[n], m, verdict).state, Process(w.replicas[n], m, verdict).sent);
    Steps1(cfg, w, S.Receive(n, m, verdict), x);
  }

  lemma IsSignalled(cfg: S.Config, w: S.World, n: Node) returns (x: S.World)
    requires n in w.replicas
    ensures CanReach(cfg, w, x) && x == w.(replicas := w.replicas[n := w.replicas[n].(getQueue := true)])
  {
    x := w.(replicas := w.replicas[n := w.replicas[n].(getQueue := true)]);
    Steps1(cfg, w, S.Signal(n), x);
  }

  lemma Polls(cfg: S.Config, w: S.World, n: Node, s: State, m: Change, verdict: Verdict) returns (x: S.World)
    requires n in w.replicas && Poll(w.replicas[n]) == (s, NextMessage(m)) && Inv(s) && !s.phase.SyncingState?
    requires Process(s, m, verdict).sent == None
    ensures CanReach(cfg, w, x) && x == w.(replicas := w.replicas[n := Process(s, m, verdict).state])
  {
    hide Process, Inv, Poll;
    x := w.(replicas := w.replicas[n := Process(s, m, verdict).state]);
    assert w.replicas[n := s][n := Process(s, m, verdict).state] == w.replicas[n := Process(s, m, verdict).state];
    assert x == S.With(S.With(w, n, s, None), n, Process(s, m, verdict).state, None);
    Steps1(cfg, w, S.PollNext(n, verdict), x);
  }

  lemma TimesOut(cfg: S.Config, w: S.World, n: Node) returns (x: S.World)
    requires n in w.replicas
    ensures CanReach(cfg, w, x) && w.sent <= x.sent
    ensures x.replicas == w.replicas[n := TimeOut(w.replicas[n]).state]
    ensures TimeOut(w.replicas[n]).sent.Some? ==> TimeOut(w.replicas[n]).sent.value in x.sent
  {
    var s := w.replicas[n];
    x := S.With(w, n, TimeOut(s).state, TimeOut(s).sent).(timeouts := w.timeouts + {s.view.seqNo + 1});
    Steps1(cfg, w, S.TimedOut(n), x);
  }

  lemma IsTold(cfg: S.Config, w: S.World, n: Node, joining: Node) returns (x: S.World)
    requires n in w.replicas && joining !in w.replicas[n].view.members && w.replicas[n].phase.Init?
    ensures CanReach(cfg, w, x) && x.replicas == w.replicas[n := StartJoin(w.replicas[n], joining).state]
    ensures x.sent == w.sent + {Change(w.replicas[n].me, w.replicas[n].view.seqNo + 1, Join(joining))}
  {
    var s := w.replicas[n];
    x := S.With(w, n, StartJoin(s, joining).state, StartJoin(s, joining).sent).(joins := w.joins + {s.view.seqNo + 1});
    Steps1(cfg, w, S.ToldToAdmit(n, joining), x);
  }

  ghost function Initial(cfg: S.Config): S.World {
    S.World(map n | n in cfg.correct :: Start(n, cfg.first), {}, {}, {})
  }

  lemma Executes(cfg: S.Config, y: S.World) returns (trace: seq<S.World>, events: seq<S.Event>)
    requires cfg.Valid() && CanReach(cfg, Initial(cfg), y)
    ensures S.IsExecution(cfg, trace, events) && trace[|events|] == y
  {
    hide S.Enabled, S.StepTo;
    trace, events :| IsPath(Steps(cfg), trace, events) && trace[0] == Initial(cfg) && trace[|events|] == y;
    forall k | 0 <= k < |events|
      ensures S.Enabled(cfg, trace[k], events[k]) && S.StepTo(trace[k], events[k], trace[k + 1])
    {
      assert Steps(cfg)(trace[k], events[k], trace[k + 1]);
    }
  }

  lemma ExecutesOn(cfg: S.Config, y: S.World, e: S.Event, z: S.World)
    returns (trace: seq<S.World>, events: seq<S.Event>)
    requires cfg.Valid() && CanReach(cfg, Initial(cfg), y) && S.Enabled(cfg, y, e) && S.StepTo(y, e, z)
    ensures S.IsExecution(cfg, trace + [z], events + [e]) && |trace| == |events| + 1 && trace[|events|] == y
  {
    hide S.Enabled, S.StepTo, Initial, CanReach;
    trace, events := Executes(cfg, y);
    var longer, more := trace + [z], events + [e];
    forall k | 0 <= k < |more|
      ensures S.Enabled(cfg, longer[k], more[k]) && S.StepTo(longer[k], more[k], longer[k + 1])
    {
      assert k < |events| ==> longer[k] == trace[k] && longer[k + 1] == trace[k + 1];
    }
  }

  // Nodes

  lemma {:induction false} Enumerate(nodes: set<Node>) returns (q: seq<Node>)
    ensures HashSpace.Distinct(q) && |q| == |nodes| && forall n :: n in q <==> n in nodes
  {
    if nodes == {} {
      q := [];
    } else {
      var n :| n in nodes;
      var rest := Enumerate(nodes - {n});
      q := rest + [n];
    }
  }

  lemma LastApart(qs: seq<Node>)
    requires HashSpace.Distinct(qs) && qs != []
    ensures var rest, q := qs[..|qs| - 1], qs[|qs| - 1];
            qs == rest + [q] && HashSpace.Distinct(rest) && q !in rest && forall p :: p in qs <==> p in rest || p == q
  {
  }

  /** Distinct correct members other than `me`, as many as one likes up to 2f. */
  lemma OtherCorrect(cfg: S.Config, me: Node, count: nat) returns (ns: seq<Node>)
    requires Deployed(cfg) && me in cfg.correct && me in cfg.first.members && count <= 2 * cfg.first.F()
    ensures HashSpace.Distinct(ns) && |ns| == count && forall n :: n in ns ==> n in Others(cfg, me)
  {
    OthersCount(cfg, me);
    var chosen := Quorums.SubsetOfSize(Others(cfg, me), count);
    ns := Enumerate(chosen);
  }

  /** A view over the first identifiers, as the program builds it, with f >= 1, whose members are
      faulty or correct. */
  ghost predicate Deployed(cfg: S.Config) {
    var v := cfg.first;
    && cfg.Valid() && v.F() >= 1 && v == NewView(v.seqNo, |v.members|)
    && (forall n :: n in v.members ==> n in cfg.faulty || n in cfg.correct)
  }

  /** The correct members other than `me`. */
  ghost function Others(cfg: S.Config, me: Node): set<Node> {
    cfg.first.MemberSet() - cfg.faulty - {me}
  }

  lemma CountWithout(all: set<Node>, faulty: set<Node>, me: Node)
    ensures |all - faulty - {me}| >= |all| - |faulty| - 1
  {
    assert all == (all - faulty) + (all * faulty);
    Quorums.SubsetCount(all * faulty, faulty);
    assert all - faulty <= (all - faulty - {me}) + {me};
    Quorums.SubsetCount(all - faulty, (all - faulty - {me}) + {me});
  }

  lemma OthersCount(cfg: S.Config, me: Node)
    requires Deployed(cfg)
    ensures |Others(cfg, me)| >= 2 * cfg.first.F() && forall n :: n in Others(cfg, me) ==> n in cfg.correct && n != me
  {
    DistinctCount(cfg.first.members);
    CountWithout(cfg.first.MemberSet(), cfg.faulty, me);
    assert |cfg.first.members| >= 3 * cfg.first.F() + 1;
    hide View.F, NewView;
  }

  // Asking for the next view

  function StopOf(n: Node, v: View): Change {
    Change(n, v.seqNo + 1, Stop)
  }

  /** In view `v`, and not leaving it. */
  ghost predicate Ready(s: State, n: Node, v: View) {
    && s.me == n && s.view == v && Inv(s)
    && (s.phase.Init? || (s.phase.ViewStopping2? && s.collects == {}))
  }

  /** In view `v`, having just asked for the next. */
  ghost predicate Asked(s: State, n: Node, v: View) {
    s.me == n && s.view == v && Inv(s) && s.phase.Stopping2? && s.stopped == {} && s.collects == {}
  }

  ghost predicate AllReady(w: S.World, ns: seq<Node>, v: View) {
    forall n :: n in ns ==> n in w.replicas && Ready(w.replicas[n], n, v)
  }

  ghost predicate AllAsked(w: S.World, ns: seq<Node>, v: View) {
    forall n :: n in ns ==> n in w.replicas && Asked(w.replicas[n], n, v) && StopOf(n, v) in w.sent
  }

  /** From `w` to `x`, only the replicas `ns` moved. */
  ghost predicate OnlyThese(w: S.World, x: S.World, ns: seq<Node>) {
    && w.sent <= x.sent && x.replicas.Keys == w.replicas.Keys
    && (forall n :: n in w.replicas && n !in ns ==> x.replicas[n] == w.replicas[n])
  }

  lemma Asks(s: State, n: Node, v: View)
    requires Ready(s, n, v)
    ensures Asked(TimeOut(s).state, n, v) && TimeOut(s).sent == Some(StopOf(n, v))
    ensures TimeOut(s).state.stop == s.stop
  {
  }

  lemma {:induction false} AllAsk(cfg: S.Config, w: S.World, ns: seq<Node>, v: View) returns (y: S.World)
    requires HashSpace.Distinct(ns) && AllReady(w, ns, v)
    ensures CanReach(cfg, w, y) && AllAsked(y, ns, v) && OnlyThese(w, y, ns)
  {
    hide CanReach, Ready, Asked, TimeOut;
    if ns == [] {
      y := w;
      CanStay(cfg, w);
    } else {
      var rest, n := ns[..|ns| - 1], ns[|ns| - 1];
      assert forall k :: k in ns <==> k in rest || k == n;
      var u := AllAsk(cfg, w, rest, v);
      assert n !in rest && u.replicas[n] == w.replicas[n];
      Asks(w.replicas[n], n, v);
      y := TimesOut(cfg, u, n);
      ReachesOn(cfg, w, u, y);
    }
  }

  lemma CountsStop(s: State, n: Node)
    requires Inv(s) && s.phase.Stopping2? && n !in s.stopped && |s.stopped| + 1 < s.view.Quorum()
    ensures Process(s, StopOf(n, s.view), NoValue) == Step(s.(stopped := s.stopped + {n}), Running, None)
    ensures Inv(s.(stopped := s.stopped + {n}))
  {
    ProcessKeeps(s, StopOf(n, s.view), NoValue);
  }

  lemma LastStop(s: State, n: Node)
    requires Inv(s) && s.phase.Stopping2? && n !in s.stopped && |s.stopped| + 1 == s.view.Quorum()
    ensures var t := MoveOn(s, NextView(s.view));
            Process(s, StopOf(n, s.view), NoValue) == Step(t, Running, None) && Inv(t)
  {
    ProcessKeeps(s, StopOf(n, s.view), NoValue);
  }

  lemma {:induction false} StopsArrive(cfg: S.Config, w: S.World, me: Node, s: State, qs: seq<Node>)
    returns (y: S.World)
    requires me in w.replicas && w.replicas[me] == s && Inv(s) && s.phase.Stopping2? && s.stopped == {}
    requires HashSpace.Distinct(qs) && |qs| < s.view.Quorum() && forall n :: n in qs ==> StopOf(n, s.view) in w.sent
    ensures CanReach(cfg, w, y) && y.sent == w.sent && Inv(s.(stopped := NodeSet(qs)))
    ensures y.replicas == w.replicas[me := s.(stopped := NodeSet(qs))]
  {
    hide CanReach, Process, Inv, View.Quorum, HashSpace.Distinct;
    if qs == [] {
      y := w;
      CanStay(cfg, w);
      assert NodeSet(qs) == {} && s.(stopped := {}) == s;
    } else {
      var rest, n := qs[..|qs| - 1], qs[|qs| - 1];
      LastApart(qs);
      var u := StopsArrive(cfg, w, me, s, rest);
      var t := s.(stopped := NodeSet(rest));
      DistinctCount(rest);
      CountsStop(t, n);
      y := Receives(cfg, u, me, StopOf(n, s.view), NoValue);
      ReachesOn(cfg, w, u, y);
      assert NodeSet(qs) == NodeSet(rest) + {n};
      assert t.(stopped := NodeSet(rest) + {n}) == s.(stopped := NodeSet(qs));
    }
  }

  /** A quorum of STOPs makes the replica wait for the next leader, or for collects. */
  lemma QuorumArrives(cfg: S.Config, w: S.World, me: Node, s: State, qs: seq<Node>) returns (y: S.World)
    requires me in w.replicas && w.replicas[me] == s && Inv(s) && s.phase.Stopping2? && s.stopped == {}
    requires HashSpace.Distinct(qs) && |qs| == s.view.Quorum() && forall n :: n in qs ==> StopOf(n, s.view) in w.sent
    ensures CanReach(cfg, w, y) && y.sent == w.sent
    ensures var t := MoveOn(s, NextView(s.view)); y.replicas == w.replicas[me := t] && Inv(t)
  {
    var rest, n := qs[..|qs| - 1], qs[|qs| - 1];
    hide CanReach, Process, Inv, View.Quorum, NextView;
    var u := StopsArrive(cfg, w, me, s, rest);
    DistinctCount(rest);
    assert n !in rest;
    LastStop(s.(stopped := NodeSet(rest)), n);
    y := Receives(cfg, u, me, StopOf(n, s.view), NoValue);
    ReachesOn(cfg, w, u, y);
    var t := MoveOn(s, NextView(s.view));
    assert t == MoveOn(s.(stopped := NodeSet(rest)), NextView(s.view));
    assert y.replicas == w.replicas[me := t];
  }

  // Entering it

  /** A SYNC of the next leader lets the replica enter. */
  lemma SyncEnters(s: State)
    requires Inv(s) && s.phase.Syncing? && s.next.Some?
    ensures var m := Change(s.next.value.Leader(), s.view.seqNo + 1, Sync);
            var step := Process(s, m, Verdict.Commit);
            step.state == EnterNext(s) && step.sent == None && Inv(EnterNext(s))
  {
    ProcessKeeps(s, Change(s.next.value.Leader(), s.view.seqNo + 1, Sync), Verdict.Commit);
  }

  lemma EntersBySync(cfg: S.Config, w: S.World, n: Node, s: State) returns (y: S.World)
    requires n in w.replicas && w.replicas[n] == s && Inv(s) && s.phase.Syncing? && s.next.Some?
    ensures CanReach(cfg, w, y) && w.sent <= y.sent && y.replicas == w.replicas[n := EnterNext(s)] && Inv(EnterNext(s))
  {
    var m := Change(s.next.value.Leader(), s.view.seqNo + 1, Sync);
    SyncEnters(s);
    hide CanReach, Process, Inv, EnterNext;
    var u := Says(cfg, w, m);
    y := Receives(cfg, u, n, m, Verdict.Commit);
    ReachesOn(cfg, w, u, y);
  }

  function DataOf(n: Node, v: View): Change {
    Change(n, v.seqNo + 1, StopData)
  }

  lemma CountsData(s: State, n: Node)
    requires Inv(s) && s.phase.StoppingData? && s.next.value.Leader() == s.me && n !in s.collects
    ensures var step := Process(s, DataOf(n, s.view), Verdict.Commit);
            var t := s.(collects := s.collects + {n});
            && step.sent == None && Inv(step.state)
            && step.state == if s.phase.collected + 1 < s.next.value.Quorum()
                             then t.(phase := StoppingData(s.phase.collected + 1)) else EnterNext(t)
  {
    ProcessKeeps(s, DataOf(n, s.view), Verdict.Commit);
  }

  /** The next leader collects from `qs`, fewer than a quorum. */
  lemma {:induction false} DataArrives(cfg: S.Config, w: S.World, n: Node, s: State, qs: seq<Node>) returns (y: S.World)
    requires n in w.replicas && w.replicas[n] == s && Inv(s) && s.phase == StoppingData(0)
    requires s.next.value.Leader() == s.me && s.collects == {}
    requires HashSpace.Distinct(qs) && |qs| < s.next.value.Quorum()
    ensures var t := s.(phase := StoppingData(|qs|), collects := NodeSet(qs));
            CanReach(cfg, w, y) && w.sent <= y.sent && y.replicas == w.replicas[n := t] && Inv(t)
  {
    hide CanReach, Process, Inv, View.Quorum, View.Leader;
    if qs == [] {
      y := w;
      CanStay(cfg, w);
      assert NodeSet(qs) == {} && s.(phase := StoppingData(0), collects := {}) == s;
    } else {
      var rest, q := qs[..|qs| - 1], qs[|qs| - 1];
      assert forall k :: k in qs <==> k in rest || k == q;
      var u := DataArrives(cfg, w, n, s, rest);
      var t := s.(phase := StoppingData(|rest|), collects := NodeSet(rest));
      assert q !in rest;
      CountsData(t, q);
      var said := Says(cfg, u, DataOf(q, s.view));
      ReachesOn(cfg, w, u, said);
      y := Receives(cfg, said, n, DataOf(q, s.view), Verdict.Commit);
      ReachesOn(cfg, w, said, y);
      assert NodeSet(qs) == NodeSet(rest) + {q};
    }
  }

  lemma EntersByData(cfg: S.Config, w: S.World, n: Node, s: State, qs: seq<Node>) returns (y: S.World)
    requires n in w.replicas && w.replicas[n] == s && Inv(s) && s.phase == StoppingData(0)
    requires s.next.value.Leader() == s.me && s.collects == {}
    requires HashSpace.Distinct(qs) && |qs| == s.next.value.Quorum()
    ensures var t := EnterNext(s.(collects := NodeSet(qs)));
            CanReach(cfg, w, y) && w.sent <= y.sent && y.replicas == w.replicas[n := t] && Inv(t)
  {
    var rest, q := qs[..|qs| - 1], qs[|qs| - 1];
    hide CanReach, Process, Inv, View.Quorum, View.Leader;
    var u := DataArrives(cfg, w, n, s, rest);
    assert q !in rest;
    var t := s.(phase := StoppingData(|rest|), collects := NodeSet(rest));
    CountsData(t, q);
    var said := Says(cfg, u, DataOf(q, s.view));
    ReachesOn(cfg, w, u, said);
    y := Receives(cfg, said, n, DataOf(q, s.view), Verdict.Commit);
    ReachesOn(cfg, w, said, y);
    assert NodeSet(qs) == NodeSet(rest) + {q};
  }

  /** A replica that asked for the next view enters it. */
  lemma Enters(cfg: S.Config, w: S.World, n: Node, v: View, qs: seq<Node>) returns (y: S.World)
    requires n in w.replicas && Asked(w.replicas[n], n, v)
    requires HashSpace.Distinct(qs) && |qs| == v.Quorum() && forall q :: q in qs ==> StopOf(q, v) in w.sent
    ensures CanReach(cfg, w, y) && w.sent <= y.sent && n in y.replicas && y.replicas == w.replicas[n := y.replicas[n]]
    ensures v.members != [] && Ready(y.replicas[n], n, NextView(v)) && y.replicas[n].phase.Init?
    ensures y.replicas[n].stop == Drop(w.replicas[n].stop, 1)
    ensures n == NextView(v).Leader() ==> y.replicas[n].collects == NodeSet(qs)
  {
    var s := w.replicas[n];
    assert v.members != [] && NextView(v).Quorum() == v.Quorum();
    hide CanReach, View.Quorum, NextView, Drop;
    var u := QuorumArrives(cfg, w, n, s, qs);
    if n == NextView(v).Leader() {
      y := EntersByData(cfg, u, n, u.replicas[n], qs);
    } else {
      y := EntersBySync(cfg, u, n, u.replicas[n]);
    }
    ReachesOn(cfg, w, u, y);
    assert w.replicas[n := u.replicas[n]][n := y.replicas[n]] == w.replicas[n := y.replicas[n]];
  }

  /** All of `ns` have entered view `v`. */
  ghost predicate AllIn(w: S.World, ns: seq<Node>, v: View) {
    forall n :: n in ns ==> n in w.replicas && Ready(w.replicas[n], n, v) && w.replicas[n].phase.Init?
  }

  lemma {:induction false} AllEnter(cfg: S.Config, w: S.World, ns: seq<Node>, v: View, qs: seq<Node>)
    returns (y: S.World)
    requires v.members != [] && HashSpace.Distinct(ns) && AllAsked(w, ns, v)
    requires HashSpace.Distinct(qs) && |qs| == v.Quorum() && forall q :: q in qs ==> StopOf(q, v) in w.sent
    ensures CanReach(cfg, w, y) && AllIn(y, ns, NextView(v)) && OnlyThese(w, y, ns)
  {
    hide CanReach, Ready, Asked, NextView, View.Quorum;
    if ns == [] {
      y := w;
      CanStay(cfg, w);
    } else {
      var rest, n := ns[..|ns| - 1], ns[|ns| - 1];
      assert forall k :: k in ns <==> k in rest || k == n;
      var u := AllEnter(cfg, w, rest, v, qs);
      assert n !in rest && u.replicas[n] == w.replicas[n];
      y := Enters(cfg, u, n, v, qs);
      ReachesOn(cfg, w, u, y);
    }
  }
}
