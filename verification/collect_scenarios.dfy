/**
 How a leader gets stuck: an execution of the whole system in which a replica leads a view change,
 is carried by others through one view after the other until it leads again, and finds everyone
 it could collect from already on record.
 */
module CollectScenarios {
  import opened Messages
  import opened Views
  import opened Slotting
  import opened ViewChanges
  import opened StopScenarios
  import opened Collecting
  import JoinVotes
  import S = StopSafety
  import HashSpace
  import Quorums

  // The watched replica is carried into a view change by the STOPs of others

  /** Idle in view `v`, with the senders `c` still on record. */
  ghost predicate Watched(s: State, me: Node, v: View, c: set<Node>) {
    s.me == me && s.view == v && Inv(s) && s.phase.Init? && s.stop == [] && s.collects == c
  }

  /** The replica after STOPs of `qs`; with more than f of them it has sent its own. */
  function Amplified(s: State, qs: seq<Node>): State {
    s.(getQueue := true, stop := [[]], stopped := NodeSet(qs),
       phase := if |qs| > s.view.F() then Stopping2 else Stopping)
  }

  lemma FirstStopFiled(s: State, q: Node)
    requires Inv(s) && s.phase.Init? && s.stop == []
    ensures Process(s, StopOf(q, s.view), NoValue) == Step(s.(stop := [[StopOf(q, s.view)]]), Nil, None)
  {
    var m := StopOf(q, s.view);
    assert Slot(s.stop, 0) + [m] == [m] && Drop(s.stop, 1) == [];
    assert Push(s.stop, 0, m) == [[m]];
  }

  lemma FirstStopPolled(s: State, q: Node)
    requires Inv(s) && s.phase.Init? && s.stop == [] && s.view.F() >= 1
    ensures var t := s.(stop := [[StopOf(q, s.view)]], getQueue := true);
            var u := s.(getQueue := true, stop := [[]], phase := Stopping);
            && Poll(t) == (u, NextMessage(StopOf(q, s.view))) && Inv(u)
            && Process(u, StopOf(q, s.view), NoValue) == Step(Amplified(s, [q]), Nil, None)
            && Inv(Amplified(s, [q]))
  {
    var t := s.(stop := [[StopOf(q, s.view)]], getQueue := true);
    assert t.stop[0][1..] == [] && t.stop[1..] == [];
    assert Rest(t.stop) == [[]];
    assert {} + {q} == NodeSet([q]);
    ProcessKeeps(s.(getQueue := true, stop := [[]], phase := Stopping), StopOf(q, s.view), NoValue);
  }

  lemma FirstStop(cfg: S.Config, w: S.World, me: Node, s: State, q: Node) returns (y: S.World)
    requires me in w.replicas && w.replicas[me] == s && Inv(s) && s.phase.Init? && s.stop == [] && s.view.F() >= 1
    requires StopOf(q, s.view) in w.sent
    ensures CanReach(cfg, w, y) && y.sent == w.sent && y.replicas == w.replicas[me := Amplified(s, [q])]
    ensures Inv(Amplified(s, [q]))
  {
    FirstStopFiled(s, q);
    FirstStopPolled(s, q);
    hide CanReach, Process, Poll, Inv, View.F, Amplified;
    var w1 := Receives(cfg, w, me, StopOf(q, s.view), NoValue);
    var w2 := IsSignalled(cfg, w1, me);
    ReachesOn(cfg, w, w1, w2);
    var u := s.(getQueue := true, stop := [[]], phase := Stopping);
    y := Polls(cfg, w2, me, u, StopOf(q, s.view), NoValue);
    ReachesOn(cfg, w, w2, y);
    assert y.replicas == w.replicas[me := Amplified(s, [q])];
  }

  lemma NextStop(s: State, qs: seq<Node>, q: Node)
    requires Inv(Amplified(s, qs)) && q !in qs && HashSpace.Distinct(qs) && 1 <= |qs| < 2 * s.view.F()
    ensures var step := Process(Amplified(s, qs), StopOf(q, s.view), NoValue);
            && step.state == Amplified(s, qs + [q]) && Inv(step.state)
            && step.sent == if |qs| == s.view.F() then Some(StopOf(s.me, s.view)) else None
  {
    ProcessKeeps(Amplified(s, qs), StopOf(q, s.view), NoValue);
    DistinctCount(qs);
    assert NodeSet(qs + [q]) == NodeSet(qs) + {q};
    assert |NodeSet(qs) + {q}| == |qs| + 1;
    hide NextView, Inv;
  }

  /** As many STOPs as there may be without a quorum; beyond f the replica adds its own. */
  lemma {:induction false} StopsCarry(cfg: S.Config, w: S.World, me: Node, s: State, qs: seq<Node>) returns (y: S.World)
    requires me in w.replicas && w.replicas[me] == s && Inv(s) && s.phase.Init? && s.stop == []
    requires HashSpace.Distinct(qs) && 1 <= |qs| <= 2 * s.view.F()
    requires forall q :: q in qs ==> StopOf(q, s.view) in w.sent
    ensures CanReach(cfg, w, y) && w.sent <= y.sent && y.replicas == w.replicas[me := Amplified(s, qs)]
    ensures Inv(Amplified(s, qs)) && (|qs| > s.view.F() ==> StopOf(s.me, s.view) in y.sent)
  {
    hide CanReach, Inv, View.F, Amplified, HashSpace.Distinct;
    var rest, q := qs[..|qs| - 1], qs[|qs| - 1];
    LastApart(qs);
    if |qs| == 1 {
      y := FirstStop(cfg, w, me, s, q);
      assert qs == [q];
      assert s.view.F() >= 1;
    } else {
      var u := StopsCarry(cfg, w, me, s, rest);
      y := OneStopMore(cfg, u, me, s, rest, q);
      ReachesOn(cfg, w, u, y);
      assert y.replicas == w.replicas[me := Amplified(s, qs)];
    }
  }

  lemma OneStopMore(cfg: S.Config, w: S.World, me: Node, s: State, qs: seq<Node>, q: Node) returns (y: S.World)
    requires me in w.replicas && w.replicas[me] == Amplified(s, qs) && Inv(Amplified(s, qs))
    requires StopOf(q, s.view) in w.sent
    requires q !in qs && HashSpace.Distinct(qs) && 1 <= |qs| < 2 * s.view.F()
    requires |qs| > s.view.F() ==> StopOf(s.me, s.view) in w.sent
    ensures CanReach(cfg, w, y) && w.sent <= y.sent && y.replicas == w.replicas[me := Amplified(s, qs + [q])]
    ensures Inv(Amplified(s, qs + [q])) && (|qs| + 1 > s.view.F() ==> StopOf(s.me, s.view) in y.sent)
  {
    assert !Amplified(s, qs).phase.SyncingState?;
    hide CanReach, Process, Inv, View.F, Amplified;
    NextStop(s, qs, q);
    y := Hears(cfg, w, me, StopOf(q, s.view), NoValue);
  }

  /** STOPs of 2f others and its own make the replica leave. */
  lemma CarriedAway(cfg: S.Config, w: S.World, me: Node, s: State, qs: seq<Node>) returns (y: S.World)
    requires me in w.replicas && w.replicas[me] == s && Inv(s) && s.phase.Init? && s.stop == [] && s.me == me
    requires s.view.F() >= 1 && HashSpace.Distinct(qs) && |qs| == 2 * s.view.F() && me !in qs
    requires forall q :: q in qs ==> StopOf(q, s.view) in w.sent
    ensures CanReach(cfg, w, y) && w.sent <= y.sent && StopOf(me, s.view) in y.sent
    ensures var t := MoveOn(Amplified(s, qs), NextView(s.view)); y.replicas == w.replicas[me := t] && Inv(t)
  {
    assert s.view.members != [];
    hide CanReach, Process, Inv, View.F, NextView, MoveOn, View.Quorum;
    var u := StopsCarry(cfg, w, me, s, qs);
    var t := Amplified(s, qs);
    DistinctCount(qs);
    assert t.phase.Stopping2? && |t.stopped| + 1 == s.view.Quorum() by { QuorumOfStops(s.view); }
    LastStop(t, me);
    y := Receives(cfg, u, me, StopOf(me, s.view), NoValue);
    ReachesOn(cfg, w, u, y);
    assert y.replicas == w.replicas[me := MoveOn(t, NextView(s.view))];
  }

  lemma QuorumOfStops(v: View)
    ensures v.Quorum() == 2 * v.F() + 1
  {
  }

  // One view after the other

  /** The others time out, and their STOPs carry the watched replica away. */
  lemma RoundLeaves(cfg: S.Config, w: S.World, me: Node, v: View, c: set<Node>, others: seq<Node>, qs: seq<Node>)
    returns (y: S.World)
    requires v.members != [] && v.F() >= 1 && me in w.replicas && Watched(w.replicas[me], me, v, c)
    requires HashSpace.Distinct(others) && me !in others && AllIn(w, others, v)
    requires HashSpace.Distinct(qs) && |qs| == 2 * v.F() && forall q :: q in qs ==> q in others
    ensures CanReach(cfg, w, y) && AllAsked(y, others, v) && forall q :: q in qs + [me] ==> StopOf(q, v) in y.sent
    ensures var t := MoveOn(Amplified(w.replicas[me], qs), NextView(v));
            me in y.replicas && y.replicas[me] == t && Inv(t)
  {
    hide CanReach, Inv, View.F, NextView, MoveOn, Amplified, Asked, Ready;
    var u := AllAsk(cfg, w, others, v);
    y := CarriedAway(cfg, u, me, w.replicas[me], qs);
    ReachesOn(cfg, w, u, y);
  }

  lemma EntersWatched(s: State, me: Node, v: View, c: set<Node>, qs: seq<Node>)
    requires Watched(s, me, v, c) && v.members != [] && me != NextView(v).Leader()
    ensures var t := MoveOn(Amplified(s, qs), NextView(v));
            && t.phase.Syncing? && t.next == Some(NextView(v))
            && (Inv(EnterNext(t)) ==> Watched(EnterNext(t), me, NextView(v), c))
  {
    var t := MoveOn(Amplified(s, qs), NextView(v));
    assert Drop(t.stop, 1) == [];
  }

  /** A whole round, which someone else leads: all enter the next view, and the watched replica still
      has the same senders on record. */
  lemma RoundPasses(cfg: S.Config, w: S.World, me: Node, v: View, c: set<Node>, others: seq<Node>, qs: seq<Node>)
    returns (y: S.World)
    requires v.members != [] && v.F() >= 1 && me in w.replicas && Watched(w.replicas[me], me, v, c)
    requires HashSpace.Distinct(others) && me !in others && AllIn(w, others, v)
    requires HashSpace.Distinct(qs) && |qs| == 2 * v.F() && forall q :: q in qs ==> q in others
    requires me != NextView(v).Leader()
    ensures CanReach(cfg, w, y) && AllIn(y, others, NextView(v))
    ensures me in y.replicas && Watched(y.replicas[me], me, NextView(v), c)
  {
    EntersWatched(w.replicas[me], me, v, c, qs);
    assert |qs + [me]| == v.Quorum() && HashSpace.Distinct(qs + [me]);
    hide CanReach, Inv, View.F, View.Quorum, NextView, MoveOn, Amplified, Asked, Ready, EnterNext, Watched;
    var w1 := RoundLeaves(cfg, w, me, v, c, others, qs);
    var w2 := EntersBySync(cfg, w1, me, w1.replicas[me]);
    ReachesOn(cfg, w, w1, w2);
    y := AllEnter(cfg, w2, others, v, qs + [me]);
    ReachesOn(cfg, w, w2, y);
  }

  /** View number `k` over the first `n` identifiers. */
  lemma ViewOf(k: nat, n: nat)
    requires n >= 1
    ensures NewView(k, n).seqNo == k && |NewView(k, n).members| == n && NextView(NewView(k, n)) == NewView(k + 1, n)
    ensures NewView(k, n).F() == Quorums.FaultsFor(n) && NewView(k, n).Leader() == k % n
    ensures NewView(k, n).Quorum() == 2 * Quorums.FaultsFor(n) + 1
  {
  }

  lemma NoMultipleBetween(t: int, n: nat)
    requires n >= 1
    ensures t * n <= 0 - n || t * n == 0 || t * n >= n
  {
    if t < 0 {
      assert (-t - 1) * n >= 0;
    } else if t > 0 {
      assert (t - 1) * n >= 0;
    }
  }

  /** Numbers with the same remainder differ by a multiple. */
  lemma SameTurn(k: nat, j: nat, n: nat)
    requires n >= 1 && (k + j) % n == k % n
    ensures j == ((k + j) / n - k / n) * n
  {
    assert k + j == (k + j) / n * n + (k + j) % n && k == k / n * n + k % n;
  }

  /** Between two turns of the same leader, everyone else has theirs. */
  lemma NotItsTurn(k: nat, j: nat, n: nat)
    requires 1 <= j < n
    ensures (k + j) % n != k % n
  {
    if (k + j) % n == k % n {
      SameTurn(k, j, n);
      NoMultipleBetween((k + j) / n - k / n, n);
      assert false;
    }
  }

  lemma ItsTurnAgain(k: nat, n: nat)
    requires n >= 1
    ensures (k + n) % n == k % n
  {
    var q := (k + n) / n;
    assert k + n == q * n + (k + n) % n && k == k / n * n + k % n;
    assert (q - k / n - 1) * n == k % n - (k + n) % n;
    NoMultipleBetween(q - k / n - 1, n);
  }

  lemma {:induction false} RoundsPass(cfg: S.Config, w: S.World, me: Node, k: nat, n: nat, c: set<Node>,
                                      others: seq<Node>, qs: seq<Node>, count: nat) returns (y: S.World)
    requires n >= 1 && Quorums.FaultsFor(n) >= 1 && me in w.replicas && Watched(w.replicas[me], me, NewView(k, n), c)
    requires HashSpace.Distinct(others) && me !in others && AllIn(w, others, NewView(k, n))
    requires HashSpace.Distinct(qs) && |qs| == 2 * Quorums.FaultsFor(n) && forall q :: q in qs ==> q in others
    requires me == k % n && count < n
    ensures CanReach(cfg, w, y) && AllIn(y, others, NewView(k + count, n))
    ensures me in y.replicas && Watched(y.replicas[me], me, NewView(k + count, n), c)
  {
    hide CanReach, Watched, AllIn, NewView, NextView, Quorums.FaultsFor, View.F, View.Leader;
    if count == 0 {
      y := w;
      CanStay(cfg, w);
    } else {
      var u := RoundsPass(cfg, w, me, k, n, c, others, qs, count - 1);
      ViewOf(k + count - 1, n);
      ViewOf(k + count, n);
      NotItsTurn(k, count, n);
      y := RoundPasses(cfg, u, me, NewView(k + count - 1, n), c, others, qs);
      ReachesOn(cfg, w, u, y);
    }
  }

  // The execution

  /** In the first round everyone times out; the watched replica leads the next view, and has a
      quorum of senders on record when it enters it. */
  lemma FirstRound(cfg: S.Config, me: Node, others: seq<Node>, qs: seq<Node>) returns (y: S.World)
    requires Deployed(cfg) && me in cfg.correct && me == NextView(cfg.first).Leader()
    requires HashSpace.Distinct(others) && forall n :: n in others <==> n in Others(cfg, me)
    requires HashSpace.Distinct(qs) && |qs| == 2 * cfg.first.F() && forall q :: q in qs ==> q in others
    ensures CanReach(cfg, Initial(cfg), y) && AllIn(y, others, NextView(cfg.first))
    ensures me in y.replicas && Watched(y.replicas[me], me, NextView(cfg.first), NodeSet(qs + [me]))
  {
    hide CanReach, Initial, Others, Deployed, Inv, View.F, View.Quorum, NextView, Asked, Ready, TimeOut, Watched, Drop;
    var v, w := cfg.first, Initial(cfg);
    assert me !in others by { NotAmongOthers(cfg, me); }
    FirstFacts(cfg, me, others, qs);
    NothingDropped();
    Asks(w.replicas[me], me, v);
    var w1 := TimesOut(cfg, w, me);
    var w2 := AllAsk(cfg, w1, others, v);
    ReachesOn(cfg, w, w1, w2);
    var w3 := Enters(cfg, w2, me, v, qs + [me]);
    ReachesOn(cfg, w, w2, w3);
    y := AllEnter(cfg, w3, others, v, qs + [me]);
    ReachesOn(cfg, w, w3, y);
    IsWatched(y.replicas[me], me, NextView(v), NodeSet(qs + [me]));
  }

  lemma FirstFacts(cfg: S.Config, me: Node, others: seq<Node>, qs: seq<Node>)
    requires Deployed(cfg) && me in cfg.correct && me !in others && forall n :: n in others <==> n in Others(cfg, me)
    requires HashSpace.Distinct(qs) && |qs| == 2 * cfg.first.F() && forall q :: q in qs ==> q in others
    ensures me in Initial(cfg).replicas && Initial(cfg).replicas[me].stop == []
    ensures AllReady(Initial(cfg), others, cfg.first) && Ready(Initial(cfg).replicas[me], me, cfg.first)
    ensures |qs + [me]| == cfg.first.Quorum() && HashSpace.Distinct(qs + [me])
  {
    hide Others, Deployed, Ready, View.F, HashSpace.Distinct;
    OneMoreDistinct(qs, me);
    OthersCount(cfg, me);
    AllStartReady(cfg, others + [me]);
    assert forall n :: n in others ==> n in others + [me];
    assert me in others + [me];
  }

  lemma OneMoreDistinct(qs: seq<Node>, q: Node)
    requires HashSpace.Distinct(qs) && q !in qs
    ensures HashSpace.Distinct(qs + [q])
  {
  }

  lemma NothingDropped()
    ensures Drop<Change>([], 1) == []
  {
  }

  lemma IsWatched(s: State, me: Node, v: View, c: set<Node>)
    requires Ready(s, me, v) && s.phase.Init? && s.stop == [] && s.collects == c
    ensures Watched(s, me, v, c)
  {
  }

  lemma AllStartReady(cfg: S.Config, ns: seq<Node>)
    requires Deployed(cfg) && forall n :: n in ns ==> n in cfg.correct
    ensures AllReady(Initial(cfg), ns, cfg.first)
  {
    hide NewView, View.F;
  }

  /** What is left to collect from once a quorum of members is on record. */
  lemma FewMissing(s: State, c: set<Node>)
    requires s.next.Some? && s.next.value.Valid() && s.collects == c && c <= s.next.value.MemberSet()
    requires |s.next.value.members| < |c| + s.next.value.Quorum()
    ensures |Missing(s)| < s.next.value.Quorum()
  {
    DistinctCount(s.next.value.members);
    assert s.next.value.MemberSet() == Missing(s) + c;
  }

  lemma LeadsAgain(s: State, me: Node, v: View, c: set<Node>, qs: seq<Node>)
    requires Watched(s, me, v, c) && v.members != [] && me == NextView(v).Leader()
    ensures var t := MoveOn(Amplified(s, qs), NextView(v));
            t.phase == StoppingData(0) && t.next == Some(NextView(v)) && t.collects == c && (Inv(t) ==> Leads(t))
  {
  }

  lemma StuckReached(cfg: S.Config, me: Node) returns (y: S.World)
    requires Deployed(cfg) && me in cfg.correct && me == NextView(cfg.first).Leader()
    requires |cfg.first.members| < 2 * cfg.first.Quorum()
    ensures CanReach(cfg, Initial(cfg), y) && me in y.replicas
    ensures var s := y.replicas[me];
            Leads(s) && s.phase == StoppingData(0) && |Missing(s)| < s.next.value.Quorum()
  {
    var n, k := |cfg.first.members|, cfg.first.seqNo + 1;
    hide CanReach, Initial, Others, Deployed, Inv, View.F, View.Quorum, NextView, NewView, Watched, AllIn, Leads,
         Missing, MoveOn, Amplified, View.Leader, View.Valid, Quorums.FaultsFor;
    FirstTurn(cfg, me);
    NextTurn(k, n);
    var others := Enumerate(Others(cfg, me));
    var qs := OtherCorrect(cfg, me, 2 * cfg.first.F());
    assert me !in others by { NotAmongOthers(cfg, me); }
    RecordedMembers(cfg, me, k + n, qs);
    var c := NodeSet(qs + [me]);
    var w1 := FirstRound(cfg, me, others, qs);
    var w2 := RoundsPass(cfg, w1, me, k, n, c, others, qs, n - 1);
    ReachesOn(cfg, Initial(cfg), w1, w2);
    var v := NewView(k + n - 1, n);
    y := RoundLeaves(cfg, w2, me, v, c, others, qs);
    ReachesOn(cfg, Initial(cfg), w2, y);
    LeadsAgain(w2.replicas[me], me, v, c, qs);
    FewMissing(y.replicas[me], c);
  }

  lemma NotAmongOthers(cfg: S.Config, me: Node)
    ensures me !in Others(cfg, me)
  {
  }

  /** The first view, and the one after it. */
  lemma FirstTurn(cfg: S.Config, me: Node)
    requires Deployed(cfg) && me == NextView(cfg.first).Leader()
    ensures var n, k := |cfg.first.members|, cfg.first.seqNo + 1;
            && n >= 1 && me in cfg.first.members && me == k % n && NextView(cfg.first) == NewView(k, n)
            && Quorums.FaultsFor(n) == cfg.first.F() >= 1 && cfg.first.Quorum() == 2 * Quorums.FaultsFor(n) + 1
  {
    var n, k := |cfg.first.members|, cfg.first.seqNo + 1;
    ViewOf(cfg.first.seqNo, n);
    ViewOf(k, n);
    assert cfg.first.members[k % n] == k % n;
  }

  /** After as many view changes as there are members, it is the same leader's turn. */
  lemma NextTurn(k: nat, n: nat)
    requires n >= 1
    ensures var v := NewView(k + n - 1, n);
            && v.members != [] && v.F() == Quorums.FaultsFor(n) && NextView(v) == NewView(k + n, n)
            && NewView(k + n, n).Leader() == k % n && NewView(k + n, n).Valid() && |NewView(k + n, n).members| == n
            && NewView(k + n, n).Quorum() == 2 * Quorums.FaultsFor(n) + 1
  {
    hide NewView, NextView, Quorums.FaultsFor, View.F, View.Leader, View.Valid, View.Quorum;
    ViewOf(k + n - 1, n);
    ViewOf(k + n, n);
    ItsTurnAgain(k, n);
  }

  lemma RecordedMembers(cfg: S.Config, me: Node, k: nat, qs: seq<Node>)
    requires Deployed(cfg) && me in cfg.first.members && HashSpace.Distinct(qs) && |qs| == 2 * cfg.first.F()
    requires forall q :: q in qs ==> q in Others(cfg, me)
    ensures var c := NodeSet(qs + [me]);
            c <= NewView(k, |cfg.first.members|).MemberSet() && |c| == cfg.first.Quorum()
  {
    OthersCount(cfg, me);
    assert HashSpace.Distinct(qs + [me]);
    DistinctCount(qs + [me]);
  }

  /** Collects that stay on record do stop a leader. In every deployment, and for every correct
      replica that is to lead the second view, there is an execution, through as many view changes
      as there are members, in which it is to lead again and no messages of members let it gather
      a quorum. Two quorums must not fit side by side into the members, as they do with six only. */
  lemma LeaderGetsStuck(cfg: S.Config, me: Node) returns (trace: seq<S.World>, events: seq<S.Event>)
    requires Deployed(cfg) && me in cfg.correct && me == NextView(cfg.first).Leader()
    requires |cfg.first.members| < 2 * cfg.first.Quorum()
    ensures S.IsExecution(cfg, trace, events) && me in trace[|events|].replicas
    ensures var s := trace[|events|].replicas[me];
            && Leads(s) && s.phase == StoppingData(0)
            && (forall ms :: JoinVotes.FromMembers(s.next.value, ms) ==> Gathered(s, ms).phase.StoppingData?)
  {
    assert cfg.Valid();
    hide S.IsExecution, CanReach, Initial, Deployed, Missing, Gathered, View.Quorum, NextView;
    var y := StuckReached(cfg, me);
    trace, events := Executes(cfg, y);
    GathersExactly(y.replicas[me]);
  }
}
