/**
 What can become of a decided value. A view change sees it, yet it may fail to be bound, and
 another view may decide something else under the same number.
 */
module Outcomes {
  import opened Messages
  import opened Instances
  import opened Views
  import opened Windows
  import opened WindowRuns
  import opened Systems
  import opened SystemInvariants
  import opened Agreement
  import opened Scenarios
  import opened Soundness
  import HashSpace
  import Paths
  import Quorums

  // From the start of the system to commits in a view

  ghost function Initial(cfg: Config): System {
    System(map n | n in cfg.correct :: Replica(Create(n, cfg.watermark, 0, cfg.views(0)), false, None), {})
  }

  lemma InitialStarts(cfg: Config)
    requires cfg.Valid()
    ensures Start(cfg, Initial(cfg)) && SysInv(cfg, Initial(cfg))
  {
    StartOk(cfg, Initial(cfg));
  }

  lemma ExecutesThrough(cfg: Config, s: System, t: System) returns (trace: seq<System>, events: seq<Event>, a: nat)
    requires cfg.Valid() && CanReach(cfg, Initial(cfg), s) && CanReach(cfg, s, t)
    ensures IsExecution(cfg, trace, events) && a <= |events| && trace[a] == s && trace[|events|] == t
  {
    InitialStarts(cfg);
    hide Start, Config.Valid, SysInv, Initial, Enabled, StepTo;
    var c, x :| Paths.IsPath(Steps(cfg), c, x) && c[0] == Initial(cfg) && c[|x|] == s;
    var d, y :| Paths.IsPath(Steps(cfg), d, y) && d[0] == s && d[|y|] == t;
    Paths.Connect(Steps(cfg), c, x, d, y);
    trace, events, a := c + d[1..], x + y, |x|;
    forall k | 0 <= k < |events|
      ensures Enabled(cfg, trace[k], events[k]) && StepTo(trace[k], events[k], trace[k + 1])
    {
      assert Steps(cfg)(trace[k], events[k], trace[k + 1]);
    }
  }

  lemma Executes(cfg: Config, t: System) returns (trace: seq<System>, events: seq<Event>)
    requires cfg.Valid() && CanReach(cfg, Initial(cfg), t)
    ensures IsExecution(cfg, trace, events) && trace[|events|] == t
  {
    hide *;
    CanStay(cfg, t);
    var a;
    trace, events, a := ExecutesThrough(cfg, t, t);
  }

  /** Everyone takes part in the first instance of view `v`; the voters have committed to the
      proposals `ps`, the others have received nothing. */
  ghost predicate CommittedIn(cfg: Config, s: System, v: nat, ps: seq<Message>, voters: seq<Node>) {
    && SysInv(cfg, s)
    && AllProgressed(cfg, s, voters, v, 0, Committing, ps, voters)
    && BallotsSent(cfg, s.sent, voters, v, 0, Commit(BatchDigest(cfg.views(v), ps)))
    && (forall n :: n in cfg.views(v).members && n in s.replicas && n !in voters ==>
          Active(cfg, s, n, v, 0) && Fresh(FrontOf(s, n)))
    && (forall n :: n in s.replicas ==> s.replicas[n].last == None && s.replicas[n].window.seqNo == 0
                                        && s.replicas[n].window.view.seqNo <= v)
  }

  /** Every correct member takes part in view `v`. */
  lemma Gather(cfg: Config, v: nat) returns (t: System)
    requires cfg.Valid()
    ensures CanReach(cfg, Initial(cfg), t) && SysInv(cfg, t) && OnlyThese(Initial(cfg), t, cfg.views(v).members)
    ensures AllFresh(cfg, t, cfg.views(v).members, v, 0)
  {
    InitialStarts(cfg);
    assert HashSpace.Distinct(cfg.views(v).members) by { assert cfg.ViewOk(v); }
    InitialFacts(cfg, v, cfg.views(v).members);
    hide SysInv, CanReach, Initial, AllFresh, OnlyThese, Config.Valid, MayBegin;
    t := BeginAll(cfg, Initial(cfg), cfg.views(v).members, v, 0);
  }

  lemma ViewNumber(cfg: Config, v: nat)
    requires cfg.Valid()
    ensures cfg.views(v).Valid() && cfg.views(v).seqNo == v
  {
    assert cfg.ViewOk(v);
  }

  lemma FreshVoters(cfg: Config, s: System, v: nat, voters: seq<Node>)
    requires AllFresh(cfg, s, cfg.views(v).members, v, 0) && AreVoters(cfg, v, voters)
    ensures AllFresh(cfg, s, voters, v, 0)
  {
    hide Fresh, Active;
  }

  lemma Prelude(cfg: Config, v: nat, ps: seq<Message>, voters: seq<Node>) returns (t: System)
    requires cfg.Valid() && AreProposals(cfg.views(v), 0, ps) && AreVoters(cfg, v, voters)
    ensures CanReach(cfg, Initial(cfg), t) && CommittedIn(cfg, t, v, ps, voters)
  {
    hide SysInv, CanReach, Initial, AreProposals, AreVoters, AllFresh, OnlyThese, AllProgressed, BallotsSent, Active,
         Fresh, Config.Valid, MayBegin, BatchDigest;
    ViewNumber(cfg, v);
    InitialFacts(cfg, v, []);
    var u := Gather(cfg, v);
    FreshVoters(cfg, u, v, voters);
    t := CommitAll(cfg, u, v, 0, ps, voters);
    ReachesOn(cfg, Initial(cfg), u, t);
    StillThere(cfg, Initial(cfg), u, t, v, cfg.views(v).members, ps, voters);
  }

  lemma StillThere(cfg: Config, s: System, u: System, t: System, v: nat, members: seq<Node>, ps: seq<Message>,
                   voters: seq<Node>)
    requires OnlyThese(s, u, members) && OnlyThese(u, t, voters) && AllFresh(cfg, u, members, v, 0)
    requires AllProgressed(cfg, t, voters, v, 0, Committing, ps, voters)
    requires forall n :: n in s.replicas ==>
               s.replicas[n].last == None && s.replicas[n].window.seqNo == 0 && s.replicas[n].window.view.seqNo == 0
    requires cfg.views(v).seqNo == v
    ensures forall n :: n in members && n in t.replicas && n !in voters ==>
              Active(cfg, t, n, v, 0) && Fresh(FrontOf(t, n))
    ensures forall n :: n in t.replicas ==>
              t.replicas[n].last == None && t.replicas[n].window.seqNo == 0 && t.replicas[n].window.view.seqNo <= v
  {
    hide Fresh, Progressed;
    forall n | n in t.replicas
      ensures t.replicas[n].last == None && t.replicas[n].window.seqNo == 0 && t.replicas[n].window.view.seqNo <= v
    {
      if n in voters {
        assert Active(cfg, t, n, v, 0);
      } else if n in members {
        assert Active(cfg, u, n, v, 0);
      }
    }
  }

  lemma InitialFacts(cfg: Config, v: nat, members: seq<Node>)
    requires cfg.Valid()
    ensures forall n :: n in Initial(cfg).replicas ==>
              Initial(cfg).replicas[n].last == None && Initial(cfg).replicas[n].window.seqNo == 0
              && Initial(cfg).replicas[n].window.view.seqNo == 0
    ensures forall n :: n in members && n in Initial(cfg).replicas ==> MayBegin(cfg, Initial(cfg), n, v, 0)
  {
    assert cfg.ViewOk(0);
    hide Config.ViewOk, Range, Refill;
  }

  lemma FirstVoters(cfg: Config, v: nat) returns (voters: seq<Node>)
    requires cfg.Valid()
    ensures AreVoters(cfg, v, voters) && voters != []
  {
    assert cfg.ViewOk(v);
    voters := cfg.views(v).members[..cfg.views(v).Quorum()];
  }

  /** The replica has decided the proposals `ps` of view `v` under the first sequence number. */
  ghost predicate DecidedFirst(s: System, n: Node, v: nat, ps: seq<Message>) {
    && n in s.replicas && s.replicas[n].window.decisions != []
    && Holds(s, n, v, 0, FrontOf(s, n)) && FrontOf(s, n).stage.Decided? && FrontOf(s, n).proposals == ps
  }

  lemma OneDecided(cfg: Config, s: System, v: nat, ps: seq<Message>, voters: seq<Node>, y: Node)
    requires y in s.replicas && Active(cfg, s, y, v, 0) && cfg.views(v).seqNo == v
    requires Progressed(FrontOf(s, y), cfg.views(v), 0, Decided, ps, voters)
    ensures DecidedFirst(s, y, v, ps)
  {
    hide Ballots, BatchDigest;
  }

  /** Decisions do happen. In every configuration, in every view and for all proposals, there is an
      execution in which every correct replica of a quorum decides them. */
  lemma ProposalsGetDecided(cfg: Config, v: nat, ps: seq<Message>)
    returns (trace: seq<System>, events: seq<Event>, voters: seq<Node>, x: Node)
    requires cfg.Valid() && AreProposals(cfg.views(v), 0, ps)
    ensures IsExecution(cfg, trace, events) && AreVoters(cfg, v, voters) && x in voters && x in cfg.correct
    ensures var s := trace[|events|];
            forall n :: n in voters && n in cfg.correct ==> DecidedFirst(s, n, v, ps)
  {
    voters := FirstVoters(cfg, v);
    x := CorrectAmong(cfg, v, voters);
    ViewNumber(cfg, v);
    hide Config.Valid, CanReach, Initial, AreProposals, BallotsSent, Progressed, Active, Fresh, DecidedFirst;
    var s := Prelude(cfg, v, ps, voters);
    assert s.replicas.Keys == cfg.correct;
    hide SysInv;
    var t := DecideAt(cfg, s, v, 0, ps, voters, voters);
    ReachesOn(cfg, Initial(cfg), s, t);
    trace, events := Executes(cfg, t);
    forall n | n in voters && n in cfg.correct ensures DecidedFirst(t, n, v, ps) {
      OneDecided(cfg, t, v, ps, voters, n);
    }
  }

  /** As before, and one of the voters has also received the commits. */
  lemma OneDecides(cfg: Config, v: nat, ps: seq<Message>, voters: seq<Node>, x: Node) returns (s: System, t: System)
    requires cfg.Valid() && AreProposals(cfg.views(v), 0, ps) && AreVoters(cfg, v, voters)
    requires x in voters && x in cfg.correct
    ensures CanReach(cfg, Initial(cfg), s) && CommittedIn(cfg, s, v, ps, voters)
    ensures CanReach(cfg, Initial(cfg), t) && SysInv(cfg, t) && OnlyThese(s, t, [x])
    ensures Active(cfg, t, x, v, 0) && Progressed(FrontOf(t, x), cfg.views(v), 0, Decided, ps, voters)
  {
    hide Config.Valid, CanReach, Initial, AreProposals, AreVoters, Progressed, BallotsSent, OnlyThese, Active;
    s := Prelude(cfg, v, ps, voters);
    assert AllProgressed(cfg, s, [x], v, 0, Committing, ps, voters);
    assert x in s.replicas;
    hide SysInv;
    t := DecideAt(cfg, s, v, 0, ps, voters, [x]);
    ReachesOn(cfg, Initial(cfg), s, t);
    assert x in [x] && x in t.replicas by { KeysSame(s, t, [x]); }
  }

  lemma KeysSame(s: System, t: System, ns: seq<Node>)
    requires OnlyThese(s, t, ns)
    ensures t.replicas.Keys == s.replicas.Keys
  {
  }

  // A replica that has decided finalises

  /** The replica has finalised the proposals `ps` of view `v` as its first batch. */
  ghost predicate Finalised(s: System, x: Node, v: View, ps: seq<Message>) {
    && x in s.replicas && s.replicas[x].window.seqNo == 1 && s.replicas[x].last.Some?
    && var p := s.replicas[x].last.value;
       && p.seqNo == 0 && ProofView(p) == v.seqNo && p.digest == BatchDigest(v, ps)
       && p.requests == OrderedRequests(ps, v.leaders)
  }

  lemma NextOutcome(r: Replica, v: View, ps: seq<Message>, voters: seq<Node>)
    requires r.window.seqNo == 0 && r.window.decisions != [] && voters != []
    requires Progressed(r.window.decisions[0], v, 0, Decided, ps, voters)
    ensures Sends(r.window, NextOp) == None
    ensures var q := Outcome(r, NextOp);
            && q.window.seqNo == 1 && q.last.Some?
            && var p := q.last.value;
               && p.seqNo == 0 && ProofView(p) == v.seqNo && p.digest == BatchDigest(v, ps)
               && p.requests == OrderedRequests(ps, v.leaders)
  {
    hide OrderedRequests, Ordering, OrderedProposals, ArrivedInfos, Refill;
  }

  lemma Finalises(cfg: Config, s: System, v: nat, ps: seq<Message>, voters: seq<Node>, x: Node) returns (t: System)
    requires SysInv(cfg, s) && Active(cfg, s, x, v, 0) && voters != []
    requires Progressed(FrontOf(s, x), cfg.views(v), 0, Decided, ps, voters)
    ensures CanReach(cfg, s, t) && SysInv(cfg, t) && Finalised(t, x, cfg.views(v), ps)
    ensures t.replicas.Keys == s.replicas.Keys
    ensures forall n :: n in s.replicas && n != x ==> t.replicas[n] == s.replicas[n]
  {
    NextOutcome(s.replicas[x], cfg.views(v), ps, voters);
    assert s.replicas[x].window.decisions[0].stage.Decided?;
    hide SysInv, CanReach, Progressed, Outcome, Sends, Finalised;
    t := Acts(cfg, s, x, NextOp);
    FinalisedNow(t, x, cfg.views(v), ps, Outcome(s.replicas[x], NextOp));
  }

  lemma FinalisedNow(t: System, x: Node, v: View, ps: seq<Message>, q: Replica)
    requires x in t.replicas && t.replicas[x] == q && q.window.seqNo == 1 && q.last.Some?
    requires var p := q.last.value;
             && p.seqNo == 0 && ProofView(p) == v.seqNo && p.digest == BatchDigest(v, ps)
             && p.requests == OrderedRequests(ps, v.leaders)
    ensures Finalised(t, x, v, ps)
  {
  }

  lemma OnlyOne(cfg: Config, s: System, t: System, v: nat, ps: seq<Message>, voters: seq<Node>, x: Node)
    requires CommittedIn(cfg, s, v, ps, voters) && OnlyThese(s, t, [x])
    ensures t.replicas.Keys == s.replicas.Keys == cfg.correct
    ensures forall n :: n in s.replicas && n != x ==> t.replicas[n] == s.replicas[n]
  {
  }

  /** The voters commit to `ps` in view `v`; one of them, `x`, decides and finalises them. */
  lemma OneFinalisesAmong(cfg: Config, v: nat, ps: seq<Message>, voters: seq<Node>, x: Node)
    returns (s: System, u: System, t: System)
    requires cfg.Valid() && AreProposals(cfg.views(v), 0, ps) && AreVoters(cfg, v, voters)
    requires x in voters && x in cfg.correct
    ensures CommittedIn(cfg, s, v, ps, voters)
    ensures CanReach(cfg, Initial(cfg), u) && DecidedFirst(u, x, v, ps)
    ensures CanReach(cfg, u, t) && SysInv(cfg, t) && Finalised(t, x, cfg.views(v), ps)
    ensures s.replicas.Keys == t.replicas.Keys == cfg.correct
    ensures forall n :: n in s.replicas && n != x ==> t.replicas[n] == s.replicas[n]
  {
    ViewNumber(cfg, v);
    hide Config.Valid, CanReach, Initial, AreProposals, AreVoters, Progressed, Finalised, Active, DecidedFirst;
    hide SysInv, CommittedIn, OnlyThese;
    s, u := OneDecides(cfg, v, ps, voters, x);
    OnlyOne(cfg, s, u, v, ps, voters, x);
    OneDecided(cfg, u, v, ps, voters, x);
    t := Finalises(cfg, u, v, ps, voters, x);
  }

  // A decided value may go unbound

  /** Who takes part: the voters, of whom the correct `x` decides, one correct member `u` that
      hears nothing of them, and a quorum `who` of collects: `u` and all voters but `x`, one of
      whom, `y`, is correct. */
  ghost predicate Roles(cfg: Config, v: nat, u: Node, voters: seq<Node>, x: Node, y: Node, who: seq<Node>) {
    && AreVoters(cfg, v, voters) && AreVoters(cfg, v, who)
    && u in cfg.views(v).members && u in cfg.correct && u !in voters && u in who
    && x in voters && x in cfg.correct && x !in who
    && y in voters && y in cfg.correct && y in who
    && (forall n :: n in who ==> n == u || n in voters)
  }

  lemma CorrectAmong(cfg: Config, v: nat, nodes: seq<Node>) returns (x: Node)
    requires cfg.Valid() && HashSpace.Distinct(nodes) && |nodes| > cfg.views(v).F()
    requires forall n :: n in nodes ==> n in cfg.views(v).members
    ensures x in nodes && x in cfg.correct
  {
    assert cfg.ViewOk(v);
    DistinctCount(nodes);
    x := Quorums.SomeCorrect(NodeSet(nodes), cfg.faulty);
    assert x in cfg.views(v).MemberSet();
  }

  lemma Without(nodes: seq<Node>, u: Node) returns (rest: seq<Node>)
    requires HashSpace.Distinct(nodes)
    ensures HashSpace.Distinct(rest) && u !in rest && |rest| >= |nodes| - 1
    ensures forall n :: n in rest ==> n in nodes
  {
    if k :| 0 <= k < |nodes| && nodes[k] == u {
      rest := nodes[..k] + nodes[k + 1..];
    } else {
      rest := nodes;
    }
  }

  lemma Casting(cfg: Config, v: nat) returns (u: Node, voters: seq<Node>, x: Node, y: Node, who: seq<Node>)
    requires cfg.Valid() && cfg.views(v).F() >= 1
    ensures Roles(cfg, v, u, voters, x, y, who)
  {
    assert cfg.ViewOk(v);
    var members, f := cfg.views(v).members, cfg.views(v).F();
    assert |members| == 3 * f + 1;
    hide Config.ViewOk, Config.Valid;
    u := CorrectAmong(cfg, v, members);
    var others := Without(members, u);
    voters := others[..2 * f + 1];
    x := CorrectAmong(cfg, v, voters);
    assert forall n :: n in voters ==> n in others;
    var rest := Without(voters, x);
    y := CorrectAmong(cfg, v, rest);
    who := Exchange(rest, u, y, 2 * f);
  }

  /** `u` and `count` of the others, `y` among them. */
  lemma Exchange(others: seq<Node>, u: Node, y: Node, count: nat) returns (who: seq<Node>)
    requires HashSpace.Distinct(others) && |others| >= count >= 1 && u !in others && y in others
    ensures HashSpace.Distinct(who) && |who| == count + 1 && u in who && y in who
    ensures forall n :: n in who ==> n == u || n in others
  {
    var k :| 0 <= k < |others| && others[k] == y;
    var chosen := if k < count then others[..count] else others[k - count + 1..k + 1];
    assert y in chosen by {
      assert y == if k < count then chosen[k] else chosen[count - 1];
    }
    assert forall n :: n in chosen ==> n in others;
    who := [u] + chosen;
  }

  lemma {:induction false} SyncAll(cfg: Config, s: System, ns: seq<Node>) returns (t: System)
    requires SysInv(cfg, s)
    ensures CanReach(cfg, s, t) && SysInv(cfg, t) && t.sent == s.sent && t.replicas.Keys == s.replicas.Keys
    ensures forall n :: n in s.replicas ==>
              t.replicas[n] == s.replicas[n].(syncing := s.replicas[n].syncing || n in ns)
  {
    hide SysInv, CanReach;
    if ns == [] {
      t := s;
      CanStay(cfg, s);
    } else {
      var rest, n := ns[..|ns| - 1], ns[|ns| - 1];
      assert forall k :: k in ns <==> k in rest || k == n;
      t := SyncAll(cfg, s, rest);
      if n in s.replicas {
        var u := t;
        t := Syncs(cfg, u, n);
        ReachesOn(cfg, s, u, t);
      }
    }
  }

  /** The collects that the replicas `who` hand in; those of faulty ones may say anything. */
  ghost predicate CollectsOf(cfg: Config, s: System, who: seq<Node>, f: nat, cs: Collects) {
    && |cs| == |who|
    && (forall k :: 0 <= k < |who| && who[k] in cfg.correct ==>
          who[k] in s.replicas && s.replicas[who[k]].window.decisions != []
          && cs[k] == Some(Collect(FrontOf(s, who[k]), f)))
  }

  /** Where the scenario ends: `y` has committed to what `x` decided, `u` has accepted nothing, and
      all of `who` are in the synchronisation phase of the view, none with a proof to show. */
  ghost predicate Stalled(cfg: Config, s: System, v: nat, u: Node, y: Node, who: seq<Node>) {
    && y in who && u in who && y in cfg.correct && u in cfg.correct
    && (forall n :: n in who && n in cfg.correct ==> Waits(s, n, v))
    && FrontOf(s, y).stage.Committing? && Coupled(FrontOf(s, y)) && FrontOf(s, y).view == cfg.views(v)
    && Fresh(FrontOf(s, u))
  }

  ghost predicate Waits(s: System, n: Node, v: nat) {
    ReadyToReport(s, n, v, 0) && s.replicas[n].last == None && s.replicas[n].window.decisions != []
  }

  lemma AllTakePart(cfg: Config, s: System, t: System, v: nat, ps: seq<Message>, u: Node, voters: seq<Node>, x: Node,
                    y: Node, who: seq<Node>)
    requires Roles(cfg, v, u, voters, x, y, who) && CommittedIn(cfg, s, v, ps, voters)
    requires t.replicas.Keys == s.replicas.Keys
    requires forall n :: n in s.replicas && n != x ==> t.replicas[n] == s.replicas[n]
    ensures forall n :: n in who && n in cfg.correct ==> Active(cfg, t, n, v, 0) && t.replicas[n].last == None
    ensures Fresh(FrontOf(t, u)) && Progressed(FrontOf(t, y), cfg.views(v), 0, Committing, ps, voters)
  {
    assert s.replicas.Keys == cfg.correct;
    hide SysInv, AreVoters, BallotsSent, Progressed, Active, Fresh;
    forall n | n in who && n in cfg.correct ensures Active(cfg, t, n, v, 0) && t.replicas[n].last == None {
      assert Active(cfg, s, n, v, 0);
      ActiveSame(cfg, s, t, n, v, 0);
    }
    assert Active(cfg, s, u, v, 0) && Fresh(FrontOf(s, u));
    ActiveSame(cfg, s, t, u, v, 0);
    assert Active(cfg, s, y, v, 0);
    ActiveSame(cfg, s, t, y, v, 0);
  }

  lemma SyncedStalls(cfg: Config, s: System, t: System, v: nat, ps: seq<Message>, u: Node, voters: seq<Node>, x: Node,
                     y: Node, who: seq<Node>)
    requires SysInv(cfg, s) && Roles(cfg, v, u, voters, x, y, who) && s.replicas.Keys == cfg.correct
    requires forall n :: n in who && n in cfg.correct ==> Active(cfg, s, n, v, 0) && s.replicas[n].last == None
    requires Active(cfg, s, y, v, 0) && Progressed(FrontOf(s, y), cfg.views(v), 0, Committing, ps, voters)
    requires Active(cfg, s, u, v, 0) && Fresh(FrontOf(s, u))
    requires t.replicas.Keys == s.replicas.Keys
    requires forall n :: n in s.replicas ==>
               t.replicas[n] == s.replicas[n].(syncing := s.replicas[n].syncing || n in who)
    ensures Stalled(cfg, t, v, u, y, who)
  {
    hide SysInv, AreVoters, Coupled, Fresh, Ballots, BatchDigest;
    ActiveFront(cfg, s, y, v, 0);
    forall n | n in who && n in cfg.correct ensures Waits(t, n, v) {
      assert Active(cfg, s, n, v, 0);
    }
  }

  lemma Stall(cfg: Config, v: nat, ps: seq<Message>) returns (t: System, u: Node, x: Node, y: Node, who: seq<Node>)
    requires cfg.Valid() && cfg.views(v).F() >= 1 && AreProposals(cfg.views(v), 0, ps)
    ensures CanReach(cfg, Initial(cfg), t) && AreVoters(cfg, v, who) && Stalled(cfg, t, v, u, y, who)
    ensures x !in who && x in cfg.correct && Finalised(t, x, cfg.views(v), ps)
  {
    var voters;
    u, voters, x, y, who := Casting(cfg, v);
    assert voters != [];
    hide Config.Valid, CanReach, Initial, AreProposals, AreVoters, SysInv, Fresh, Progressed, Stalled, CommittedIn,
         Finalised, Active, OnlyThese, DecidedFirst;
    var s, d, c := OneFinalisesAmong(cfg, v, ps, voters, x);
    ReachesOn(cfg, Initial(cfg), d, c);
    AllTakePart(cfg, s, c, v, ps, u, voters, x, y, who);
    t := SyncAll(cfg, c, who);
    SyncedStalls(cfg, c, t, v, ps, u, voters, x, y, who);
    ReachesOn(cfg, Initial(cfg), c, t);
    StillFinalised(c, t, x, cfg.views(v), ps);
  }

  lemma StillFinalised(s: System, t: System, x: Node, v: View, ps: seq<Message>)
    requires Finalised(s, x, v, ps) && x in t.replicas
    requires t.replicas[x].window == s.replicas[x].window && t.replicas[x].last == s.replicas[x].last
    ensures Finalised(t, x, v, ps)
  {
  }

  lemma StalledIsUnbound(cfg: Config, s: System, v: nat, u: Node, y: Node, who: seq<Node>, cs: Collects, r: Verdict)
    requires Stalled(cfg, s, v, u, y, who) && AreVoters(cfg, v, who) && cfg.views(v).F() >= 1
    requires cfg.views(v).seqNo == v
    requires CollectsOf(cfg, s, who, cfg.views(v).F(), cs) && Justified(cfg.views(v).F(), cs, r)
    ensures r.Unbound? && (v >= 1 ==> !r.holds)
  {
    hide Coupled, Justified, DigestOf, WriteSet;
    var k :| 0 <= k < |who| && who[k] == y;
    var j :| 0 <= j < |who| && who[j] == u;
    assert Prepared(cs[j]).None?;
    DecidedValueMayGoUnbound(FrontOf(s, y), cfg.views(v).F(), cs, k, j, r);
  }

  /** In every configuration with f >= 1, in every view and for all proposals, there is an
      execution in which a correct replica decides and finalises the proposals, yet a quorum of
      other members, none of whom has the proof, hands in collects by which no verdict binds any
      value. */
  lemma DecidedValueGoesUnbound(cfg: Config, v: nat, ps: seq<Message>)
    returns (trace: seq<System>, events: seq<Event>, x: Node, who: seq<Node>)
    requires cfg.Valid() && cfg.views(v).F() >= 1 && AreProposals(cfg.views(v), 0, ps)
    ensures IsExecution(cfg, trace, events) && AreVoters(cfg, v, who) && x !in who && x in cfg.correct
    ensures var s := trace[|events|];
            && Finalised(s, x, cfg.views(v), ps)
            && (forall n :: n in who && n in cfg.correct ==> Waits(s, n, v))
            && (forall cs, r :: CollectsOf(cfg, s, who, cfg.views(v).F(), cs) && Justified(cfg.views(v).F(), cs, r) ==>
                  r.Unbound? && (v >= 1 ==> !r.holds))
  {
    ViewNumber(cfg, v);
    hide Config.Valid, CanReach, Initial, AreProposals, AreVoters, Justified, CollectsOf, Waits, Finalised, Fresh,
         Coupled;
    var t, u, y;
    t, u, x, y, who := Stall(cfg, v, ps);
    trace, events := Executes(cfg, t);
    hide IsExecution;
    forall cs, r | CollectsOf(cfg, t, who, cfg.views(v).F(), cs) && Justified(cfg.views(v).F(), cs, r)
      ensures r.Unbound? && (v >= 1 ==> !r.holds)
    {
      StalledIsUnbound(cfg, t, v, u, y, who, cs, r);
    }
  }

  // Another view may decide something else

  lemma VotersWith(cfg: Config, v: nat, x: Node) returns (voters: seq<Node>)
    requires cfg.Valid() && x in cfg.views(v).members
    ensures AreVoters(cfg, v, voters) && x in voters
  {
    assert cfg.ViewOk(v);
    hide Config.Valid;
    var rest := Without(cfg.views(v).members, x);
    voters := [x] + rest[..cfg.views(v).Quorum() - 1];
  }

  /** In view `v` the replica `x` decides `ps`, then finalises them; all others that are correct
      stay at the first sequence number. */
  lemma OneFinalises(cfg: Config, v: nat, ps: seq<Message>, x: Node) returns (s: System, t: System)
    requires cfg.Valid() && AreProposals(cfg.views(v), 0, ps) && x in cfg.views(v).members && x in cfg.correct
    ensures CanReach(cfg, Initial(cfg), s) && DecidedFirst(s, x, v, ps)
    ensures CanReach(cfg, s, t) && SysInv(cfg, t) && Finalised(t, x, cfg.views(v), ps)
    ensures forall n :: n in t.replicas && n != x ==>
              t.replicas[n].window.seqNo == 0 && t.replicas[n].window.view.seqNo <= v
  {
    var voters := VotersWith(cfg, v, x);
    hide Config.Valid, CanReach, Initial, AreProposals, AreVoters, SysInv, Finalised, DecidedFirst;
    var u;
    u, s, t := OneFinalisesAmong(cfg, v, ps, voters, x);
    StayBehind(cfg, u, t, v, ps, voters, x);
  }

  lemma StayBehind(cfg: Config, s: System, t: System, v: nat, ps: seq<Message>, voters: seq<Node>, x: Node)
    requires CommittedIn(cfg, s, v, ps, voters) && t.replicas.Keys == s.replicas.Keys
    requires forall n :: n in s.replicas && n != x ==> t.replicas[n] == s.replicas[n]
    ensures forall n :: n in t.replicas && n != x ==>
              t.replicas[n].window.seqNo == 0 && t.replicas[n].window.view.seqNo <= v
  {
    hide SysInv, AllProgressed, BallotsSent, Active, Fresh;
  }

  lemma VotersWithout(cfg: Config, v: nat, x: Node) returns (voters: seq<Node>)
    requires cfg.Valid() && cfg.views(v).F() >= 1
    ensures AreVoters(cfg, v, voters) && x !in voters
  {
    assert cfg.ViewOk(v);
    hide Config.Valid;
    var rest := Without(cfg.views(v).members, x);
    voters := rest[..cfg.views(v).Quorum()];
  }

  /** Voters that have not left the first sequence number decide anything in a later view. */
  lemma OthersDecide(cfg: Config, s: System, v: nat, ps: seq<Message>, voters: seq<Node>) returns (t: System)
    requires SysInv(cfg, s) && AreVoters(cfg, v, voters) && AreProposals(cfg.views(v), 0, ps)
    requires forall n :: n in voters && n in s.replicas ==> MayBegin(cfg, s, n, v, 0)
    ensures CanReach(cfg, s, t) && SysInv(cfg, t) && OnlyThese(s, t, voters)
    ensures AllProgressed(cfg, t, voters, v, 0, Decided, ps, voters)
  {
    assert HashSpace.Distinct(voters);
    hide SysInv, CanReach, AreVoters, AreProposals, AllFresh, AllProgressed, BallotsSent, MayBegin;
    var a := BeginAll(cfg, s, voters, v, 0);
    var b := CommitAll(cfg, a, v, 0, ps, voters);
    t := DecideAt(cfg, b, v, 0, ps, voters, voters);
    ReachesOn(cfg, s, a, b);
    ReachesOn(cfg, s, b, t);
  }

  /** Agreement ends with the view. For all proposals of two views, the later one with f >= 1, and
      every correct member `x` of the first there is an execution in which `x` decides and
      finalises the first proposals, under the very sequence number for which another correct
      replica then decides the second. */
  lemma ViewsMayDisagree(cfg: Config, v: nat, ps: seq<Message>, v': nat, ps': seq<Message>, x: Node)
    returns (trace: seq<System>, events: seq<Event>, a: nat, y: Node)
    requires cfg.Valid() && v < v' && cfg.views(v').F() >= 1
    requires AreProposals(cfg.views(v), 0, ps) && AreProposals(cfg.views(v'), 0, ps')
    requires x in cfg.views(v).members && x in cfg.correct
    ensures IsExecution(cfg, trace, events) && a <= |events| && y in cfg.correct
    ensures DecidedFirst(trace[a], x, v, ps)
    ensures Finalised(trace[|events|], x, cfg.views(v), ps) && DecidedFirst(trace[|events|], y, v', ps')
  {
    ViewNumber(cfg, v');
    var s, t := OneFinalises(cfg, v, ps, x);
    var voters := VotersWithout(cfg, v', x);
    y := CorrectAmong(cfg, v', voters);
    assert t.replicas.Keys == cfg.correct;
    hide Config.Valid, CanReach, Initial, AreProposals, AreVoters, SysInv, Progressed, Active, DecidedFirst, Finalised;
    var u := OthersDecide(cfg, t, v', ps', voters);
    ReachesOn(cfg, s, t, u);
    OneDecided(cfg, u, v', ps', voters, y);
    StillFinalised(t, u, x, cfg.views(v), ps);
    trace, events, a := ExecutesThrough(cfg, s, u);
  }

  function Batch(v: View, seqNo: nat, requests: seq<Request>): Message
    requires v.members != []
  {
    Message(v.Leader(), seqNo, v.seqNo, PrePrepare(requests), OfProposal(0, v.seqNo, seqNo, requests))
  }

  lemma BatchIsProposal(v: View, seqNo: nat, requests: seq<Request>)
    requires v.members != [] && v == FromQuorum(v.seqNo, v.members)
    requires forall k :: 0 <= k < |requests| ==> |requests[k].digest| == DIGEST_LENGTH
    ensures AreProposals(v, seqNo, [Batch(v, seqNo, requests)])
    ensures OrderedRequests([Batch(v, seqNo, requests)], v.leaders) == requests
  {
    var b := Batch(v, seqNo, requests);
    assert InOwnSpace(v, b) by {
      forall k | 0 <= k < |requests| ensures HashSpace.InSlice(requests[k].digest, v.slices[b.from]) {
        SoleLeaderOwnsAll(v.seqNo, v.members, requests[k].digest);
      }
      assert v.slices.Keys == set n | n in v.leaders;
    }
    assert v.leaders == [v.Leader()] && v.leaders[..0] == [];
    assert ProposalOf([b], v.Leader()) == Some(b);
    assert OrderedRequests([b], v.leaders) == OrderedRequests([b], []) + requests;
  }

  ghost predicate AreRequests(rs: seq<Request>) {
    forall k :: 0 <= k < |rs| ==> |rs[k].digest| == DIGEST_LENGTH
  }

  /** All views are as the program builds them. */
  ghost predicate Built(cfg: Config) {
    forall k :: cfg.views(k).members != [] && cfg.views(k) == FromQuorum(k, cfg.views(k).members)
  }

  /** The replica holds the decision of number `seqNo` in view `v`, to the requests `rs`. */
  ghost predicate DecidedRequests(cfg: Config, s: System, n: Node, v: nat, seqNo: nat, i: Instance, rs: seq<Request>) {
    Holds(s, n, v, seqNo, i) && i.stage.Decided? && OrderedRequests(i.proposals, cfg.views(v).leaders) == rs
  }

  /** With views as the program builds them, whatever requests two views propose: both batches get
      decided under one sequence number, the first by any correct member of its view, who may be
      one that does not lead the second. */
  lemma RequestsMayDiffer(cfg: Config, v: nat, rs: seq<Request>, v': nat, rs': seq<Request>, x: Node)
    returns (trace: seq<System>, events: seq<Event>, a: nat, i: Instance, y: Node, j: Instance)
    requires cfg.Valid() && Built(cfg) && v < v' && cfg.views(v').F() >= 1
    requires AreRequests(rs) && AreRequests(rs') && x in cfg.views(v).members && x in cfg.correct
    ensures IsExecution(cfg, trace, events) && a <= |events| && y in cfg.correct
    ensures DecidedRequests(cfg, trace[a], x, v, 0, i, rs)
    ensures DecidedRequests(cfg, trace[|events|], y, v', 0, j, rs')
    ensures var s := trace[|events|];
            && x in s.replicas && s.replicas[x].last.Some?
            && s.replicas[x].last.value.seqNo == 0 && s.replicas[x].last.value.requests == rs
  {
    assert cfg.ViewOk(v) && cfg.ViewOk(v');
    var p, p' := Batch(cfg.views(v), 0, rs), Batch(cfg.views(v'), 0, rs');
    BatchIsProposal(cfg.views(v), 0, rs);
    BatchIsProposal(cfg.views(v'), 0, rs');
    hide Config.Valid, Config.ViewOk, IsExecution, AreProposals, Holds, OrderedRequests, FromQuorum;
    trace, events, a, y := ViewsMayDisagree(cfg, v, [p], v', [p'], x);
    i, j := FrontOf(trace[a], x), FrontOf(trace[|events|], y);
  }

  /** Whenever correct replicas have decided under one sequence number, in view `v` and in view
      `v'`, they have decided the same requests. */
  ghost predicate ViewsAgree(cfg: Config, v: nat, v': nat) {
    forall trace, events, seqNo, a, x, i, rs, b, y, j, rs' ::
      && IsExecution(cfg, trace, events) && 0 <= a <= |events| && 0 <= b <= |events|
      && DecidedRequests(cfg, trace[a], x, v, seqNo, i, rs) && DecidedRequests(cfg, trace[b], y, v', seqNo, j, rs')
      ==> rs == rs'
  }

  lemma SameViewAgrees(cfg: Config, v: nat)
    requires cfg.Valid()
    ensures ViewsAgree(cfg, v, v)
  {
    hide Enabled, StepTo, Start, Config.Valid, Holds, OrderedRequests, DigestOf;
    forall trace, events, seqNo, a, x, i, rs, b, y, j, rs' |
      && IsExecution(cfg, trace, events) && 0 <= a <= |events| && 0 <= b <= |events|
      && DecidedRequests(cfg, trace[a], x, v, seqNo, i, rs) && DecidedRequests(cfg, trace[b], y, v, seqNo, j, rs')
      ensures rs == rs'
    {
      InViewAgreement(cfg, trace, events, v, seqNo, a, x, i, b, y, j);
      HeldInView(cfg, trace, events, a, x, v, seqNo, i);
      HeldInView(cfg, trace, events, b, y, v, seqNo, j);
    }
  }

  lemma HeldInView(cfg: Config, trace: seq<System>, events: seq<Event>, a: nat, x: Node, v: nat, seqNo: nat,
                   i: Instance)
    requires IsExecution(cfg, trace, events) && a <= |events| && Holds(trace[a], x, v, seqNo, i)
    ensures i.view == cfg.views(v)
  {
    ReachableOk(cfg, trace, events, a);
    hide IsExecution, Holds, SysInv;
    HeldOk(cfg, trace[a], x, v, seqNo, i);
  }

  /** A correct member of view `v` that does not lead view `v'`. */
  lemma NotLeading(cfg: Config, v: nat, v': nat) returns (x: Node)
    requires cfg.Valid() && Built(cfg) && cfg.views(v).F() >= 1
    ensures x in cfg.views(v).members && x in cfg.correct && x !in cfg.views(v').leaders
  {
    assert cfg.ViewOk(v);
    hide Config.Valid;
    assert cfg.views(v').leaders == [cfg.views(v').Leader()];
    var rest := Without(cfg.views(v).members, cfg.views(v').Leader());
    x := CorrectAmong(cfg, v, rest);
  }

  lemma LaterViewDiffers(cfg: Config, v: nat, v': nat)
    requires cfg.Valid() && Built(cfg) && v < v' && cfg.views(v).F() >= 1 && cfg.views(v').F() >= 1
    ensures !ViewsAgree(cfg, v, v') && !ViewsAgree(cfg, v', v)
  {
    hide Config.Valid, Built, IsExecution, DecidedRequests;
    var x := NotLeading(cfg, v, v');
    var r := Request(0, 0, 0, seq(DIGEST_LENGTH, k => 0), 0);
    var trace, events, a, i, y, j := RequestsMayDiffer(cfg, v, [], v', [r], x);
    assert [] != [r];
  }

  /** Correct replicas agree across the views `v` and `v'` exactly if these are the same view. */
  lemma ViewsAgreeExactly(cfg: Config, v: nat, v': nat)
    requires cfg.Valid() && Built(cfg) && cfg.views(v).F() >= 1 && cfg.views(v').F() >= 1
    ensures ViewsAgree(cfg, v, v') <==> v == v'
  {
    hide Config.Valid, Built, ViewsAgree;
    if v == v' {
      SameViewAgrees(cfg, v);
    } else if v < v' {
      LaterViewDiffers(cfg, v, v');
    } else {
      LaterViewDiffers(cfg, v', v);
    }
  }
}
