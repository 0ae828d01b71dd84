/**
 Executions that really happen: from any configuration, a proposal can be driven through
 prepares and commits to a decision, by as many or as few replicas as one likes.
 */
module Scenarios {
  import opened Messages
  import opened Instances
  import opened Views
  import opened Windows
  import opened WindowInvariants
  import opened WindowRouting
  import opened WindowRuns
  import opened Systems
  import opened SystemInvariants
  import opened Paths
  import HashSpace

  // What a sequence of messages does to one instance

  function Feed(me: Node, i: Instance, ms: seq<Message>): Instance {
    if ms == [] then i else Process(me, Feed(me, i, ms[..|ms| - 1]), ms[|ms| - 1]).instance
  }

  /** The votes that the instance casts on the way. */
  function Votes(me: Node, i: Instance, ms: seq<Message>): set<Message> {
    if ms == [] then {}
    else
      var sent := Process(me, Feed(me, i, ms[..|ms| - 1]), ms[|ms| - 1]).sent;
      Votes(me, i, ms[..|ms| - 1]) + if sent.Some? then {sent.value} else {}
  }

  /** Started, and nothing accepted yet. */
  predicate Fresh(i: Instance) {
    i.stage.PrePreparing? && i.proposals == [] && i.prepares == [] && i.commits == []
  }

  function Ballots(voters: seq<Node>, view: nat, seqNo: nat, kind: Kind): (b: seq<Message>)
    ensures |b| == |voters|
  {
    seq(|voters|, k requires 0 <= k < |voters| => Message(voters[k], seqNo, view, kind, Other(0)))
  }

  lemma FeedLast(me: Node, i: Instance, ms: seq<Message>, k: nat)
    requires k < |ms|
    ensures Feed(me, i, ms[..k + 1]) == Process(me, Feed(me, i, ms[..k]), ms[k]).instance
    ensures var sent := Process(me, Feed(me, i, ms[..k]), ms[k]).sent;
            Votes(me, i, ms[..k + 1]) == Votes(me, i, ms[..k]) + if sent.Some? then {sent.value} else {}
  {
    assert ms[..k + 1][..k] == ms[..k];
  }

  lemma NotVoted(ms: seq<Message>, k: nat)
    requires k < |ms| && DistinctSenders(ms)
    ensures !Voted(ms[..k], ms[k].from)
  {
    SendersAre(ms[..k]);
  }

  lemma ProposalsDistinct(v: View, seqNo: nat, ps: seq<Message>)
    requires v.Valid() && AreProposals(v, seqNo, ps)
    ensures DistinctSenders(ps)
  {
  }

  lemma ProposalTaken(me: Node, i: Instance, m: Message)
    requires i.stage.PrePreparing? && m.kind.PrePrepare? && InOwnSpace(i.view, m)
    requires m.view == i.view.seqNo && m.seqNo == i.seqNo && m.from in i.view.leaders && !Voted(i.proposals, m.from)
    ensures var j := i.(proposals := i.proposals + [m]);
            var step := Process(me, i, m);
            if |j.proposals| == |i.view.leaders| then
              && step.instance == j.(stage := Preparing, inbox := step.instance.inbox)
              && step.sent == Some(Vote(me, i, Prepare(DigestOf(j))))
            else step.instance == j && step.sent == None
  {
    hide Voted, DigestOf, MetadataOf;
  }

  lemma {:induction false} FeedProposals(me: Node, i: Instance, ps: seq<Message>, k: nat)
    requires i.view.Valid() && Fresh(i) && AreProposals(i.view, i.seqNo, ps) && k <= |ps|
    ensures Feed(me, i, ps[..k]) == i.(proposals := ps[..k], stage := if k < |ps| then PrePreparing else Preparing,
                                       inbox := Feed(me, i, ps[..k]).inbox)
    ensures k == |ps| ==> Vote(me, i, Prepare(BatchDigest(i.view, ps))) in Votes(me, i, ps[..k])
  {
    hide Ordering, Authentic, InOwnSpace, Process, Feed, Votes, Voted;
    assert i.view.leaders != [];
    if k > 0 {
      FeedProposals(me, i, ps, k - 1);
      FeedLast(me, i, ps, k - 1);
      ProposalsDistinct(i.view, i.seqNo, ps);
      NotVoted(ps, k - 1);
      assert ps[..k] == ps[..k - 1] + [ps[k - 1]];
      assert k == |ps| ==> ps[..k] == ps;
      ProposalTaken(me, Feed(me, i, ps[..k - 1]), ps[k - 1]);
    } else {
      NothingFed(me, i);
    }
  }

  lemma NothingFed(me: Node, i: Instance)
    ensures Feed(me, i, []) == i && Votes(me, i, []) == {}
  {
  }

  lemma {:induction false} FeedPrepares(me: Node, i: Instance, ms: seq<Message>, k: nat)
    requires i.stage.Preparing? && i.prepares == [] && VotesFor(ms, i, Prepare(DigestOf(i)))
    requires |ms| == i.view.Quorum() && k <= |ms|
    ensures Feed(me, i, ms[..k]) == i.(prepares := ms[..k], stage := if k < |ms| then Preparing else Committing,
                                       inbox := Feed(me, i, ms[..k]).inbox)
    ensures k == |ms| ==> Vote(me, i, Commit(DigestOf(i))) in Votes(me, i, ms[..k])
  {
    hide Ordering, Process, Feed, Votes, Voted;
    if k > 0 {
      FeedPrepares(me, i, ms, k - 1);
      FeedLast(me, i, ms, k - 1);
      NotVoted(ms, k - 1);
      assert ms[..k] == ms[..k - 1] + [ms[k - 1]];
      PrepareTaken(me, Feed(me, i, ms[..k - 1]), ms[k - 1]);
    } else {
      NothingFed(me, i);
    }
  }

  lemma PrepareTaken(me: Node, i: Instance, m: Message)
    requires i.stage.Preparing? && m.view == i.view.seqNo && m.seqNo == i.seqNo && m.kind == Prepare(DigestOf(i))
    requires !Voted(i.prepares, m.from)
    ensures var j := i.(prepares := i.prepares + [m]);
            var step := Process(me, i, m);
            if |j.prepares| == i.view.Quorum() then
              && step.instance == j.(stage := Committing, inbox := step.instance.inbox)
              && step.sent == Some(Vote(me, i, Commit(DigestOf(i))))
            else step.instance == j && step.sent == None
  {
    hide Voted, DigestOf;
  }

  lemma CommitTaken(me: Node, i: Instance, m: Message)
    requires i.stage.Committing? && m.view == i.view.seqNo && m.seqNo == i.seqNo && m.kind == Commit(DigestOf(i))
    requires !Voted(i.commits, m.from)
    ensures var j := i.(commits := i.commits + [m]);
            Process(me, i, m).instance == if |j.commits| == i.view.Quorum() then j.(stage := Decided) else j
  {
    hide Voted, DigestOf;
  }

  lemma {:induction false} FeedCommits(me: Node, i: Instance, ms: seq<Message>, k: nat)
    requires i.stage.Committing? && i.commits == [] && VotesFor(ms, i, Commit(DigestOf(i)))
    requires |ms| == i.view.Quorum() && k <= |ms|
    ensures Feed(me, i, ms[..k]) == i.(commits := ms[..k], stage := if k < |ms| then Committing else Decided,
                                       inbox := Feed(me, i, ms[..k]).inbox)
  {
    hide Ordering, Process, Feed, Votes, Voted;
    if k > 0 {
      FeedCommits(me, i, ms, k - 1);
      FeedLast(me, i, ms, k - 1);
      NotVoted(ms, k - 1);
      assert ms[..k] == ms[..k - 1] + [ms[k - 1]];
      CommitTaken(me, Feed(me, i, ms[..k - 1]), ms[k - 1]);
    } else {
      NothingFed(me, i);
    }
  }

  // Steps of the system

  ghost function Steps(cfg: Config): (System, Event, System) -> bool {
    (s: System, e: Event, t: System) => Enabled(cfg, s, e) && StepTo(s, e, t)
  }

  ghost predicate CanReach(cfg: Config, s: System, t: System) {
    Reaches(Steps(cfg), s, t)
  }

  lemma StepReaches(cfg: Config, s: System, e: Event, t: System)
    requires SysInv(cfg, s) && Enabled(cfg, s, e) && StepTo(s, e, t)
    ensures CanReach(cfg, s, t) && SysInv(cfg, t) && s.sent <= t.sent
  {
    hide SysInv, Enabled, StepTo;
    StepKeeps(cfg, s, e, t);
    Take(Steps(cfg), s, e, t);
  }

  lemma CanStay(cfg: Config, s: System)
    ensures CanReach(cfg, s, s)
  {
    Stays(Steps(cfg), s);
  }

  lemma ReachesOn(cfg: Config, s: System, t: System, u: System)
    requires CanReach(cfg, s, t) && CanReach(cfg, t, u)
    ensures CanReach(cfg, s, u)
  {
    Follow(Steps(cfg), s, t, u);
  }

  /** The replica takes part in instance `seqNo` of view `v`, at the front of its window. */
  ghost predicate Active(cfg: Config, s: System, n: Node, v: nat, seqNo: nat) {
    && n in s.replicas && !s.replicas[n].syncing
    && var w := s.replicas[n].window; w.view == cfg.views(v) && w.seqNo == seqNo && w.decisions != []
  }

  function FrontOf(s: System, n: Node): Instance
    requires n in s.replicas && s.replicas[n].window.decisions != []
  {
    s.replicas[n].window.decisions[0]
  }

  ghost predicate OthersSame(s: System, t: System, n: Node) {
    && t.replicas.Keys == s.replicas.Keys
    && (forall k :: k in s.replicas && k != n ==> t.replicas[k] == s.replicas[k])
    && (n in s.replicas ==> t.replicas[n].last == s.replicas[n].last)
  }

  lemma DeliverTo(cfg: Config, s: System, n: Node, v: nat, seqNo: nat, m: Message) returns (t: System)
    requires SysInv(cfg, s) && Active(cfg, s, n, v, seqNo) && Known(cfg, s.sent, m) && m.view == v && m.seqNo == seqNo
    ensures CanReach(cfg, s, t) && SysInv(cfg, t) && s.sent <= t.sent && OthersSame(s, t, n)
    ensures Active(cfg, t, n, v, seqNo) && FrontOf(t, n) == Process(n, FrontOf(s, n), m).instance
    ensures var sent := Process(n, FrontOf(s, n), m).sent; sent.Some? ==> sent.value in t.sent
  {
    assert cfg.views(v).seqNo == v by { assert cfg.ViewOk(v); }
    WindowInv(cfg, s, n);
    DeliverOutcome(s.replicas[n], m);
    hide SysInv, Known, Process, Outcome, Sends, Inv, CanReach;
    t := Acts(cfg, s, n, DeliverOp(m));
  }

  lemma DeliverOutcome(r: Replica, m: Message)
    requires r.window.decisions != [] && r.window.view.seqNo == m.view && r.window.seqNo == m.seqNo
    ensures Sends(r.window, DeliverOp(m)) == Process(r.window.me, r.window.decisions[0], m).sent
    ensures var q := Outcome(r, DeliverOp(m));
            && q.syncing == r.syncing && q.last == r.last && q.window.view == r.window.view
            && q.window.seqNo == r.window.seqNo && q.window.decisions != []
            && q.window.decisions[0] == Process(r.window.me, r.window.decisions[0], m).instance
  {
    hide Process;
  }

  lemma {:induction false} DeliverAll(cfg: Config, s: System, n: Node, v: nat, seqNo: nat, ms: seq<Message>)
    returns (t: System)
    requires SysInv(cfg, s) && Active(cfg, s, n, v, seqNo)
    requires forall m :: m in ms ==> Known(cfg, s.sent, m) && m.view == v && m.seqNo == seqNo
    ensures CanReach(cfg, s, t) && SysInv(cfg, t) && s.sent <= t.sent && OthersSame(s, t, n)
    ensures Active(cfg, t, n, v, seqNo) && FrontOf(t, n) == Feed(n, FrontOf(s, n), ms)
    ensures Votes(n, FrontOf(s, n), ms) <= t.sent
  {
    hide SysInv, Active, Process, CanReach;
    if ms == [] {
      t := s;
      CanStay(cfg, s);
    } else {
      var u := DeliverAll(cfg, s, n, v, seqNo, ms[..|ms| - 1]);
      assert Known(cfg, s.sent, ms[|ms| - 1]);
      t := DeliverTo(cfg, u, n, v, seqNo, ms[|ms| - 1]);
      ReachesOn(cfg, s, u, t);
    }
  }

  // Rounds: the same messages go to several replicas

  /** Outside `ns` nothing changed but the messages sent; inside, no proof of a decision did. */
  ghost predicate OnlyThese(s: System, t: System, ns: seq<Node>) {
    && s.sent <= t.sent && t.replicas.Keys == s.replicas.Keys
    && (forall n :: n in s.replicas && n !in ns ==> t.replicas[n] == s.replicas[n])
    && (forall n :: n in s.replicas ==> t.replicas[n].last == s.replicas[n].last)
  }

  /** The correct ones among `ns` take part in instance `seqNo` of view `v`. */
  ghost predicate AllActive(cfg: Config, s: System, ns: seq<Node>, v: nat, seqNo: nat) {
    forall n :: n in ns && n in s.replicas ==> Active(cfg, s, n, v, seqNo)
  }

  lemma ActiveSame(cfg: Config, s: System, t: System, n: Node, v: nat, seqNo: nat)
    requires Active(cfg, s, n, v, seqNo) && n in t.replicas && t.replicas[n] == s.replicas[n]
    ensures Active(cfg, t, n, v, seqNo) && FrontOf(t, n) == FrontOf(s, n)
  {
  }

  /** The replica was fed the messages `ms` between `s` and `t`. */
  ghost predicate WasFed(cfg: Config, s: System, t: System, n: Node, v: nat, seqNo: nat, ms: seq<Message>) {
    && Active(cfg, s, n, v, seqNo) && Active(cfg, t, n, v, seqNo)
    && FrontOf(t, n) == Feed(n, FrontOf(s, n), ms) && Votes(n, FrontOf(s, n), ms) <= t.sent
  }

  lemma OneMoreFed(cfg: Config, s: System, u: System, t: System, ns: seq<Node>, n: Node, v: nat, seqNo: nat,
                   ms: seq<Message>)
    requires OnlyThese(s, u, ns) && n !in ns && n in s.replicas && u.replicas[n] == s.replicas[n]
    requires forall k :: k in ns && k in s.replicas ==> WasFed(cfg, s, u, k, v, seqNo, ms)
    requires u.sent <= t.sent && OthersSame(u, t, n) && WasFed(cfg, u, t, n, v, seqNo, ms)
    ensures OnlyThese(s, t, ns + [n])
    ensures forall k :: k in ns + [n] && k in s.replicas ==> WasFed(cfg, s, t, k, v, seqNo, ms)
  {
    hide Feed, Votes;
    forall k | k in ns + [n] && k in s.replicas ensures WasFed(cfg, s, t, k, v, seqNo, ms) {
      if k != n {
        assert WasFed(cfg, s, u, k, v, seqNo, ms);
      }
    }
  }

  lemma {:induction false} Round(cfg: Config, s: System, ns: seq<Node>, v: nat, seqNo: nat, ms: seq<Message>)
    returns (t: System)
    requires SysInv(cfg, s) && HashSpace.Distinct(ns) && AllActive(cfg, s, ns, v, seqNo)
    requires forall m :: m in ms ==> Known(cfg, s.sent, m) && m.view == v && m.seqNo == seqNo
    ensures CanReach(cfg, s, t) && SysInv(cfg, t) && OnlyThese(s, t, ns)
    ensures forall n :: n in ns && n in s.replicas ==> WasFed(cfg, s, t, n, v, seqNo, ms)
  {
    hide SysInv, CanReach, Feed, Votes, Active;
    if ns == [] {
      t := s;
      CanStay(cfg, s);
    } else {
      var rest, n := ns[..|ns| - 1], ns[|ns| - 1];
      assert ns == rest + [n];
      var u := Round(cfg, s, rest, v, seqNo, ms);
      if n in s.replicas {
        ActiveSame(cfg, s, u, n, v, seqNo);
        forall m | m in ms ensures Known(cfg, u.sent, m) {
          assert Known(cfg, s.sent, m);
        }
        t := DeliverAll(cfg, u, n, v, seqNo, ms);
        ReachesOn(cfg, s, u, t);
        OneMoreFed(cfg, s, u, t, rest, n, v, seqNo, ms);
      } else {
        t := u;
      }
    }
  }

  /** Everything among `ms` that can be sent at any time is sent. */
  lemma {:induction false} InjectAll(cfg: Config, s: System, ms: seq<Message>) returns (t: System)
    requires SysInv(cfg, s)
    ensures CanReach(cfg, s, t) && SysInv(cfg, t) && t.replicas == s.replicas && s.sent <= t.sent
    ensures forall m :: m in ms && Authentic(m) && (IsVote(m) ==> m.from in cfg.faulty) ==> m in t.sent
  {
    hide SysInv, CanReach, Authentic;
    if ms == [] {
      t := s;
      CanStay(cfg, s);
    } else {
      var rest, m := ms[..|ms| - 1], ms[|ms| - 1];
      assert forall k :: k in ms ==> k in rest || k == m;
      var u := InjectAll(cfg, s, rest);
      if Authentic(m) && (IsVote(m) ==> m.from in cfg.faulty) {
        t := u.(sent := u.sent + {m});
        StepReaches(cfg, u, Inject(m), t);
        ReachesOn(cfg, s, u, t);
      } else {
        t := u;
      }
    }
  }

  // From proposals to a decision

  ghost predicate AreVoters(cfg: Config, v: nat, voters: seq<Node>) {
    && HashSpace.Distinct(voters) && |voters| == cfg.views(v).Quorum()
    && (forall n :: n in voters ==> n in cfg.views(v).members)
  }

  ghost predicate AllFresh(cfg: Config, s: System, ns: seq<Node>, v: nat, seqNo: nat) {
    forall n :: n in ns && n in s.replicas ==> Active(cfg, s, n, v, seqNo) && Fresh(FrontOf(s, n))
  }

  /** What an instance has accepted when it has come as far as `stage`. */
  ghost predicate Progressed(i: Instance, v: View, seqNo: nat, stage: Stage, ps: seq<Message>, voters: seq<Node>) {
    var d := BatchDigest(v, ps);
    && i.seqNo == seqNo && i.view == v && i.stage == stage && i.proposals == ps
    && i.prepares == (if stage.Rank() >= Committing.Rank() then Ballots(voters, v.seqNo, seqNo, Prepare(d)) else [])
    && i.commits == (if stage.Decided? then Ballots(voters, v.seqNo, seqNo, Commit(d)) else [])
  }

  ghost predicate AllProgressed(cfg: Config, s: System, ns: seq<Node>, v: nat, seqNo: nat, stage: Stage,
                                ps: seq<Message>, voters: seq<Node>) {
    forall n :: n in ns && n in s.replicas ==>
      Active(cfg, s, n, v, seqNo) && Progressed(FrontOf(s, n), cfg.views(v), seqNo, stage, ps, voters)
  }

  ghost predicate BallotsSent(cfg: Config, sent: set<Message>, voters: seq<Node>, v: nat, seqNo: nat, kind: Kind) {
    forall m :: m in Ballots(voters, v, seqNo, kind) ==> Known(cfg, sent, m) && m.view == v && m.seqNo == seqNo
  }

  lemma ActiveFront(cfg: Config, s: System, n: Node, v: nat, seqNo: nat)
    requires SysInv(cfg, s) && Active(cfg, s, n, v, seqNo)
    ensures FrontOf(s, n).seqNo == seqNo && FrontOf(s, n).view == cfg.views(v) && Coupled(FrontOf(s, n))
    ensures cfg.views(v).Valid() && cfg.views(v).seqNo == v
  {
    assert cfg.ViewOk(v);
    hide Config.ViewOk, Coupled, View.Valid, LogsKnown, QueuesKnown, VotesStand, VotesUnique, WellRouted, Awake,
         OffersStarted;
    assert ReplicaOk(cfg, s.sent, n, s.replicas[n]);
    assert Numbered(s.replicas[n].window);
  }

  lemma BallotVoter(voters: seq<Node>, v: nat, seqNo: nat, kind: Kind, m: Message)
    requires m in Ballots(voters, v, seqNo, kind)
    ensures m.from in voters && m == Message(m.from, seqNo, v, kind, Other(0))
  {
  }

  /** The ballots of faulty voters can always be sent. */
  lemma FaultyBallots(cfg: Config, s: System, voters: seq<Node>, v: nat, seqNo: nat, kind: Kind) returns (t: System)
    requires SysInv(cfg, s) && AreVoters(cfg, v, voters) && !kind.PrePrepare?
    requires forall n :: n in voters && n in s.replicas ==> Message(n, seqNo, v, kind, Other(0)) in s.sent
    ensures CanReach(cfg, s, t) && SysInv(cfg, t) && t.replicas == s.replicas && s.sent <= t.sent
    ensures BallotsSent(cfg, t.sent, voters, v, seqNo, kind)
  {
    assert cfg.ViewOk(v) && s.replicas.Keys == cfg.correct;
    hide SysInv, CanReach, Ballots;
    t := InjectAll(cfg, s, Ballots(voters, v, seqNo, kind));
    forall m | m in Ballots(voters, v, seqNo, kind) ensures Known(cfg, t.sent, m) && m.view == v && m.seqNo == seqNo {
      BallotVoter(voters, v, seqNo, kind, m);
      assert m.from in cfg.views(v).MemberSet();
    }
  }

  lemma ProposalsFed(cfg: Config, s: System, t: System, n: Node, v: nat, seqNo: nat, ps: seq<Message>,
                     voters: seq<Node>)
    requires SysInv(cfg, s) && WasFed(cfg, s, t, n, v, seqNo, ps)
    requires Fresh(FrontOf(s, n)) && AreProposals(cfg.views(v), seqNo, ps)
    ensures Progressed(FrontOf(t, n), cfg.views(v), seqNo, Preparing, ps, voters)
    ensures Message(n, seqNo, v, Prepare(BatchDigest(cfg.views(v), ps)), Other(0)) in t.sent
  {
    ActiveFront(cfg, s, n, v, seqNo);
    hide SysInv, Feed, Votes, BatchDigest, AreProposals, Ballots;
    assert ps[..|ps|] == ps;
    FeedProposals(n, FrontOf(s, n), ps, |ps|);
  }

  lemma ProposalsSent(cfg: Config, s: System, v: nat, seqNo: nat, ps: seq<Message>) returns (t: System)
    requires SysInv(cfg, s) && AreProposals(cfg.views(v), seqNo, ps)
    ensures CanReach(cfg, s, t) && SysInv(cfg, t) && t.replicas == s.replicas && s.sent <= t.sent
    ensures forall m :: m in ps ==> Known(cfg, t.sent, m) && m.view == v && m.seqNo == seqNo
  {
    assert cfg.ViewOk(v);
    hide SysInv, CanReach, InOwnSpace, Authentic;
    t := InjectAll(cfg, s, ps);
    forall m | m in ps ensures Known(cfg, t.sent, m) && m.view == v && m.seqNo == seqNo {
      var k :| 0 <= k < |ps| && ps[k] == m;
    }
  }

  /** Proposals reach all voters, which prepare. */
  lemma ProposeTo(cfg: Config, s: System, v: nat, seqNo: nat, ps: seq<Message>, voters: seq<Node>) returns (t: System)
    requires SysInv(cfg, s) && AreVoters(cfg, v, voters) && AreProposals(cfg.views(v), seqNo, ps)
    requires AllFresh(cfg, s, voters, v, seqNo)
    ensures CanReach(cfg, s, t) && SysInv(cfg, t) && OnlyThese(s, t, voters)
    ensures AllProgressed(cfg, t, voters, v, seqNo, Preparing, ps, voters)
    ensures BallotsSent(cfg, t.sent, voters, v, seqNo, Prepare(BatchDigest(cfg.views(v), ps)))
  {
    hide SysInv, CanReach, BatchDigest, BallotsSent, AreProposals, Progressed, Known;
    var u := ProposalsSent(cfg, s, v, seqNo, ps);
    assert AllActive(cfg, u, voters, v, seqNo);
    var x := Round(cfg, u, voters, v, seqNo, ps);
    var d := BatchDigest(cfg.views(v), ps);
    forall n | n in voters && n in s.replicas
      ensures Active(cfg, x, n, v, seqNo) && Progressed(FrontOf(x, n), cfg.views(v), seqNo, Preparing, ps, voters)
      ensures Message(n, seqNo, v, Prepare(d), Other(0)) in x.sent
    {
      ProposalsFed(cfg, u, x, n, v, seqNo, ps, voters);
    }
    t := FaultyBallots(cfg, x, voters, v, seqNo, Prepare(d));
    ReachesOn(cfg, s, u, x);
    ReachesOn(cfg, s, x, t);
  }

  lemma BallotsAreVotes(i: Instance, voters: seq<Node>, kind: Kind)
    requires HashSpace.Distinct(voters)
    ensures VotesFor(Ballots(voters, i.view.seqNo, i.seqNo, kind), i, kind)
  {
  }

  lemma PreparesFed(cfg: Config, s: System, t: System, n: Node, v: nat, seqNo: nat, ps: seq<Message>, voters: seq<Node>)
    requires SysInv(cfg, s) && AreVoters(cfg, v, voters)
    requires WasFed(cfg, s, t, n, v, seqNo, Ballots(voters, v, seqNo, Prepare(BatchDigest(cfg.views(v), ps))))
    requires Progressed(FrontOf(s, n), cfg.views(v), seqNo, Preparing, ps, voters)
    ensures Progressed(FrontOf(t, n), cfg.views(v), seqNo, Committing, ps, voters)
    ensures Message(n, seqNo, v, Commit(BatchDigest(cfg.views(v), ps)), Other(0)) in t.sent
  {
    ActiveFront(cfg, s, n, v, seqNo);
    hide SysInv, Feed, Votes, Ballots, Ordering;
    var i := FrontOf(s, n);
    var ms := Ballots(voters, v, seqNo, Prepare(DigestOf(i)));
    BallotsAreVotes(i, voters, Prepare(DigestOf(i)));
    assert ms[..|ms|] == ms;
    FeedPrepares(n, i, ms, |ms|);
  }

  /** The prepares reach all voters, which commit. */
  lemma CommitTo(cfg: Config, s: System, v: nat, seqNo: nat, ps: seq<Message>, voters: seq<Node>) returns (t: System)
    requires SysInv(cfg, s) && AreVoters(cfg, v, voters)
    requires AllProgressed(cfg, s, voters, v, seqNo, Preparing, ps, voters)
    requires BallotsSent(cfg, s.sent, voters, v, seqNo, Prepare(BatchDigest(cfg.views(v), ps)))
    ensures CanReach(cfg, s, t) && SysInv(cfg, t) && OnlyThese(s, t, voters)
    ensures AllProgressed(cfg, t, voters, v, seqNo, Committing, ps, voters)
    ensures BallotsSent(cfg, t.sent, voters, v, seqNo, Commit(BatchDigest(cfg.views(v), ps)))
  {
    hide SysInv, CanReach, BatchDigest, Progressed, Known, Ballots;
    var d := BatchDigest(cfg.views(v), ps);
    assert AllActive(cfg, s, voters, v, seqNo);
    var x := Round(cfg, s, voters, v, seqNo, Ballots(voters, v, seqNo, Prepare(d)));
    forall n | n in voters && n in s.replicas
      ensures Active(cfg, x, n, v, seqNo) && Progressed(FrontOf(x, n), cfg.views(v), seqNo, Committing, ps, voters)
      ensures Message(n, seqNo, v, Commit(d), Other(0)) in x.sent
    {
      PreparesFed(cfg, s, x, n, v, seqNo, ps, voters);
    }
    t := FaultyBallots(cfg, x, voters, v, seqNo, Commit(d));
    ReachesOn(cfg, s, x, t);
  }

  lemma CommitsFed(cfg: Config, s: System, t: System, n: Node, v: nat, seqNo: nat, ps: seq<Message>, voters: seq<Node>)
    requires SysInv(cfg, s) && AreVoters(cfg, v, voters)
    requires WasFed(cfg, s, t, n, v, seqNo, Ballots(voters, v, seqNo, Commit(BatchDigest(cfg.views(v), ps))))
    requires Progressed(FrontOf(s, n), cfg.views(v), seqNo, Committing, ps, voters)
    ensures Progressed(FrontOf(t, n), cfg.views(v), seqNo, Decided, ps, voters)
  {
    ActiveFront(cfg, s, n, v, seqNo);
    hide SysInv, Feed, Votes, Ballots, Ordering;
    var i := FrontOf(s, n);
    var ms := Ballots(voters, v, seqNo, Commit(DigestOf(i)));
    BallotsAreVotes(i, voters, Commit(DigestOf(i)));
    assert ms[..|ms|] == ms;
    FeedCommits(n, i, ms, |ms|);
  }

  /** The commits reach the replicas `ns`, which decide; the others have only committed. */
  lemma DecideAt(cfg: Config, s: System, v: nat, seqNo: nat, ps: seq<Message>, voters: seq<Node>, ns: seq<Node>)
    returns (t: System)
    requires SysInv(cfg, s) && AreVoters(cfg, v, voters) && HashSpace.Distinct(ns)
    requires AllProgressed(cfg, s, ns, v, seqNo, Committing, ps, voters)
    requires BallotsSent(cfg, s.sent, voters, v, seqNo, Commit(BatchDigest(cfg.views(v), ps)))
    ensures CanReach(cfg, s, t) && SysInv(cfg, t) && OnlyThese(s, t, ns)
    ensures AllProgressed(cfg, t, ns, v, seqNo, Decided, ps, voters)
  {
    hide SysInv, CanReach, BatchDigest, Progressed, Known, Ballots;
    var d := BatchDigest(cfg.views(v), ps);
    assert AllActive(cfg, s, ns, v, seqNo);
    t := Round(cfg, s, ns, v, seqNo, Ballots(voters, v, seqNo, Commit(d)));
    forall n | n in ns && n in s.replicas
      ensures Active(cfg, t, n, v, seqNo) && Progressed(FrontOf(t, n), cfg.views(v), seqNo, Decided, ps, voters)
    {
      CommitsFed(cfg, s, t, n, v, seqNo, ps, voters);
    }
  }

  /** From fresh voters to committed ones. */
  lemma CommitAll(cfg: Config, s: System, v: nat, seqNo: nat, ps: seq<Message>, voters: seq<Node>) returns (t: System)
    requires SysInv(cfg, s) && AreVoters(cfg, v, voters) && AreProposals(cfg.views(v), seqNo, ps)
    requires AllFresh(cfg, s, voters, v, seqNo)
    ensures CanReach(cfg, s, t) && SysInv(cfg, t) && OnlyThese(s, t, voters)
    ensures AllProgressed(cfg, t, voters, v, seqNo, Committing, ps, voters)
    ensures BallotsSent(cfg, t.sent, voters, v, seqNo, Commit(BatchDigest(cfg.views(v), ps)))
  {
    hide SysInv, CanReach, BatchDigest, AllProgressed, AllFresh, AreProposals, BallotsSent;
    var u := ProposeTo(cfg, s, v, seqNo, ps, voters);
    t := CommitTo(cfg, u, v, seqNo, ps, voters);
    ReachesOn(cfg, s, u, t);
  }

  // How a replica comes to take part

  /** The replica is about to take part: as it was created, or before a later view. */
  ghost predicate MayBegin(cfg: Config, s: System, n: Node, v: nat, seqNo: nat) {
    && n in s.replicas && s.replicas[n].window.seqNo == seqNo
    && (s.replicas[n].window.view.seqNo < v
        || (v == seqNo == 0 && s.replicas[n] == Replica(Create(n, cfg.watermark, 0, cfg.views(0)), false, None)))
  }

  lemma EnteredFresh(w: Window, v: View)
    requires Inv(w) && v.Valid() && v.seqNo > w.view.seqNo
    ensures w.decisions != [] && w.watermark >= 1 && EnterView(w, v).decisions != []
    ensures Fresh(EnterView(w, v).decisions[0])
  {
    hide Awake, OffersStarted, VotesFor, ProposalsFor, InstallView;
    InstallViewKeeps(w, v);
    assert Coupled(InstallView(w, v).decisions[0]);
  }

  lemma PolledWaits(w: Window)
    requires Inv(w) && WellRouted(w) && PollWindow(w).1.Some?
    ensures PollWindow(w).1.value in Lookup(w, KeyOf(PollWindow(w).1.value))
  {
    hide Numbered, Awake, OffersStarted, PollWindow, WellRouted, Lookup;
    PollRoutes(w, KeyOf(PollWindow(w).1.value));
  }

  lemma PolledFresh(cfg: Config, n: Node)
    requires cfg.Valid()
    ensures var w := Create(n, cfg.watermark, 0, cfg.views(0));
            && SignalsInWindow(w) && PollWindow(w).1 == None
            && var x := PollWindow(w).0;
               x.view == w.view && x.seqNo == w.seqNo && x.decisions != [] && Fresh(x.decisions[0])
  {
    assert cfg.ViewOk(0) && cfg.watermark >= 1;
    var w := Create(n, cfg.watermark, 0, cfg.views(0));
    CreateGood(n, cfg.watermark, 0, cfg.views(0));
    NothingWaiting(n, cfg.watermark, cfg.views(0));
    assert Inv(w) && SignalsInWindow(w);
    hide Config.Valid, Config.ViewOk, Create, Numbered, WellRouted, Awake, OffersStarted, PollWindow, Lookup, InLogs,
         Fresh, NeedsPoll, Evolves;
    if PollWindow(w).1.Some? {
      PolledWaits(w);
      assert false;
    }
    PollKeeps(w);
    assert LogsKnown(cfg, {}, w);
    PollLogs(cfg, {}, w);
    NoLogs(cfg, PollWindow(w).0);
  }

  lemma Created(n: Node, watermark: nat, view: View)
    ensures var w := Create(n, watermark, 0, view); w.view == view && w.seqNo == 0 && w.watermark == watermark
  {
  }

  /** An instance that has started and logged nothing is fresh. */
  lemma NoLogs(cfg: Config, w: Window)
    requires Inv(w) && LogsKnown(cfg, {}, w) && !NeedsPoll(w.decisions[0])
    ensures Fresh(w.decisions[0])
  {
    hide Awake, OffersStarted, VotesFor, ProposalsFor;
    var i := w.decisions[0];
    assert Coupled(i);
    forall m ensures !InLogs(i, m) {
      assert InLogs(w.decisions[0], m) ==> Known(cfg, {}, m);
    }
    Unlogged(i);
  }

  lemma Unlogged(i: Instance)
    requires forall m :: !InLogs(i, m)
    ensures i.proposals == [] && i.prepares == [] && i.commits == []
  {
    if i.proposals != [] {
      assert InLogs(i, i.proposals[0]);
    }
    if i.prepares != [] {
      assert InLogs(i, i.prepares[0]);
    }
    if i.commits != [] {
      assert InLogs(i, i.commits[0]);
    }
  }

  lemma Acts(cfg: Config, s: System, n: Node, op: Op) returns (t: System)
    requires SysInv(cfg, s) && n in s.replicas && MayAct(cfg, s.sent, s.replicas[n], op)
    requires Allowed(s.replicas[n].window, op)
    ensures Safe(s.replicas[n].window, op)
    ensures t == With(s, n, Outcome(s.replicas[n], op), Sends(s.replicas[n].window, op))
    ensures CanReach(cfg, s, t) && SysInv(cfg, t) && s.sent <= t.sent
  {
    ActKeeps(cfg, s, n, op);
    hide SysInv, MayAct, Allowed, Safe, Outcome, Sends;
    t := With(s, n, Outcome(s.replicas[n], op), Sends(s.replicas[n].window, op));
    StepReaches(cfg, s, Act(n, op), t);
  }

  lemma Syncs(cfg: Config, s: System, n: Node) returns (t: System)
    requires SysInv(cfg, s) && n in s.replicas
    ensures t == With(s, n, s.replicas[n].(syncing := true), None)
    ensures CanReach(cfg, s, t) && SysInv(cfg, t)
  {
    hide SysInv;
    t := With(s, n, s.replicas[n].(syncing := true), None);
    StepReaches(cfg, s, StartSync(n), t);
  }

  lemma WindowInv(cfg: Config, s: System, n: Node)
    requires SysInv(cfg, s) && n in s.replicas
    ensures Inv(s.replicas[n].window) && s.replicas[n].window.me == n
  {
    assert ReplicaOk(cfg, s.sent, n, s.replicas[n]);
  }

  lemma EnterOutcome(r: Replica, v: View)
    requires Inv(r.window) && v.Valid() && v.seqNo > r.window.view.seqNo
    ensures Allowed(r.window, EnterViewOp(v)) && Safe(r.window, EnterViewOp(v))
    ensures Sends(r.window, EnterViewOp(v)) == None
    ensures var q := Outcome(r, EnterViewOp(v));
            && !q.syncing && q.last == r.last && q.window.view == v && q.window.seqNo == r.window.seqNo
            && q.window.decisions != [] && Fresh(q.window.decisions[0])
  {
    EnteredFresh(r.window, v);
    EnterViewKeeps(r.window, v);
    hide Inv, EnterView, Fresh, View.Valid;
  }

  lemma EnterOne(cfg: Config, s: System, n: Node, v: nat) returns (t: System)
    requires SysInv(cfg, s) && n in s.replicas && s.replicas[n].window.view.seqNo < v
    ensures CanReach(cfg, s, t) && SysInv(cfg, t) && s.sent <= t.sent && OthersSame(s, t, n)
    ensures Active(cfg, t, n, v, s.replicas[n].window.seqNo) && Fresh(FrontOf(t, n))
  {
    assert cfg.views(v).Valid() && cfg.views(v).seqNo == v by { assert cfg.ViewOk(v); }
    WindowInv(cfg, s, n);
    EnterOutcome(s.replicas[n].(syncing := true), cfg.views(v));
    hide SysInv, Inv, View.Valid, Fresh, CanReach, Outcome, Sends, Allowed, Safe, OthersSame, Active;
    var u := Syncs(cfg, s, n);
    t := Acts(cfg, u, n, EnterViewOp(cfg.views(v)));
    ReachesOn(cfg, s, u, t);
    Entered(cfg, s, n, v, u.replicas[n], t.replicas[n], t);
  }

  lemma Entered(cfg: Config, s: System, n: Node, v: nat, r: Replica, q: Replica, t: System)
    requires n in s.replicas && r == s.replicas[n].(syncing := true) && t == With(With(s, n, r, None), n, q, None)
    requires !q.syncing && q.last == r.last && q.window.view == cfg.views(v) && q.window.seqNo == r.window.seqNo
    requires q.window.decisions != [] && Fresh(q.window.decisions[0])
    ensures s.sent <= t.sent && OthersSame(s, t, n)
    ensures Active(cfg, t, n, v, s.replicas[n].window.seqNo) && Fresh(FrontOf(t, n))
  {
    hide Fresh;
  }

  lemma PollOutcome(r: Replica)
    requires SignalsInWindow(r.window) && PollWindow(r.window).1 == None
    ensures Outcome(r, PollOp) == r.(window := PollWindow(r.window).0) && Sends(r.window, PollOp) == None
  {
    hide PollWindow, SignalsInWindow;
  }

  lemma PollOne(cfg: Config, s: System, n: Node) returns (t: System)
    requires SysInv(cfg, s) && s.replicas.Keys >= {n}
    requires s.replicas[n] == Replica(Create(n, cfg.watermark, 0, cfg.views(0)), false, None)
    ensures CanReach(cfg, s, t) && SysInv(cfg, t) && s.sent <= t.sent && OthersSame(s, t, n)
    ensures Active(cfg, t, n, 0, 0) && Fresh(FrontOf(t, n))
  {
    assert cfg.Valid();
    hide SysInv, Config.Valid, Fresh, Create, PollWindow, SignalsInWindow, CanReach, Outcome, Sends;
    PolledFresh(cfg, n);
    Created(n, cfg.watermark, cfg.views(0));
    PollOutcome(s.replicas[n]);
    t := Acts(cfg, s, n, PollOp);
  }

  lemma {:induction false} BeginAll(cfg: Config, s: System, ns: seq<Node>, v: nat, seqNo: nat) returns (t: System)
    requires SysInv(cfg, s) && HashSpace.Distinct(ns)
    requires forall n :: n in ns && n in s.replicas ==> MayBegin(cfg, s, n, v, seqNo)
    ensures CanReach(cfg, s, t) && SysInv(cfg, t) && OnlyThese(s, t, ns) && AllFresh(cfg, t, ns, v, seqNo)
  {
    hide SysInv, CanReach, Fresh, Create, Active;
    if ns == [] {
      t := s;
      CanStay(cfg, s);
    } else {
      var rest, n := ns[..|ns| - 1], ns[|ns| - 1];
      assert ns == rest + [n];
      var u := BeginAll(cfg, s, rest, v, seqNo);
      t := u;
      if n in s.replicas {
        assert MayBegin(cfg, s, n, v, seqNo) && u.replicas[n] == s.replicas[n];
        if s.replicas[n].window.view.seqNo < v {
          t := EnterOne(cfg, u, n, v);
        } else {
          t := PollOne(cfg, u, n);
        }
        ReachesOn(cfg, s, u, t);
        OneMore(cfg, s, u, t, rest, n, v, seqNo);
      }
    }
  }

  lemma OneMore(cfg: Config, s: System, u: System, t: System, ns: seq<Node>, n: Node, v: nat, seqNo: nat)
    requires OnlyThese(s, u, ns) && AllFresh(cfg, u, ns, v, seqNo) && n !in ns
    requires u.sent <= t.sent && OthersSame(u, t, n) && Active(cfg, t, n, v, seqNo) && Fresh(FrontOf(t, n))
    ensures OnlyThese(s, t, ns + [n]) && AllFresh(cfg, t, ns + [n], v, seqNo)
  {
    hide Fresh;
    forall k | k in ns && k in t.replicas ensures Active(cfg, t, k, v, seqNo) && Fresh(FrontOf(t, k)) {
      ActiveSame(cfg, u, t, k, v, seqNo);
    }
  }
}
