/**
 One consensus instance as a value: its stage and the messages it has accepted.
 Counters, vote sets, slot vectors and the batch digest are all functions of the
 accepted messages here; the class `ConsensusDecision` carries them explicitly and
 is proved to agree with this model.
 */
module Instances {
  import opened Messages
  import opened Views
  import HashSpace
  import Quorums

  datatype Stage = Initialize | PrePreparing | Preparing | Committing | Decided {
    function Rank(): nat {
      match this
      case Initialize => 0
      case PrePreparing => 1
      case Preparing => 2
      case Committing => 3
      case Decided => 4
    }
  }

  /** Messages that arrived before the instance was ready for them. */
  datatype Inbox = Inbox(signalled: bool, mail: PerKind<seq<Message>>) {
    function Push(m: Message): Inbox {
      Inbox(true, mail.Set(TagOf(m), mail.Get(TagOf(m)) + [m]))
    }
  }

  const EMPTY_INBOX := Inbox(false, PerKind([], [], []))

  /** `proposals`, `prepares` and `commits` hold what was accepted, in order of arrival. */
  datatype Instance = Instance(
    seqNo: nat, view: View, stage: Stage, inbox: Inbox,
    proposals: seq<Message>, prepares: seq<Message>, commits: seq<Message>)

  datatype Metadata = Metadata(seqNo: nat, digest: Digest, ordering: seq<Digest>, requestCount: nat)

  datatype Error =
    | DuplicateVote(node: Node)
    | OutsideLeaderSpace(node: Node)
    | NoRequestSpace(node: Node)

  datatype Status =
    | Ignored
    | Queued
    | Deciding(message: Message)
    | Transitioned(metadata: Option<Metadata>, message: Message)
    | NowDecided(message: Message)
    | AlreadyDecided
    | Failed(error: Error)

  /** Outcome of one message: the new instance, the report, and the vote broadcast, if any. */
  datatype Step = Step(instance: Instance, status: Status, sent: Option<Message>)

  datatype PollResult = TryPropose | Recv | NextMessage(message: Message) | PollDecided

  // What the accepted messages mean

  function ProposalOf(log: seq<Message>, n: Node): Option<Message> {
    if log == [] then None
    else if log[|log| - 1].from == n then Some(log[|log| - 1])
    else ProposalOf(log[..|log| - 1], n)
  }

  function HeaderOf(p: Option<Message>): Digest {
    if p.Some? then p.value.header else Other(0)
  }

  function RequestsOf(p: Option<Message>): seq<Request> {
    if p.Some? && p.value.kind.PrePrepare? then p.value.kind.requests else []
  }

  /** Header digests of the proposals, in the order of the leader set. */
  function Ordering(log: seq<Message>, leaders: seq<Node>): (d: seq<Digest>)
    ensures |d| == |leaders|
  {
    if leaders == [] then []
    else Ordering(log, leaders[..|leaders| - 1]) + [HeaderOf(ProposalOf(log, leaders[|leaders| - 1]))]
  }

  lemma {:induction false} OrderingAt(log: seq<Message>, leaders: seq<Node>)
    ensures forall k :: 0 <= k < |leaders| ==> Ordering(log, leaders)[k] == HeaderOf(ProposalOf(log, leaders[k]))
  {
    if leaders != [] {
      var rest := leaders[..|leaders| - 1];
      OrderingAt(log, rest);
      forall k | 0 <= k < |leaders| ensures Ordering(log, leaders)[k] == HeaderOf(ProposalOf(log, leaders[k])) {
        assert k < |rest| ==> leaders[k] == rest[k];
      }
    }
  }

  /** The batch: the requests of every leader, in the order of the leader set. */
  function OrderedRequests(log: seq<Message>, leaders: seq<Node>): seq<Request> {
    if leaders == [] then []
    else OrderedRequests(log, leaders[..|leaders| - 1]) + RequestsOf(ProposalOf(log, leaders[|leaders| - 1]))
  }

  function ArrivedInfos(log: seq<Message>): seq<RequestInfo> {
    if log == [] then []
    else ArrivedInfos(log[..|log| - 1]) + InfosOf(RequestsOf(Some(log[|log| - 1])))
  }

  /** The requests of the proposals, in the order in which these came. */
  function RequestsIn(ms: seq<Message>): seq<Request> {
    if ms == [] then [] else RequestsIn(ms[..|ms| - 1]) + RequestsOf(Some(ms[|ms| - 1]))
  }

  /** Each info handed on with a batch is about the request in its place. */
  lemma {:induction false} ArrivedDescribe(log: seq<Message>)
    ensures DescribesAll(ArrivedInfos(log), RequestsIn(log))
  {
    if log != [] {
      var rest, last := log[..|log| - 1], RequestsOf(Some(log[|log| - 1]));
      ArrivedDescribe(rest);
      InfosDescribeExactly(InfosOf(last), last);
      DescribeConcat(ArrivedInfos(rest), RequestsIn(rest), InfosOf(last), last);
      hide DescribesAll, InfosOf;
    }
  }

  lemma DescribeConcat(infos: seq<RequestInfo>, rs: seq<Request>, infos': seq<RequestInfo>, rs': seq<Request>)
    requires DescribesAll(infos, rs) && DescribesAll(infos', rs')
    ensures DescribesAll(infos + infos', rs + rs')
  {
    hide Describes;
  }

  function DigestOf(i: Instance): Digest {
    OfBatch(Ordering(i.proposals, i.view.leaders))
  }

  function MetadataOf(i: Instance): Metadata {
    Metadata(i.seqNo, DigestOf(i), Ordering(i.proposals, i.view.leaders), |ArrivedInfos(i.proposals)|)
  }

  // Transitions

  function Init(seqNo: nat, view: View, inbox: Inbox): Instance {
    Instance(seqNo, view, Initialize, inbox, [], [], [])
  }

  function Enqueue(i: Instance, m: Message): Instance {
    i.(inbox := i.inbox.Push(m))
  }

  function Vote(me: Node, i: Instance, kind: Kind): Message {
    Message(me, i.seqNo, i.view.seqNo, kind, Other(0))
  }

  predicate InLeaderSpace(me: Node, i: Instance, m: Message)
    requires m.kind.PrePrepare?
  {
    m.from == me || (m.from in i.view.slices &&
      forall k :: 0 <= k < |m.kind.requests| ==> HashSpace.InSlice(m.kind.requests[k].digest, i.view.slices[m.from]))
  }

  function AcceptProposal(me: Node, i: Instance, m: Message): Step
    requires m.kind.PrePrepare?
  {
    if m.view != i.view.seqNo || m.from !in i.view.leaders || m.seqNo != i.seqNo then
      Step(i, Ignored, None)
    else if !InLeaderSpace(me, i, m) then
      Step(i, Failed(OutsideLeaderSpace(m.from)), None)
    else if Voted(i.proposals, m.from) then
      Step(i, Failed(DuplicateVote(m.from)), None)
    else
      var j := i.(proposals := i.proposals + [m]);
      if |j.proposals| == |i.view.leaders| then
        Step(j.(stage := Preparing, inbox := j.inbox.(signalled := true)),
             Transitioned(Some(MetadataOf(j)), m),
             Some(Vote(me, i, Prepare(DigestOf(j)))))
      else
        Step(j, Deciding(m), None)
  }

  function AcceptPrepare(me: Node, i: Instance, m: Message): Step
    requires m.kind.Prepare?
  {
    if m.view != i.view.seqNo || m.seqNo != i.seqNo || m.kind.digest != DigestOf(i) then
      Step(i, Ignored, None)
    else if Voted(i.prepares, m.from) then
      Step(i, Failed(DuplicateVote(m.from)), None)
    else
      var j := i.(prepares := i.prepares + [m]);
      if |j.prepares| == i.view.Quorum() then
        Step(j.(stage := Committing, inbox := j.inbox.(signalled := true)),
             Transitioned(None, m),
             Some(Vote(me, i, Commit(DigestOf(i)))))
      else
        Step(j, Deciding(m), None)
  }

  function AcceptCommit(i: Instance, m: Message): Step
    requires m.kind.Commit?
  {
    if m.view != i.view.seqNo || m.seqNo != i.seqNo || m.kind.digest != DigestOf(i) then
      Step(i, Ignored, None)
    else if Voted(i.commits, m.from) then
      Step(i, Failed(DuplicateVote(m.from)), None)
    else
      var j := i.(commits := i.commits + [m]);
      if |j.commits| == i.view.Quorum() then
        Step(j.(stage := Decided), NowDecided(m), None)
      else
        Step(j, Deciding(m), None)
  }

  /** Processing of one message by the replica `me`. */
  function Process(me: Node, i: Instance, m: Message): Step {
    match i.stage
    case Initialize => Step(Enqueue(i, m), Queued, None)
    case PrePreparing =>
      if m.kind.PrePrepare? then AcceptProposal(me, i, m) else Step(Enqueue(i, m), Queued, None)
    case Preparing =>
      (match m.kind
       case PrePrepare(_) => Step(i, Ignored, None)
       case Prepare(_) => AcceptPrepare(me, i, m)
       case Commit(_) => Step(Enqueue(i, m), Queued, None))
    case Committing =>
      if m.kind.Commit? then AcceptCommit(i, m) else Step(i, Ignored, None)
    case Decided => Step(i, AlreadyDecided, None)
  }

  /** The kind of queued message that the current stage takes. */
  function Awaited(stage: Stage): Option<Tag> {
    match stage
    case Initialize | PrePreparing => Some(PrePrepareTag)
    case Preparing => Some(PrepareTag)
    case Committing => Some(CommitTag)
    case Decided => None
  }

  function Poll(i: Instance): (Instance, PollResult) {
    if i.stage.Initialize? then (i.(stage := PrePreparing), TryPropose)
    else if i.stage.Decided? then (i, PollDecided)
    else if !i.inbox.signalled then (i, Recv)
    else
      var t := Awaited(i.stage).value;
      var queue := i.inbox.mail.Get(t);
      if queue == [] then (i.(inbox := i.inbox.(signalled := false)), Recv)
      else (i.(inbox := i.inbox.(mail := i.inbox.mail.Set(t, queue[1..]))), NextMessage(queue[0]))
  }

  // What becomes of a message

  /** The stage that takes messages of a kind; before that they wait. */
  function TakenAt(t: Tag): Stage {
    match t
    case PrePrepareTag => PrePreparing
    case PrepareTag => Preparing
    case CommitTag => Committing
  }

  predicate Early(i: Instance, m: Message) {
    i.stage.Rank() < TakenAt(TagOf(m)).Rank()
  }

  /** The accepted messages of a kind, and how many of them complete the stage that takes them. */
  function LogOf(i: Instance, t: Tag): seq<Message> {
    match t
    case PrePrepareTag => i.proposals
    case PrepareTag => i.prepares
    case CommitTag => i.commits
  }

  function Needed(v: View, t: Tag): nat {
    if t.PrePrepareTag? then |v.leaders| else v.Quorum()
  }

  /** The message is for this view, number and batch, from someone entitled to send it. */
  predicate Belongs(i: Instance, m: Message) {
    && m.view == i.view.seqNo && m.seqNo == i.seqNo
    && match m.kind
       case PrePrepare(_) => m.from in i.view.leaders
       case Prepare(d) => d == DigestOf(i)
       case Commit(d) => d == DigestOf(i)
  }

  /** A leader other than the replica itself keeps to its part of the digest space. */
  predicate InBounds(me: Node, i: Instance, m: Message) {
    m.kind.PrePrepare? ==> InLeaderSpace(me, i, m)
  }

  predicate Accepts(me: Node, i: Instance, m: Message) {
    && i.stage == TakenAt(TagOf(m)) && Belongs(i, m) && InBounds(me, i, m)
    && !Voted(LogOf(i, TagOf(m)), m.from)
  }

  /** A proposal of the replica itself is taken whatever it holds. */
  lemma OwnProposalTaken(me: Node, i: Instance, m: Message)
    requires i.stage.PrePreparing? && m.kind.PrePrepare? && m.from == me && Belongs(i, m) && !Voted(i.proposals, me)
    ensures Process(me, i, m).instance.proposals == i.proposals + [m]
  {
    hide Voted, DigestOf, MetadataOf;
  }

  /** A proposal of anyone else with a request outside its part of the digest space is not. */
  lemma ForeignRequestRefused(me: Node, i: Instance, m: Message, k: nat)
    requires m.kind.PrePrepare? && m.from != me && k < |m.kind.requests|
    requires m.from !in i.view.slices || !HashSpace.InSlice(m.kind.requests[k].digest, i.view.slices[m.from])
    ensures Process(me, i, m).instance.proposals == i.proposals
  {
    hide Voted, DigestOf, MetadataOf;
  }

  /** The metadata announced with the batch: the digests of what the leaders proposed, in their
      order, the digest of that list, and the number of requests in it. */
  lemma MetadataDescribes(i: Instance)
    ensures var d := MetadataOf(i);
            && d.seqNo == i.seqNo && d.digest == OfBatch(d.ordering) && d.requestCount == |RequestsIn(i.proposals)|
            && |d.ordering| == |i.view.leaders|
            && (forall k :: 0 <= k < |d.ordering| ==>
                  d.ordering[k] == HeaderOf(ProposalOf(i.proposals, i.view.leaders[k])))
  {
    ArrivedDescribe(i.proposals);
    OrderingAt(i.proposals, i.view.leaders);
    hide Ordering, ArrivedInfos, RequestsIn, ProposalOf;
  }

  /** A message waits exactly if it comes before the stage that takes its kind, and then behind
      those of its kind that came before it. */
  lemma ProcessFilesExactly(me: Node, i: Instance, m: Message)
    ensures Process(me, i, m).status.Queued? <==> Early(i, m)
    ensures forall t :: Process(me, i, m).instance.inbox.mail.Get(t) ==
                        i.inbox.mail.Get(t) + if Early(i, m) && t == TagOf(m) then [m] else []
  {
    hide Voted, DigestOf, MetadataOf, InLeaderSpace, View.Quorum;
  }

  /** What a message does to the logs, and when it completes its stage. */
  lemma ProcessLogsExactly(me: Node, i: Instance, m: Message)
    ensures forall t :: LogOf(Process(me, i, m).instance, t) ==
                        LogOf(i, t) + if Accepts(me, i, m) && t == TagOf(m) then [m] else []
    ensures var full := Accepts(me, i, m) && |LogOf(i, TagOf(m))| + 1 == Needed(i.view, TagOf(m));
            Process(me, i, m).instance.stage.Rank() == i.stage.Rank() + if full then 1 else 0
  {
    hide Voted, DigestOf, MetadataOf, InLeaderSpace, View.Quorum;
  }

  /** The report on a message tells what became of it. */
  lemma ProcessReportsExactly(me: Node, i: Instance, m: Message)
    ensures var r, j := Process(me, i, m).status, Process(me, i, m).instance;
            && (r == AlreadyDecided <==> i.stage.Decided?)
            && (r == Deciding(m) <==> Accepts(me, i, m) && j.stage == i.stage)
            && (r == Transitioned(Some(MetadataOf(j)), m) <==> i.stage.PrePreparing? && j.stage.Preparing?)
            && (r == Transitioned(None, m) <==> i.stage.Preparing? && j.stage.Committing?)
            && (r == NowDecided(m) <==> i.stage.Committing? && j.stage.Decided?)
            && (r == Failed(OutsideLeaderSpace(m.from)) <==>
                  i.stage == TakenAt(TagOf(m)) && Belongs(i, m) && !InBounds(me, i, m))
            && (r == Failed(DuplicateVote(m.from)) <==>
                  && i.stage == TakenAt(TagOf(m)) && Belongs(i, m) && InBounds(me, i, m)
                  && Voted(LogOf(i, TagOf(m)), m.from))
            && (r == Ignored <==>
                  || TakenAt(TagOf(m)).Rank() < i.stage.Rank() < Decided.Rank()
                  || (i.stage == TakenAt(TagOf(m)) && !Belongs(i, m)))
  {
    hide Voted, Ordering, ArrivedInfos, InLeaderSpace, View.Quorum;
  }

  /** One proposal of each leader, each inside its leader's part of the digest space. */
  ghost predicate AreProposals(v: View, seqNo: nat, ps: seq<Message>) {
    && |ps| == |v.leaders|
    && (forall k :: 0 <= k < |ps| ==>
          && ps[k].from == v.leaders[k] && ps[k].view == v.seqNo && ps[k].seqNo == seqNo
          && ps[k].kind.PrePrepare? && Authentic(ps[k]) && InOwnSpace(v, ps[k]))
  }

  predicate InOwnSpace(v: View, m: Message)
    requires m.kind.PrePrepare?
  {
    m.from in v.slices &&
    forall k :: 0 <= k < |m.kind.requests| ==> HashSpace.InSlice(m.kind.requests[k].digest, v.slices[m.from])
  }

  function BatchDigest(v: View, ps: seq<Message>): Digest {
    OfBatch(Ordering(ps, v.leaders))
  }

  function SkipInit(i: Instance): Instance {
    i.(stage := PrePreparing)
  }

  // What an instance reports about itself

  datatype ViewDecision = ViewDecision(view: nat, digest: Digest)

  /** What a replica tells the next leader about the instance it is executing. */
  datatype IncompleteProof = IncompleteProof(
    inExec: nat, writeSet: seq<ViewDecision>, quorumPrepares: Option<ViewDecision>)

  function WriteSet(prepares: seq<Message>): (s: seq<ViewDecision>)
  {
    if prepares == [] then []
    else
      var last := prepares[|prepares| - 1];
      [ViewDecision(last.view, if last.kind.Prepare? then last.kind.digest else Other(0))]
      + WriteSet(prepares[..|prepares| - 1])
  }

  /** The report of an instance: its prepares, newest first, and whether 2f of them were seen. */
  function Collect(i: Instance, f: nat): IncompleteProof {
    IncompleteProof(i.seqNo, WriteSet(i.prepares),
                    if 1 <= 2 * f <= |i.prepares| then Some(ViewDecision(i.view.seqNo, DigestOf(i))) else None)
  }

  /** A quorum of prepares is reported exactly if f is not zero and 2f replicas prepared. */
  lemma CollectReportsExactly(i: Instance, f: nat)
    requires DistinctSenders(i.prepares)
    ensures Collect(i, f).quorumPrepares.Some? <==> f >= 1 && |Senders(i.prepares)| >= 2 * f
    ensures Collect(i, f).quorumPrepares.Some? ==>
              Collect(i, f).quorumPrepares.value == ViewDecision(i.view.seqNo, DigestOf(i))
  {
    SendersCount(i.prepares);
  }

  datatype CompletedBatch = CompletedBatch(
    seqNo: nat, digest: Digest, ordering: seq<Digest>,
    prePrepares: seq<Message>, prepares: seq<Message>, commits: seq<Message>,
    infos: seq<RequestInfo>, requests: seq<Request>)

  function OrderedProposals(log: seq<Message>, leaders: seq<Node>): seq<Message> {
    if leaders == [] then []
    else
      var last := ProposalOf(log, leaders[|leaders| - 1]);
      OrderedProposals(log, leaders[..|leaders| - 1]) + if last.Some? then [last.value] else []
  }

  function Complete(i: Instance): CompletedBatch {
    CompletedBatch(i.seqNo, DigestOf(i), Ordering(i.proposals, i.view.leaders),
                   OrderedProposals(i.proposals, i.view.leaders), i.prepares, i.commits,
                   ArrivedInfos(i.proposals), OrderedRequests(i.proposals, i.view.leaders))
  }

  // The coupling between stage and log

  ghost predicate VotesFor(log: seq<Message>, i: Instance, kind: Kind) {
    && DistinctSenders(log)
    && (forall k :: 0 <= k < |log| ==>
          log[k].view == i.view.seqNo && log[k].seqNo == i.seqNo && log[k].kind == kind)
  }

  ghost predicate ProposalsFor(i: Instance) {
    && FromLeaders(i.proposals, i.view.leaders)
    && (forall k :: 0 <= k < |i.proposals| ==>
          i.proposals[k].view == i.view.seqNo && i.proposals[k].seqNo == i.seqNo)
  }

  /** Stage and logs agree: every logged message is for this view, sequence number and
      digest, no sender counts twice, and each log is exactly as full as the stage says. */
  ghost predicate Coupled(i: Instance) {
    && i.view.Valid()
    && ProposalsFor(i)
    && VotesFor(i.prepares, i, Prepare(DigestOf(i)))
    && VotesFor(i.commits, i, Commit(DigestOf(i)))
    && match i.stage
       case Initialize => i.proposals == [] && i.prepares == [] && i.commits == []
       case PrePreparing => |i.proposals| < |i.view.leaders| && i.prepares == [] && i.commits == []
       case Preparing => |i.proposals| == |i.view.leaders| && |i.prepares| < i.view.Quorum() && i.commits == []
       case Committing =>
         |i.proposals| == |i.view.leaders| && |i.prepares| == i.view.Quorum() && |i.commits| < i.view.Quorum()
       case Decided =>
         |i.proposals| == |i.view.leaders| && |i.prepares| == i.view.Quorum() && |i.commits| == i.view.Quorum()
  }

  lemma ProposalKeepsCoupling(me: Node, i: Instance, m: Message)
    requires Coupled(i) && i.stage.PrePreparing? && m.kind.PrePrepare?
    ensures Coupled(AcceptProposal(me, i, m).instance)
  {
    SendersAppend(i.proposals, m);
    hide Senders, Ordering, InLeaderSpace, MetadataOf, ProposalOf, View.Valid;
  }

  /** What the logs say depends on few parts of the instance. */
  lemma LogsKept(i: Instance, j: Instance)
    requires j.seqNo == i.seqNo && j.view == i.view && j.proposals == i.proposals
    ensures DigestOf(j) == DigestOf(i) && (ProposalsFor(i) ==> ProposalsFor(j))
    ensures VotesFor(i.prepares, i, Prepare(DigestOf(i))) ==> VotesFor(i.prepares, j, Prepare(DigestOf(i)))
    ensures VotesFor(i.commits, i, Commit(DigestOf(i))) ==> VotesFor(i.commits, j, Commit(DigestOf(i)))
  {
    assert DigestOf(j) == DigestOf(i);
    hide DigestOf, DistinctSenders;
  }

  lemma VoteLogged(log: seq<Message>, m: Message, i: Instance, j: Instance, kind: Kind)
    requires VotesFor(log, i, kind) && j.seqNo == i.seqNo && j.view == i.view && !Voted(log, m.from)
    requires m.view == i.view.seqNo && m.seqNo == i.seqNo && m.kind == kind
    ensures VotesFor(log + [m], j, kind)
  {
    SendersAppend(log, m);
    hide Voted, DistinctSenders;
  }

  lemma PrepareKeepsCoupling(me: Node, i: Instance, m: Message)
    requires Coupled(i) && i.stage.Preparing? && m.kind.Prepare?
    ensures Coupled(AcceptPrepare(me, i, m).instance)
  {
    if AcceptPrepare(me, i, m).instance != i {
      var j := AcceptPrepare(me, i, m).instance;
      LogsKept(i, j);
      VoteLogged(i.prepares, m, i, j, Prepare(DigestOf(i)));
      hide DigestOf, VotesFor, ProposalsFor, Voted, View.Valid, View.Quorum;
    }
  }

  lemma CommitKeepsCoupling(i: Instance, m: Message)
    requires Coupled(i) && i.stage.Committing? && m.kind.Commit?
    ensures Coupled(AcceptCommit(i, m).instance)
  {
    if AcceptCommit(i, m).instance != i {
      var j := AcceptCommit(i, m).instance;
      LogsKept(i, j);
      VoteLogged(i.commits, m, i, j, Commit(DigestOf(i)));
      hide DigestOf, VotesFor, ProposalsFor, Voted, View.Valid, View.Quorum;
    }
  }

  lemma ProcessKeepsCoupling(me: Node, i: Instance, m: Message)
    requires Coupled(i)
    ensures Coupled(Process(me, i, m).instance)
  {
    if i.stage.PrePreparing? && m.kind.PrePrepare? {
      ProposalKeepsCoupling(me, i, m);
    } else if i.stage.Preparing? && m.kind.Prepare? {
      PrepareKeepsCoupling(me, i, m);
    } else if i.stage.Committing? && m.kind.Commit? {
      CommitKeepsCoupling(i, m);
    }
  }

  ghost predicate FromLeaders(log: seq<Message>, leaders: seq<Node>) {
    && DistinctSenders(log)
    && (forall k :: 0 <= k < |log| ==> log[k].kind.PrePrepare? && log[k].from in leaders)
  }

  lemma LeaderBound(log: seq<Message>, leaders: seq<Node>)
    requires HashSpace.Distinct(leaders) && FromLeaders(log, leaders)
    ensures |log| <= |leaders|
    ensures |log| == |leaders| ==> Senders(log) == NodeSet(leaders)
  {
    SendersCount(log);
    SendersAre(log);
    DistinctCount(leaders);
    Quorums.SubsetCount(Senders(log), NodeSet(leaders));
  }

  lemma PollKeepsCoupling(i: Instance)
    requires Coupled(i)
    ensures Coupled(Poll(i).0)
    ensures Poll(i).1.TryPropose? <==> i.stage.Initialize?
    ensures Poll(i).0.stage == if i.stage.Initialize? then PrePreparing else i.stage
  {
    LogsKept(i, Poll(i).0);
    hide DigestOf, VotesFor, ProposalsFor;
  }

  predicate Untouched(i: Instance) {
    i.proposals == [] && i.prepares == [] && i.commits == []
  }

  /** Skipping the start keeps an instance coupled exactly if it had not got beyond proposals. */
  lemma SkipInitExactly(i: Instance)
    requires Coupled(i)
    ensures Coupled(SkipInit(i)) <==> i.stage.Rank() <= PrePreparing.Rank()
    ensures Untouched(i) ==> i.stage.Rank() <= PrePreparing.Rank()
  {
    assert DigestOf(SkipInit(i)) == DigestOf(i);
    hide DigestOf, DistinctSenders;
  }

  lemma {:induction false} ProposalOfVoter(log: seq<Message>, n: Node)
    ensures ProposalOf(log, n).Some? <==> Voted(log, n)
    ensures ProposalOf(log, n).Some? ==> ProposalOf(log, n).value in log && ProposalOf(log, n).value.from == n
  {
    if log != [] {
      var rest, last := log[..|log| - 1], log[|log| - 1];
      assert log == rest + [last];
      SendersAppend(rest, last);
      ProposalOfVoter(rest, n);
    }
  }

  /** A full count of proposals means that every leader slot is filled. */
  lemma FullCountFillsEverySlot(log: seq<Message>, leaders: seq<Node>)
    requires HashSpace.Distinct(leaders) && FromLeaders(log, leaders) && |log| == |leaders|
    ensures forall k :: 0 <= k < |leaders| ==>
              ProposalOf(log, leaders[k]).Some? && ProposalOf(log, leaders[k]).value.kind.PrePrepare?
  {
    LeaderBound(log, leaders);
    forall k | 0 <= k < |leaders|
      ensures ProposalOf(log, leaders[k]).Some? && ProposalOf(log, leaders[k]).value.kind.PrePrepare?
    {
      ProposalOfVoter(log, leaders[k]);
    }
  }

  /** How an instance may change: its stage never goes back, and what is logged stays. */
  ghost predicate Evolves(i: Instance, j: Instance) {
    && j.seqNo == i.seqNo && j.view == i.view
    && i.stage.Rank() <= j.stage.Rank()
    && i.proposals <= j.proposals && i.prepares <= j.prepares && i.commits <= j.commits
    && (i.stage.Rank() >= Preparing.Rank() ==> j.proposals == i.proposals)
    && (i.stage.Rank() >= Committing.Rank() ==> j.prepares == i.prepares)
  }

  lemma ProcessEvolves(me: Node, i: Instance, m: Message)
    ensures Evolves(i, Process(me, i, m).instance)
    ensures Process(me, i, m).sent.Some? <==>
              var j := Process(me, i, m).instance;
              (i.stage.PrePreparing? && j.stage.Preparing?) || (i.stage.Preparing? && j.stage.Committing?)
    ensures Process(me, i, m).sent.Some? ==>
              var v := Process(me, i, m).sent.value;
              var j := Process(me, i, m).instance;
              && v.from == me && v.view == i.view.seqNo && v.seqNo == i.seqNo
              && ((v.kind == Prepare(DigestOf(j)) && i.stage.PrePreparing? && j.stage.Preparing?)
                  || (v.kind == Commit(DigestOf(j)) && i.stage.Preparing? && j.stage.Committing?))
  {
  }

  // An ideal hash makes the digest determine the batch

  function RequestsInDigest(d: Digest): seq<Request> {
    if d.OfProposal? then d.requests else []
  }

  function RequestsInParts(parts: seq<Digest>): seq<Request> {
    if parts == [] then [] else RequestsInParts(parts[..|parts| - 1]) + RequestsInDigest(parts[|parts| - 1])
  }

  lemma {:induction false} OrderingDeterminesRequests(log: seq<Message>, leaders: seq<Node>)
    requires forall m :: m in log ==> Authentic(m) && m.kind.PrePrepare?
    ensures OrderedRequests(log, leaders) == RequestsInParts(Ordering(log, leaders))
  {
    if leaders != [] {
      var rest := leaders[..|leaders| - 1];
      OrderingDeterminesRequests(log, rest);
      assert Ordering(log, leaders)[..|leaders| - 1] == Ordering(log, rest);
      ProposalOfVoter(log, leaders[|leaders| - 1]);
    }
  }

  /** Two instances over authentic proposals with equal digests hold the same batch. */
  lemma EqualDigestsEqualBatches(i: Instance, j: Instance)
    requires forall m :: m in i.proposals ==> Authentic(m) && m.kind.PrePrepare?
    requires forall m :: m in j.proposals ==> Authentic(m) && m.kind.PrePrepare?
    requires DigestOf(i) == DigestOf(j)
    ensures OrderedRequests(i.proposals, i.view.leaders) == OrderedRequests(j.proposals, j.view.leaders)
  {
    OrderingDeterminesRequests(i.proposals, i.view.leaders);
    OrderingDeterminesRequests(j.proposals, j.view.leaders);
  }
}
