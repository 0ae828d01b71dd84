/**
 The log of the batch being decided, as the replica keeps it: one slot per leader,
 vote sets against duplicates, running counters and the batch digest once all slots
 are filled. `Valid` ties every one of these to the accepted messages.
 */
module DecidingLog {
  import opened Messages
  import opened Instances
  import opened Views
  import HashSpace

  datatype Result<+T> = Ok(value: T) | Err(error: Error)

  method IndexOf(nodes: seq<Node>, n: Node) returns (r: Option<nat>)
    ensures r.Some? ==> r.value < |nodes| && nodes[r.value] == n && n !in nodes[..r.value]
    ensures r.None? ==> n !in nodes
  {
    for k := 0 to |nodes|
      invariant n !in nodes[..k]
    {
      if nodes[k] == n {
        return Some(k);
      }
    }
    return None;
  }

  function MapHeader(p: Option<Message>): Option<Digest> {
    if p.Some? then Some(p.value.header) else None
  }

  function MapRequests(p: Option<Message>): Option<seq<Request>> {
    if p.Some? then Some(RequestsOf(p)) else None
  }

  lemma ProposalOfAppend(log: seq<Message>, m: Message, n: Node)
    ensures ProposalOf(log + [m], n) == if m.from == n then Some(m) else ProposalOf(log, n)
  {
    assert (log + [m])[..|log|] == log;
  }

  class WorkingDecisionLog {
    const nodeId: Node
    const seqNo: nat
    const leaders: seq<Node>
    const slices: map<Node, HashSpace.Slice>

    // duplicate detection
    var proposers: set<Node>
    var preparers: set<Node>
    var committers: set<Node>

    var batchDigest: Option<Digest>
    var slotDigests: seq<Option<Digest>>
    var received: nat
    var batchSize: nat
    var clientRqs: seq<RequestInfo>
    var contained: seq<Option<seq<Request>>>

    // message log
    var slots: seq<Option<Message>>
    var prepares: seq<Message>
    var commits: seq<Message>

    /** The accepted proposals in order of arrival. */
    ghost var proposals: seq<Message>

    ghost predicate SlotsValid()
      reads `slots, `slotDigests, `contained, `proposals
    {
      && |slots| == |slotDigests| == |contained| == |leaders|
      && (forall k :: 0 <= k < |leaders| ==>
            && slots[k] == ProposalOf(proposals, leaders[k])
            && slotDigests[k] == MapHeader(ProposalOf(proposals, leaders[k]))
            && contained[k] == MapRequests(ProposalOf(proposals, leaders[k])))
    }

    /** Everything that is recorded about the proposals, except the digest over them. */
    ghost predicate ProposalsValid()
      reads `slots, `slotDigests, `contained, `proposals, `received, `proposers, `clientRqs, `batchSize
    {
      && leaders != [] && HashSpace.Distinct(leaders) && slices.Keys == NodeSet(leaders)
      && FromLeaders(proposals, leaders)
      && SlotsValid()
      && received == |proposals|
      && proposers == Senders(proposals)
      && clientRqs == ArrivedInfos(proposals) && batchSize == |clientRqs|
    }

    ghost predicate VotesValid()
      reads `preparers, `committers, `prepares, `commits
    {
      preparers == Senders(prepares) && committers == Senders(commits)
    }

    ghost predicate DigestValid()
      reads `batchDigest, `proposals
    {
      batchDigest == if |proposals| == |leaders| then Some(OfBatch(Ordering(proposals, leaders))) else None
    }

    ghost predicate Valid()
      reads this
    {
      ProposalsValid() && VotesValid() && DigestValid()
    }

    constructor (nodeId: Node, seqNo: nat, view: View)
      requires view.Valid()
      ensures Valid() && proposals == [] && prepares == [] && commits == []
      ensures this.nodeId == nodeId && this.seqNo == seqNo && leaders == view.leaders && slices == view.slices
    {
      this.nodeId, this.seqNo, this.leaders, this.slices := nodeId, seqNo, view.leaders, view.slices;
      proposers, preparers, committers := {}, {}, {};
      batchDigest, received, batchSize, clientRqs := None, 0, 0, [];
      slotDigests := seq(|view.leaders|, _ => None);
      contained := seq(|view.leaders|, _ => None);
      slots := seq(|view.leaders|, _ => None);
      prepares, commits, proposals := [], [], [];
    }

    /** The digest over all slots in leader order, or None while a slot is open. */
    method CalculateInstanceDigest() returns (r: Option<(Digest, seq<Digest>)>)
      ensures r.None? <==> exists k :: 0 <= k < |slotDigests| && slotDigests[k].None?
      ensures r.Some? ==> r.value.0 == OfBatch(r.value.1) && |r.value.1| == |slotDigests|
      ensures r.Some? ==> forall k :: 0 <= k < |slotDigests| ==> slotDigests[k] == Some(r.value.1[k])
    {
      var ordered: seq<Digest> := [];
      for k := 0 to |slotDigests|
        invariant |ordered| == k
        invariant forall j :: 0 <= j < k ==> slotDigests[j] == Some(ordered[j])
      {
        if slotDigests[k].None? {
          return None;
        }
        ordered := ordered + [slotDigests[k].value];
      }
      return Some((OfBatch(ordered), ordered));
    }

    method RequestsInSlice(requests: seq<Request>, slice: HashSpace.Slice) returns (ok: bool)
      ensures ok <==> forall k :: 0 <= k < |requests| ==> HashSpace.InSlice(requests[k].digest, slice)
    {
      for k := 0 to |requests|
        invariant forall j :: 0 <= j < k ==> HashSpace.InSlice(requests[j].digest, slice)
      {
        if !HashSpace.InSlice(requests[k].digest, slice) {
          return false;
        }
      }
      return true;
    }

    ghost predicate InSpace(m: Message)
      requires m.kind.PrePrepare? && m.from in slices
    {
      m.from == nodeId ||
      forall k :: 0 <= k < |m.kind.requests| ==> HashSpace.InSlice(m.kind.requests[k].digest, slices[m.from])
    }

    ghost function CurrentMetadata(): Metadata
      reads this
    {
      Metadata(seqNo, OfBatch(Ordering(proposals, leaders)), Ordering(proposals, leaders), |ArrivedInfos(proposals)|)
    }

    method ProcessPrePrepare(m: Message) returns (r: Result<Option<Metadata>>)
      requires ProposalsValid() && DigestValid() && m.kind.PrePrepare?
      modifies `slotDigests, `contained, `slots, `received, `batchSize, `clientRqs, `proposers, `proposals, `batchDigest
      ensures ProposalsValid() && DigestValid()
      ensures r.Ok? <==> m.from in leaders && InSpace(m) && !Voted(old(proposals), m.from)
      ensures m.from !in leaders ==> r == Err(NoRequestSpace(m.from))
      ensures m.from in leaders && r.Err? ==>
                r.error == if !InSpace(m) then OutsideLeaderSpace(m.from) else DuplicateVote(m.from)
      ensures r.Ok? ==> r.value == if |proposals| == |leaders| then Some(CurrentMetadata()) else None
      ensures proposals == if r.Ok? then old(proposals) + [m] else old(proposals)
    {
      var error := CheckProposal(m);
      if error.Some? {
        return Err(error.value);
      }
      var metadata := AcceptProposal(m);
      return Ok(metadata);
    }

    method CheckProposal(m: Message) returns (e: Option<Error>)
      requires ProposalsValid() && m.kind.PrePrepare?
      ensures e == if m.from !in leaders then Some(NoRequestSpace(m.from))
                   else if !InSpace(m) then Some(OutsideLeaderSpace(m.from))
                   else if Voted(proposals, m.from) then Some(DuplicateVote(m.from))
                   else None
    {
      if m.from !in slices {
        return Some(NoRequestSpace(m.from));
      }
      if m.from != nodeId {
        var ok := RequestsInSlice(m.kind.requests, slices[m.from]);
        if !ok {
          return Some(OutsideLeaderSpace(m.from));
        }
      }
      return if m.from in proposers then Some(DuplicateVote(m.from)) else None;
    }

    method AcceptProposal(m: Message) returns (metadata: Option<Metadata>)
      requires ProposalsValid() && DigestValid()
      requires m.kind.PrePrepare? && m.from in leaders && !Voted(proposals, m.from)
      modifies `slotDigests, `contained, `slots, `received, `batchSize, `clientRqs, `proposers, `proposals, `batchDigest
      ensures ProposalsValid() && DigestValid()
      ensures proposals == old(proposals) + [m]
      ensures metadata == if |proposals| == |leaders| then Some(CurrentMetadata()) else None
    {
      assert |proposals| < |leaders| by { LeaderBound(proposals, leaders); }
      var index := IndexOf(leaders, m.from);
      // The error for a proposer outside the leader set is dead: every slice owner is a leader.
      RecordProposal(index.value, m);
      if received == |leaders| {
        var closed := CloseBatch();
        return Some(closed);
      }
      return None;
    }

    /** Fix the batch digest once the last proposal is in. */
    method CloseBatch() returns (metadata: Metadata)
      requires ProposalsValid() && |proposals| == |leaders|
      modifies `batchDigest
      ensures metadata == CurrentMetadata() && batchDigest == Some(metadata.digest)
    {
      FullCountFillsEverySlot(proposals, leaders);
      var result := CalculateInstanceDigest();
      // The error for an incomplete digest is dead: a full count fills every slot.
      var (digest, ordering) := result.value;
      OrderingAt(proposals, leaders);
      assert ordering == Ordering(proposals, leaders);
      batchDigest := Some(digest);
      return Metadata(seqNo, digest, ordering, batchSize);
    }

    /** Fill slot `k` with the proposal of its leader. */
    method RecordProposal(k: nat, m: Message)
      requires ProposalsValid() && m.kind.PrePrepare? && !Voted(proposals, m.from)
      requires k < |leaders| && leaders[k] == m.from
      modifies `slotDigests, `contained, `slots, `received, `batchSize, `clientRqs, `proposers, `proposals
      ensures ProposalsValid() && proposals == old(proposals) + [m]
    {
      proposers := proposers + {m.from};
      slotDigests := slotDigests[k := Some(m.header)];
      contained := contained[k := Some(m.kind.requests)];
      received := received + 1;
      batchSize := batchSize + |InfosOf(m.kind.requests)|;
      clientRqs := clientRqs + InfosOf(m.kind.requests);
      slots := slots[k := Some(m)];
      SendersAppend(proposals, m);
      forall j | 0 <= j < |leaders|
        ensures ProposalOf(proposals + [m], leaders[j]) ==
                if j == k then Some(m) else ProposalOf(proposals, leaders[j])
      {
        ProposalOfAppend(proposals, m, leaders[j]);
      }
      assert (proposals + [m])[..|proposals|] == proposals;
      proposals := proposals + [m];
    }

    method ProcessVote(m: Message) returns (r: Result<()>)
      requires VotesValid() && !m.kind.PrePrepare?
      modifies `preparers, `committers, `prepares, `commits
      ensures VotesValid()
      ensures r == if Voted(if m.kind.Prepare? then old(prepares) else old(commits), m.from)
                   then Err(DuplicateVote(m.from)) else Ok(())
      ensures prepares == if m.kind.Prepare? && r.Ok? then old(prepares) + [m] else old(prepares)
      ensures commits == if m.kind.Commit? && r.Ok? then old(commits) + [m] else old(commits)
    {
      if m.kind.Prepare? {
        if m.from in preparers {
          return Err(DuplicateVote(m.from));
        }
        SendersAppend(prepares, m);
        preparers := preparers + {m.from};
        prepares := prepares + [m];
      } else {
        if m.from in committers {
          return Err(DuplicateVote(m.from));
        }
        SendersAppend(commits, m);
        committers := committers + {m.from};
        commits := commits + [m];
      }
      return Ok(());
    }

    /** The report for a view change. The scan runs from the newest prepare backwards and
        restarts its count whenever the view changes; all prepares here are for one view. */
    method Deciding(f: nat, ghost i: Instance) returns (p: IncompleteProof)
      requires prepares == i.prepares && seqNo == i.seqNo && VotesFor(prepares, i, Prepare(DigestOf(i)))
      ensures p == Collect(i, f)
    {
      var writeSet: seq<ViewDecision> := [];
      assert prepares[..|prepares|] == prepares;
      for k := |prepares| downto 0
        invariant writeSet + WriteSet(prepares[..k]) == WriteSet(prepares)
      {
        assert prepares[..k + 1][..k] == prepares[..k];
        writeSet := writeSet + [ViewDecision(prepares[k].view, prepares[k].kind.digest)];
      }
      var quorum, lastView, count := 2 * f, None, 0;
      for k := |prepares| downto 0
        invariant count == |prepares| - k
        invariant lastView == if count == 0 then None else Some(i.view.seqNo)
        invariant quorum == 0 || count < quorum
      {
        var m := prepares[k];
        count := if lastView.Some? && lastView.value != m.view then 1 else count + 1;
        lastView := Some(m.view);
        if count == quorum {
          return IncompleteProof(seqNo, writeSet, Some(ViewDecision(m.view, m.kind.digest)));
        }
      }
      return IncompleteProof(seqNo, writeSet, None);
    }

    /** Hand over the finished batch; the unwraps of the source are safe because every slot is filled. */
    method FinishProcessingBatch() returns (b: Option<CompletedBatch>)
      requires Valid()
      ensures b.Some? <==> |proposals| == |leaders|
      ensures b.Some? ==>
                b.value == CompletedBatch(
                  seqNo, OfBatch(Ordering(proposals, leaders)), Ordering(proposals, leaders),
                  OrderedProposals(proposals, leaders), prepares, commits,
                  ArrivedInfos(proposals), OrderedRequests(proposals, leaders))
      ensures b.Some? ==> DescribesAll(b.value.infos, RequestsIn(proposals))
    {
      ArrivedDescribe(proposals);
      if batchDigest.None? {
        return None;
      }
      FullCountFillsEverySlot(proposals, leaders);
      var ordering: seq<Digest>, messages: seq<Message>, requests: seq<Request> := [], [], [];
      for k := 0 to |leaders|
        invariant ordering == Ordering(proposals, leaders[..k])
        invariant messages == OrderedProposals(proposals, leaders[..k])
        invariant requests == OrderedRequests(proposals, leaders[..k])
      {
        assert leaders[..k + 1][..k] == leaders[..k];
        ordering := ordering + [slotDigests[k].value];
        messages := messages + [slots[k].value];
        requests := requests + contained[k].value;
      }
      assert leaders[..|leaders|] == leaders;
      return Some(CompletedBatch(seqNo, batchDigest.value, ordering, messages, prepares, commits, clientRqs, requests));
    }
  }
}
