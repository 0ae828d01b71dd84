/**
 The log of the last decision: finalising a batch, and catching up from a proof.
 */
module DecidedLog {
  import opened Messages
  import opened Instances
  import opened Proofs
  import opened Views
  import HashSpace

  /** A batch as handed to execution. */
  datatype BatchDecision = BatchDecision(seqNo: nat, requests: seq<Request>, infos: seq<RequestInfo>, digest: Digest)

  datatype LogError =
    | CannotInstallDecisionAlreadyAhead(installed: nat, attempt: nat)
    | CannotInstallWouldSkip(attempt: nat, installed: nat)

  /** `Panicked` stands for the failed unwrap and the unfinished branches of the source. */
  datatype Installed = Done(decision: BatchDecision) | Refused(error: LogError) | Panicked

  function ProofOf(c: CompletedBatch): ProofData {
    ProofData(Metadata(c.seqNo, c.digest, c.ordering, |c.requests|), c.prePrepares, c.prepares, c.commits)
  }

  function DecisionOf(c: CompletedBatch): BatchDecision {
    BatchDecision(c.seqNo, c.requests, c.infos, c.digest)
  }

  /** What a proof says was decided: its requests in the order of its pre-prepares. */
  function DecisionFrom(p: ProofData): BatchDecision {
    BatchDecision(p.metadata.seqNo, RequestsIn(p.prePrepares), InfosOf(RequestsIn(p.prePrepares)), p.metadata.digest)
  }

  /** The proofs from which the source can rebuild a decision. */
  ghost predicate Rebuildable(p: ProofData) {
    IsOrdered(p) && forall m :: m in p.prePrepares ==> m.kind.PrePrepare?
  }

  ghost function RebuiltFrom(p: ProofData): Installed {
    if Rebuildable(p) then Done(DecisionFrom(p)) else Panicked
  }

  // The ordered proposals of a decided instance

  lemma {:induction false} OrderedAt(log: seq<Message>, leaders: seq<Node>)
    requires forall k :: 0 <= k < |leaders| ==> ProposalOf(log, leaders[k]).Some?
    ensures |OrderedProposals(log, leaders)| == |leaders|
    ensures forall k :: 0 <= k < |leaders| ==> ProposalOf(log, leaders[k]) == Some(OrderedProposals(log, leaders)[k])
    ensures Headers(OrderedProposals(log, leaders)) == Ordering(log, leaders)
    ensures RequestsIn(OrderedProposals(log, leaders)) == OrderedRequests(log, leaders)
  {
    hide ProposalOf, RequestsOf;
    if leaders != [] {
      var rest, last := leaders[..|leaders| - 1], leaders[|leaders| - 1];
      OrderedAt(log, rest);
      var ordered := OrderedProposals(log, leaders);
      assert ordered[..|leaders| - 1] == OrderedProposals(log, rest);
      assert ordered[|leaders| - 1] == ProposalOf(log, last).value;
    }
  }

  /** A full log is the ordered proposals in another order. */
  lemma OrderedPermutes(log: seq<Message>, leaders: seq<Node>)
    requires HashSpace.Distinct(leaders) && FromLeaders(log, leaders) && |log| == |leaders|
    ensures Permutes(OrderedProposals(log, leaders), log)
  {
    FullCountFillsEverySlot(log, leaders);
    OrderedAt(log, leaders);
    hide OrderedProposals, ProposalOf, Ordering, OrderedRequests, Headers, RequestsIn;
    var ordered := OrderedProposals(log, leaders);
    forall k | 0 <= k < |ordered| ensures ordered[k].from == leaders[k] && ordered[k] in log {
      ProposalOfVoter(log, leaders[k]);
    }
    OnePerLeader(ordered, log, leaders);
  }

  lemma OnePerLeader(ordered: seq<Message>, log: seq<Message>, leaders: seq<Node>)
    requires HashSpace.Distinct(leaders) && FromLeaders(log, leaders) && |ordered| == |leaders|
    requires forall k :: 0 <= k < |ordered| ==> ordered[k].from == leaders[k] && ordered[k] in log
    ensures Permutes(ordered, log)
  {
    assert NoRepeats(ordered) && NoRepeats(log);
    forall m | m in log ensures m in ordered {
      var j :| 0 <= j < |log| && log[j] == m;
      var k :| 0 <= k < |leaders| && leaders[k] == m.from;
      assert ordered[k].from == log[j].from && ordered[k] in log;
    }
    SameElements(ordered, log);
  }

  // Infos as a multiset do not depend on the order of the messages

  function InfoBag(ms: seq<Message>): multiset<RequestInfo> {
    if ms == [] then multiset{} else InfoBag(ms[..|ms| - 1]) + multiset(InfosOf(RequestsOf(Some(ms[|ms| - 1]))))
  }

  lemma {:induction false} BagRemove(ms: seq<Message>, k: nat)
    requires k < |ms|
    ensures InfoBag(ms) == InfoBag(ms[..k] + ms[k + 1..]) + multiset(InfosOf(RequestsOf(Some(ms[k]))))
  {
    hide InfosOf, RequestsOf;
    var rest, last := ms[..|ms| - 1], ms[|ms| - 1];
    var left := ms[..k] + ms[k + 1..];
    if k == |rest| {
      assert left == rest;
    } else {
      BagRemove(rest, k);
      assert left[..|left| - 1] == rest[..k] + rest[k + 1..] && left[|left| - 1] == last;
    }
  }

  lemma {:induction false} BagPermutes(a: seq<Message>, b: seq<Message>)
    requires Permutes(a, b)
    ensures InfoBag(a) == InfoBag(b)
    decreases |a|
  {
    if a == [] {
      assert |multiset(b)| == |b|;
    } else {
      var last := a[|a| - 1];
      assert last in multiset(b);
      var k :| 0 <= k < |b| && b[k] == last;
      RemoveBoth(a, b, k);
      BagPermutes(a[..|a| - 1], b[..k] + b[k + 1..]);
      BagRemove(b, k);
    }
  }

  lemma RemoveBoth(a: seq<Message>, b: seq<Message>, k: nat)
    requires Permutes(a, b) && a != [] && k < |b| && b[k] == a[|a| - 1]
    ensures Permutes(a[..|a| - 1], b[..k] + b[k + 1..])
  {
    var x := b[k];
    assert a == a[..|a| - 1] + [x];
    assert b == b[..k] + [x] + b[k + 1..];
    assert multiset(a[..|a| - 1]) == multiset(a) - multiset{x};
    assert multiset(b[..k] + b[k + 1..]) == multiset(b) - multiset{x};
  }

  lemma {:induction false} BagOfArrived(log: seq<Message>)
    ensures multiset(ArrivedInfos(log)) == InfoBag(log)
    ensures multiset(InfosOf(RequestsIn(log))) == InfoBag(log)
  {
    if log != [] {
      var rest := log[..|log| - 1];
      BagOfArrived(rest);
      InfosConcat(RequestsIn(rest), RequestsOf(Some(log[|log| - 1])));
    }
  }

  lemma InfosConcat(a: seq<Request>, b: seq<Request>)
    ensures InfosOf(a + b) == InfosOf(a) + InfosOf(b)
  {
  }

  /** Catching up equals deciding. The proof that is stored for a decided instance passes the
      check of its order, and the decision rebuilt from it has the same sequence number, digest
      and requests as the one handed to execution, with the same infos up to their order. */
  lemma CatchingUpEqualsDeciding(i: Instance)
    requires Coupled(i) && i.stage.Decided?
    ensures var c := Complete(i); var p := ProofOf(c);
            && Rebuildable(p)
            && DecisionFrom(p) == DecisionOf(c).(infos := DecisionFrom(p).infos)
            && multiset(DecisionFrom(p).infos) == multiset(DecisionOf(c).infos)
  {
    hide DigestOf, VotesFor, InfosOf;
    var c := Complete(i);
    FullCountFillsEverySlot(i.proposals, i.view.leaders);
    OrderedAt(i.proposals, i.view.leaders);
    OrderedPermutes(i.proposals, i.view.leaders);
    BagOfArrived(i.proposals);
    BagOfArrived(c.prePrepares);
    BagPermutes(c.prePrepares, i.proposals);
    forall m | m in c.prePrepares ensures m.kind.PrePrepare? {
      SameMembers(c.prePrepares, i.proposals);
    }
  }

  // What a recorded proof holds

  /** A quorum of votes of the given kind, from different senders, for one number of a view. */
  ghost predicate Certificate(votes: seq<Message>, v: View, seqNo: nat, kind: Kind) {
    && DistinctSenders(votes) && |votes| == v.Quorum()
    && (forall k :: 0 <= k < |votes| ==>
          votes[k].view == v.seqNo && votes[k].seqNo == seqNo && votes[k].kind == kind)
  }

  /** The pre-prepares of all leaders in their order, with the digests listed in the metadata. */
  ghost predicate Lists(p: ProofData, v: View, seqNo: nat) {
    && |p.prePrepares| == |v.leaders| == |p.metadata.ordering|
    && (forall k :: 0 <= k < |v.leaders| ==>
          var m := p.prePrepares[k];
          && m.from == v.leaders[k] && m.view == v.seqNo && m.seqNo == seqNo && m.kind.PrePrepare?
          && m.header == p.metadata.ordering[k])
  }

  /** The proof certifies the decision of number `seqNo` in view `v`: it lists what was proposed, and
      holds a quorum of prepares and a quorum of commits for the digest of exactly that. */
  ghost predicate Certifies(p: ProofData, v: View, seqNo: nat) {
    && p.metadata.seqNo == seqNo && p.metadata.digest == OfBatch(p.metadata.ordering)
    && p.metadata.requestCount == |RequestsIn(p.prePrepares)|
    && Lists(p, v, seqNo)
    && Certificate(p.prepares, v, seqNo, Prepare(p.metadata.digest))
    && Certificate(p.commits, v, seqNo, Commit(p.metadata.digest))
  }

  lemma ListsProposals(i: Instance)
    requires Coupled(i) && i.stage.Decided?
    ensures var p := ProofOf(Complete(i));
            Lists(p, i.view, i.seqNo) && p.metadata.requestCount == |RequestsIn(p.prePrepares)|
  {
    var log, leaders := i.proposals, i.view.leaders;
    FullCountFillsEverySlot(log, leaders);
    OrderedAt(log, leaders);
    OrderingAt(log, leaders);
    hide VotesFor, OrderedProposals, Ordering, OrderedRequests, RequestsIn, Headers, ArrivedInfos, DigestOf, ProposalOf;
    forall k | 0 <= k < |leaders|
      ensures var m := OrderedProposals(log, leaders)[k];
              && m.from == leaders[k] && m.view == i.view.seqNo && m.seqNo == i.seqNo && m.kind.PrePrepare?
              && m.header == Ordering(log, leaders)[k]
    {
      ProposalOfVoter(log, leaders[k]);
      assert OrderedProposals(log, leaders)[k] in log;
    }
  }

  /** What is recorded of a decided instance certifies its decision. */
  lemma ProofCertifies(i: Instance)
    requires Coupled(i) && i.stage.Decided?
    ensures Certifies(ProofOf(Complete(i)), i.view, i.seqNo)
  {
    ListsProposals(i);
    hide Lists, ProposalsFor, RequestsIn, OrderedProposals, OrderedRequests, Ordering, ArrivedInfos;
  }

  // The log

  class Log {
    var last: Option<ProofData>

    constructor ()
      ensures last.None?
    {
      last := None;
    }

    method FinalizeBatch(completed: CompletedBatch) returns (decision: BatchDecision)
      modifies this
      ensures last == Some(ProofOf(completed)) && decision == DecisionOf(completed)
      ensures var p := last.value;
              && p.prePrepares == completed.prePrepares && p.prepares == completed.prepares
              && p.commits == completed.commits && p.metadata.digest == completed.digest == decision.digest
              && p.metadata.seqNo == completed.seqNo == decision.seqNo
              && p.metadata.requestCount == |completed.requests|
    {
      last := Some(ProofOf(completed));
      var batch := [];
      for k := 0 to |completed.requests|
        invariant batch == completed.requests[..k]
      {
        batch := batch + [completed.requests[k]];
      }
      return BatchDecision(completed.seqNo, batch, completed.infos, completed.digest);
    }

    static method AddRequests(batch: seq<Request>, infos: seq<RequestInfo>, requests: seq<Request>)
      returns (b: seq<Request>, i: seq<RequestInfo>)
      requires infos == InfosOf(batch)
      ensures b == batch + requests && i == InfosOf(b)
    {
      b, i := batch, infos;
      for j := 0 to |requests|
        invariant b == batch + requests[..j] && i == InfosOf(b)
      {
        i, b := i + [InfoOf(requests[j])], b + [requests[j]];
      }
    }

    /** Rebuild the decision of a proof, if its pre-prepares are pre-prepares and in order. */
    static method Rebuild(p: ProofData) returns (r: Installed)
      ensures r == RebuiltFrom(p)
      ensures r.Done? ==> DescribesAll(r.decision.infos, r.decision.requests)
    {
      var proof := new Proof(p.metadata, p.prePrepares, p.prepares, p.commits);
      var ordered := proof.ArePrePreparesOrdered();
      if ordered.Err? || !ordered.value {
        return Panicked;
      }
      var batch, infos := [], [];
      for k := 0 to |p.prePrepares|
        invariant batch == RequestsIn(p.prePrepares[..k]) && infos == InfosOf(batch)
        invariant forall j :: 0 <= j < k ==> p.prePrepares[j].kind.PrePrepare?
      {
        if !p.prePrepares[k].kind.PrePrepare? {
          return Panicked;
        }
        assert p.prePrepares[..k + 1][..k] == p.prePrepares[..k];
        batch, infos := AddRequests(batch, infos, p.prePrepares[k].kind.requests);
      }
      assert p.prePrepares[..|p.prePrepares|] == p.prePrepares;
      InfosDescribeExactly(infos, batch);
      return Done(BatchDecision(p.metadata.seqNo, batch, infos, p.metadata.digest));
    }

    /** Install the proof of the decision after the last one. A log without any decision
        rebuilds the decision but does not record the proof; otherwise it is recorded before the
        decision is rebuilt, also where that panics. */
    method InstallProof(p: ProofData) returns (r: Installed)
      modifies this
      ensures var n := p.metadata.seqNo;
              match old(last)
              case None => r == RebuiltFrom(p) && last == None
              case Some(q) =>
                var m := q.metadata.seqNo;
                if n == m + 1 then r == RebuiltFrom(p) && last == Some(p)
                else last == old(last)
                     && r == Refused(if n <= m then CannotInstallDecisionAlreadyAhead(m, n)
                                     else CannotInstallWouldSkip(n, m))
    {
      if last.Some? {
        var installed := last.value.metadata.seqNo;
        if p.metadata.seqNo <= installed {
          return Refused(CannotInstallDecisionAlreadyAhead(installed, p.metadata.seqNo));
        }
        if p.metadata.seqNo > installed + 1 {
          return Refused(CannotInstallWouldSkip(p.metadata.seqNo, installed));
        }
        last := Some(p);
      }
      r := Rebuild(p);
    }
  }
}
