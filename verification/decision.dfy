/**
 One consensus instance as the replica runs it: a phase with an explicit counter, three
 message queues behind one flag, and a working log. Every operation is proved to do to
 the value model of module `Instances` exactly what that model prescribes.
 */
module Decisions {
  import opened Messages
  import opened Instances
  import opened Views
  import opened DecidingLog
  import HashSpace

  datatype Phase =
    | InitializePhase
    | PrePreparingPhase(received: nat)
    | PreparingPhase(received: nat)
    | CommittingPhase(received: nat)
    | DecidedPhase

  function StageOf(p: Phase): Stage {
    match p
    case InitializePhase => Initialize
    case PrePreparingPhase(_) => PrePreparing
    case PreparingPhase(_) => Preparing
    case CommittingPhase(_) => Committing
    case DecidedPhase => Decided
  }

  class ConsensusDecision {
    const nodeId: Node
    const seqNo: nat
    const view: View
    const log: WorkingDecisionLog

    var phase: Phase
    var getQueue: bool
    var prePrepares: seq<Message>
    var prepares: seq<Message>
    var commits: seq<Message>

    /** The instance this object implements. */
    ghost function Model(): Instance
      reads this, log
    {
      Instance(seqNo, view, StageOf(phase), Inbox(getQueue, PerKind(prePrepares, prepares, commits)),
               log.proposals, log.prepares, log.commits)
    }

    /** The log belongs to this instance, the counter in the phase is the length of the log
        it counts, and stage and log are coupled. */
    ghost predicate Valid()
      reads this, log
    {
      && log.Valid() && log.nodeId == nodeId && log.seqNo == seqNo
      && log.leaders == view.leaders && log.slices == view.slices
      && (phase.PrePreparingPhase? ==> phase.received == |log.proposals|)
      && (phase.PreparingPhase? ==> phase.received == |log.prepares|)
      && (phase.CommittingPhase? ==> phase.received == |log.commits|)
      && Coupled(Model())
    }

    constructor (nodeId: Node, seqNo: nat, view: View, inbox: Inbox)
      requires view.Valid()
      ensures Valid() && fresh(log)
      ensures this.nodeId == nodeId && Model() == Init(seqNo, view, inbox)
    {
      this.nodeId, this.seqNo, this.view := nodeId, seqNo, view;
      phase := InitializePhase;
      getQueue := inbox.signalled;
      prePrepares, prepares, commits := inbox.mail.pre, inbox.mail.prep, inbox.mail.com;
      log := new WorkingDecisionLog(nodeId, seqNo, view);
    }

    method Queue(m: Message)
      requires Valid()
      modifies this
      ensures Valid() && Model() == Enqueue(old(Model()), m)
    {
      match m.kind {
        case PrePrepare(_) => prePrepares := prePrepares + [m];
        case Prepare(_) => prepares := prepares + [m];
        case Commit(_) => commits := commits + [m];
      }
      getQueue := true;
    }

    method Poll() returns (r: PollResult)
      requires Valid()
      modifies this
      ensures Valid()
      ensures (Model(), r) == Instances.Poll(old(Model()))
    {
      match phase {
        case InitializePhase =>
          phase := PrePreparingPhase(0);
          return TryPropose;
        case PrePreparingPhase(_) =>
          if getQueue {
            if prePrepares == [] { getQueue := false; return Recv; }
            r := NextMessage(prePrepares[0]);
            prePrepares := prePrepares[1..];
            return;
          }
          return Recv;
        case PreparingPhase(_) =>
          if getQueue {
            if prepares == [] { getQueue := false; return Recv; }
            r := NextMessage(prepares[0]);
            prepares := prepares[1..];
            return;
          }
          return Recv;
        case CommittingPhase(_) =>
          if getQueue {
            if commits == [] { getQueue := false; return Recv; }
            r := NextMessage(commits[0]);
            commits := commits[1..];
            return;
          }
          return Recv;
        case DecidedPhase =>
          return PollDecided;
      }
    }

    /** Withhold this instance from the proposer. The counter restarts at zero, so that counter,
        stage and log fit exactly if nothing had been accepted. */
    method SkipInitPhase()
      requires Valid()
      modifies this
      ensures Model() == SkipInit(old(Model())) && phase == PrePreparingPhase(0)
      ensures Valid() <==> Untouched(old(Model()))
    {
      SkipInitExactly(Model());
      phase := PrePreparingPhase(0);
    }

    method ProcessMessage(m: Message) returns (status: Status, sent: Option<Message>)
      requires Valid()
      modifies this, log
      ensures Valid()
      ensures Step(Model(), status, sent) == Process(nodeId, old(Model()), m)
    {
      sent := None;
      match phase {
        case InitializePhase =>
          Queue(m);
          status := Queued;
        case PrePreparingPhase(_) =>
          if m.kind.PrePrepare? {
            status, sent := ProcessPrePrepare(m);
          } else {
            Queue(m);
            status := Queued;
          }
        case PreparingPhase(_) =>
          if m.kind.PrePrepare? {
            status := Ignored;
          } else if m.kind.Commit? {
            Queue(m);
            status := Queued;
          } else {
            status, sent := ProcessPrepare(m);
          }
        case CommittingPhase(_) =>
          if m.kind.Commit? {
            status := ProcessCommit(m);
          } else {
            status := Ignored;
          }
        case DecidedPhase =>
          status := AlreadyDecided;
      }
    }

    method ProcessPrePrepare(m: Message) returns (status: Status, sent: Option<Message>)
      requires Valid() && phase.PrePreparingPhase? && m.kind.PrePrepare?
      modifies this, log
      ensures Valid()
      ensures Step(Model(), status, sent) == AcceptProposal(nodeId, old(Model()), m)
    {
      hide VotesFor, ProposalsFor, FromLeaders, HashSpace.Distinct, Senders, Ordering, ProposalOf;
      ghost var step := AcceptProposal(nodeId, Model(), m);
      ProposalKeepsCoupling(nodeId, Model(), m);
      if m.view != view.seqNo || m.from !in view.leaders || m.seqNo != seqNo {
        return Ignored, None;
      }
      var received := phase.received + 1;
      var result := log.ProcessPrePrepare(m);
      if result.Err? {
        return Failed(result.error), None;
      }
      if received == |view.leaders| {
        // The unwrap of the metadata is safe: the count is full exactly when the log is.
        var metadata := result.value.value;
        getQueue := true;
        phase := PreparingPhase(0);
        assert Model() == step.instance;
        return Transitioned(Some(metadata), m),
               Some(Message(nodeId, seqNo, view.seqNo, Prepare(log.batchDigest.value), Other(0)));
      }
      phase := PrePreparingPhase(received);
      assert Model() == step.instance;
      return Deciding(m), None;
    }

    method ProcessPrepare(m: Message) returns (status: Status, sent: Option<Message>)
      requires Valid() && phase.PreparingPhase? && m.kind.Prepare?
      modifies this, log
      ensures Valid()
      ensures Step(Model(), status, sent) == AcceptPrepare(nodeId, old(Model()), m)
    {
      hide VotesFor, ProposalsFor, FromLeaders, HashSpace.Distinct, Senders, Ordering, ProposalOf;
      ghost var step := AcceptPrepare(nodeId, Model(), m);
      PrepareKeepsCoupling(nodeId, Model(), m);
      if m.view != view.seqNo || m.seqNo != seqNo || m.kind.digest != log.batchDigest.value {
        return Ignored, None;
      }
      var received := phase.received + 1;
      var result := log.ProcessVote(m);
      if result.Err? {
        return Failed(result.error), None;
      }
      if received == view.Quorum() {
        getQueue := true;
        phase := CommittingPhase(0);
        assert Model() == step.instance;
        return Transitioned(None, m),
               Some(Message(nodeId, seqNo, view.seqNo, Commit(log.batchDigest.value), Other(0)));
      }
      phase := PreparingPhase(received);
      assert Model() == step.instance;
      return Deciding(m), None;
    }

    method ProcessCommit(m: Message) returns (status: Status)
      requires Valid() && phase.CommittingPhase? && m.kind.Commit?
      modifies this, log
      ensures Valid()
      ensures Step(Model(), status, None) == AcceptCommit(old(Model()), m)
    {
      hide VotesFor, ProposalsFor, FromLeaders, HashSpace.Distinct, Senders, Ordering, ProposalOf;
      ghost var step := AcceptCommit(Model(), m);
      CommitKeepsCoupling(Model(), m);
      if m.seqNo != seqNo || m.view != view.seqNo || m.kind.digest != log.batchDigest.value {
        return Ignored;
      }
      var received := phase.received + 1;
      var result := log.ProcessVote(m);
      if result.Err? {
        return Failed(result.error);
      }
      if received == view.Quorum() {
        phase := DecidedPhase;
        assert Model() == step.instance;
        return NowDecided(m);
      }
      phase := CommittingPhase(received);
      assert Model() == step.instance;
      return Deciding(m);
    }

    predicate IsFinalizeable()
      reads this
    {
      phase.DecidedPhase?
    }

    /** A decided instance always hands over its batch; any other refuses. */
    method Finalize() returns (b: Option<CompletedBatch>)
      requires Valid()
      ensures b == if IsFinalizeable() then Some(Complete(Model())) else None
    {
      if phase.DecidedPhase? {
        b := log.FinishProcessingBatch();
      } else {
        b := None;
      }
    }

    method CollectProof(f: nat) returns (p: IncompleteProof)
      requires Valid()
      ensures p == Collect(Model(), f)
    {
      p := log.Deciding(f, Model());
    }
  }
}
