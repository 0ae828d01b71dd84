# febft, verified

febft is a PBFT / Mod-SMaRt ordering protocol: replicas agree on batches of client requests
through pre-prepare, prepare and commit messages, run a window of overlapping consensus
instances, and change views when the leader fails. This project models its protocol core in
Dafny and proves properties of whole runs: agreement inside a view, what a view change gets to
see, that no message and no wake-up is lost, that nobody leaves a view without cause, and more. Where the code
falls short, it exhibits executions of the whole system in which it does.

## How it is built

- What the code changes step by step is a class here (`ConsensusDecision`, `WorkingDecisionLog`,
  `Consensus`, `Synchronizer`, `Log`, `Proof`, `ViewChangeFilter`, `CollabStateTransfer`, ...).
  Each method is proved to do to a value model exactly what a function of that model says; the
  properties are lemmas about those functions, their invariants, and runs built from them.
- The value models leave out what is redundant. Counters, vote sets, slot vectors and digests
  are functions of the accepted messages in `Instances`; the classes carry them and are proved
  to agree.
- `Systems` composes the windows of all correct replicas with a growing set of sent messages and
  faulty replicas that send anything in their own name; `StopSafety` does the same for view
  changes. `Scenarios`, `StopScenarios` and the modules built on them put executions of these
  systems together step by step, for every configuration, as witnesses of what can happen.

| file | what it holds |
|---|---|
| `messages.dfy`, `slotting.dfy` | messages, digests, vote logs; queues indexed by distance |
| `quorums.dfy`, `views.dfy`, `hash_space.dfy` | quorum arithmetic, views, the split of the digest space |
| `instances.dfy`, `deciding_log.dfy`, `decision.dfy` | one consensus instance: model, log, state machine |
| `windows.dfy`, `window_invariants.dfy`, `window_routing.dfy`, `window_runs.dfy`, `consensus.dfy` | the window of instances: model, invariants, routing, runs, class |
| `conservation.dfy` | no message is lost, and a quorum that was heard decides |
| `systems.dfy`, `system_invariants.dfy`, `agreement.dfy`, `visibility.dfy` | the whole system, agreement, what a view change sees |
| `paths.dfy`, `scenarios.dfy`, `outcomes.dfy` | executions built step by step, and what becomes of a decided value |
| `view_changes.dfy`, `synchronizer.dfy`, `soundness.dfy` | the view-change protocol of one replica: model, class, verdicts |
| `change_routing.dfy`, `completions.dfy` | where view-change messages wait, and how view changes begin and end |
| `stop_safety.dfy`, `waiting.dfy`, `join_votes.dfy`, `collecting.dfy` | view changes across the system, rounds of join votes and of collects |
| `stop_scenarios.dfy`, `join_scenarios.dfy`, `collect_scenarios.dfy` | executions of view changes |
| `proofs.dfy`, `decided_log.dfy`, `order_protocol.dfy` | proofs of decisions, the log, finalisation |
| `proposer.dfy`, `state_transfer.dfy` | request filter and batches; state transfer |

## Reading the model

- Digests are ideal: the hash of different contents is different. A request's own digest is a
  string of bytes, so that the split of the digest space is the real one.
- Sequence and view numbers are unbounded. The library's `index` is the difference, its queues
  keep slot k for the base plus k and drop what is older.
- A quorum is 2f + 1 members of f = (n - 1) / 3. Where agreement needs it, n is 3f + 1:
  `QuorumsIntersectExactly` shows that no other n will do.
- Messages are delivered only if they were sent, by a member of the view they are for.
- The view that the synchronizer reports and the view of an instance are the same.

## What turned out not to hold

Where the code does less than one would expect, the model does the same. For each expectation one
lemma says exactly when it is met, and a second one, where the first does not construct it, shows
an input or an execution that fails it.

- Quorums of n = 3f + 2 or 3f + 3 replicas may share only f members (`QuorumsIntersectExactly`).
- A forward jump past the window compares only the queue of pre-prepares and then drops all three
  queues; prepares and commits can be lost (`JumpConservesExactly`). For every size of the window,
  the jump to the number of a queued vote loses that vote (`JumpLosesVote`).
- With f = 0 a collect never reports a quorum of prepares, since the count is compared with 2f = 0
  only after it was raised to one (`CollectReportsExactly`). A decided value is visible all the
  same, by its proof (`DecidedValueVisible`, `FinalisersShowTheirValue`).
- With more collects than a quorum, the verdict of `sound` depends on the iteration order of a
  hash set (`SearchOrderFreeExactly`). With exactly a quorum, one collect without a quorum of
  prepares keeps any value from being bound, also a decided one (`DecidedValueBoundExactly`,
  `DecidedValueMayGoUnbound`). In every configuration with f >= 1 there is an execution in which
  that happens to a value that a replica outside the quorum has finalised
  (`DecidedValueGoesUnbound`).
- Certificates of a value count the entries of write sets, not the collects they come from
  (`BindsMeans`). No f senders get a value bound that nobody else wrote if each of them names it once
  (`FewSendersDoNotBind`). But entries may repeat, and the collect of one replica that has a quorum of
  prepares certifies their value alone (`PreparedCollectCertifies`).
- Agreement ends with the view. Nothing in the consensus handler carries a value into the next
  view, and correct replicas agree across two views exactly if these are the same
  (`ViewsAgreeExactly`). For any batches of two views, the later one with f >= 1, there is an
  execution in which a correct replica finalises one and another correct replica decides the other
  under the same sequence number (`ViewsMayDisagree`, `RequestsMayDiffer`). What could prevent it
  is the verdict of `sound`, which the code computes and discards.
- The node that a view change reports as joining can differ from the one it adds, once votes of an
  interrupted round are left over (`JoinReportsTopExactly`); in an execution of the whole system it
  does (`LeftOverVotesMisreport`).
- Rounds of join votes count messages, not senders. One member that repeats one vote as often as
  there are members takes the code into an unfinished branch, which panics, exactly if f >= 1
  (`UnfinishedExactly`, `OneVoterReachesUnfinishedExactly`).
- With f = 0 and more than one member, a replica that amplifies a STOP does not notice the quorum it
  already has before one more message (`NoticesQuorumExactly`, `AmplifiesWithoutLeaving`).
- What a leader collected stays on record after its view change, and is cleared only when its own
  timeout starts the next. A leader can gather a quorum of STOP-DATA exactly if a quorum of members
  is not on record (`GathersExactly`); an execution of the whole system, in which others start every
  view change until it leads again, leaves it without (`LeaderGetsStuck`).
- A replica that waits for the next leader is not moved by timeouts or STOPs. It leaves that phase
  only by the SYNC of that leader, so that a silent leader holds it until recovery from outside the
  protocol (`LeavesSyncingOnlyBySync`, `WaitsForItsLeader`).
- A batch that is too large is cut from its newest end, which upsets the order that the
  view-change filter needs (`OldestFirstExactly`, `StatelessExactly`, `CutDefeatsFilter`).
- Slices of the digest space can be empty when there are many leaders (`NoSliceEmptyExactly`,
  `LastSliceMayBeEmpty`). It does not come to that: the views that the program builds have a single
  leader, which owns the whole space (`SoleLeaderOwnsAll`).

## Model

| member | source | states |
|---|---|---|
| Quorums.FaultsFor | febft-pbft-consensus/src/bft/mod.rs:151-153 | n replicas lie between 3f + 1 and 3f + 3 |
| Quorums.ReplicasForTolerates | febft-pbft-consensus/src/bft/mod.rs:141-153 | the three formulas fit: 3f + 1 replicas tolerate f faults with quorums of 2f + 1 |
| Quorums.QuorumsShareCorrect | febft-pbft-consensus/src/bft/mod.rs:145-153 | of 3f + 1 members at most f of whom are faulty, any two quorums share a correct one |
| Quorums.QuorumsIntersectExactly | febft-pbft-consensus/src/bft/mod.rs:141-153 | any two quorums share more than f members if and only if n mod 3 is 1 |
| HashSpace.BytesRoundTrip | febft-pbft-consensus/src/bft/sync/view/mod.rs:226-276 | big-endian bytes decode to the number they were made from |
| HashSpace.DivideHashSpace | febft-pbft-consensus/src/bft/sync/view/mod.rs:241-276 | the loop yields the slices that start at multiples of the stride, the last one taking the rest |
| HashSpace.EachDigestInExactlyOneSlice | febft-pbft-consensus/src/bft/sync/view/mod.rs:226-276 | for every width and count, a digest is in slice k, after the byte round trip, exactly if k is its owner |
| HashSpace.NoSliceEmptyExactly | febft-pbft-consensus/src/bft/sync/view/mod.rs:241-276 | no slice is empty if and only if quotient plus remainder of the space reach count - 1 |
| HashSpace.LastSliceMayBeEmpty | febft-pbft-consensus/src/bft/sync/view/mod.rs:241-276 | with seventeen leaders and one-byte digests, no digest is in the last slice |
| HashSpace.SlicesAreEven | febft-pbft-consensus/src/bft/sync/view/mod.rs:250-270 | any two slices differ in size by less than the number of leaders |
| HashSpace.LargeSpaceLeavesNoSliceEmpty | febft-pbft-consensus/src/bft/sync/view/mod.rs:241-276 | a space of at least count * (count - 1) leaves no slice empty |
| HashSpace.CalculateHashSpaceDivision | febft-pbft-consensus/src/bft/sync/view/mod.rs:207-223 | each leader gets the slice of its last position in the leader set |
| HashSpace.OneLeaderPerRequest | febft-pbft-consensus/src/bft/sync/view/mod.rs:207-237 | with distinct leaders, exactly one leader may propose a given request |
| Views.FromQuorum | febft-pbft-consensus/src/bft/sync/view/mod.rs:100-123 | a view over distinct members is valid and led by the member its number selects |
| Views.SoleLeaderOwnsAll | febft-pbft-consensus/src/bft/sync/view/mod.rs:100-123 | the single leader of a view may propose a request of any digest |
| Views.NewView | febft-pbft-consensus/src/bft/sync/view/mod.rs:74-97 | the view over the first n identifiers is valid and has n members |
| Views.NextView | febft-pbft-consensus/src/bft/sync/view/mod.rs:159-161 | the next view is valid, has the next number and tolerates as many faults |
| Views.NextViewWithNode | febft-pbft-consensus/src/bft/sync/view/mod.rs:163-169 | admitting a node keeps the members in place, adds it last and never lowers the faults tolerated |
| Messages.InfosDescribeExactly | febft-pbft-consensus/src/bft/sync/replica_sync/mod.rs:223-234 | the infos made of a list of requests are exactly those that name, place by place, the client, session, number and digest of the request |
| Instances.ProposalKeepsCoupling | febft-pbft-consensus/src/bft/consensus/decision/mod.rs:307-456 | a pre-prepare, accepted or not, leaves stage and logs coupled; the last one moves on to preparing |
| Instances.PrepareKeepsCoupling | febft-pbft-consensus/src/bft/consensus/decision/mod.rs:457-580 | a prepare leaves stage and logs coupled; the quorum-th moves on to committing |
| Instances.CommitKeepsCoupling | febft-pbft-consensus/src/bft/consensus/decision/mod.rs:581-678 | a commit leaves stage and logs coupled; the quorum-th decides |
| Instances.ProcessKeepsCoupling | febft-pbft-consensus/src/bft/consensus/decision/mod.rs:280-684 | any message at any stage keeps the coupling: every log is for this view, number and digest, has distinct senders, and is as full as the stage says |
| Instances.ProcessFilesExactly | febft-pbft-consensus/src/bft/consensus/decision/mod.rs:280-684 | a message is queued, behind those of its kind, and reported as queued, if and only if the instance has not reached the stage that takes its kind |
| Instances.ProcessLogsExactly | febft-pbft-consensus/src/bft/consensus/decision/mod.rs:280-684 | a message joins the log of its kind if and only if its stage has come, it is for this view, number and batch, and its sender is entitled and new; the stage moves on exactly when that log is full |
| Instances.ProcessReportsExactly | febft-pbft-consensus/src/bft/consensus/decision/mod.rs:280-684 | which of the reports is given, if and only if: ignored, counted, moved on, decided, decided before, duplicate, outside its space |
| Instances.OwnProposalTaken | febft-pbft-consensus/src/bft/log/deciding/mod.rs:167-200 | a proposal of the replica itself is not held to a part of the digest space |
| Instances.ForeignRequestRefused | febft-pbft-consensus/src/bft/log/deciding/mod.rs:167-200 | one request outside the space of its proposer keeps the whole proposal out |
| Instances.MetadataDescribes | febft-pbft-consensus/src/bft/log/deciding/mod.rs:284-300 | the metadata announced lists the digests of the proposals in the order of the leaders, the digest of that list and the number of requests |
| Instances.ArrivedDescribe | febft-pbft-consensus/src/bft/log/deciding/mod.rs:167-242 | the infos kept of a batch describe its requests one by one, in the order of arrival |
| Instances.PollKeepsCoupling | febft-pbft-consensus/src/bft/consensus/decision/mod.rs:231-264 | polling keeps the coupling, offers a proposal exactly once at the start, and changes no other stage |
| Instances.SkipInitExactly | febft-pbft-consensus/src/bft/consensus/decision/mod.rs:266-271 | skipping the start keeps stage and logs coupled exactly if the instance was not beyond collecting proposals |
| Instances.ProcessEvolves | febft-pbft-consensus/src/bft/consensus/decision/mod.rs:280-684 | stages never go back, logs only grow, and a vote is sent exactly on the step into preparing or committing, for the digest then held |
| Instances.CollectReportsExactly | febft-pbft-consensus/src/bft/log/deciding/mod.rs:302-350 | a quorum of prepares is reported exactly if f is not zero and 2f distinct replicas prepared, with the view and digest of the instance |
| Instances.LeaderBound | febft-pbft-consensus/src/bft/log/deciding/mod.rs:167-241 | there are at most as many proposals as leaders, and a full count comes from every leader |
| Instances.FullCountFillsEverySlot | febft-pbft-consensus/src/bft/log/deciding/mod.rs:213-241 | a full count of proposals fills every leader's slot, so that no unwrap fails |
| Instances.OrderingDeterminesRequests | febft-pbft-consensus/src/bft/log/deciding/mod.rs:284-299 | the ordered digests of authentic proposals determine the ordered requests |
| Instances.EqualDigestsEqualBatches | febft-pbft-consensus/src/bft/log/deciding/mod.rs:284-299 | instances over authentic proposals with equal batch digests hold the same request sequence |
| DecidingLog.WorkingDecisionLog.constructor | febft-pbft-consensus/src/bft/log/deciding/mod.rs:143-160 | a new log is empty and valid for the view |
| DecidingLog.WorkingDecisionLog.CalculateInstanceDigest | febft-pbft-consensus/src/bft/log/deciding/mod.rs:284-299 | the digest covers all slots in leader order, and exists exactly if no slot is open |
| DecidingLog.WorkingDecisionLog.ProcessPrePrepare | febft-pbft-consensus/src/bft/log/deciding/mod.rs:167-241 | accepts exactly leaders' first proposals inside their space, with the right error otherwise, and reports metadata exactly at the full count |
| DecidingLog.WorkingDecisionLog.ProcessVote | febft-pbft-consensus/src/bft/log/deciding/mod.rs:244-265 | logs a vote unless its sender already cast one of that kind |
| DecidingLog.WorkingDecisionLog.Deciding | febft-pbft-consensus/src/bft/log/deciding/mod.rs:302-350 | the backward scan with its restarting count yields the write set and reports quorum prepares exactly when 1 <= 2f <= prepares |
| DecidingLog.WorkingDecisionLog.FinishProcessingBatch | febft-pbft-consensus/src/bft/log/deciding/mod.rs:354-381 | yields a batch exactly when all proposals are in, with digests, messages and requests in leader order, and infos that describe the requests that arrived |
| Decisions.ConsensusDecision.constructor | febft-pbft-consensus/src/bft/consensus/decision/mod.rs:199-214 | a new instance is at its start, with the given inbox |
| Decisions.ConsensusDecision.Queue | febft-pbft-consensus/src/bft/consensus/decision/mod.rs:216-228 | files a message by kind and raises the flag |
| Decisions.ConsensusDecision.Poll | febft-pbft-consensus/src/bft/consensus/decision/mod.rs:231-264 | starts the instance, or hands out the oldest message of the awaited kind, or lowers the flag |
| Decisions.ConsensusDecision.SkipInitPhase | febft-pbft-consensus/src/bft/consensus/decision/mod.rs:266-271 | withholds the instance from the proposer and restarts its counter; what results is valid exactly if nothing had been accepted |
| Decisions.ConsensusDecision.ProcessMessage | febft-pbft-consensus/src/bft/consensus/decision/mod.rs:280-684 | counters, duplicate sets and slots together do what the value model says, for every phase and kind |
| Decisions.ConsensusDecision.ProcessPrePrepare | febft-pbft-consensus/src/bft/consensus/decision/mod.rs:307-456 | the pre-prepare phase with its counter refines the value model, including the vote it sends |
| Decisions.ConsensusDecision.ProcessPrepare | febft-pbft-consensus/src/bft/consensus/decision/mod.rs:457-580 | the prepare phase with its counter refines the value model, including the vote it sends |
| Decisions.ConsensusDecision.ProcessCommit | febft-pbft-consensus/src/bft/consensus/decision/mod.rs:581-678 | the commit phase with its counter refines the value model |
| Decisions.ConsensusDecision.Finalize | febft-pbft-consensus/src/bft/consensus/decision/mod.rs:692-707 | a decided instance always yields its batch, any other refuses |
| Decisions.ConsensusDecision.CollectProof | febft-pbft-consensus/src/bft/consensus/decision/mod.rs:709-711 | reports the instance as the value model does |
| WindowInvariants.CreateInv | febft-pbft-consensus/src/bft/consensus/mod.rs:236-271 | a new window satisfies the invariant: `watermark` coupled instances in sequence, queues in step, whoever can progress is signalled, and numbers on offer only to a leader and only once started |
| WindowInvariants.QueueKeeps | febft-pbft-consensus/src/bft/consensus/mod.rs:274-326 | filing a message keeps the invariant and moves neither number, view nor stage |
| WindowInvariants.DeliverKeeps | febft-pbft-consensus/src/bft/consensus/mod.rs:382-486 | processing a message keeps the invariant, signals included |
| WindowInvariants.PollKeeps | febft-pbft-consensus/src/bft/consensus/mod.rs:330-379 | no lost wake-up: polling keeps the invariant, and when it returns nothing, no instance holds a message that its stage would accept |
| WindowInvariants.NextKeeps | febft-pbft-consensus/src/bft/consensus/mod.rs:544-574 | retiring the front instance keeps exactly `watermark` consecutively numbered instances |
| WindowInvariants.InstallSeqKeeps | febft-pbft-consensus/src/bft/consensus/mod.rs:577-724 | all branches of a jump keep the invariant and land on the number asked for, so that the closing assertions hold |
| WindowInvariants.InstallViewKeeps | febft-pbft-consensus/src/bft/consensus/mod.rs:757-819 | a new view keeps the invariant and the number, restarts every instance and clears the offers |
| WindowInvariants.EnterViewKeeps | febft-pbft-consensus/src/bft/consensus/mod.rs:844-887 | entering a view skips the first instance's start, so that it is never offered to the proposer |
| WindowInvariants.EnterAgainKeeps | febft-pbft-consensus/src/bft/consensus/mod.rs:844-887 | entering the current view once more keeps the invariant if the front instance has accepted nothing |
| WindowInvariants.ProposeKeeps | febft-pbft-consensus/src/bft/consensus/mod.rs:987-992 | taking a sequence number keeps the invariant |
| WindowRouting.QueueRoutes | febft-pbft-consensus/src/bft/consensus/mod.rs:274-326 | filing appends a message under its view, number and kind, unless it is no longer of interest |
| WindowRouting.DeliverRoutes | febft-pbft-consensus/src/bft/consensus/mod.rs:382-486 | processing files a message under its own key, and says so, if and only if its view is later, its number is past the window, or its instance is not at the stage that takes it; it moves no other |
| WindowRouting.DeliverActs | febft-pbft-consensus/src/bft/consensus/mod.rs:382-486 | otherwise the message is processed by its own instance and no other, or ignored if its view or number lies behind |
| WindowRouting.NextRoutes | febft-pbft-consensus/src/bft/consensus/mod.rs:544-574 | retiring an instance forgets its messages and no others |
| WindowRouting.ShortJumpRoutes | febft-pbft-consensus/src/bft/consensus/mod.rs:675-712 | a jump shorter than the window forgets what it skips and nothing else |
| WindowRouting.JumpConservesExactly | febft-pbft-consensus/src/bft/consensus/mod.rs:608-672 | a forward jump loses no message for the future if and only if it is short, or within the queued pre-prepares, or nothing is queued beyond it |
| WindowRouting.JumpLosesVote | febft-pbft-consensus/src/bft/consensus/mod.rs:608-672 | for every window size, a prepare or commit from beyond a new window is filed, and the jump to its number loses it although it is still of interest |
| WindowRouting.InstallViewRoutes | febft-pbft-consensus/src/bft/consensus/mod.rs:757-840 | messages for a later view are released exactly when that view is installed |
| WindowRouting.PollRoutes | febft-pbft-consensus/src/bft/consensus/mod.rs:330-379 | polling hands out the oldest message under its key, to the instance of that number, and moves no other |
| WindowRouting.PollsLowestFirst | febft-pbft-consensus/src/bft/consensus/mod.rs:330-378 | when polling hands out a message, no instance with a lower number has one that its stage would take |
| WindowRuns.StepGood | febft-pbft-consensus/src/bft/consensus/mod.rs:274-887 | every operation, backward jumps included, is free of panics and keeps window and routing whole |
| WindowRuns.RunsStayGood | febft-pbft-consensus/src/bft/consensus/mod.rs:544-819 | in every run, at every point, the window is whole and the next operation is safe |
| WindowRuns.LeaderNeverProposesTwice | febft-pbft-consensus/src/bft/consensus/mod.rs:987-1026 | in every run without backward jumps, a number and view are claimed at most once, be it by the proposer or by the proposal that came with a view change |
| WindowRuns.LeaderIsOfferedEveryInstance | febft-pbft-consensus/src/bft/consensus/mod.rs:347-379 | once a leader's poll asks for new input, every instance that had not started was offered to its proposer |
| WindowRuns.ProposeTakesLeast | febft-pbft-consensus/src/bft/consensus/mod.rs:988-993 | the proposer gets the lowest number on offer, with the current view, and exactly that offer is withdrawn |
| WindowRuns.JumpOffersExactly | febft-pbft-consensus/src/bft/consensus/mod.rs:577-716 | after a forward jump exactly the offers not left behind stay open, after a backward jump none |
| WindowRuns.FinalisedInUnbrokenOrder | febft-pbft-consensus/src/bft/consensus/mod.rs:512-574 | in every run without jumps, the front instance is numbered by the start plus the batches finalised so far |
| Conservation.StepKeepsMessages | febft-pbft-consensus/src/bft/consensus/mod.rs:274-887 | no operation loses a proposal of a batch or a vote for it: what was handed in waits, is counted, or lies behind |
| Conservation.NothingIsLost | febft-pbft-consensus/src/bft/consensus/mod.rs:274-887 | the same over every run of operations |
| Conservation.QuorumHeardDecides | febft-pbft-consensus/src/bft/consensus/mod.rs:274-887 | in every run in which the proposals of a batch and the prepares and commits of a quorum came in, in any order, early or late, the instance is decided once nothing is left to poll |
| ConsensusHandler.Signals.PopSignalled | febft-pbft-consensus/src/bft/consensus/mod.rs:1093-1102 | takes the least signal out of heap and set alike |
| ConsensusHandler.Signals.PushSignalled | febft-pbft-consensus/src/bft/consensus/mod.rs:1104-1108 | a signal is kept once, however often it is raised |
| ConsensusHandler.TboQueue.AdvanceQueue | febft-pbft-consensus/src/bft/consensus/mod.rs:119-137 | hands out the first slot of all three queues and moves the base by one |
| ConsensusHandler.TboQueue.Queue | febft-pbft-consensus/src/bft/consensus/mod.rs:140-177 | files by distance from the base and drops what is older |
| ConsensusHandler.ProposerConsensusGuard.NextSeqNo | febft-pbft-consensus/src/bft/consensus/mod.rs:987-992 | hands out the least number on offer, with the view |
| ConsensusHandler.ProposerConsensusGuard.InstallSeqNo | febft-pbft-consensus/src/bft/consensus/mod.rs:1007-1018 | the loop drops exactly the offers below the new number |
| ConsensusHandler.Consensus.constructor | febft-pbft-consensus/src/bft/consensus/mod.rs:236-271 | the new object is the new window |
| ConsensusHandler.Consensus.QueueMessage | febft-pbft-consensus/src/bft/consensus/mod.rs:274-326 | refines filing in the model |
| ConsensusHandler.Consensus.Poll | febft-pbft-consensus/src/bft/consensus/mod.rs:330-379 | the loop terminates and does what polling the model does |
| ConsensusHandler.Consensus.ProcessMessage | febft-pbft-consensus/src/bft/consensus/mod.rs:382-486 | refines processing in the model, vote and status included |
| ConsensusHandler.Consensus.FinalizeableCount | febft-pbft-consensus/src/bft/consensus/mod.rs:496-509 | counts the longest decided prefix |
| ConsensusHandler.Consensus.Finalize | febft-pbft-consensus/src/bft/consensus/mod.rs:512-538 | hands over the front batch and moves on exactly if it is decided |
| ConsensusHandler.Consensus.NextInstance | febft-pbft-consensus/src/bft/consensus/mod.rs:544-574 | retires the front and opens the next number |
| ConsensusHandler.Consensus.InstallSequenceNumber | febft-pbft-consensus/src/bft/consensus/mod.rs:577-724 | the refill loops of all branches refine the jump of the model; both closing assertions are proved |
| ConsensusHandler.Consensus.InstallView | febft-pbft-consensus/src/bft/consensus/mod.rs:757-819 | clearing, refilling and releasing early messages refine the view change of the model |
| ConsensusHandler.Consensus.FinalizeViewChange | febft-pbft-consensus/src/bft/consensus/mod.rs:844-887 | enters the view, also the current one, with its first instance withheld from the proposer and the requests of its first proposal made known to the filter |
| ConsensusHandler.Consensus.CollectIncompleteProof | febft-pbft-consensus/src/bft/consensus/mod.rs:890-896 | reports the front instance, which always exists |
| ConsensusHandler.Consensus.NextProposal | febft-pbft-consensus/src/bft/consensus/mod.rs:987-992 | refines the proposer's step of the model |
| SystemInvariants.VoteCast | febft-pbft-consensus/src/bft/consensus/decision/mod.rs:431-561 | a vote is recorded in the instance that casts it, and the instance had not cast that ballot before |
| SystemInvariants.StandsAdvance | febft-pbft-consensus/src/bft/consensus/mod.rs:544-819 | no operation without a backward jump forgets a vote while its instance lives |
| SystemInvariants.UniqueGrows | febft-pbft-consensus/src/bft/consensus/decision/mod.rs:431-561 | a fresh vote keeps every correct replica's votes unique |
| SystemInvariants.PreparedCertified | febft-pbft-consensus/src/bft/consensus/decision/mod.rs:457-580 | an instance past its prepares holds a quorum of prepares, all sent by members |
| SystemInvariants.DecidedCertified | febft-pbft-consensus/src/bft/consensus/decision/mod.rs:581-678 | a decided instance holds a quorum of commits, all sent by members |
| SystemInvariants.StepKeeps | febft-pbft-consensus/src/bft/mod.rs:580-709 | every step of the system keeps its invariant: queues and logs hold only what was sent, and votes stand and are unique |
| SystemInvariants.ReachableOk | febft-pbft-consensus/src/bft/mod.rs:516-728 | every reachable state satisfies the invariant |
| SystemInvariants.NoPanic | febft-pbft-consensus/src/bft/consensus/mod.rs:330-887 | in no execution does an operation on the window of a correct replica index outside it or unwrap nothing |
| Agreement.CertificatesAgree | febft-pbft-consensus/src/bft/consensus/decision/mod.rs:457-656 | two quorums of one kind of vote for one view and number are for one digest |
| Agreement.InViewAgreement | febft-pbft-consensus/src/bft/consensus/decision/mod.rs:457-656 | in every execution, correct replicas with a quorum of prepares, and so also those that decided, hold the same digest and requests for the same view and number |
| Agreement.StaysSilent | febft-pbft-consensus/src/bft/mod.rs:621-623 | a replica in the synchronisation phase of a view never again votes in that view |
| Visibility.StaysPast | febft-pbft-consensus/src/bft/consensus/mod.rs:330-887 | in every execution, a number once decided in a view stays decided until the replica leaves it or the view behind |
| Visibility.StaysUndecided | febft-pbft-consensus/src/bft/mod.rs:580-628 | in every execution, nothing undecided gets decided in the synchronisation phase of its view |
| Visibility.DecidedValueVisible | febft-pbft-consensus/src/bft/sync/replica_sync/mod.rs:94-109 | if a correct replica ever decides d in a view, among any quorum of collects taken in that view a correct one reports a quorum of prepares for d or carries the proof: in every execution with f >= 1, and with f = 0 for a member that decides, if collects are handed in with nothing decided at the front |
| Visibility.NothingDecidedInSync | febft-pbft-consensus/src/bft/mod.rs:630-728 | replicas that finalise what they decide before they enter the synchronisation phase have nothing decided at the front as long as it lasts |
| Visibility.FinalisersShowTheirValue | febft-pbft-consensus/src/bft/mod.rs:630-728 | in every execution of such replicas, and whatever f is, the value that a correct member decides is visible to any quorum of collects |
| Outcomes.ProposalsGetDecided | febft-pbft-consensus/src/bft/consensus/decision/mod.rs:307-678 | in every configuration, view and for all proposals there is an execution in which the correct replicas of a quorum decide them |
| Outcomes.DecidedValueGoesUnbound | febft-pbft-consensus/src/bft/sync/mod.rs:1965-2162 | in every configuration with f >= 1, view and for all proposals there is an execution in which a correct replica decides and finalises them, and a quorum of others, none of whose correct members has the proof, hands in collects for which every verdict is unbound, whatever faulty members report |
| Outcomes.ViewsMayDisagree | febft-pbft-consensus/src/bft/sync/mod.rs:1248-1259 | for all proposals of two views, the later one with f >= 1, and every correct member of the first there is an execution in which it decides and finalises the first, and another correct replica decides the second under the same sequence number |
| Outcomes.RequestsMayDiffer | febft-pbft-consensus/src/bft/sync/mod.rs:1785-1790 | the same for any two sequences of requests, in views as the program builds them |
| Outcomes.ViewsAgreeExactly | febft-pbft-consensus/src/bft/sync/mod.rs:1785-1790 | in such views with f >= 1, correct replicas that decide under one sequence number in two views decide the same requests, in all executions, if and only if it is the same view |
| Soundness.Sound | febft-pbft-consensus/src/bft/sync/mod.rs:1965-2021 | whatever the iteration order, the search returns a bound value exactly if some view and value over the whole domain bind; more than f entries of write sets name it |
| Soundness.BindingOccurs | febft-pbft-consensus/src/bft/sync/mod.rs:1975-2005 | whatever binds is among the candidates that the search collects |
| Soundness.BindsMeans | febft-pbft-consensus/src/bft/sync/mod.rs:2023-2162 | a pair binds if and only if there are at least 2f + 1 collects, one of them shows it, at least 2f + 1 show an earlier view or exactly it, and more than f entries of write sets name its value in its view or later |
| Soundness.UnboundMeans | febft-pbft-consensus/src/bft/sync/mod.rs:2046-2079 | collects are unbound if and only if at least 2f + 1 of them show no quorum of prepares above view zero |
| Soundness.ForgedValueNotBound | febft-pbft-consensus/src/bft/sync/mod.rs:2138-2162 | a value that at most f entries name is never bound |
| Soundness.FewSendersDoNotBind | febft-pbft-consensus/src/bft/sync/mod.rs:2138-2162 | nor one that at most f senders name, once each |
| Soundness.BindsExactly | febft-pbft-consensus/src/bft/sync/mod.rs:2023-2162 | a quorum of collects binds a value exactly if all are prepared, none later and none for another value in that view, and more than f entries name it |
| Soundness.UnboundExactly | febft-pbft-consensus/src/bft/sync/mod.rs:2046-2079 | a quorum of collects is unbound exactly if none is prepared for a view above zero |
| Soundness.BindingUnique | febft-pbft-consensus/src/bft/sync/mod.rs:2093-2136 | with exactly a quorum of collects at most one view and value bind |
| Soundness.VerdictUnique | febft-pbft-consensus/src/bft/sync/mod.rs:1965-2021 | with at most a quorum of collects the verdict is unique |
| Soundness.BindingExcludesUnbound | febft-pbft-consensus/src/bft/sync/mod.rs:2046-2079 | with at most a quorum of collects, a binding above view zero excludes `unbound` |
| Soundness.ContestedVerdicts | febft-pbft-consensus/src/bft/sync/mod.rs:2010-2018 | for every larger number of collects there are some that justify two different bound values |
| Soundness.SearchOrderFreeExactly | febft-pbft-consensus/src/bft/sync/mod.rs:1965-2162 | the verdict is free of the search order, and bindings above zero exclude `unbound`, if and only if there are no more collects than a quorum |
| Soundness.PreparedCollectCertifies | febft-pbft-consensus/src/bft/sync/mod.rs:2138-2162 | one correct collect that shows a quorum of prepares certifies their value by itself |
| Soundness.HighestPreparedIsBound | febft-pbft-consensus/src/bft/sync/mod.rs:1965-2162 | if one correct collect of a quorum is prepared and all others are prepared for earlier views or the same value, the search returns that value |
| Soundness.DecidedValueMayGoUnbound | febft-pbft-consensus/src/bft/sync/mod.rs:2093-2136 | among any quorum of collects that includes the report of a committed or decided instance, one collect without a quorum of prepares leaves every verdict unbound; above view zero it is not even counted as unbound |
| Soundness.DecidedValueBoundExactly | febft-pbft-consensus/src/bft/sync/mod.rs:2093-2136 | unless a collect claims a later view or another value, the decided value is the verdict if and only if every collect of the quorum shows a quorum of prepares |
| ViewChanges.ProcessKeeps | febft-pbft-consensus/src/bft/sync/mod.rs:725-1459 | every message in every phase keeps the invariant: senders are on record only while STOPs are counted, nobody sits on more than f STOPs without its own nor on a quorum without leaving (for f = 0 one message later), and a next view is chosen before leaving |
| ViewChanges.NoticesQuorumExactly | febft-pbft-consensus/src/bft/sync/mod.rs:880-930 | whatever message of another member is processed, a replica does not sit on a quorum of STOPs without leaving: if and only if f >= 1 or there is no other member |
| ViewChanges.AmplifiesWithoutLeaving | febft-pbft-consensus/src/bft/sync/mod.rs:880-892 | with f = 0, from the start, one STOP of another member that arrives and is polled leaves a quorum on record, the own STOP sent and the view not left |
| ViewChanges.PollKeeps | febft-pbft-consensus/src/bft/sync/mod.rs:673-720 | polling keeps the invariant |
| ViewChanges.TriggerKeeps | febft-pbft-consensus/src/bft/sync/mod.rs:1605-1734 | local triggers keep the invariant |
| ChangeRouting.QueueRoutes | febft-pbft-consensus/src/bft/sync/mod.rs:640-720 | filing appends a view-change message in the place of its kind and view, unless that view has begun |
| ChangeRouting.ProcessRoutes | febft-pbft-consensus/src/bft/sync/mod.rs:725-1459 | in every phase, a message is kept in its place if and only if its view has not begun, the phase does not deal with it on the spot, and it is not a STOP-DATA for others; nothing else that waits is touched |
| ChangeRouting.PollRoutes | febft-pbft-consensus/src/bft/sync/mod.rs:674-720 | polling takes exactly the oldest message for the next view from the line that the phase reads, and finds none only if there is none or nobody signalled |
| ChangeRouting.PollBegins | febft-pbft-consensus/src/bft/sync/mod.rs:678-697 | at rest, the message polled decides whether STOPs or join votes are counted |
| ChangeRouting.EnterRoutes | febft-pbft-consensus/src/bft/sync/mod.rs:640-644 | entering a view forgets exactly what waited for it |
| ChangeRouting.StaysQueued | febft-pbft-consensus/src/bft/sync/mod.rs:674-1459 | in every execution, what waits goes on waiting until it is polled or its view has begun |
| ChangeRouting.EarlyMessagesAreFound | febft-pbft-consensus/src/bft/sync/mod.rs:674-1459 | in every execution, an early STOP, join vote, STOP-DATA or SYNC has been polled by the time that its line is found empty in the view before its own |
| Completions.RunsStaySettled | febft-pbft-consensus/src/bft/sync/mod.rs:1040-1090 | in every execution, a node is being admitted only while the replica leaves its view, and the next view has one more member exactly then |
| Completions.EndsExactly | febft-pbft-consensus/src/bft/sync/mod.rs:1092-1459 | a view change ends exactly with the SYNC of the next leader or the last collect of a quorum: in the next view, in waiting for state, or not at all, as the verdict says |
| Completions.ReportsMembersExactly | febft-pbft-consensus/src/bft/sync/mod.rs:1840-1856 | a view is reported as installed if and only if it has as many members as the last, as joined if and only if it has one more; only then are the votes forgotten |
| Completions.StopsReportExactly | febft-pbft-consensus/src/bft/sync/mod.rs:794-938 | while STOPs are counted, a view change is reported as running if and only if more than f are on record, the replica is leaving, or its own is out and another one counts |
| Completions.RoundReportsExactly | febft-pbft-consensus/src/bft/sync/mod.rs:940-1090 | in a round of join votes nothing is reported if and only if at most f were counted and the message is no STOP or vote for the next view |
| Completions.StopEndsRoundExactly | febft-pbft-consensus/src/bft/sync/mod.rs:958-975 | a round of join votes gives way to STOPs if and only if a STOP for the next view comes |
| Completions.TimeOutAsksExactly | febft-pbft-consensus/src/bft/sync/mod.rs:1665-1740 | a timeout sends the own STOP if and only if it is not out yet and the view is not being left; from rest or from waiting for state nothing stays on record, otherwise all does |
| Completions.ToldRoundReportsTop | febft-pbft-consensus/src/bft/sync/mod.rs:1492-1549 | being told to admit a node begins a round exactly for a new node and at rest, and whatever follows, that round reports the node it adds |
| Completions.AnswersExactly | febft-pbft-consensus/src/bft/sync/mod.rs:1492-1549 | the answer names a change of members if and only if the next view has one more member, and which node it is |
| Synchronizers.TopVoted | febft-pbft-consensus/src/bft/sync/mod.rs:1027-1037 | finds the node that sorting by votes puts first |
| Synchronizers.Synchronizer.constructor | febft-pbft-consensus/src/bft/sync/mod.rs:598-623 | a new synchronizer is at its start |
| Synchronizers.Synchronizer.QueueChange | febft-pbft-consensus/src/bft/sync/mod.rs:282-340 | files a message by kind and view, or drops it if it is old |
| Synchronizers.Synchronizer.Poll | febft-pbft-consensus/src/bft/sync/mod.rs:673-720 | hands out the oldest message for the next view that the phase awaits |
| Synchronizers.Synchronizer.BeginViewChange | febft-pbft-consensus/src/bft/sync/mod.rs:1667-1734 | keeps the STOP counter equal to the number of distinct senders, and sends a STOP exactly if none was sent |
| Synchronizers.Synchronizer.ClientRequestsTimedOut | febft-pbft-consensus/src/bft/mod.rs:184-223 | a local timeout does what the model says in each phase |
| Synchronizers.Synchronizer.StartJoinQuorum | febft-pbft-consensus/src/bft/sync/mod.rs:1492-1549 | starts a round of join votes exactly for a new node and an idle synchronizer, and tells the reasons for refusing apart |
| Synchronizers.Synchronizer.HandleStoppingQuorum | febft-pbft-consensus/src/bft/sync/replica_sync/mod.rs:64-112 | forgets who asked, chooses the next view and waits for its leader |
| Synchronizers.Synchronizer.ProcessStop | febft-pbft-consensus/src/bft/sync/mod.rs:794-938 | counting refines the record of distinct senders: own STOP above f, next view at a quorum |
| Synchronizers.Synchronizer.ProcessViewStop | febft-pbft-consensus/src/bft/sync/mod.rs:940-1091 | counting join votes refines the model; a STOP takes precedence |
| Synchronizers.Synchronizer.ProcessStopData | febft-pbft-consensus/src/bft/sync/mod.rs:1092-1330 | the leader gathers a quorum of collects, one per sender |
| Synchronizers.Synchronizer.ProcessSync | febft-pbft-consensus/src/bft/sync/mod.rs:1332-1455 | only the next leader's SYNC for the next view is taken |
| Synchronizers.Synchronizer.FinalizeViewChange | febft-pbft-consensus/src/bft/sync/mod.rs:1774-1856 | the three outcomes of a view change; a commit advances view and queues together |
| Synchronizers.Synchronizer.ProcessMessage | febft-pbft-consensus/src/bft/sync/mod.rs:725-1459 | refines the value model in every phase |
| StopSafety.StopsCaused | febft-pbft-consensus/src/bft/sync/mod.rs:880-892 | more STOPs than faults include a correct replica's, which had a timeout behind it |
| StopSafety.JoinsCaused | febft-pbft-consensus/src/bft/sync/mod.rs:1027-1043 | a quorum of join votes includes that of a correct replica that was told to admit a node |
| StopSafety.StepKeeps | febft-pbft-consensus/src/bft/sync/mod.rs:725-1734 | every step of the system keeps all requests and departures justified |
| StopSafety.NoViewChangeWithoutCause | febft-pbft-consensus/src/bft/sync/mod.rs:794-938 | in every execution, a correct replica asks for view k only if a correct one timed out in view k - 1, and leaves a view only for that or because a correct one was told to admit a node |
| Waiting.LeavesSyncingOnlyBySync | febft-pbft-consensus/src/bft/sync/mod.rs:1332-1440 | in every execution, a replica leaves the phase in which it waits for the next leader only in a step that processes the SYNC of that leader |
| Waiting.WaitsForItsLeader | febft-pbft-consensus/src/bft/sync/mod.rs:1704-1709 | as long as that SYNC was not sent, the replica goes on waiting in the same view, whatever timeouts and STOPs there are |
| Waiting.CollectsOnlyFresh | febft-pbft-consensus/src/bft/sync/mod.rs:1125-1165 | in every execution, a leader that collects has not moved as long as nobody new sent a STOP-DATA for its view |
| Collecting.GathersExactly | febft-pbft-consensus/src/bft/sync/mod.rs:1125-1190 | a leader that begins to collect can gather a quorum from members if and only if a quorum of them is not on record from before |
| CollectScenarios.LeaderGetsStuck | febft-pbft-consensus/src/bft/sync/mod.rs:1682-1720 | for every correct replica that is to lead the second view there is an execution, through as many view changes as there are members, in which it is to lead again and no messages of members let it gather a quorum |
| JoinVotes.TakesJoin | febft-pbft-consensus/src/bft/sync/mod.rs:940-1091 | a step of a round is what processing the message does to the synchronizer |
| JoinVotes.TidyStep | febft-pbft-consensus/src/bft/sync/mod.rs:1006-1054 | a vote in a tidy round keeps it tidy, or completes it with the node of the message on top, reported, added, and with exactly a quorum of voters |
| JoinVotes.CleanRoundReportsTop | febft-pbft-consensus/src/bft/sync/mod.rs:988-1054 | a round without earlier votes reports the node it adds, which has exactly a quorum of distinct voters, however many messages are repeated |
| JoinVotes.JoinReportsTopExactly | febft-pbft-consensus/src/bft/sync/mod.rs:988-1054 | whatever votes of members follow, the reported node is the added one if and only if nobody has more voters than messages counted, nor a quorum |
| JoinVotes.UnfinishedExactly | febft-pbft-consensus/src/bft/sync/mod.rs:1077-1081 | processing reaches the unfinished branch if and only if it counts, in a round, as many messages as there are members while no node has a quorum of voters |
| JoinVotes.OneVoterReachesUnfinishedExactly | febft-pbft-consensus/src/bft/sync/mod.rs:1006-1081 | in a round without votes, one member repeating one vote reaches that branch if and only if f >= 1 |
| JoinScenarios.LeftOverVotesMisreport | febft-pbft-consensus/src/bft/sync/mod.rs:940-1054 | in every view over the first identifiers with f >= 1 and a faulty member, and for any two nodes, there is an execution of the whole system, through join votes, timeouts, a quorum of STOPs, a SYNC and more join votes, at whose end a correct replica receives the vote of a member by which it adds one node and reports the other |
| Proofs.Proof.constructor | febft-pbft-consensus/src/bft/log/decisions/mod.rs:122-134 | holds what it is given |
| Proofs.Proof.ArePrePreparesOrdered | febft-pbft-consensus/src/bft/log/decisions/mod.rs:201-226 | true exactly if the digests are in the order of the metadata; an error exactly if the counts differ |
| Proofs.Proof.OrderPrePrepares | febft-pbft-consensus/src/bft/log/decisions/mod.rs:229-257 | when sizes match, succeeds if and only if digests and ordering agree as multisets, and then leaves an ordered permutation |
| Proofs.Proof.IntoParts | febft-pbft-consensus/src/bft/log/decisions/mod.rs:259-276 | lists pre-prepares, prepares and commits |
| Proofs.InitFromMessages | febft-pbft-consensus/src/bft/log/decisions/mod.rs:136-179 | succeeds exactly if every pre-prepare is known and every place taken, with the last pre-prepare for each place, and fails with the right error |
| Proofs.PartsAreShuffled | febft-pbft-consensus/src/bft/log/decisions/mod.rs:259-276 | the parts are one of the shuffles that keep prepares and commits in sequence |
| Proofs.OrderUnique | febft-pbft-consensus/src/bft/log/decisions/mod.rs:229-257 | with distinct digests there is one ordered arrangement |
| Proofs.RestoredInOrder | febft-pbft-consensus/src/bft/log/decisions/mod.rs:136-179 | with distinct digests, any such shuffle of a proof's parts is restored to the ordered proof |
| DecidedLog.OrderedPermutes | febft-pbft-consensus/src/bft/log/deciding/mod.rs:126-136 | the ordered proposals are a permutation of those that arrived |
| DecidedLog.CatchingUpEqualsDeciding | febft-pbft-consensus/src/bft/log/mod.rs:74-180 | the proof of a decided instance passes the order check, and rebuilding from it gives the same number, digest and requests as finalising, and the same infos as a multiset |
| DecidedLog.ProofCertifies | febft-pbft-consensus/src/bft/log/mod.rs:74-98 | the proof recorded for a decided instance lists the proposals of all leaders in order and the number of their requests, and holds a quorum of prepares and a quorum of commits, each from different senders, for the digest of exactly that list, in that view and under that number |
| DecidedLog.Log.FinalizeBatch | febft-pbft-consensus/src/bft/log/mod.rs:74-112 | records the proof, with the pre-prepares, prepares and commits of the batch, and hands the batch to execution |
| DecidedLog.Log.Rebuild | febft-pbft-consensus/src/bft/log/mod.rs:142-180 | gathers the requests in the order of the pre-prepares, with infos that describe them, and panics exactly if they are out of order or not pre-prepares |
| DecidedLog.Log.InstallProof | febft-pbft-consensus/src/bft/log/mod.rs:43-72 | records exactly the proof after the last, refuses older and later ones with their errors, does not record into an empty log, and panics exactly where rebuilding does |
| OrderProtocols.PrefixAfterNext | febft-pbft-consensus/src/bft/consensus/mod.rs:489-509 | retiring a decided instance shortens the decided prefix by exactly one |
| OrderProtocols.OrderProtocol.FinalizeAllPossible | febft-pbft-consensus/src/bft/mod.rs:712-728 | terminates after exactly the decided prefix, hands out its batches under consecutive numbers, and records the last proof, which certifies that decision |
| Proposers.LargestCovers | febft-pbft-consensus/src/bft/consensus/mod.rs:1039-1057 | an entry covers a number exactly if some request of that session in the SYNC reaches it |
| Proposers.AfterIs | febft-pbft-consensus/src/bft/proposer/mod.rs:526-574 | an entry is still there exactly if no request passed it |
| Proposers.EmptyExactly | febft-pbft-consensus/src/bft/proposer/mod.rs:464-497 | the filter is used up if and only if every pair of the SYNC was passed |
| Proposers.StatelessExactly | febft-pbft-consensus/src/bft/proposer/mod.rs:526-574 | the self-pruning filter equals the stateless one if and only if no session falls back behind its SYNC after passing it |
| Proposers.OrderedSessionsFilteredExactly | febft-pbft-consensus/src/bft/proposer/mod.rs:464-489 | if sessions arrive in order, a request is dropped exactly if the SYNC covers it |
| Proposers.SyncedRequestsAreDropped | febft-pbft-consensus/src/bft/proposer/mod.rs:464-489 | once a view change proposed a batch, a request that arrives in the order of its session is dropped if and only if the batch has one of its client and session with the same or a larger number; so every request of the batch is |
| Proposers.AfterConcat | febft-pbft-consensus/src/bft/proposer/mod.rs:446-497 | filtering batch by batch is filtering the whole stream |
| Proposers.NestedEmpty | febft-pbft-consensus/src/bft/proposer/mod.rs:536-565 | with no empty inner maps, the outer map is empty exactly if nothing is left |
| Proposers.ViewChangeFilter.InstallSyncMessageRequests | febft-pbft-consensus/src/bft/consensus/mod.rs:1039-1066 | the nested maps hold the largest number of each session |
| Proposers.ViewChangeFilter.SyncMessagesClear | febft-pbft-consensus/src/bft/consensus/mod.rs:1069-1076 | nothing is filtered any more |
| Proposers.ViewChangeFilter.CheckIfHasBeenProposed | febft-pbft-consensus/src/bft/proposer/mod.rs:526-574 | drops and prunes as the flat filter does, and never leaves an inner map empty |
| Proposers.ViewChangeFilter.Retain | febft-pbft-consensus/src/bft/proposer/mod.rs:455-497 | keeps what the flat filter keeps, and is cleared once used up |
| Proposers.ProposeBuilder.TakeBatch | febft-pbft-consensus/src/bft/proposer/mod.rs:411-429 | what remains followed by the batch is what there was; the batch has at most the maximum size |
| Proposers.OldestFirstExactly | febft-pbft-consensus/src/bft/proposer/mod.rs:411-429 | the batch is the oldest part if and only if everything fits, or nothing may be sent |
| Proposers.CutDefeatsFilter | febft-pbft-consensus/src/bft/proposer/mod.rs:411-429 | two requests of one session that arrive in order leave in reverse, and the first, already proposed, is proposed again |
| StateTransfers.TallyKeeps | febft-state-transfer/src/lib.rs:692-728 | each entry holds the largest number reported with its digest and the count of exactly that pair |
| StateTransfers.OnlyLastDecides | febft-state-transfer/src/lib.rs:760-790 | only the entry of the current reply can reach a quorum, so that the order of the table does not matter |
| StateTransfers.AnnouncesExactly | febft-state-transfer/src/lib.rs:760-796 | what the table decides is what the replies of the round announce |
| StateTransfers.TallyStateKeeps | febft-state-transfer/src/lib.rs:821-852 | each entry counts the replies with its digest and holds the newest state among them |
| StateTransfers.MoreThanFExactly | febft-state-transfer/src/lib.rs:860-915 | of f + 1 replies some digest has more than f if and only if all agree |
| StateTransfers.CollabStateTransfer.RequestLatestConsensusSeqNo | febft-state-transfer/src/lib.rs:1017-1053 | starts a round of numbers with a new query number and an empty table |
| StateTransfers.CollabStateTransfer.RequestLatestState | febft-state-transfer/src/lib.rs:1056-1093 | starts a round of states with a new query number and an empty table |
| StateTransfers.CollabStateTransfer.ProcessCidReply | febft-state-transfer/src/lib.rs:658-796 | announces a number exactly when the pair of this reply, the largest for its digest, reaches a quorum, or zero when a quorum of replies is all blank |
| StateTransfers.CollabStateTransfer.ProcessStateReply | febft-state-transfer/src/lib.rs:797-915 | hands over a state, none of the replies being newer, exactly when the first f + 1 replies of the round share a digest, and else starts a new round |

## Left out

- Agreement across views: a new leader always proposes pending requests and the verdict of `sound` is discarded, so the code does not carry a bound value over; `ViewsMayDisagree` shows what follows.
- When a view may be entered: in `Systems` any correct replica may enter any later view at any time, and any proposal may be made in it; the executions of `Outcomes` rest on that. `StopSafety` has the conditions for leaving a view.
- Networking, signatures and wire headers: an ideal digest and the origin of messages stand for them.
- Recovery through `received_view_from_state_transfer`, `resume_view_change` and `is_catching_up`: they reset phases and depend on a driver outside the repository.
- `attempt_join_quorum`, by which a joining node prepares itself: the replicas modelled are members.
- The proposer's thread, its timing and its locks, the choice of the moment to propose: only the filter, the batch cut and the sequence numbers on offer are modelled.
- The thread pool that signs commits ahead of time: it is one send of a commit at the quorum of prepares.
- Timeouts and their scheduling, persistence, serialisation, metrics, observers and followers.
- `highest_proof` and `pre_finalize`: whether a view change commits, waits or needs state transfer is an input of the synchronizer.
- Requests carried by STOP messages, and the pre-processor they are handed to.
- The side of state transfer that serves checkpoints to others, and the comparison with the local checkpoint.
- `merge_decisions`, which only joins reports with equal sequence numbers.
- `catch_up_to_quorum` as one operation: in the system it is a jump with a certified proof, followed by the new view, which restarts the whole window anyway.
- Wrap-around of 32-bit sequence numbers.
- ConsensusHandler.Consensus.ProcessMessage: the window holds instances as values and applies the functions that the object `ConsensusDecision` is proved to compute; objects inside the deque, and aliasing between them, are not captured.
- ConsensusHandler.Consensus.FinalizeViewChange: does not model entering the current view again while its front instance has accepted something; the source then keeps a filled log under a counter of zero (`SkipInitPhase` says so), and what follows is not modelled.
- Synchronizers.Synchronizer.BeginViewChange: without a local timeout it is called from `Stopping` only, as in the source; the branches for other phases are unreachable and left out.
- Synchronizers.Synchronizer.StartJoinQuorum: being told to admit oneself, which the source marks unreachable, is treated like any other node.
- Synchronizers.Synchronizer.ProcessStopData: does not compute the verdict on the collects, which is an input, as it is of ProcessSync and FinalizeViewChange; `Soundness` treats the search by itself.
- Synchronizers.Synchronizer.ProcessMessage: requires a phase other than waiting for state transfer, which the source marks unreachable.
- StateTransfers.CollabStateTransfer.ProcessCidReply: counts replies, not senders, as the source does; quorum and f are fixed for the object, as they are during a round.
- Visibility.DecidedValueVisible: with f = 0 it takes replicas that have nothing decided at the front when they hand in their collects. The driver finalises in the call that decides; only the jump of `install_seq_no`, which needs somebody else's state, can leave a decided instance at the front. When the collect carries a proof of the instance, its digest is the decided one if the proof is of the same view; a proof of another view may be of another value, as `ViewsMayDisagree` shows.
- JoinVotes.JoinReportsTopExactly: a round may go on after the point where the source has an unfinished branch; `UnfinishedExactly` says when that point is reached.
- When correct replicas send STOP-DATA and SYNC: `StopSafety` leaves it open, and the executions of `StopScenarios` let members send them when they are needed.
- CollectScenarios.LeaderGetsStuck: does not cover deployments in which two quorums fit side by side into the members, which with f >= 1 are those of six.
- Conservation.QuorumHeardDecides: is about runs in which each leader makes one proposal and no jump loses messages; with two proposals of a leader the votes may be for another batch, and `JumpConservesExactly` has the jumps that lose messages.
- SystemInvariants.NoPanic: covers the operations on the window only; the synchronizer can panic, as `UnfinishedExactly` says.
