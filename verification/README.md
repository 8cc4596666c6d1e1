# Verified models of the video processing platform

This project models the protocols that keep the platform's deployments, workers and
channel operations consistent, and proves what they promise over every run.

- **Worker admission journal** (`Admission*.dfy`): the durable document of a deployment
  transaction with its 18 phases. A command is an updater followed by the validator and a
  compare-and-swap on the revision; a run is any sequence of submissions, accepted or
  refused. Proved: phase and outcome safety, write-once records and replays, records that
  hold only what was submitted and what the engine showed, announced
  operations that can always be completed, aborts that drain in order and can always be
  finished unless a retirement was queued, forwards, rollbacks and retirements that can be
  carried to their end, and a registered job pipeline whose services are
  created once and in order although processes may die between the journal and the engine.
  `AdmissionFile` holds the in-place form, `AdmissionChecks` the validator's passes.
- **Control crontab** (`ControlCrontab.dfy`): extraction of foreign text around two framed
  blocks, and the move of one block to the end.
- **Leader epochs and execution fences** (`LeaderAuthority`, `LeaderProtocol`,
  `QueueAuthority`, `ExecutionFence`, `FenceSafety`, `FenceProgress`, `FenceRelease`):
  processes, sessions, row locks and transactions as interleaved steps.
- **Acknowledgement drill and its evidence** (`Drill*.dfy`): any number of helpers on one
  directory, the journal check, and the agreement between the two in both directions.
- **Worker events and task affinity** (`EventEmission`, `EventProgress`, `EventFences`,
  `TaskAffinity`): exactly-once append and acknowledgement after the event; when a prepared event can still be
  sent and when it is stranded; bounces that lose no task.
- **Smaller algorithms**: `Retention`, `MetricSchedules`, `PolicyPreflight`,
  `SentenceSplitter`, `IntegerLiterals`.

Names, images, digests and UUIDs are values compared for equality, clocks are integers, and
docker, the database and the network appear as steps that succeed, fail or are cut short.
`dafny verify dfyconfig.toml` checks everything.

Where the code decides more than its documentation, the code is followed:

- A rollback may be recorded as a success and a success as a rollback, because an explicit
  outcome may be given on the way into retirement; the exact conditions are
  `SuccessFromRollback` and `RollbackFromSuccess`, and `RollbackAsSuccessIsReachable` and
  `SuccessAsRollbackIsReachable` are runs that do it.
- An abort with a queued retirement never ends (`RetirementBlocksAbort`), because
  retirements are completed only while retiring; without one it always can (`AbortDrains`).
  `BlockedAbortIsReachable` is a run to such an abort.
- A legacy transaction with its four workers planned refuses every abort while it is still
  preparing (`PreparingAbortsExactly`, reached in `UnabortableIsReachable`).
- The attempt of a prepared rollback may be refused, because the control plane it reuses
  claims authorities of the forward; `AllocationAccepted` gives the exact condition and
  `RefusedAllocationIsReachable` a run.
- A prepared worker event is not always sent: the reconciler works for its own lease only, so
  a row whose lease was superseded before its event reached the stream is never sent
  (`CanLeaveExactly`, reached in `StrandingIsReachable`).
- A finished drill is not always evidence: besides the arming identity, the video id and the
  clocks, the nil UUID as operation or Manager id is written by the drill and refused by the
  check (`Agreement` gives the exact condition, `FinishedIsNotAlwaysEvidence` a drill).
- The text `-0` is accepted as an integer and is the only accepted text that does not print
  back (`PrintsBack`).

## Model

| member | source | states |
|---|---|---|
| `AdmissionInvariant.BeginKeeps` | deploy/swarm/worker-admission-transaction.py:2559-2702 | the document of a new transaction satisfies the journal invariant |
| `AdmissionInvariant.UpdateKeeps` | deploy/swarm/worker-admission-transaction.py:3191-3226 | every updater whose result the validator accepts keeps the invariant: validity, a settled pipeline outside forward applying, no live vision job at the end, nothing revoked while a prepared secret remains, at most one rollback attempt under the allocated names, no retirement while preparing and no rollback control plane before a rollback |
| `AdmissionInvariant.RunKeeps` | deploy/swarm/worker-admission-transaction.py:3191-3226 | the invariant holds after any sequence of accepted and refused submissions |
| `AdmissionInvariant.PhaseSettles` | deploy/swarm/worker-admission-transaction.py:3077-3188 | every phase change leaves the pipeline clean outside forward applying and passing the success gate in the verified and promoted forward phases |
| `AdmissionInvariant.OperationRevokesLast` | deploy/swarm/worker-admission-transaction.py:3566-3616 | abort commands revoke authorities only once no prepared secret is left |
| `AdmissionInvariant.PlanAllocates` | deploy/swarm/worker-admission-transaction.py:3961-3991 | plan commands never allocate a second rollback attempt and never change the allocated names |
| `AdmissionPhases.SetPhaseKeepsFlags` | deploy/swarm/worker-admission-transaction.py:3077-3188 | a phase change leaves the three promotion flags equal to the phase table before any validation |
| `AdmissionPhases.ResumeKeepsFlags` | deploy/swarm/worker-admission-transaction.py:3353-3381 | the legacy resume leads from rollback preparing to forward applying and keeps the flags on the table |
| `AdmissionPhases.TransitionsAre` | deploy/swarm/worker-admission-transaction.py:100-153 | a change of phase is legal exactly when it is the next step on the way of a forward, a rollback or a restored candidate, or leaves one for an abort, a rollback or a restore where that is allowed |
| `AdmissionPhases.PromotionIsFinal` | deploy/swarm/worker-admission-transaction.py:100-153 | over any run a promoted phase is followed only by later phases of its own direction, retirement and the end: no abort, rollback preparation, restore or change of direction |
| `AdmissionPhases.DoneIsFinal` | deploy/swarm/worker-admission-transaction.py:3077-3188 | once the phase is done, no run changes the document again |
| `AdmissionPhases.OutcomeMeans` | deploy/swarm/worker-admission-transaction.py:1995-2071 | after any run from the beginning: success means all forward workers verified; rolled back means a captured failure, one allocated attempt and all rollback workers verified; every end has its jobs removed and its pipeline clean; an abort has promoted nothing |
| `AdmissionPhases.SuccessFromRollback` | deploy/swarm/worker-admission-transaction.py:3151-3160 | from the end of a rollback the explicit outcome succeeded is accepted exactly when all forward workers are verified; without an outcome rolled back is recorded |
| `AdmissionPhases.RollbackFromSuccess` | deploy/swarm/worker-admission-transaction.py:3151-3160 | from the end of a forward promotion the explicit outcome rolled back is accepted exactly when a failure was captured, an attempt allocated and its workers verified; without an outcome succeeded is recorded |
| `AdmissionIntents.PendingFrozen` | deploy/swarm/worker-admission-transaction.py:6395-6447 | whatever is written while an operation is pending either completes it or leaves the operation and the phase as they were |
| `AdmissionIntents.PromotionCompletes` | deploy/swarm/worker-admission-transaction.py:6425-6447 | completing a pending promotion is accepted by updater and validator and gives the promoted document |
| `AdmissionIntents.IntentEqualsTransition` | deploy/swarm/worker-admission-transaction.py:6395-6447 | announcing and completing a promotion gives the same document as the direct transition |
| `AdmissionIntents.RemovalCompletes` | deploy/swarm/worker-admission-transaction.py:3522-3563 | completing a pending secret removal is accepted and takes out exactly the announced secret |
| `AdmissionIntents.IntentIsNeverStuck` | deploy/swarm/worker-admission-transaction.py:6395-6447 | after any submissions other than its completion an accepted operation is still pending in the same phase and completing it succeeds |
| `AdmissionAbort.AbortOrder` | deploy/swarm/worker-admission-transaction.py:2121-2137 | in every reachable aborting journal the abort queue is the unrevoked authorities in order, nothing is revoked while a prepared secret remains, nothing is promoted and the pipeline is clean |
| `AdmissionAbort.RemainingAfterRevoke` | deploy/swarm/worker-admission-transaction.py:3598-3616 | revoking one authority removes exactly that one from the remaining queue, order kept |
| `AdmissionAbort.OperationLowers` | deploy/swarm/worker-admission-transaction.py:3486-3616 | every accepted abort operation strictly lowers the work left |
| `AdmissionAbort.RetirementBlocksAbort` | deploy/swarm/worker-admission-transaction.py:6336-6362 | an aborting journal with a queued retirement stays aborting in every run |
| `AdmissionStart.AbortStartsWhen` | deploy/swarm/worker-admission-transaction.py:3384-3449 | an abort starts exactly: for a legacy candidate when it is eligible and the pipeline clean; otherwise while preparing, or while applying with no operation pending, a clean pipeline, no janitor and no worker applied |
| `AdmissionStart.PreparingAbortsExactly` | deploy/swarm/worker-admission-transaction.py:3391-3421 | while preparing some progress file lets an abort start exactly when the legacy check does not apply, because its eligibility asks for a later phase |
| `AdmissionStart.BeginAbortAccepted` | deploy/swarm/worker-admission-transaction.py:3384-3449 | whatever the checks of an abort let through the validator accepts |
| `AdmissionStart.AbortRunsToTheEnd` | deploy/swarm/worker-admission-transaction.py:3384-3449 | an abort that starts without a queued retirement can be run to a cleanly aborted end |
| `AdmissionStart.PreparingCanBeAborted` | deploy/swarm/worker-admission-transaction.py:3384-3449 | where an abort starts while preparing, the transaction can be aborted completely |
| `AdmissionRuns.UnabortableIsReachable` | deploy/swarm/worker-admission-transaction.py:3391-3409 | from the beginning of any legacy transaction: with its four workers planned and still preparing it refuses every abort |
| `AdmissionRuns.BlockedAbortIsReachable` | deploy/swarm/worker-admission-transaction.py:6336-6392 | from the beginning of any transaction: aborted and given a retirement it stays aborting whatever is submitted |
| `AdmissionStart.ResumeAccepted` | deploy/swarm/worker-admission-transaction.py:3353-3381 | an eligible legacy candidate is resumed: the validator never refuses it |
| `AdmissionRetire.RetirementUpdates` | deploy/swarm/worker-admission-transaction.py:6365-6392 | completing a retirement takes out exactly the one with that id |
| `AdmissionRetire.StageStep` | deploy/swarm/worker-admission-transaction.py:4415-4494 | a live vision job can be driven one stage on while retiring, whatever its state |
| `AdmissionRetire.RetiringCanFinish` | deploy/swarm/worker-admission-transaction.py:3077-3188 | every retiring journal can be finished with the outcome it recorded, in one submission for each stage of a live vision job, each queued retirement and the end, with service ids of the shape a recording asks for |
| `AdmissionFinish.PromotesAll` | deploy/swarm/worker-admission-transaction.py:3127-3150 | from a verified plan every promotion is accepted, pending or not, up to the control plane |
| `AdmissionFinish.VerifiedCanFinish` | deploy/swarm/worker-admission-transaction.py:3077-3188 | every journal from a verified plan on can be finished: a forward with success, a rollback as rolled back |
| `AdmissionRollback.AllocationAccepted` | deploy/swarm/worker-admission-transaction.py:3961-3991 | the attempt is accepted exactly when the baseline's control plane is not reused, or no two authorities it claims serve one service and every prepared secret of a claimed authority has the rollback's name |
| `AdmissionRollback.ClaimedSecret` | deploy/swarm/worker-admission-transaction.py:813-857 | the secret of a claimed authority counts as the rollback's exactly under the rollback's name for it |
| `AdmissionRefused.RefusedAllocationIsReachable` | deploy/swarm/worker-admission-transaction.py:772-812 | from the beginning of any transaction: a prepared rollback whose attempt is refused, because two authorities of one service are claimed |
| `AdmissionRollback.Provisions` | deploy/swarm/worker-admission-transaction.py:2952-2975 | every authority a rollback claims can be provisioned while it is prepared |
| `AdmissionRollbackRun.RollbackVerifies` | deploy/swarm/worker-admission-transaction.py:4175-4274 | a rollback worker can be verified from any stage, its plan unchanged |
| `AdmissionRollbackRun.RollbackCanFinish` | deploy/swarm/worker-admission-transaction.py:3077-3188 | every rollback that is prepared or applied can be finished as rolled back, unless its attempt is yet to be allocated and refused |
| `AdmissionRuns.RollbackAsSuccessIsReachable` | deploy/swarm/worker-admission-transaction.py:3151-3160 | from the beginning of any transaction: the failure captured, the one attempt allocated and verified, and the outcome success |
| `AdmissionSuccess.SuccessAsRollbackIsReachable` | deploy/swarm/worker-admission-transaction.py:3151-3160 | from the beginning of any transaction: the forward carried through and promoted, and the outcome rolled back |
| `AdmissionDrain.AbortNeverRegresses` | deploy/swarm/worker-admission-transaction.py:3384-3637 | while aborting no accepted command raises the work left; operations, job removals and the end strictly lower it |
| `AdmissionDrain.DrainStep` | deploy/swarm/worker-admission-transaction.py:3486-3637 | in every aborting journal without queued retirements some abort command is accepted and lowers the work left |
| `AdmissionDrain.AbortDrains` | deploy/swarm/worker-admission-transaction.py:3384-3637 | every abort without queued retirements can be driven to done and aborted in at most as many submissions as work is left, with everything revoked and removed and nothing promoted |
| `AdmissionDrain.RemainingIsSublist` | deploy/swarm/worker-admission-transaction.py:2131-2137 | the remaining authorities appear in the order of the document |
| `AdmissionWriteOnce.UpdateLater` | deploy/swarm/worker-admission-transaction.py:3873-4031 | one accepted command keeps every captured baseline and failure, selection, allocation and runtime secret, every planned worker and its ids once set, and lowers no worker stage, authority state or vision job state |
| `AdmissionWriteOnce.RunLater` | deploy/swarm/worker-admission-transaction.py:4120-4274 | the same over any run: identities once set never change and the states of workers, authorities and vision jobs only rise |
| `AdmissionWriteOnce.ReplayPlan` | deploy/swarm/worker-admission-transaction.py:4120-4172 | recording the plan of a recorded worker again is accepted without change where plans are open and refused elsewhere |
| `AdmissionWriteOnce.ReplayStage` | deploy/swarm/worker-admission-transaction.py:4175-4274 | advancing a worker to a stage it has reached, with the same ids, is accepted without change where plans are open and refused elsewhere |
| `AdmissionWriteOnce.ReplayIsNoOp` | deploy/swarm/worker-admission-transaction.py:3873-4274 | an accepted capture, allocation, selection, worker plan or stage command submitted again after any run returns the journal unchanged, revision included, exactly where such commands are open |
| `AdmissionNamespace.NamespaceRange` | deploy/swarm/worker-admission-transaction.py:3961-3991 | the rollback number lies in [10^17, 16^15 + 10^17) |
| `AdmissionNamespace.AllocationFits` | deploy/swarm/worker-admission-transaction.py:1911-1933 | the allocated namespace and marker always match the validator's patterns |
| `AdmissionNamespace.AllocationIdentifies` | deploy/swarm/worker-admission-transaction.py:3961-3991 | two transactions get the same rollback namespace exactly when their ids agree on the fifteen digits used |
| `AdmissionPipeline.LaunchKept` | deploy/swarm/worker-admission-transaction.py:5371-5393 | a launched stage stays launched, and a launch is consumed only by a stage not launched before |
| `AdmissionPipeline.OrderKept` | deploy/swarm/worker-admission-transaction.py:4742-4856 | a later stage exists only after the stage before it was removed with exit 0 and a result |
| `AdmissionPipeline.ExitObserved` | deploy/swarm/worker-admission-transaction.py:5474-5518 | an exit code that appears or changes is the one an observation of that stage's service reported |
| `AdmissionPipeline.TruthKept` | deploy/swarm/worker-admission-transaction.py:5474-5518 | no pipeline update records of a service anything but what the engine answered: ids, task, exit code, and a result only with exit code 0 |
| `AdmissionPipeline.EngineTruth` | deploy/swarm/worker-admission-transaction.py:5474-5518 | services created, tasked, exited and removed by the engine leave what is recorded of them true |
| `AdmissionPipeline.CreatedOnceInOrder` | deploy/swarm/worker-admission-transaction.py:5371-5595 | from the beginning of a transaction, with processes dying anywhere: each stage's service is created at most once and in order; every service id, task id, exit code and result in the record is the engine's own, and a result is kept only of a service that exited 0; a later stage exists only after the one before it really exited 0; a verified or promoted forward passes the success gate with all three services created exactly once and exited 0; and where the record is clean, as outside forward applying, no service is alive and none can still be created |
| `AdmissionProvenance.NothingIsMadeUp` | deploy/swarm/worker-admission-transaction.py:3191-3226 | from the beginning of a transaction every recorded fact was submitted by a command that was written: captures and selections are the given ones, each worker has its plan and the ids it was advanced with, each authority went through its marks, jobs exited as reported, secrets, retirements, the operation, the abort and the outcome were asked for |
| `AdmissionProvenance.ResourceStep` | deploy/swarm/worker-admission-transaction.py:2837-3022 | authorities, prepared and runtime secrets, the janitor and retirements are those their commands gave, an authority provisioned only through both its marks |
| `AdmissionProvenance.PlanStep` | deploy/swarm/worker-admission-transaction.py:3873-4274 | captures, selections, allocation, worker plans and stage advances record exactly what their command gave |
| `AdmissionProvenance.VisionStep` | deploy/swarm/worker-admission-transaction.py:4319-4531 | a vision job keeps its plan, the Redis secret of its role and the database secret of its mode, and exits only as reported or by an abort |
| `AdmissionProvenance.PreparedStep` | deploy/swarm/worker-admission-transaction.py:5521-5651 | the pins secret has the digest the finished current capture returned, and the run job its attempt and pins |
| `AdmissionAccepted.ResourceIsDone` | deploy/swarm/worker-admission-transaction.py:2837-3022 | an accepted command on authorities, secrets, the janitor or retirements has recorded what it gave, one that clears or completes has removed it |
| `AdmissionAccepted.VisionIsDone` | deploy/swarm/worker-admission-transaction.py:4319-4531 | an accepted vision command leaves the job with the plan, service, exit code or removal it reported |
| `AdmissionAccepted.AuthorityStays` | deploy/swarm/worker-admission-transaction.py:2837-2913 | a recorded authority stays recorded over every run, whatever becomes of its state |
| `AdmissionAccepted.NothingIsDropped` | deploy/swarm/worker-admission-transaction.py:4042-4100 | over any run a janitor is dropped only by clearing it by name, a retirement only by completing it and a prepared secret only by a removal |
| `AdmissionAccepted.ApplyClosesBaseline` | deploy/swarm/worker-admission-transaction.py:4742-4856 | once a worker of the forward is applied without a captured baseline no run captures one, and without a reader no run makes one |
| `AdmissionAccepted.ResumeMatchesServices` | deploy/swarm/worker-admission-transaction.py:3242-3381 | a legacy forward is resumed only past its migration, with the attempted workers exactly those applied and each of their services seen by the failure as it was applied |
| `AdmissionAccepted.LegacyAbortIsEarly` | deploy/swarm/worker-admission-transaction.py:3242-3449 | a legacy candidate is aborted only with progress of its own transaction, before any runtime worker was attempted or applied |
| `AdmissionPipeline.EndingComes` | deploy/swarm/worker-admission-transaction.py:5901-5942 | a removal starts only from a job never launched or one whose service was seen |
| `AdmissionPipeline.RemovedComes` | deploy/swarm/worker-admission-transaction.py:5943-5959 | a job is called removed only where its service was found gone |
| `AdmissionSteps.JobRuns` | deploy/swarm/worker-admission-transaction.py:5371-5518 | a planned job can be run to its end: one service created, seen to exit 0, removed, and nothing else of the document changed |
| `AdmissionForward.ForwardCanSucceed` | deploy/swarm/worker-admission-transaction.py:5371-5753 | a forward with a complete plan and an unstarted pipeline can be carried to success, each of the three services created exactly once and none left alive |
| `AdmissionSuccess.SuccessIsReachable` | deploy/swarm/worker-admission-transaction.py:2559-2702 | from the beginning of any transaction a success is reached that way |
| `AdmissionPipeline.PipelineIdentitiesKept` | deploy/swarm/worker-admission-transaction.py:5371-5518 | over any run every job keeps its attempt, service and task once set, and every secret its name and id |
| `AdmissionPipeline.ReaderOutlivesCaptures` | deploy/swarm/worker-admission-transaction.py:5764-5806 | over any run the read credential is removed only after both capture jobs are gone, and none is made after it |
| `AdmissionChecks.CheckServiceIdentities` | deploy/swarm/worker-admission-transaction.py:600-613 | the pass with growing sets decides that names and ids are pairwise distinct and each entry is well formed |
| `AdmissionChecks.CheckSecretRefs` | deploy/swarm/worker-admission-transaction.py:616-633 | the pass decides that names, ids and identities of secrets are pairwise distinct |
| `AdmissionChecks.CheckWorkers` | deploy/swarm/worker-admission-transaction.py:1036-1069 | the pass decides that workers are well formed and pairwise distinct in key, service and all their secrets |
| `AdmissionChecks.CheckVisionJobs` | deploy/swarm/worker-admission-transaction.py:1415-1481 | the pass decides that vision jobs are well formed and distinct in mode and service |
| `AdmissionChecks.CheckRetirements` | deploy/swarm/worker-admission-transaction.py:2076-2106 | the pass decides that retirements are distinct in id, docker id and logical key |
| `AdmissionChecks.CheckAuthorities` | deploy/swarm/worker-admission-transaction.py:732-769 | the pass decides that authorities have distinct keys, at most one rollback authority a service and one control image among the rest |
| `AdmissionFile.Matches` | deploy/swarm/worker-admission-transaction.py:3539-3549 | the list of matches has one element exactly when there is a sole match, and then it is that one |
| `AdmissionFile.Drop` | deploy/swarm/worker-admission-transaction.py:3552-3556 | the rebuilt list is the old one without the elements equal to the match, order kept |
| `AdmissionFile.Draft.SetPhase` | deploy/swarm/worker-admission-transaction.py:3077-3188 | the step-by-step update raises or ends exactly as the phase function says |
| `AdmissionFile.Draft.AdvanceWorkerStage` | deploy/swarm/worker-admission-transaction.py:4211-4266 | the in-place worker update raises, skips or changes the draft exactly as specified |
| `AdmissionFile.Draft.CompleteSecretRemoval` | deploy/swarm/worker-admission-transaction.py:3527-3557 | the in-place removal raises or changes the draft exactly as specified |
| `AdmissionFile.Draft.CompleteAbortAuthority` | deploy/swarm/worker-admission-transaction.py:3582-3616 | the in-place revocation raises or changes the draft exactly as specified |
| `AdmissionFile.JournalFile.Submit` | deploy/swarm/worker-admission-transaction.py:3191-3226 | a submission is accepted exactly when revision, updater and validator agree; the file then holds the specified journal and keeps the invariant |
| `AdmissionFile.JournalFile.Replace` | deploy/swarm/worker-admission-transaction.py:3191-3226 | a draft replaces the document only if it did not raise and is valid, with the next revision |
| `AdmissionFile.JournalFile.Transition` | deploy/swarm/worker-admission-transaction.py:3859-3870 | the transition command ends as the specification says and keeps the invariant |
| `AdmissionFile.JournalFile.AdvanceWorkerStage` | deploy/swarm/worker-admission-transaction.py:4175-4274 | the stage command ends as the specification says and keeps the invariant |
| `ControlCrontab.ExtractForeign` | deploy/swarm/worker-admission-transaction.py:1140-1155 | the loop over the two blocks and the token check return the specified foreign text or refuse |
| `ControlCrontab.NoOverlap` | deploy/swarm/worker-admission-transaction.py:1114-1137 | no block begins inside another one or inside a copy of itself |
| `ControlCrontab.NoMarkerLeft` | deploy/swarm/worker-admission-transaction.py:1140-1155 | where the staging block is taken out and only foreign text remains there was no marker block left |
| `ControlCrontab.ForeignMeans` | deploy/swarm/worker-admission-transaction.py:1140-1155 | the extractor accepts exactly the crontabs within the size limit and ending in a line break that arise from a text naming neither block by putting in the staging block and then the marker block at line starts, and returns that text |
| `ControlCrontab.FoundWhereInserted` | deploy/swarm/worker-admission-transaction.py:1140-1155 | a block put anywhere into a text without it is found once, where it was put |
| `ControlCrontab.MovingKeepsForeign` | deploy/swarm/worker-admission-transaction.py:1253-1270 | moving the marker block of an accepted crontab to its end gives an accepted crontab of the same length with the same foreign text |
| `ControlCrontab.MovingIsIdempotent` | deploy/swarm/worker-admission-transaction.py:1253-1270 | moving the marker block twice is moving it once |
| `LeaderAuthority.Refreshed` | internal/channelops/leader.go:61-71 | refreshing gives the authority still cached the two times and changes nothing else; any other cache stays as it is |
| `LeaderAuthority.Cleared` | internal/channelops/leader.go:73-79 | clearing forgets exactly the expected authority; any other survives |
| `LeaderAuthority.LeaderState.Publish` | internal/channelops/leader.go:45-50 | publishing configures the store and caches the authority |
| `LeaderAuthority.LeaderState.Refresh` | internal/channelops/leader.go:61-71 | the in-place refresh is the specified one |
| `LeaderAuthority.LeaderState.Clear` | internal/channelops/leader.go:73-79 | the in-place clear is the specified one |
| `LeaderAuthority.LeaderLease.Confirm` | internal/channelops/leader.go:205-270 | heartbeat and validation: an answering row gives lease and cache its two times and changes neither epoch nor holder, anything else closes the lease and takes its authority out of the cache |
| `LeaderAuthority.LeaderLease.Release` | internal/channelops/leader.go:272-304 | release closes the lease and clears its authority whatever the database answers, and a second release does nothing |
| `LeaderProtocol.EpochsKept` | internal/channelops/leader.go:119-190 | no two attempts ever carry the same epoch and none lies above the row |
| `LeaderProtocol.LeaderInvKept` | internal/channelops/leader.go:119-322 | whoever holds the advisory lock and is not giving it up owns the current unreleased epoch under its own non-empty holder name, over acquire, heartbeat, validate, release and session loss; that a release ends the epoch is FenceRelease.ReleaseIsFinal |
| `LeaderProtocol.RowMoves` | internal/channelops/leader.go:156-168 | the epoch never falls, and a shared row keeps its epoch, holder and release mark |
| `LeaderProtocol.StaysConfigured` | internal/channelops/leader.go:39-43 | a store once configured stays configured |
| `LeaderProtocol.CachesKept` | internal/channelops/leader.go:45-79 | an authority cached in a store is always that of an attempt of that store that still holds it |
| `LeaderProtocol.ForgottenIsNotCached` | internal/channelops/leader.go:272-304 | a lease that has been given up is cached nowhere |
| `QueueAuthority.ResolutionMeans` | internal/channelops/execution_fence.go:128-192 | an item resolves to a channel exactly when the tables of its kind lead its payload there, and only a cleanup, or an alert that names and stores none, has none |
| `FenceSafety.ShareKeeps` | internal/channelops/leader.go:345-383 | the shared read of the epoch row leaves the system sound: it locks a granting row or gives up |
| `FenceSafety.ItemKeeps` | internal/channelops/execution_fence.go:55-80 | locking the queue item is exact and exclusive |
| `FenceSafety.ResolutionKeeps` | internal/channelops/execution_fence.go:128-193 | the channel in hand is the one the tables name and the item stores |
| `FenceSafety.ChannelKeeps` | internal/channelops/execution_fence.go:199-225 | the locked channel is enabled, not halted and, where demanded, open |
| `FenceSafety.FinishKeeps` | internal/channelops/execution_fence.go:106-126 | a commit records what its fence demands and disturbs no row another transaction has locked |
| `FenceSafety.FencingIsSafe` | internal/channelops/execution_fence.go:18-80 | over every interleaving: leases have distinct epochs, the row shows exactly an open lease with a live session, a store caches only the authority of its own unclosed lease, no two open transactions hold one item or channel, every commit had its current unreleased epoch, exact queue lease and executable channel, the one the item stores and the tables lead its payload to, and fenced commits never go back in epoch |
| `FenceSafety.ConfiguredStoreIsFenced` | internal/channelops/leader.go:345-383 | a store configured for leadership commits nothing outside the current unreleased epoch |
| `FenceProgress.LeaderTakesOver` | internal/channelops/leader.go:119-190 | when nothing is locked a process can take the lead with the next epoch and publish it |
| `FenceProgress.RunnableItemCommits` | internal/channelops/execution_fence.go:18-53 | from every idle state an item with an exact lease and an executable channel can be committed under a new epoch |
| `FenceRelease.ReleaseIsFinal` | internal/channelops/leader.go:272-304 | once an open lease releases a row nobody shares, every later commit under an authority has a larger epoch, in every run |
| `FenceRelease.HeartbeatRenews` | internal/channelops/leader.go:205-240 | a heartbeat moves the row's heartbeat time only, keeps the lease open and gives lease and cache the times of the row |
| `FenceRelease.ValidationRenews` | internal/channelops/leader.go:242-270 | a validation leaves the row alone and gives lease and cache its times |
| `FenceRelease.UnansweredCloses` | internal/channelops/leader.go:205-304 | a lease whose renewal or release goes unanswered is closed, leaves the row alone, and is then cached nowhere and holds no lock |
| `FenceRelease.LockIsGivenBack` | internal/channelops/leader.go:306-322 | an attempt that got the lock but no epoch gives the lock back and leaves the row alone |
| `FenceRelease.UnreportedEpochIsNobodys` | internal/channelops/leader.go:119-190 | an epoch whose commit was not reported is nobody's and leaves the lock free |
| `FenceRelease.ElectingStoreIsFenced` | internal/channelops/leader.go:119-190 | from its first attempt to lead, with no unfenced transaction under way, a store commits nothing outside the current unreleased epoch |
| `FenceRelease.LeadIsHandedOver` | internal/channelops/leader.go:272-322 | while no transaction is open the leader can step down and another process take over with the next epoch |
| `DrillRecords.CheckJournal` | backend/worker/youtube_ack_drill_evidence.py:90-148 | the pass with the previous clock readings decides the specified acceptance, whose meaning is DrillEvidence.EvidenceMeansDrill |
| `DrillRecords.ClocksNext` | backend/worker/youtube_ack_drill_evidence.py:117-126 | comparing each reading with the one before decides the order of all readings |
| `DrillSafety.NumberSkipsToken` | backend/worker/youtube_ack_drill.py:289-290 | the number of the next record counts the events and skips the token file |
| `DrillSafety.CallKeeps` | backend/worker/youtube_ack_drill.py:328-537 | every call keeps the helper on the script, taken up or refused |
| `DrillSafety.StagedFits` | backend/worker/youtube_ack_drill.py:289-306 | the record staged next is the script's next file with the right number and facts |
| `DrillWorlds.StagedIsNew` | backend/worker/youtube_ack_drill.py:272-287 | a helper never stages a name it has already written |
| `DrillWorlds.MoveKeepsOwner` | backend/worker/youtube_ack_drill.py:253-287 | check, exclusive creation and filling keep all files with the owner of the first one |
| `DrillWorlds.DrillIsSafe` | backend/worker/youtube_ack_drill.py:253-306 | over every run of any helpers on any directory: files are a front part of the script with contiguous numbers around the token, at most one abort and one recovery each and exactly one of both when finished, and at most one helper ever writes |
| `DrillWorlds.ScriptIsDistinct` | backend/worker/youtube_ack_drill.py:450-489 | every event, the token and every file name occurs once in the script |
| `DrillWorlds.ScriptIsEvents` | backend/worker/youtube_ack_drill_evidence.py:22-27 | the script without the token is the event list of the evidence check |
| `DrillWorlds.FailedIsAbsorbing` | backend/worker/youtube_ack_drill.py:328-537 | a failed helper stays as it is for the rest of every run |
| `DrillWorlds.UsedDirectoryIsLeftAlone` | backend/worker/youtube_ack_drill.py:253-255 | a directory that already holds a file is never written to |
| `DrillCalls.FinishedWasCalledFor` | backend/worker/youtube_ack_drill.py:328-537 | the facts of a finished drill are those of the calls made to its helper: the operation prepared, the Manager task recorded and asked a receipt for together with the video, the receipt of its success, and its own abort authenticated |
| `DrillCalls.ForeignFileStopsDrill` | backend/worker/youtube_ack_drill.py:253-287 | a file that is none of the helper's own stops its drill: in every run it writes nothing more and does not recover |
| `DrillCalls.MalformedVideoFails` | backend/worker/youtube_ack_drill.py:450-489 | a malformed video id fails the drill for the rest of every run |
| `DrillAgreement.FinishedRecord` | backend/worker/youtube_ack_drill.py:289-306 | in a finished drill's directory each numbered file is the record of its event |
| `DrillAgreement.MadeRowOk` | backend/worker/youtube_ack_drill_evidence.py:118-138 | every record a drill makes passes the row check |
| `DrillAgreement.Agreement` | backend/worker/youtube_ack_drill_evidence.py:90-148 | the collected files of a finished drill are accepted exactly when it was armed, its operation and Manager ids are not nil, its video id has eleven characters and its clock readings advance between claim start and expiry |
| `DrillAgreement.ProducerAgreesWithChecker` | backend/worker/youtube_ack_drill_evidence.py:90-148 | the same for every finished helper in every run, and its last record carries the digest of its receipt |
| `DrillProgress.WriteOne` | backend/worker/youtube_ack_drill.py:272-287 | a helper alone in its directory can write its next file |
| `DrillProgress.CallFinishes` | backend/worker/youtube_ack_drill.py:328-537 | a call that is taken up can run to its end |
| `DrillProgress.DrillCanFinish` | backend/worker/youtube_ack_drill.py:328-537 | a fresh helper on an empty directory can be driven to the finished phase |
| `DrillProgress.EvidenceIsAttainable` | backend/worker/youtube_ack_drill_evidence.py:90-148 | with an armed identity, proper ids and advancing clocks the whole drill yields an accepted journal that ends in its receipt |
| `DrillEvidence.EvidenceMeansDrill` | backend/worker/youtube_ack_drill_evidence.py:90-148 | the check accepts a journal exactly when some evident drill, run alone from a fresh helper, leaves one that agrees with it in every field evidence is drawn from |
| `DrillEvidence.AcceptedHasDrill` | backend/worker/youtube_ack_drill_evidence.py:117-146 | for every accepted journal there is a drill with its ids, nonce and clock readings that leaves an alike journal |
| `DrillEvidence.AlikeAccepted` | backend/worker/youtube_ack_drill_evidence.py:117-146 | the check reads nothing but those fields |
| `DrillProgress.NilIdIsNoEvidence` | backend/worker/youtube_ack_drill_evidence.py:117-146 | with the nil UUID as operation or Manager id the drill finishes and its journal is refused |
| `DrillProgress.FinishedIsNotAlwaysEvidence` | backend/worker/youtube_ack_drill_evidence.py:117-146 | such a drill exists: armed, in its window, with an ordinary operation and the nil Manager id |
| `DrillObject.AckDrill.WriteNext` | backend/worker/youtube_ack_drill.py:253-287 | a write succeeds exactly when the directory holds exactly the helper's files, and then adds the script's next file |
| `DrillObject.AckDrill.Prepare` | backend/worker/youtube_ack_drill.py:328-349 | prepare succeeds exactly for a new helper in time over its own directory and records the operation; otherwise the helper is failed or untouched |
| `DrillObject.AckDrill.RecordPostAttempt` | backend/worker/youtube_ack_drill.py:351-358 | the post attempt succeeds exactly for a prepared helper in time over its own directory; otherwise the helper is failed or untouched |
| `DrillObject.AckDrill.RecordSubmitted` | backend/worker/youtube_ack_drill.py:360-368 | the submission succeeds exactly for a posted helper in time with a canonical Manager id over its own directory and records that id; otherwise the helper is failed or untouched |
| `DrillObject.AckDrill.BeforeReceipt` | backend/worker/youtube_ack_drill.py:450-489 | a completion succeeds exactly for the recorded Manager task with a proper video id, all checks and the helper's own directory; the first ends in the abort, the second, of the same video, in the verified recovery; otherwise the helper is failed or untouched |
| `DrillObject.AckDrill.AuthenticateAbort` | backend/worker/youtube_ack_drill.py:491-509 | recovery opens exactly for the helper's own abort over an unchanged directory, and only once |
| `DrillObject.AckDrill.LoadForResume` | backend/worker/youtube_ack_drill.py:511-524 | the resume succeeds exactly for a pending helper whose operation loads, over its own directory; otherwise the helper is failed or untouched |
| `DrillObject.AckDrill.RecordSucceeded` | backend/worker/youtube_ack_drill.py:526-537 | the success is recorded exactly for a verified helper over its own directory, with the receipt and all thirteen files; otherwise the helper is failed or untouched |
| `EventEmission.KeysKept` | backend/worker/main.py:126-134 | the script keeps stream and keys in agreement both ways |
| `EventEmission.AttestationsKept` | backend/alembic/versions/034_worker_registrations.py:5281-5331 | an attestation never gets a second emission row |
| `EventEmission.EmittedRowsKept` | backend/alembic/versions/034_worker_registrations.py:5338-5398 | an emitted row names the message of its entry, whether a worker or the orchestrator marked it |
| `EventEmission.LeasesMove` | backend/alembic/versions/034_worker_registrations.py:3994-4008 | epochs only rise, a lease that lapsed or was superseded is never current again, and an attestation keeps the lease it was made under |
| `EventEmission.ExactlyOnce` | backend/worker/main.py:1214-1404 | over every interleaving of deliveries, reconcilers, the observing orchestrator, lost replies, failed commits, crashes and new registrations: one stream entry an emission and an attestation, one message id for all, a sent delivery's own event is what the stream holds, emitted rows name their entry, an acknowledged delivery's task is marked acknowledged, and an acknowledged task has its event in the stream |
| `EventProgress.LiveCanBeSent` | backend/worker/main.py:1370-1404 | while a prepared row's lease is current and its claim not over, a reconciler of that lease can send it whatever crashed before, appending at most one entry |
| `EventProgress.DeliveryCompletes` | backend/worker/main.py:1697-1774 | a delivery with a current lease, a standing claim and no row yet can run to its end: its task acknowledged, its own event the one new stream entry and its row emitted there |
| `EventProgress.OnItsWayCanBeAcknowledged` | backend/alembic/versions/034_worker_registrations.py:6621-6789 | the orchestrator can acknowledge the task of an event on its way whatever became of the worker, with the event in the stream |
| `EventProgress.CanLeaveExactly` | backend/alembic/versions/034_worker_registrations.py:5493-5606 | a prepared row can still be marked in some run exactly while its lease is current with a claim that is not over, or its event is in the stream or about to be appended |
| `EventProgress.SendersCannot` | backend/alembic/versions/034_worker_registrations.py:5338-5398 | once its lease has lapsed or been superseded no worker marks a row, be its event in the stream or not |
| `EventProgress.OnItsWayCanLeave` | backend/alembic/versions/034_worker_registrations.py:5608-5702 | an event on its way can be marked by the orchestrator whatever became of the lease |
| `EventProgress.StrandedForGood` | backend/alembic/versions/034_worker_registrations.py:5404-5490 | otherwise the row stays prepared in every run, its event never reaches the stream and its task is never acknowledged |
| `EventProgress.StrandingIsReachable` | backend/worker/main.py:1214-1283 | a worker that dies between preparing and sending leaves such a row when its service registers anew |
| `EventFences.TransactionsAreBacked` | backend/alembic/versions/034_worker_registrations.py:4366-4424 | in every run a transaction that sends an event works under the latest lease of its service and a standing claim until it ends: registrations and claim changes wait for it |
| `EventFences.LeaseEndsForGood` | backend/alembic/versions/034_worker_registrations.py:3994-4008 | a lease that lapses, or is replaced while no transaction works under it, is current in no later state |
| `EventFences.ClaimEndsForGood` | backend/alembic/versions/034_worker_registrations.py:4995-5135 | a claim that ends while nobody holds its row stays ended |
| `EventFences.WorkersAreFenced` | backend/alembic/versions/034_worker_registrations.py:6420-6619 | once an attestation's lease or claim is over no run starts a delivery or prepares an event for it and no worker acknowledges its task |
| `EventFences.PreparedOnce` | backend/alembic/versions/034_worker_registrations.py:5281-5331 | preparing again finds the row exactly for the same event under the same lease while the worker may act, and otherwise changes nothing |
| `TaskAffinity.BounceChanges` | backend/worker/main.py:1871-1876 | a bounce changes only the two affinity fields and raises the count by one |
| `TaskAffinity.BounceIsTimely` | backend/worker/main.py:1854-1876 | the time a task was first put back is kept, and from its wait on the task is deferred no more |
| `TaskAffinity.DeferredExactly` | backend/worker/main.py:1834-1876 | a task put back at given times is deferred now exactly when it prefers other hosts, was put back less often than the limit and less than the wait has passed since the first time |
| `TaskAffinity.TaskStream.MaybeDefer` | backend/worker/main.py:1834-1885 | the successor is appended before its task is acknowledged, wherever the process stops |
| `TaskAffinity.BouncesBounded` | backend/worker/main.py:1854-1861 | a line of bounces is no longer than the limit leaves room for above the first count |
| `TaskAffinity.NoTaskLost` | backend/worker/main.py:1871-1880 | from every entry a line of bounces leads to one that no bounce has acknowledged |
| `Retention.AnchoredMeans` | internal/channelops/cleanup.go:20-61 | a row is anchored exactly when it concerns a task with an upload or a YouTube publication |
| `Retention.EvidenceIsConnection` | internal/channelops/cleanup.go:51-66 | a queue row is evidence exactly when parent links lead from it to an anchored row |
| `Retention.EvidenceSurvives` | internal/channelops/cleanup.go:51-72 | deleting rows that are no evidence leaves the evidence as it was |
| `Retention.CleanupKeepsEvidence` | internal/channelops/cleanup.go:51-75 | cleanup deletes exactly the old finished rows not connected to evidence, keeps the closure and its links, and a second cleanup with no later cutoff deletes nothing |
| `Retention.CleanupsCompose` | internal/channelops/cleanup.go:51-75 | two cleanups with growing cutoffs equal one with the later cutoff |
| `Retention.EvidenceRows` | internal/channelops/cleanup.go:51-66 | the loop over newly related rows ends with the closure |
| `Retention.FeedbackAndAuditsKept` | internal/channelops/cleanup.go:77-97 | feedback outlives the cleanup exactly when it is recent or its publication's task has an upload or a YouTube publication, a legacy audit when it is recent, any other audit always, and a second cleanup deletes nothing |
| `Retention.Store.CleanupExpired` | internal/channelops/cleanup.go:33-97 | queue rows, audits and feedback are deleted by their own rules and defaults, each is counted, and nothing else changes |
| `MetricSchedules.BuildPlans` | internal/channelops/metric_schedules.go:34-63 | one plan a stage in order, each due before its grace time, with windows that never overlap |
| `MetricSchedules.Decide` | internal/channelops/metric_schedules.go:65-90 | a retry lies strictly after now and no later than grace; expiry happens exactly at the attempt limit or from the grace time on |
| `MetricSchedules.RunKeeps` | internal/channelops/metric_schedules.go:254-350 | over any run the row stands at what its attempts came to, at most the current attempt's item is still to run, and it waits out the delay or the grace time |
| `MetricSchedules.StatusIsEarned` | internal/channelops/metric_schedules.go:254-399 | over every run a stage has succeeded, with its feedback stored, exactly when its last attempt found the metrics; it has expired exactly when the last attempt found none at the limit or from the grace time on, and then a 24h stage holds its task; no earlier attempt found anything |
| `MetricSchedules.PlanIsKept` | internal/channelops/metric_schedules.go:92-195 | ensured from one plan however often, a stage keeps its due and grace time and is never tried before it is due |
| `MetricSchedules.FirstPlanWins` | internal/channelops/metric_schedules.go:138-195 | the first plan to be ensured is the one the stage follows whatever comes later |
| `MetricSchedules.PendingCanEnd` | internal/channelops/metric_schedules.go:254-399 | a pending stage can always be ended from its grace time on, by success or by expiry |
| `MetricSchedules.FinishedStays` | internal/channelops/metric_schedules.go:92-136 | a finished stage is never revived: no run changes its row, its feedback or its attempts |
| `MetricSchedules.TriesBounded` | internal/channelops/metric_schedules.go:65-90 | a stage is tried at most min(limit, ceil((grace - first) / delay) + 1) times, once if the first try is not before grace |
| `MetricSchedules.StageStore.Ensure` | internal/channelops/metric_schedules.go:92-195 | ensuring inserts schedule and first item only where missing and only while pending |
| `MetricSchedules.StageStore.Collect` | internal/channelops/metric_schedules.go:254-399 | one claimed item completes, requeues or expires its stage as specified |
| `PolicyPreflight.GroupBy` | scripts/channelops_policy_snapshot_preflight.py:48-52 | each group is the rows of its key in order |
| `PolicyPreflight.TickIsComplete` | scripts/channelops_policy_snapshot_preflight.py:55-115 | the check as it runs decides the specified completeness |
| `PolicyPreflight.CountMeansDistinct` | scripts/channelops_policy_snapshot_preflight.py:78-83 | a list with as many values as places has no value twice |
| `PolicyPreflight.CompleteIsPairing` | scripts/channelops_policy_snapshot_preflight.py:55-115 | completeness gives a one-to-one pairing of features and decisions with matching candidates, and no decision of any tick but the paired one points at a feature |
| `PolicyPreflight.CompleteExactly` | scripts/channelops_policy_snapshot_preflight.py:55-115 | the audit calls a tick complete exactly when it was stored whole: one policy under its digest, distinct features carrying the tick's policy, time and hashes, and for each of them the one decision anywhere that points at it, with its candidate and a selection that agrees with its verdict |
| `PolicyPreflight.CountTicks` | scripts/channelops_policy_snapshot_preflight.py:140-163 | total = legacy + new, new = complete + partial, and each number counts what it names |
| `SentenceSplitter.SplitCompleteSentences` | TextToAudio/app/main.py:236-245 | the single pass returns the trimmed stretches between endings and the rest |
| `SentenceSplitter.SegmentsEndOnce` | TextToAudio/app/main.py:239-244 | every stretch has an ending at its end and nowhere else |
| `SentenceSplitter.SentencesContinue` | TextToAudio/app/main.py:236-245 | splitting a longer text continues with what the shorter one left over |
| `SentenceSplitter.StreamingIsBatch` | TextToAudio/app/main.py:394-398 | however the text is cut into messages, the sentences emitted and the buffer equal one split of the whole text |
| `SentenceSplitter.SplitKeepsInk` | TextToAudio/app/main.py:236-245 | a split loses only white space |
| `SentenceSplitter.SessionKeepsInk` | TextToAudio/app/main.py:374-398 | over every session with flushes, what was sent and what waits is the text received up to white space |
| `SentenceSplitter.Connection.OnMessage` | TextToAudio/app/main.py:374-398 | one message changes buffer and output as specified |
| `IntegerLiterals.IsLexicallyIntegral` | internal/channelops/discovery_policy.go:115-138 | the index loop accepts exactly an optional minus and an int of section 6 of RFC 8259 |
| `IntegerLiterals.PrintsBack` | internal/channelops/discovery_policy.go:99-113 | printing the value of an accepted text gives back the text exactly when it is not -0 |
| `IntegerLiterals.AcceptsExactlyPrinted` | internal/channelops/discovery_policy.go:115-138 | the accepted texts are exactly the printed integers and -0 |
| `IntegerLiterals.DiscoveryInt` | internal/channelops/discovery_policy.go:99-113 | a missing field takes the fallback; any other gives exactly the number within the bounds that its text prints, where -0 gives 0 |

## Left out

- Docker, engine and HTTP calls, SSH, file modes, fsync and locks on files: they appear only as steps that may fail.
- Regular expressions of names, images and digests in the journal, and credential capture: one look at each check settles them.
- The legacy schema 1 document, quarantine, archive and the replay helpers of the journal: no part of the current protocol.
- The choice of recovery in `_recover_failed_control`: only its crontab transformation is modelled.
- The rewriting of docker service specifications and the content of registered capture results: their checks enter as given results.
- AdmissionPipeline.CreatedOnceInOrder: what a command reports of a service is taken to be what the engine shows when it is submitted; the writer lock that keeps other processes away in between is not modelled.
- Nested execution fences that reuse an open transaction: the inner fence repeats the checks of the outer one.
- FenceSafety.FencingIsSafe: the channel is resolved from tables that other code may change before the commit, so the match is with the tables as they were read; the lock keeps only the channel row itself.
- LeaderProtocol.LeaderInvKept: the upsert of the epoch row and its commit are one step, as the row lock makes them for every other session.
- The video verification loop, cancellation and deadlines of the drill: any of them may stop a call at any point.
- The receiver log of the drill's evidence and the durable rows beside the journal: only the journal part of the check is modelled, as accepted or not.
- EventEmission.ExactlyOnce: the number of send attempts is not bounded and the acknowledgement receipt may refuse at any point; unregistered events and databases other than PostgreSQL append directly and are not modelled.
- The repair and cleanup of emission markers, the deletion of finished jobs and the recovery of nodes: they act on acknowledged or resolved rows only.
- AdmissionRollbackRun.RollbackCanFinish: the service ids of the workers are given, as the engine gives them.
- TaskAffinity.BouncesBounded: numbers in task fields are digits with an optional sign; white space and underscores that Python also reads are not modelled, nor is the parsing of the host list.
- MetricSchedules.TriesBounded: queue rows of a stage are taken to be kept, and limits and delay to stay the same over a run; of the feedback snapshot only whether it is stored is modelled, and of the production task whether it is held.
- Retention.Store.CleanupExpired: identifiers are compared directly, without the removal of hyphens.
- PolicyPreflight.TickIsComplete: shapes of hashes and UUIDs enter as present or absent values, and activation modes are not modelled.
- The speech engine behind the splitter, and the close message, which sends what waits like a flush.
- The canary, acceptance, smoke and demo scripts, the frontend, configuration loading and alerts.
