# Verification of the experiment runner

A Dafny model of the parts of this repository where many transitions share one state: the DAG run of
an experiment, template reload, restoration of a snapshot, recovery from the journal, the shared
failure cleanup, the archive codec, and two algorithms of the dashboard. `dafny verify dfyconfig.toml`
checks all of it.

## What is modelled

**The DAG run.** `DagState` says what each transition does to the run record: launching, accepting an
outcome, conditional `move`/`pause`/`stop`, deferred decisions, `resume`, `step`, `rerun`, operator
moves, template reload, loss of a stage, failure. `DagRunner.Runner` carries the transitions out step by
step and is proved against these functions. `DagInvariant` and `DagBacking` hold the inductive
invariants, `DagRuns` closes them over every scheduler step, and `ExperimentHistory` over every history
of steps, checkpoints, snapshots, crashes, recoveries, continuations and rollbacks. `DagEffects` says which
stage is visited next after each transition and what it finds there, in the fields of the record, and
`DagCommands` carries this from an operator's command to the attempt it starts. `DagProgress` is the
progress measure and the exactly-once argument for deferred decisions. `RunExamples` is one run of two
stages, from its beginning, for the theorems that need an input.

**Template reload.** `ReloadPlan` computes the unchanged prefix, the new cursor and what is kept;
`DefinitionDiff` is the structural diff with its work stack, shown to be a faithful patch both ways.

**Snapshots and restoration.** `SnapshotState` validates saved results against a journal and builds the
restored state. `RestoreTransaction.Restorer` is the marker, the three trees and the two renames, with a
budget of disk changes after which the power goes; every method is proved for every budget. `Retention`
numbers, prunes and selects snapshots.

**Recovery.** `JournalScan` is the paged reading of a journal that grows meanwhile. `WriteAhead` is
checkpointing ahead of the state file, with services saving the live state in between, and adoption
after a crash.

**Failure cleanup.** `FailureCleanup` is the interleaving, await by await, of the DAG task, commands, reads
and the cleanup they share, with the event's late registration modelled as it is. Commands may come in any
number and at any time; what depends on the controller serving them one at a time says so.
`CleanupExamples` holds two interleavings for it.

**Archives.** `Ustar` is one header block (the "ustar Interchange Format" in the `pax` utility section of
IEEE Std 1003.1), `HeaderChecks` which blocks its reader takes, `ArchiveTree` names and inventories,
`ArchiveReader` the bounded reader, `ArchiveWriter` the writer. `ArchiveSoundness`, `ArchiveRoundTrip` and
`ArchiveBounds` hold what is proved about them, `ArchiveExamples` the payloads that show it. XZ is the
identity.

**Dashboard.** `CacheJobs` is the cache-job scheduler, `Percentiles` the percentiles picked during a
k-way merge, `NearestRank` what such a percentile is.

## Where the code does not do what one would expect

Each of these is a theorem with the exact condition; where the condition is not the input itself, an input is given.

- A stage outcome that stops the experiment drops results under the id of the last checkpoint, and
  stopping the services saves that state to the file. A crash before the failure checkpoint then
  recovers the state without those results, unless there were none to drop
  (`WriteAhead.StoppingOutcomeLosesResults`, `RunExamples.LostResult`; in general a service save is
  harmless exactly when the live state is not ahead of the checkpoint it is named after,
  `WriteAhead.SaveIsSafeIffNotExposed`).
- A directory whose own name takes 100 bytes or more, on a path of at most 155 bytes, is packed with an
  empty name field and is refused when the archive is read (`ArchiveBounds.PayloadComesBack`,
  `ArchiveWriter.StretchedIsWritten`). It happens to a payload whose one module has such a directory
  (`ArchiveExamples.StretchedPayloadIsRefused`, `ArchiveExamples.StretchedPayloadExists`).
- The bound on the decompressed stream, taken by itself, is smaller than some archives within the
  configured limits (`ArchiveBounds.LimitAdmitsAllIff`), and a manifest and a template of the right sizes
  are packed and then refused (`ArchiveExamples.FlatPayloadIsRefused`). No complete payload is affected:
  a template has at least one stage and so a module folder, and an archive with a directory always
  fits (`ArchiveBounds.PackedStreamFits`).
- Two control tasks that drain for each other are blocked for good, and come to it exactly when one begins
  to drain while another one does (`FailureCleanup.TwoDrainingAfter`,
  `FailureCleanup.BlockedIffDrainsBeside`). As long as one control task at most stops the others, the drain
  ends (`FailureCleanup.DrainGoesOn`, `FailureCleanup.DrainEnds`). A rollback and the DAG task can both do
  so: a second rollback is admitted while the DAG task of the first one prepares, and that task stops the
  others when its snapshot holds a deferred stop. If a read fails on the journal and both begin to stop
  before the cleanup has run, they block (`CleanupExamples.TwoStoppingTasksCanBlock`).
- A rerun that is refused by `step` has already taken the finished visit back
  (`DagProgress.RefusedRerunTakesBackTheVisit`).
- A step that has to clear a conditional pause saves before it announces itself. When the run ends
  during that save, the step waits for a boundary that does not come
  (`DagProgress.StepInTwoHalves`, `DagProgress.CompletesMeanwhile`, `RunExamples.StepFindsNoRun`).
- A published snapshot is not the one chosen to continue from when an earlier valid one carries the
  largest sequence number and two or more are kept (`Retention.PublishedIsLatest`,
  `Retention.OvertakenStore`).

The event of the failure waiters is not one of these. By itself it can lose a wake-up, exactly when a step
clears it for a wait of its own while a task whose target has joined is still registering
(`FailureCleanup.WhoseClearLosesAWakeup`), and with two commands at once it does
(`CleanupExamples.CallerCanLoseItsWakeup`). With commands served one at a time no interleaving loses one
(`FailureCleanup.NoWakeupIsLost`).

## Model

| member | source | states |
|---|---|---|
| `DagRunner.ConditionalOutput` | core/experiments/results.py:71-95 | a move target must be a node of the DAG, a missing payload is an error when one was asked for, and the output is the stage's input unless it has both a command and a payload |
| `DagRunner.Runner.LaunchNextStage` | core/experiments/runner.py:812-845 | a launch first moves past a finished stage, wrapping into the next cycle, and clears the last decision |
| `DagRunner.Runner.ApplyStageOutcome` | core/experiments/runner.py:992-1039 | an accepted outcome records or drops the stage's result and origin, pauses on hold, and either decides now or defers the decision |
| `DagRunner.Runner.ApplyPendingDagDecision` | core/experiments/runner.py:1041-1047 | a deferred decision is taken off before it is applied |
| `DagRunner.Runner.ApplyDagDecision` | core/experiments/runner.py:1049-1067 | pause, stop, move and no command act on mode, cursor and last decision as named |
| `DagRunner.Runner.ApplyConditionalMove` | core/experiments/runner.py:1069-1099 | a move hands the result to the target, forgets results, origins and retries from the target on, and puts the cursor there |
| `DagRunner.Runner.FinishBoundary` | core/experiments/runner.py:623-637 | after a boundary a conditional stop halts the run, otherwise the run is idle and a step is settled unless the DAG has ended |
| `DagRunner.Runner.Resume` | core/experiments/runner.py:1209-1257 | resuming clears a conditional pause and is refused while a stage is unresolved |
| `DagRunner.Runner.StepOnce` | core/experiments/runner.py:1259-1300 | a step is admitted only at an idle pause without another step |
| `DagRunner.Runner.RerunStage` | core/experiments/runner.py:1507-1551 | a stage rerun takes the visit back and then asks for a step |
| `DagRunner.Runner.MoveCursor` | core/experiments/runner.py:1716-1741 | an operator move is admitted exactly at an idle pause without a step and for a position in range; it puts the cursor there, drops conditional input and decisions, keeps results, origins, retries and cycle, and keeps the last result only when it is still accepted |
| `DagRunner.Runner.PublishReloadDag` | core/experiments/runner.py:2352-2435 | publishing a reload keeps exactly the preserved results and republishes the predecessor's result from the journal |
| `DagInvariant.LaunchKeeps` | core/experiments/runner.py:812-845 | a launch from any state within the invariant keeps cursor and cycle in range |
| `DagInvariant.AcceptKeeps` | core/experiments/runner.py:992-1039 | every acceptable outcome keeps the invariant, deferred or not |
| `DagInvariant.MoveKeeps` | core/experiments/runner.py:1069-1099 | after a move the pending input names the stage under the cursor and the last result is the moved one |
| `DagInvariant.ReloadKeeps` | core/experiments/runner.py:2352-2435 | a reload along a fitting plan keeps the invariant in the new template |
| `DagInvariant.MoveCursorKeeps` | core/experiments/runner.py:1716-1741 | an operator move to any position keeps the invariant |
| `DagEffects.NewCycleStartsEmpty` | core/experiments/runner.py:820-833 | a launch after the last stage of a cycle begins the next one without results, origins or last result, any other launch keeps them; conditional input goes when the cursor advances |
| `DagEffects.ManualVisitStartsAfresh` | core/experiments/runner.py:812-845 | the begin of a visit by hand forgets that stage's result and origin and the last result, and no other stage's result; any other begin forgets nothing |
| `DagEffects.SuccessGoesOn` | core/experiments/runner.py:992-1039 | after a plain success the next stage is visited with its result at hand, the first one of the next cycle after the last stage, and none at the end of the DAG |
| `DagEffects.HoldRepeats` | core/experiments/runner.py:992-1039 | after a held outcome the run is paused, without that stage's result, and the same stage is visited again |
| `DagEffects.MoveForgets` | core/experiments/runner.py:1069-1099 | a conditional move forgets result, origin and retries of exactly the stages from the target on |
| `DagEffects.MoveVisitsTarget` | core/experiments/runner.py:1069-1099 | after a stage that decided to move the target is visited next, in the same cycle, with the deciding result as its input |
| `DagEffects.DecisionWaits` | core/experiments/runner.py:1004-1039 | a decision is deferred exactly when a conditional stage is answered under the policy of a snapshot after it, made at once exactly when it is answered without, and carries the stage's own command and request |
| `DagEffects.ReloadKeepsPrefixResults` | core/experiments/runner.py:2352-2435 | after a reload exactly the results and origins of the unchanged prefix are left, in the same cycle, and no request id is forgotten |
| `DagEffects.ReloadKeepsTransfers` | core/experiments/runner.py:2352-2435 | conditional input survives a reload exactly when both its ends are preserved and it is for the stage under the cursor, a decision when its source is and its input does, retries with their stage |
| `DagEffects.CompletedStopIsDropped` | core/experiments/restore_inputs.py:42-83 | a stop that the snapshot had completed is dropped and the restored run is idle; one that was only decided is kept and halts it |
| `DagRuns.NextInv` | core/experiments/runner.py:577-638 | every step that can happen keeps the DAG invariant |
| `DagRuns.NextBacked` | core/experiments/runner.py:992-1039 | every step leaves all results and decisions backed by accepted journal records |
| `DagCommands.MoveToRuns` | core/experiments/runner.py:1716-1741 | an operator move to a position, a resume, a launch and a begin execute the stage at that position |
| `DagCommands.StepRuns` | core/experiments/runner.py:1259-1300 | an admitted step executes the next stage of the DAG and leaves the run paused |
| `DagCommands.OutcomeEndsStep` | core/experiments/runner.py:623-637 | the outcome of that stage ends the step: nothing more can be launched |
| `DagCommands.RerunRuns` | core/experiments/runner.py:1507-1551 | a rerun executes the stage under the cursor again and leaves the run paused |
| `DagCommands.ReloadRuns` | core/experiments/runner.py:2352-2435 | after a reload and a resume the stage at the planned place of the new template is executed |
| `DagCommands.DeferredMoveRuns` | core/experiments/runner.py:616-622 | an outcome with a deferred move, the application of that and the settled boundary lead to the execution of the move's target |
| `DagCommands.EndsLaunchNothing` | core/experiments/runner.py:577-690 | after a lost, stopping or failing stage, an operator's stop or completion nothing can be launched or resumed; which attempt and which results are left |
| `ExperimentHistory.DagStateInvariant` | core/experiments/runner.py:974-1099 | in every history of runs, operator commands, reloads, crashes, recoveries from the checkpoint or from a file that ran ahead of it, and restorations the stage position and cycle stay in range, a pending input names the stage under the cursor, and a last result is an accepted result or the pending input's |
| `ExperimentHistory.SavedStatesAreValid` | core/experiments/snapshot_validation.py:108-168 | every state such a history can save satisfies the saved document's own constraints and passes validation against its journal |
| `ExperimentHistory.IssuedIdsStayUsed` | core/experiments/restore_inputs.py:76-80 | through crashes, recoveries and rollbacks, though not into a continued experiment, a request id that was issued stays used and no new attempt gets it |
| `ExperimentHistory.RollbackReturns` | core/experiments/restore_inputs.py:42-83 | after any events a rollback to a snapshot brings back the state and journal it was taken of, with the request ids of both |
| `ExperimentHistory.CrashReturnsToCheckpoint` | core/experiments/runner.py:3195-3223 | after any events without a checkpoint a crash brings back the last one, paused, with its active attempt |
| `DagProgress.ProgressBound` | core/experiments/runner.py:820-833 | the number of finished visits stays between nothing and all visits of all cycles |
| `DagProgress.EndMeansAllVisitsDone` | core/experiments/runner.py:974-990 | the DAG is at its end exactly when all visits are done and no conditional pause is held |
| `DagProgress.StepProgress` | core/experiments/runner.py:992-1099 | a launch keeps the number of finished visits; each advancing outcome adds one, each forward move at least one |
| `DagProgress.AdvancingOutcomesAreBounded` | core/experiments/runner.py:820-833 | a run without backward moves and operator cursor changes has at most as many advancing outcomes as visits; without moves their number is the progress, so all of them at the end |
| `DagProgress.DeferredIsImmediate` | core/experiments/runner.py:1004-1067 | deferring a decision over a snapshot and applying it afterwards gives the state of applying it at once |
| `DagProgress.CrashesApplyPendingOnce` | core/experiments/runner.py:523-528 | any number of crashes and recoveries from the checkpoint with the deferred decision apply it once |
| `DagProgress.DeferredDecisionIsExactlyOnce` | core/experiments/runner.py:616-622 | outcome, deferred decision and any number of crashes in between end in the progress of the immediate path |
| `DagProgress.RestoreAppliesDeferred` | core/experiments/restore_inputs.py:42-83 | a restoration of a snapshot taken in between applies the decision the same way |
| `DagProgress.StepInTwoHalves` | core/experiments/runner.py:1292-1299 | a step announced after its save is the step admitted before it exactly when the run did not complete or fail meanwhile |
| `DagProgress.CompletesMeanwhile` | core/experiments/runner.py:1292-1299 | it differs for every step from a conditional pause at the end of the DAG when the run completes during the save |
| `RunExamples.StepFindsNoRun` | core/experiments/runner.py:1292-1299 | a history from the beginning of an experiment that gets to such a pause |
| `DagProgress.RefusedRerunTakesBackTheVisit` | core/experiments/runner.py:1541-1551 | a refused rerun takes a finished visit back, and leaves the run alone exactly when there is none and the stage was already to be visited by hand |
| `ReloadPlan.PlanLayout` | core/experiments/reload.py:113-157 | the prefix is the longest one of unchanged stages whose services are unchanged, and the next position is that of the first old stage after the cursor that survives |
| `ReloadPlan.PrefixIsSameWork` | core/experiments/reload.py:113-140 | stages in the prefix agree in id, kind, content and service, and the service they call is the same in both templates; the first pair behind it does not |
| `ReloadPlan.LayoutPosition` | core/experiments/reload.py:127-157 | an old cursor inside or at the end of the prefix keeps its position, any other lands between the prefix and the new length |
| `ReloadPlan.NoStaleWorkBehindCursor` | core/experiments/reload.py:160-168 | every completed stage before the new cursor lies in the unchanged prefix |
| `ReloadPlan.CursorPlacement` | core/experiments/reload.py:160-168 | position and pending flag encode the new cursor, which does not move when it was within the prefix |
| `ReloadPlan.PreservedIsOldPrefix` | core/experiments/reload.py:160-168 | the ids kept are exactly those of the old prefix |
| `ReloadPlan.RewindOnlyWhenWorkIsLost` | core/experiments/reload.py:160-168 | the cursor is rewound exactly when a completed stage was invalidated before it |
| `ReloadPlan.ReloadOfSameTemplateIsIdentity` | core/experiments/reload.py:113-168 | reloading the same template moves nothing and loses nothing |
| `DefinitionDiff.DefinitionChange` | core/experiments/reload.py:227-265 | the work stack yields the recursive diff, field names in order, and terminates by the size of what is left |
| `DefinitionDiff.PatchForwards` | core/experiments/reload.py:227-265 | applying the listed fields to the old definition gives the new one, absent and null kept apart |
| `DefinitionDiff.PatchBackwards` | core/experiments/reload.py:227-265 | applying them in reverse gives the old definition back |
| `DefinitionDiff.DiffIsMinimal` | core/experiments/reload.py:239-263 | listed paths are prefix-free and each really differs |
| `DefinitionDiff.DiffIsOrdered` | core/experiments/reload.py:227-265 | the fields are listed by their paths, name by name in character order |
| `SnapshotState.ValidateJournalResults` | core/experiments/snapshot_validation.py:108-168 | accepts a state exactly when every transfer and every result has an accepted, agreeing journal record |
| `SnapshotState.PassingMeans` | core/experiments/snapshot_validation.py:108-168 | what agreeing means, field by field, for results, pending input, last and pending decision |
| `SnapshotState.RestoreSavedState` | core/experiments/restore_inputs.py:42-83 | the restored state keeps the results, fills in their origins and merges the used request ids |
| `SnapshotState.RestorePreservesValidity` | core/experiments/restore_inputs.py:42-83 | a valid snapshot state stays valid under a new experiment id |
| `SnapshotState.ChainPreservesValidity` | core/experiments/restore_inputs.py:42-83 | so it does through any chain of continuations and rollbacks, and no used request id is lost |
| `RestoreTransaction.Restorer.StageSnapshot` | core/experiments/snapshots.py:1396-1471 | staging either prepares the snapshot's tree or leaves the installed one alone |
| `RestoreTransaction.Restorer.InstallFiles` | core/experiments/snapshots.py:1501-1545 | after any crash the two renames finish, and no complaint about missing or ambiguous directories can come up |
| `RestoreTransaction.Restorer.BindJournal` | core/experiments/snapshots.py:1547-1591 | repeating an interrupted binding arrives at the same journal generation |
| `RestoreTransaction.Restorer.StartServices` | core/experiments/snapshots.py:1593-1655 | services are started and loaded once, after the phase that forbids repeating it is on disk |
| `RestoreTransaction.Restorer.StopInterrupted` | core/experiments/snapshots.py:1277-1332 | an interrupted or failed load never becomes complete |
| `RestoreTransaction.Restorer.FinishRestore` | core/experiments/snapshots.py:1142-1207 | from every phase up to the restored journal an uninterrupted attempt completes with the staged tree installed and bound; phases only move forward |
| `RestoreTransaction.Restorer.Restore` | core/experiments/snapshots.py:925-1140 | resumes, retries, refuses or starts over exactly as the old marker, the request and the surroundings demand; a return has the requested snapshot installed and bound, under the new id or that of the resumed restoration; with power and willing surroundings it does return |
| `RestoreTransaction.RunSessions` | core/experiments/snapshots.py:1142-1207 | over any number of processes, each dying at any point, the old experiment is intact in exactly one place until completion and no restoration loads its services twice |
| `Retention.NextSequence` | core/experiments/snapshots.py:316-337 | the new number is larger than every number below the limit and is one more than one of them |
| `Retention.RetainSnapshots` | core/experiments/snapshots.py:604-652 | only owned folders go, the published snapshot stays, the count of valid ones is the smaller of what was asked for and what there was, and nothing valid that went is newer than another one that stayed |
| `Retention.LatestValid` | core/experiments/snapshots.py:885-923 | the newest valid snapshot by number and path, none when there is none |
| `Retention.PublishedIsLatest` | core/experiments/snapshots.py:904-923 | after retention that is the published one exactly when it is the only one kept or nothing valid sits at the limit of the number range above it |
| `Retention.OvertakenStore` | core/experiments/snapshots.py:904-923 | with a valid snapshot at the limit and two kept, that one is chosen and not the published one |
| `JournalScan.Journal.ReadEvents` | core/journal/storage.py:718-771 | a page starts behind its cursor, holds at least one event when there is any, and reports the journal's last cursor |
| `JournalScan.Journal.Scan` | core/experiments/journal.py:422-454 | for any page sizes and any concurrent appends the paged loop terminates and gives what one pass over the journal of the first read gives |
| `JournalScan.ReadRecoveryEvidence` | core/experiments/journal.py:416-455 | the evidence is that of one pass over the journal as first observed |
| `JournalScan.EvidenceMeaning` | core/experiments/journal.py:428-451 | the last checkpoint or restoration alone decides the checkpoint, and exactly the launches after it count |
| `JournalScan.EvidenceWithoutReset` | core/experiments/journal.py:428-451 | without checkpoint or restoration there is no checkpoint and every launch counts |
| `JournalScan.ReadRecoveryCheckpoint` | core/experiments/journal.py:311-363 | finds the checkpoint that the evidence holds, and fails exactly when there is none |
| `JournalScan.Lineage` | core/experiments/journal.py:376-380 | the lineage of an experiment id is what is left of it after each colon |
| `JournalScan.ReadReloadProgress` | core/experiments/journal.py:366-413 | adds exactly the stages that some observed event of the lineage vouches for in this cycle of this revision |
| `JournalScan.CompletesExactly` | core/experiments/journal.py:380-413 | an event vouches for a stage exactly when it is a checkpoint with a pending advance at that stage, or a reload that preserved it, in the same lineage, revision and cycle |
| `WriteAhead.StateKeeper.PrepareStateSave` | core/experiments/runner.py:3769-3779 | a checkpoint is frozen under a new id with the scheduler's own pending flag |
| `WriteAhead.StateKeeper.PersistState` | core/experiments/runner.py:3781-3790 | the frozen checkpoint is committed before it is copied to the file, and a failing file does not undo it |
| `WriteAhead.StateKeeper.AdoptRecoveryCheckpoint` | core/experiments/runner.py:3195-3223 | after adoption the state has the committed progress, with the file's services when they belong to the same run and no reload is unfinished, and the committed ones otherwise |
| `WriteAhead.StepKeepsSound` | core/experiments/runner.py:3769-3790 | freezing, committing, publishing, observing, restoring and crashing keep file and journal in agreement |
| `WriteAhead.CommittedProgressSurvives` | core/experiments/runner.py:3195-3223 | however these interleave, recovery continues from the last checkpoint committed after the last restoration, as long as no save of the live state runs ahead of its checkpoint |
| `WriteAhead.CommittedIsRecovered` | core/experiments/runner.py:3781-3790 | a crash right after a commit, published or not, recovers the committed state |
| `WriteAhead.RestorationRecovers` | core/experiments/runner.py:3195-3223 | after a restoration recovery gives the restored state |
| `WriteAhead.RebuildIsRecovered` | core/experiments/runner.py:3195-3223 | the checkpoint of an unfinished reload is recovered too, from the journal when the file is lost |
| `WriteAhead.SaveIsSafeIffNotExposed` | core/experiments/services.py:2818-2826 | a save of the live state is harmless in every continuation exactly when the state is not ahead of a checkpoint that is or may become the last one |
| `WriteAhead.StoppingOutcomeLosesResults` | core/experiments/runner.py:597-602 | a stopping outcome followed by the services' save recovers the committed progress exactly when there was no last result and neither result nor origin of the stage |
| `RunExamples.RunningIsReached` | core/experiments/runner.py:812-845 | a history from the beginning of an experiment leads to the running second stage and its checkpoint |
| `RunExamples.LostResult` | core/experiments/runner.py:597-602 | from that checkpoint on, a stop of the stage, the services' save and a crash lose the last result that the journal's last checkpoint still has |
| `FailureCleanup.Coordinator.CancelControlTasks` | core/experiments/runner.py:1446-1490 | goes through the control tasks in order until it must wait, joins, or drains |
| `FailureCleanup.Coordinator.WaitControlCancellation` | core/experiments/runner.py:1492-1505 | a woken waiter goes on when its target ended or joined, and clears the event otherwise |
| `FailureCleanup.Coordinator.Fail` | core/experiments/runner.py:3628-3634 | the first failure creates the cleanup, every later one joins it |
| `FailureCleanup.Coordinator.LeaveFailureCleanup` | core/experiments/runner.py:3636-3651 | a joined task leaves the waiters only after the cleanup is done |
| `FailureCleanup.StepKeepsSound` | core/experiments/runner.py:1446-1505 | every interleaving keeps waiters equal to joined tasks, targets asked to end, and the cleanup's wake-up alive |
| `FailureCleanup.CleanupNeverWaitsForItself` | core/experiments/runner.py:1492-1505 | in no interleaving is the cleanup blocked on a blocked task, and its wake-up is never lost |
| `FailureCleanup.EveryWaitLeadsToARunnableTask` | core/experiments/runner.py:1446-1505 | while the cleanup is active every wait ends at a task that can run |
| `FailureCleanup.CleanupSettlesControlTasks` | core/experiments/runner.py:3677-3678 | once the cleanup is through with cancelling, every control task has ended or joined it |
| `FailureCleanup.DoneCleanupSparesScheduler` | core/experiments/runner.py:1466-1476 | once the cleanup is done no stop asks the DAG task to end |
| `FailureCleanup.DrainFindsOthersEnded` | core/experiments/runner.py:1446-1490 | before a cleanup, a stop that comes to drain finds every other control task ended |
| `FailureCleanup.OneCleanup` | core/experiments/runner.py:3630-3633 | at most one cleanup is created in a failure scope |
| `FailureCleanup.WhoseClearLosesAWakeup` | core/experiments/runner.py:1494-1499 | from any state within the invariant, a step loses a wake-up exactly when it clears the event for a wait of its own before a task whose target has joined has registered |
| `FailureCleanup.WhoCanClear` | core/experiments/runner.py:1494-1499 | no wake-up is lost before there is a cleanup; while it is active only through its own clear and never its own; after it is done also through a task that stops again |
| `FailureCleanup.NoWakeupIsLost` | core/server/experiment_controller.py:239-309 | as the controller takes up a command only when the one before it has ended, and reads stop nothing, no wake-up is lost in any interleaving |
| `CleanupExamples.CallerCanLoseItsWakeup` | core/experiments/runner.py:1494-1499 | with a service command beside a stop, which that rules out, there is an interleaving after which the stop sleeps although its target has joined |
| `FailureCleanup.TwoDrainingAfter` | core/experiments/runner.py:1483-1490 | two control tasks drain for each other after a step exactly if they did before it or a second one begins to drain with it |
| `FailureCleanup.BlockedIffDrainsBeside` | core/experiments/runner.py:1483-1490 | over any interleaving, control tasks end up blocked exactly if one ever began to drain beside another one |
| `FailureCleanup.DrainGoesOn` | core/experiments/runner.py:1446-1490 | in every interleaving in which one control task at most starts a stop, without an active cleanup every task has ended, can run, or waits over at most two steps for one that can |
| `FailureCleanup.DrainEnds` | core/experiments/runner.py:1446-1490 | so such an interleaving that can go no further has ended every task |
| `CleanupExamples.TwoStoppingTasksCanBlock` | core/experiments/runner.py:2979-2998 | an interleaving with a single command, in which a read fails and the command and the DAG task both begin to stop the others before the cleanup runs, and which blocks |
| `Ustar.HeaderRoundTrip` | core/experiments/archiver.py:655-669 | reading a written header block gives back name, mode, size and type |
| `Ustar.NumberOfOctal` | core/experiments/archiver.py:771 | an octal number field reads as the number that was written |
| `Ustar.ChecksumIgnoresItself` | core/experiments/archiver.py:771 | the checksum does not depend on its own field and fits six digits |
| `HeaderChecks.ReadableExactly` | core/experiments/archiver.py:771 | a block is read exactly when all its number fields hold numbers and the stored checksum is the unsigned or the signed sum of its bytes |
| `HeaderChecks.ReadNameAndKind` | core/experiments/archiver.py:771 | which headers are directories, and how name and prefix fields give the name that is read |
| `HeaderChecks.PaddedOctalReads` | core/experiments/archiver.py:771 | an octal number between blanks reads as that number, whatever follows a zero byte |
| `HeaderChecks.WideNumber` | core/experiments/archiver.py:771 | behind a marker byte a number is big-endian, in two's complement when the marker is 255 |
| `HeaderChecks.WrittenHeaderIsGuarded` | core/experiments/archiver.py:655-669 | a written header with any one byte outside the checksum changed is refused |
| `ArchiveTree.SafeEnds` | core/experiments/archive_inputs.py:56-69 | a name with safe components neither starts nor ends with a slash |
| `ArchiveTree.SafeIsClean` | core/experiments/archive_inputs.py:56-69 | in bytes, a name is safe exactly when it has no control byte and none of the nine listed characters, and no component between its slashes is empty, one dot, two dots, reserved, or ends in a dot or a blank |
| `ArchiveTree.RestrictedBits` | core/experiments/archiver.py:810-811 | an extracted file keeps exactly its execute bits and is readable and writable by its owner |
| `ArchiveTree.TakeInventory` | core/experiments/archiver.py:388-428 | the inventory succeeds exactly when names are safe and distinct ignoring case and count and bytes are within limits |
| `ArchiveTree.CheckPayload` | core/experiments/archiver.py:819-872 | a payload passes exactly when its inventory fits and equals the manifest's and its contents are accepted |
| `ArchiveReader.Decompress` | core/experiments/archiver.py:687-727 | the stream is refused exactly when it is longer than the limit |
| `ArchiveReader.ReadData` | core/experiments/archiver.py:798-806 | the chunked copy takes exactly the announced bytes or finds the stream truncated |
| `ArchiveReader.ReadTrailer` | core/experiments/archiver.py:760-767 | what follows the terminator is accepted exactly when it is all zeros and at most one record |
| `ArchiveReader.ReadMember` | core/experiments/archiver.py:771-811 | one header with its data: the checks in their order, and where the stream goes on |
| `ArchiveReader.Unpack` | core/experiments/archiver.py:729-817 | the loop computes the recursive reader, including every refusal |
| `ArchiveReader.UnsafeIffNotClean` | core/experiments/archiver.py:771-797 | a member is refused as unsafe exactly when its name is not clean in this sense |
| `ArchiveReader.TooLargeIff` | core/experiments/archiver.py:702-706 | an archive is refused as too large exactly when it is longer than the unpacked limit, 1024 bytes for each member and 10240 more |
| `ArchiveSoundness.AcceptedStream` | core/experiments/archiver.py:755-816 | an accepted stream is entries, two zero blocks and at most 10240 zero bytes; names are safe and distinct ignoring case, limits hold, and the entries are exactly the manifest's inventory and the manifest |
| `ArchiveSoundness.AcceptedTree` | core/experiments/archiver.py:755-872 | an accepted tree has clean names inside its own directories, exactly the sizes and digests of its manifest, and accepted contents |
| `ArchiveWriter.WrittenName` | core/experiments/archiver.py:655-669 | name and prefix fields give the name back, except that a directory with a name of its own of 100 bytes or more on a long path keeps a slash |
| `ArchiveWriter.StretchedIsWritten` | core/experiments/archiver.py:655-669 | every directory on a path of at most 155 bytes with a name of its own of 100 bytes or more is written without an error, its name field empty |
| `ArchiveWriter.Pack` | core/experiments/archiver.py:633-669 | packing succeeds exactly when the members are not too many and each fits a header, and yields blocks, terminator and a filled record |
| `ArchiveRoundTrip.ArchiveRoundTrip` | core/experiments/archiver.py:633-817 | unpacking a packed payload gives the same tree and manifest, unless the stream is over the limit or has such a directory; in those cases it is refused |
| `ArchiveBounds.PackedLength` | core/experiments/archiver.py:655-669 | the length of a packed archive follows from the sizes of its members |
| `ArchiveBounds.BlocksBounded` | core/experiments/archiver.py:702-706 | members and bytes bound the number of blocks |
| `ArchiveBounds.FullestReaches` | core/experiments/archiver.py:702-706 | that bound is reached |
| `ArchiveBounds.LimitAdmitsAllIff` | core/experiments/archiver.py:702-706 | the limit admits every archive within the settings exactly when it admits the fullest one |
| `ArchiveBounds.SlackSuffices` | core/experiments/archiver.py:702-706 | it admits an archive when it has a directory or an empty file, when there are 512 member slots, or when one slot or 512 bytes are left over |
| `ArchiveBounds.PackedStreamFits` | core/experiments/archiver.py:687-727 | a packed payload passes the decompressor when it has a directory, or under the other conditions |
| `ArchiveBounds.PayloadComesBack` | core/experiments/archiver.py:633-817 | a packed payload with a directory comes back exactly when none of its directories has such a name, and is refused as unsafe otherwise |
| `ArchiveExamples.FlatPayloadIsRefused` | core/experiments/archiver.py:702-706 | a manifest and a template that are packed within the settings and refused by the limit |
| `ArchiveExamples.StretchedPayloadIsRefused` | core/experiments/archiver.py:633-669 | a manifest, a template and a module folder of directories alone, one of them such, are packed, have the manifest's inventory, and are refused when read |
| `ArchiveExamples.StretchedPayloadExists` | core/experiments/archiver.py:633-669 | there are names for such a payload |
| `CacheJobs.DashboardViews.RefreshCacheSelection` | dashboard/views.py:195-217 | the active ones are what was passed, and exactly the registered experiments that leave them get a final request |
| `CacheJobs.LeavesBetween` | dashboard/views.py:195-217 | leaving, in the steps alone: selected by the one selection, registered by the last registration, and not selected by the next selection |
| `CacheJobs.LeaverIsRequested` | dashboard/views.py:195-217 | whoever leaves has a final request right after |
| `CacheJobs.OnlyLeaversAreRequested` | dashboard/views.py:195-217 | whoever has a final request has left |
| `CacheJobs.DashboardViews.ConsiderCache` | dashboard/views.py:219-224 | before the cache is looked at, only an experiment without a job and without a command refresh is considered, and only with a free worker |
| `CacheJobs.DashboardViews.SubmitCache` | dashboard/views.py:225-257 | after that a job is submitted only without another job and with a free worker, whatever happened in between; a final request is turned into an ordinary one by the submission |
| `CacheJobs.DashboardViews.CollectCacheJobs` | dashboard/views.py:420-461 | only complete jobs take a request off, whichever order the finished jobs come in |
| `CacheJobs.DashboardViews.RefreshCommandHistory` | dashboard/views.py:1790-1809 | a command's job may replace another one but settles nothing by being submitted |
| `CacheJobs.JobIsFromItsStep` | dashboard/views.py:225-257 | a running job was submitted by the step it is dated with and not collected since |
| `CacheJobs.PartialIsContinued` | dashboard/views.py:420-461 | after a partial job the next one goes on from its target |
| `CacheJobs.RequestIsServed` | dashboard/views.py:225-257 | a requested experiment gets a job when a worker is free, even with a complete cache, and stays requested exactly until a job completes |
| `CacheJobs.StepKeepsDebts` | dashboard/views.py:195-263 | every step keeps each owed refresh on the books |
| `CacheJobs.NoFinalRefreshIsLost` | dashboard/views.py:195-263 | from leaving the active ones, as read off the steps, until a job submitted after that completes, or the registration ends, an experiment stays scheduled |
| `CacheJobs.OwedGetsItsJob` | dashboard/views.py:225-257 | such an experiment gets a newer job when a worker is free after the look at its cache, even when the cache is complete |
| `Percentiles.SmallestHead` | dashboard/projections.py:1404 | the merge yields the smallest head, the earlier stream first among equals |
| `Percentiles.MergeStep` | dashboard/projections.py:1404 | what has been yielded stays in order and below everything left |
| `Percentiles.YieldedIsSorted` | dashboard/projections.py:1404-1409 | a merged prefix is the prefix of the sorted values |
| `Percentiles.ModuleStatistics` | dashboard/projections.py:1383-1409 | the merge that stops at the higher rank picks the two percentiles of all values |
| `NearestRank.PercentileIsNearestRank` | dashboard/projections.py:611-617 | a percentile is exactly a value of the list with at least that share of the values up to it and less than that share below it |

## Left out

- DagRuns.NextInv: attempt numbers, retained artifacts, pause requests and service instances are not part of the run record, because no modelled property depends on them.
- DagRunner.Runner.LaunchNextStage: the run record is one field of the class and is updated field by field; the separate Python attributes `_pending_advance` and `_manual` are fields of the record.
- DagRunner.Runner.ApplyStageOutcome: the retention of artifacts of earlier attempts is left out.
- DagRunner.Runner.Resume: its refusals for a journal pause, unready services and maintenance are left out.
- DagRunner.Runner.StepOnce: admission and announcement are one step of a history; the save between them, when a conditional pause is cleared, is the subject of `DagProgress.StepInTwoHalves` alone. Waiting for the boundary through a future is not modelled, and the readiness of services is one flag.
- DagRunner.Runner.PublishReloadDag: a result without its journal record is not republished, where the code raises an error; validated states have the record. Publishing the template files is left out.
- ExperimentHistory.IssuedIdsStayUsed: a continuation starts from the ids of its snapshot, so its ids are not compared with those of the experiment it leaves.
- RestoreTransaction.Restorer.StageSnapshot: free-space checks, links, ownership and the contents of the archive beyond one name are left out.
- RestoreTransaction.Restorer.Restore: the registry, the identity of the folders and the free space are one Boolean of the surroundings.
- Retention.RetainSnapshots: one experiment id for each snapshot store; validation of a snapshot is one Boolean.
- JournalScan.Journal.ReadEvents: the byte limit of a page is an arbitrary size, and integrity failures of the database are left out.
- JournalScan.ReadRecoveryCheckpoint: choosing the reader configuration among the files of the runner is left out.
- WriteAhead.CommittedProgressSurvives: recovery of a launch that was journalled but not checkpointed is left out, as is the comparison of the saved services with the template.
- FailureCleanup.CleanupNeverWaitsForItself: one failure scope with at most one task in each control slot; a cancelled task unwinds and does not start another stop. A command takes a control slot only while nobody is stopping work, so a task drains the commands it found.
- FailureCleanup.NoWakeupIsLost: the controller is modelled as far as it starts commands and reads and cancels them.
- CleanupExamples.TwoStoppingTasksCanBlock: the guards of a rollback (core/experiments/runner.py:2903-2912) and the preparation of the DAG task (core/experiments/runner.py:523-529) are not part of the model; that they admit the two together is read off these lines.
- Ustar.HeaderRoundTrip: text fields are byte strings; UTF-8 decoding, user and group names on reading, and signs or underscores in number fields are left out.
- ArchiveTree.CheckPayload: the check of template, modules and resources is one abstract predicate, digest, case folding and reserved names are abstract functions, and the order of refusals within the inventory is not kept.
- ArchiveReader.Decompress: the limit on compressed bytes, truncated input and XZ itself are left out.
- ArchiveReader.Unpack: the limit on compressed bytes, free space, links on the way to a file and XZ itself are left out.
- ArchiveExamples.FlatPayloadIsRefused: its template is one byte, and folding, digest, manifest reading and the acceptance of contents are the plainest functions of their types.
- ArchiveExamples.StretchedPayloadIsRefused: with the same plain functions, so only the inventory of the payload is checked.
- ArchiveWriter.Pack: the limit on the compressed archive and the free space are left out; members may come in any order without repetition, which includes the sorted one.
- Percentiles.ModuleStatistics: durations are real numbers; the heap of the merge is the choice of the smallest head.
- CacheJobs.DashboardViews.SubmitCache: previews, module publication, retry intervals and the process pool are left out; a broken pool shows as a submission that does not happen and as failed jobs.
- The policy for unknown stages is modelled as far as it pauses; its reruns are not.
- Snapshot creation, service supervision, stage execution and the state file's format are not part of this model.
- Symbolic links, process identities, wall-clock time, notifications, HTTP, the command line and the SQL views of the dashboard are not part of this model.
- Archiving of module identities and reader configuration is not part of this model.
