/**
 What the transitions of the run come to: which stage is visited next, with what input, which
 results are still there, and how long a command lasts.
 */
module DagEffects {
  import opened Options
  import opened Templates
  import opened ReloadPlan
  import opened DagState
  import opened DagInvariant
  import opened DagRuns
  import opened SnapshotState

  /** The place of the stage that the next launch visits. */
  function NextIndex(d: Dag): nat
    requires CursorInRange(d)
  {
    if !d.pendingAdvance then d.position - 1 else if d.position < |d.template.stages| then d.position else 0
  }

  /** Launching from `d` and beginning the visit runs the stage at `index`. */
  ghost predicate Visits(d: Dag, index: nat, requestId: RequestId) {
    && MayLaunch(d) && CursorInRange(Launched(d)) && index < |d.template.stages|
    && Begun(Launched(d), requestId).activity == Executing(Attempt(d.template.stages[index].stageId, requestId))
    && Begun(Launched(d), requestId).template == d.template
  }

  // ----- launching

  lemma LaunchVisitsNext(d: Dag, requestId: RequestId)
    requires CursorInRange(d) && MayLaunch(d)
    ensures Visits(d, NextIndex(d), requestId)
  {
    LaunchMovesCursor(d);
    BegunVisits(Launched(d), requestId);
  }

  lemma LaunchMovesCursor(d: Dag)
    requires CursorInRange(d)
    ensures Launched(d).template == d.template && Launched(d).activity.Launching?
    ensures Launched(d).position == NextIndex(d) + 1
  {
  }

  lemma BegunVisits(l: Dag, requestId: RequestId)
    requires l.activity.Launching? && CursorInRange(l)
    ensures Begun(l, requestId).activity == Executing(Attempt(l.template.stages[l.position - 1].stageId, requestId))
    ensures Begun(l, requestId).template == l.template && Begun(l, requestId).mode == l.mode
  {
  }

  /** Results are kept within a cycle; a new cycle starts without any. */
  lemma NewCycleStartsEmpty(d: Dag)
    requires Inv(d) && MayLaunch(d)
    ensures
      var l, wraps := Launched(d), d.pendingAdvance && d.position == |d.template.stages|;
      && l.cycle == d.cycle + (if wraps then 1 else 0)
      && l.results == (if wraps then map[] else d.results) && l.origins == (if wraps then map[] else d.origins)
      && l.lastResult == (if wraps then None else d.lastResult)
      && l.pendingInput == (if d.pendingAdvance then None else d.pendingInput)
      && l.lastDecision.None? && !l.manual && l.activity == Launching(d.manual)
  {
  }

  /** A visit by hand begins without the stage's own result and without input from before; others keep both. */
  lemma ManualVisitStartsAfresh(d: Dag, requestId: RequestId)
    requires d.activity.Launching? && CursorInRange(d)
    ensures
      var b, id := Begun(d, requestId), CursorStage(d).stageId;
      && requestId in b.usedRequests
      && (d.activity.manual ==> id !in b.results && id !in b.origins && b.lastResult.None?)
      && (!d.activity.manual ==> b.lastResult == d.lastResult)
      && forall s :: s in d.results && !(d.activity.manual && s == id) ==>
           s in b.results && b.results[s] == d.results[s]
  {
  }

  /** A retry is the same visit under a new request, and is counted for its stage alone. */
  lemma RetryCounts(d: Dag, requestId: RequestId)
    requires d.activity.Executing?
    ensures
      var r, id := Retried(d, requestId), d.activity.attempt.stageId;
      && r.activity == Executing(Attempt(id, requestId)) && requestId in r.usedRequests
      && id in r.retries && r.retries[id] == (if id in d.retries then d.retries[id] else 0) + 1
      && (forall s :: s in d.retries && s != id ==> s in r.retries && r.retries[s] == d.retries[s])
      && r.retries.Keys == d.retries.Keys + {id}
  {
  }

  // ----- after an outcome

  function AfterOutcome(d: Dag, outcome: Outcome): Dag
    requires CursorInRange(d) && (Decides(d, outcome) ==> TargetKnown(d, outcome.response.value.command))
  {
    Settled(Accepted(d, outcome, false))
  }

  /** A plain success hands its data on to the next stage, or to the first one of the next cycle. */
  lemma SuccessGoesOn(d: Dag, outcome: Outcome, requestId: RequestId)
    requires Inv(d) && d.activity == Executing(outcome.attempt) && d.mode.Running?
    requires outcome.action.Advance? && outcome.response.Some? && !CursorStage(d).conditional
    ensures
      var e := AfterOutcome(d, outcome);
      && e.lastResult == Some(LastResult(outcome.attempt.requestId, outcome.response.value.data))
      && e.results == d.results[outcome.attempt.stageId := outcome.attempt.requestId]
      && if d.position == |d.template.stages| && d.cycle == d.template.cycles then AtDagEnd(e)
         else Visits(e, if d.position < |d.template.stages| then d.position else 0, requestId)
  {
    AcceptKeeps(d, outcome, false);
    var a := Accepted(d, outcome, false);
    SettleKeeps(a);
    if !AtDagEnd(Settled(a)) {
      LaunchVisitsNext(Settled(a), requestId);
    }
  }

  /** A stage that does not advance pauses the run; once resumed it is visited again. */
  lemma HoldRepeats(d: Dag, outcome: Outcome, requestId: RequestId)
    requires Inv(d) && d.activity == Executing(outcome.attempt)
    requires outcome.action.Hold? && outcome.response.None?
    ensures
      var e := AfterOutcome(d, outcome);
      && !MayLaunch(e) && e.mode.Paused? && e.desired.Paused? && MayResume(e)
      && outcome.attempt.stageId !in e.results && e.lastResult.None?
      && Visits(Resumed(e), d.position - 1, requestId) && Resumed(e).cycle == d.cycle
  {
    AcceptKeeps(d, outcome, false);
    SettleKeeps(Accepted(d, outcome, false));
    var e := AfterOutcome(d, outcome);
    ResumeKeeps(e);
    LaunchVisitsNext(Resumed(e), requestId);
  }

  /** The stages from the target on lose their results and retry counts, and no others do. */
  lemma MoveForgets(d: Dag, source: DagDecision, target: StageId, i: nat)
    requires UniqueStageIds(d.template.stages) && target in Ids(d) && i < |d.template.stages|
    ensures
      var m, id, index := Moved(d, source, target), d.template.stages[i].stageId, IndexOf(d.template.stages, target);
      && (i >= index ==> id !in m.results && id !in m.origins && id !in m.retries)
      && (i < index ==> (id in m.results <==> id in d.results) && (id in d.results ==> m.results[id] == d.results[id]))
      && (i < index ==> (id in m.origins <==> id in d.origins) && (id in m.retries <==> id in d.retries))
  {
    var stages, index := d.template.stages, IndexOf(d.template.stages, target);
    var tail := stages[index..];
    StageIdsAre(tail, stages[i].stageId);
    if i >= index {
      assert tail[i - index] == stages[i];
      assert stages[i].stageId in StageIds(tail);
    } else {
      forall k | 0 <= k < |tail| ensures tail[k].stageId != stages[i].stageId {
        assert tail[k] == stages[index + k];
      }
    }
  }

  /** A conditional move goes to its target in the same cycle and hands the accepted result to it. */
  lemma MoveVisitsTarget(d: Dag, outcome: Outcome, requestId: RequestId)
    requires Inv(d) && d.activity == Executing(outcome.attempt) && d.mode.Running?
    requires outcome.action.Advance? && Decides(d, outcome) && outcome.response.value.command.Move?
    requires outcome.response.value.command.target in Ids(d)
    ensures
      var e, target := AfterOutcome(d, outcome), outcome.response.value.command.target;
      && Visits(e, IndexOf(d.template.stages, target), requestId) && Launched(e).cycle == d.cycle
      && Launched(e).pendingInput
         == Some(PendingInput(outcome.attempt.requestId, outcome.attempt.stageId, d.experimentId, target))
      && Launched(e).lastResult == Some(LastResult(outcome.attempt.requestId, outcome.response.value.data))
  {
    AcceptKeeps(d, outcome, false);
    SettleKeeps(Accepted(d, outcome, false));
    LaunchVisitsNext(AfterOutcome(d, outcome), requestId);
  }

  /** A conditional pause holds the run until it is resumed or stepped; a conditional stop ends it. */
  lemma PauseAndStopHold(d: Dag, outcome: Outcome)
    requires Inv(d) && d.activity == Executing(outcome.attempt) && outcome.action.Advance? && Decides(d, outcome)
    ensures outcome.response.value.command == Pause ==>
              AtIdlePause(AfterOutcome(d, outcome)) && !MayLaunch(AfterOutcome(d, outcome).(stepping := false))
              && !AtDagEnd(AfterOutcome(d, outcome))
    ensures outcome.response.value.command == Stop ==> AfterOutcome(d, outcome).activity == Halted(None)
  {
  }

  /** A decision waits for a snapshot exactly when the policy takes one after a success of this stage. */
  lemma DecisionWaits(d: Dag, outcome: Outcome)
    requires CursorInRange(d) && (Decides(d, outcome) ==> TargetKnown(d, outcome.response.value.command))
    ensures
      var a, stage := Accepted(d, outcome, DefersDecision(d, outcome)), d.template.stages[d.position - 1];
      && (a.pendingDecision.Some? <==>
            outcome.response.Some? && stage.conditional && d.template.snapshotAfterEpoch && stage.snapshotAfter)
      && (a.lastDecision.Some? <==>
            outcome.response.Some? && stage.conditional && !(d.template.snapshotAfterEpoch && stage.snapshotAfter))
      && (a.pendingDecision.Some? || a.lastDecision.Some? ==>
            var t := if a.pendingDecision.Some? then a.pendingDecision.value else a.lastDecision.value;
            t == DagDecision(outcome.attempt.requestId, outcome.attempt.stageId, d.experimentId,
                             outcome.response.value.command))
  {
  }

  /** A step to the last boundary of the DAG is still announced while the run completes. */
  lemma LastStepWaitsForTheEnd(d: Dag)
    requires d.stepping && !HasCommand(d.lastDecision, Stop)
    ensures Settled(d).stepping <==> AtDagEnd(d)
  {
  }

  /** Only a step at an idle pause, with ready services and no other step, is taken. */
  lemma StepIsAdmitted(d: Dag, servicesReady: bool)
    requires d.mode.Running? || !d.activity.Idle? || d.stepping || !servicesReady
    ensures Stepped(d, servicesReady) == d
  {
  }

  // ----- operator commands

  /** Resuming an idle run makes it launch, unless the DAG has ended. */
  lemma ResumeLaunches(d: Dag)
    requires Inv(d) && d.activity.Idle?
    ensures MayLaunch(Resumed(d)) <==> !AtDagEnd(Resumed(d))
    ensures Resumed(d).mode.Running? && Resumed(d).desired.Running?
  {
  }

  /** After an operator's move the stage at the new position is the next one, when the run is resumed. */
  lemma MoveToVisits(d: Dag, position: int, requestId: RequestId)
    requires AtIdlePause(d) && 1 <= position <= |d.template.stages|
    ensures Visits(Resumed(CursorMoved(d, position)), position - 1, requestId)
  {
    LaunchVisitsNext(Resumed(CursorMoved(d, position)), requestId);
  }

  /** And when it is stepped. */
  lemma MoveToSteps(d: Dag, position: int, requestId: RequestId)
    requires AtIdlePause(d) && !d.stepping && 1 <= position <= |d.template.stages|
    ensures Visits(Stepped(CursorMoved(d, position), true), position - 1, requestId)
  {
    LaunchVisitsNext(Stepped(CursorMoved(d, position), true), requestId);
  }

  /** The launch after it finds all results, in the same cycle, and no conditional input. */
  lemma MoveToKeepsResults(d: Dag, position: int)
    requires AtIdlePause(d) && 1 <= position <= |d.template.stages|
    ensures
      var l := Launched(Resumed(CursorMoved(d, position)));
      && l.cycle == d.cycle && l.results == d.results && l.origins == d.origins && l.retries == d.retries
      && l.pendingInput.None?
      && (var accepted :=
            d.lastResult.Some? && exists s :: s in d.results && d.results[s] == d.lastResult.value.requestId;
          l.lastResult == if accepted then d.lastResult else None)
  {
  }

  /** A rerun visits the stage under the cursor again, by hand. */
  lemma RerunVisitsAgain(d: Dag, requestId: RequestId)
    requires Inv(d) && MayStep(d, true)
    ensures Visits(Rerun(d, d.position, true), d.position - 1, requestId)
    ensures Launched(Rerun(d, d.position, true)).activity == Launching(true)
  {
    RerunKeeps(d, d.position, true);
    LaunchVisitsNext(Rerun(d, d.position, true), requestId);
  }

  /** A step visits the next stage in a run that stays paused. */
  lemma StepVisitsNext(d: Dag, requestId: RequestId)
    requires Inv(d) && MayStep(d, true) && !AtDagEnd(Stepped(d, true))
    ensures Visits(Stepped(d, true), NextIndex(d), requestId)
    ensures Begun(Launched(Stepped(d, true)), requestId).mode.Paused?
  {
    StepKeepsInv(d, true);
    LaunchVisitsNext(Stepped(d, true), requestId);
    BegunVisits(Launched(Stepped(d, true)), requestId);
  }

  /** It lasts for one visit: whatever that comes to, nothing launches after it without another command. */
  lemma StepIsOneVisit(d: Dag, outcome: Outcome)
    requires CursorInRange(d) && d.activity == Executing(outcome.attempt) && d.mode.Paused?
    requires Decides(d, outcome) ==> TargetKnown(d, outcome.response.value.command)
    ensures !MayLaunch(AfterOutcome(d, outcome))
  {
  }

  // ----- reloads and restorations

  /** A reload keeps the results of the unchanged prefix, each with its origin, and no others. */
  lemma ReloadKeepsPrefixResults(
    d: Dag, candidate: Template, layout: Layout, completed: set<StageId>, journal: Journal, s: StageId)
    requires Inv(d) && ValidTemplate(candidate)
    requires IsLayout(d.template, candidate, CursorOf(d.position, d.pendingAdvance), layout)
    ensures CursorFits(candidate, layout, PlanCursor(layout, completed))
    ensures
      var r := Reloaded(d, candidate, layout, PlanCursor(layout, completed), journal);
      && r.template == candidate && r.cycle == d.cycle && r.usedRequests == d.usedRequests
      && (s in r.results <==>
            s in d.results && exists i :: 0 <= i < layout.prefix && candidate.stages[i].stageId == s)
      && (s in r.results ==>
            r.results[s] == d.results[s] && (s in r.origins <==> s in d.origins)
            && (s in d.origins ==> r.origins[s] == d.origins[s]))
  {
    PlannedCursorFits(d, candidate, layout, completed);
    PrefixHolds(candidate, layout, s);
  }

  lemma PrefixHolds(candidate: Template, layout: Layout, s: StageId)
    requires layout.newStages == candidate.stages && layout.prefix <= |candidate.stages|
    ensures s in StageIds(layout.newStages[..layout.prefix])
       <==> exists i :: 0 <= i < layout.prefix && candidate.stages[i].stageId == s
  {
    var front := layout.newStages[..layout.prefix];
    StageIdsAre(front, s);
    if s in StageIds(front) {
      var i :| 0 <= i < |front| && front[i].stageId == s;
      assert candidate.stages[i].stageId == s;
    }
    if exists i :: 0 <= i < layout.prefix && candidate.stages[i].stageId == s {
      var i :| 0 <= i < layout.prefix && candidate.stages[i].stageId == s;
      assert front[i].stageId == s;
    }
  }

  /**
   Conditional input survives a reload when both its ends are preserved and it is still for the stage
   under the cursor; the last decision when its source is, and its input too; retries with their stage.
   The last result is that of the stage before the cursor, if it is preserved and journalled.
   */
  lemma ReloadKeepsTransfers(d: Dag, candidate: Template, layout: Layout, cursor: Cursor, journal: Journal)
    requires CursorFits(candidate, layout, cursor)
    ensures
      var r := Reloaded(d, candidate, layout, cursor, journal);
      && r.pendingInput
         == (if d.pendingInput.Some? && d.pendingInput.value.sourceStageId in cursor.preserved
                && d.pendingInput.value.stageId in cursor.preserved
                && d.pendingInput.value.stageId == candidate.stages[cursor.stagePosition - 1].stageId
             then d.pendingInput else None)
      && r.lastDecision
         == (if d.lastDecision.Some? && d.lastDecision.value.sourceStageId in cursor.preserved
                && (d.lastDecision.value.command.Move? ==> r.pendingInput.Some?)
             then d.lastDecision else None)
      && r.retries.Keys == d.retries.Keys * cursor.preserved && r.mode == d.mode && r.desired.Paused?
      && (forall s :: s in r.retries ==> r.retries[s] == d.retries[s])
  {
  }

  lemma ReloadRepublishesLast(d: Dag, candidate: Template, layout: Layout, cursor: Cursor, journal: Journal)
    requires CursorFits(candidate, layout, cursor)
    ensures
      var r := Reloaded(d, candidate, layout, cursor, journal);
      if cursor.nextPosition == 0 then r.lastResult.None?
      else
        var before := candidate.stages[cursor.nextPosition - 1].stageId;
        if before in d.results && before in cursor.preserved && d.results[before] in journal
        then r.lastResult == Some(LastResult(d.results[before], journal[d.results[before]].data))
        else r.lastResult.None?
  {
  }

  /** The run goes on at the planned place: the stage there is the next one to be visited. */
  lemma ReloadVisitsPlanned(
    d: Dag, candidate: Template, layout: Layout, completed: set<StageId>, journal: Journal, requestId: RequestId)
    requires Inv(d) && AtIdlePause(d) && !d.stepping
    requires ValidTemplate(candidate) && candidate.cycles == d.template.cycles
    requires IsLayout(d.template, candidate, CursorOf(d.position, d.pendingAdvance), layout)
    ensures CursorFits(candidate, layout, PlanCursor(layout, completed))
    ensures
      var cursor := PlanCursor(layout, completed);
      var r := Reloaded(d, candidate, layout, cursor, journal);
      && AtIdlePause(r)
      && (cursor.nextPosition < |candidate.stages| ==> Visits(Resumed(r), cursor.nextPosition, requestId))
  {
    PlannedCursorFits(d, candidate, layout, completed);
    var cursor := PlanCursor(layout, completed);
    var r := Reloaded(d, candidate, layout, cursor, journal);
    ReloadKeeps(d, candidate, layout, cursor, journal);
    ResumeKeeps(r);
    if cursor.nextPosition < |candidate.stages| {
      LaunchVisitsNext(Resumed(r), requestId);
    }
  }

  /**
   A stop that the snapshot had completed is not carried out again: the restored run is idle. One that
   it had only decided is.
   */
  lemma CompletedStopIsDropped(snapshot: Snapshot, stoppedRequests: set<RequestId>, experimentId: ExperimentId)
    requires HasCommand(snapshot.dag.lastDecision, Stop) && snapshot.dag.pendingDecision.None?
    ensures
      var r := RestoredState(snapshot, stoppedRequests, experimentId);
      && Prepared(r).activity == (if snapshot.stopped then Idle else Halted(None))
      && r.lastDecision == (if snapshot.stopped then None else snapshot.dag.lastDecision)
  {
  }

  /** Nothing else of the run's progress changes with a restoration, and the run waits to be resumed. */
  lemma RestoredProgress(snapshot: Snapshot, stoppedRequests: set<RequestId>, experimentId: ExperimentId)
    ensures
      var d, r := snapshot.dag, RestoredState(snapshot, stoppedRequests, experimentId);
      && r.template == d.template && r.experimentId == experimentId
      && r.position == d.position && r.cycle == d.cycle && r.pendingAdvance == d.pendingAdvance
      && r.results == d.results && r.retries == d.retries && r.lastResult == d.lastResult
      && r.pendingInput == d.pendingInput && r.pendingDecision == d.pendingDecision
      && (!HasCommand(d.lastDecision, Stop) ==> r.lastDecision == d.lastDecision)
      && r.mode.Paused? && r.desired.Paused? && !r.stepping && !r.manual && r.activity == Preparing(None)
  {
  }
}
