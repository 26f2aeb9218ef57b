/** Short runs: a command, what the scheduler does about it, and what comes of it. */
module DagCommands {
  import opened Options
  import opened Templates
  import opened ReloadPlan
  import opened DagState
  import opened DagInvariant
  import opened DagBacking
  import opened DagRuns
  import opened DagEffects

  ghost predicate Leads(d: Dag, journal: Journal, steps: seq<Step>, e: Dag)
    decreases |steps|
  {
    Inv(d) && if steps == [] then e == d
              else Possible(d, journal, steps[0])
                   && Leads(Next(d, journal, steps[0]), JournalAfter(d, journal, steps[0]), steps[1..], e)
  }

  lemma Once(d: Dag, journal: Journal, one: Step)
    requires Inv(d) && Possible(d, journal, one)
    ensures Leads(d, journal, [one], Next(d, journal, one)) && Inv(Next(d, journal, one))
  {
    NextInv(d, journal, one);
  }

  lemma Then(d: Dag, journal: Journal, one: Step, rest: seq<Step>, e: Dag)
    requires Inv(d) && Possible(d, journal, one)
    requires Leads(Next(d, journal, one), JournalAfter(d, journal, one), rest, e)
    ensures Leads(d, journal, [one] + rest, e)
  {
    assert ([one] + rest)[1..] == rest;
  }

  /** A run that may launch visits its next stage. */
  lemma VisitFollows(d: Dag, journal: Journal, index: nat, requestId: RequestId) returns (e: Dag)
    requires Inv(d) && Visits(d, index, requestId) && requestId !in d.usedRequests
    ensures Leads(d, journal, [Launch, Begin(requestId)], e) && Inv(e)
    ensures e.activity == Executing(Attempt(d.template.stages[index].stageId, requestId)) && e.mode == d.mode
  {
    var l := Launched(d);
    e := Begun(l, requestId);
    LaunchKeeps(d);
    BegunVisits(l, requestId);
    LaunchedKeepsMode(d);
    Once(l, journal, Begin(requestId));
    Then(d, journal, Launch, [Begin(requestId)], e);
    assert [Launch, Begin(requestId)] == [Launch] + [Begin(requestId)];
  }

  lemma LaunchedKeepsMode(d: Dag)
    ensures Launched(d).mode == d.mode && Launched(d).template == d.template && Launched(d).activity.Launching?
  {
  }

  /** Resumed, it does so too. */
  lemma ResumedVisitFollows(d: Dag, journal: Journal, index: nat, requestId: RequestId) returns (e: Dag)
    requires Inv(d) && MayResume(d) && Visits(Resumed(d), index, requestId) && requestId !in d.usedRequests
    ensures Leads(d, journal, [Resume] + [Launch, Begin(requestId)], e)
    ensures e.activity == Executing(Attempt(d.template.stages[index].stageId, requestId))
  {
    ResumeKeeps(d);
    e := VisitFollows(Resumed(d), journal, index, requestId);
    Then(d, journal, Resume, [Launch, Begin(requestId)], e);
  }

  // ----- where a command takes the run

  /** An operator's move to a position: resumed, the run visits the stage there. */
  lemma MoveToRuns(d: Dag, journal: Journal, position: int, requestId: RequestId) returns (e: Dag)
    requires Inv(d) && AtIdlePause(d) && 1 <= position <= |d.template.stages| && requestId !in d.usedRequests
    ensures Leads(d, journal, [MoveTo(position)] + ([Resume] + [Launch, Begin(requestId)]), e)
    ensures e.activity == Executing(Attempt(d.template.stages[position - 1].stageId, requestId))
  {
    var m := CursorMoved(d, position);
    MoveToVisits(d, position, requestId);
    MoveCursorKeeps(d, position);
    MovedStays(d, position);
    e := ResumedVisitFollows(m, journal, position - 1, requestId);
    Then(d, journal, MoveTo(position), [Resume] + [Launch, Begin(requestId)], e);
  }

  lemma MovedStays(d: Dag, position: int)
    ensures CursorMoved(d, position).template == d.template && CursorMoved(d, position).activity == d.activity
    ensures CursorMoved(d, position).usedRequests == d.usedRequests
  {
  }

  /** A step visits the next stage and stays paused. */
  lemma StepRuns(d: Dag, journal: Journal, requestId: RequestId) returns (e: Dag)
    requires Inv(d) && MayStep(d, true) && !AtDagEnd(Stepped(d, true)) && requestId !in d.usedRequests
    ensures Leads(d, journal, [StepOnce(true)] + [Launch, Begin(requestId)], e)
    ensures e.activity == Executing(Attempt(d.template.stages[NextIndex(d)].stageId, requestId)) && e.mode.Paused?
  {
    StepVisitsNext(d, requestId);
    StepKeepsInv(d, true);
    e := VisitFollows(Stepped(d, true), journal, NextIndex(d), requestId);
    Then(d, journal, StepOnce(true), [Launch, Begin(requestId)], e);
  }

  /** And with the outcome of that visit it is over. */
  lemma OutcomeEndsStep(d: Dag, journal: Journal, outcome: Outcome) returns (e: Dag)
    requires Inv(d) && d.mode.Paused? && Acceptable(journal, d, outcome) && !DefersDecision(d, outcome)
    ensures Leads(d, journal, [Accept(outcome), Settle], e) && !MayLaunch(e)
  {
    var a := Accepted(d, outcome, false);
    NextInv(d, journal, Accept(outcome));
    AcceptedSettles(d, outcome);
    StepIsOneVisit(d, outcome);
    e := Settled(a);
    Once(a, Recorded(journal, d, outcome), Settle);
    Then(d, journal, Accept(outcome), [Settle], e);
    assert [Accept(outcome), Settle] == [Accept(outcome)] + [Settle];
  }

  lemma AcceptedSettles(d: Dag, outcome: Outcome)
    requires CursorInRange(d) && (Decides(d, outcome) ==> TargetKnown(d, outcome.response.value.command))
    ensures Accepted(d, outcome, false).activity.Settling? && Accepted(d, outcome, false).pendingDecision.None?
  {
  }

  /** A step that is given up launches nothing. */
  lemma CancelledStepRunsNothing(d: Dag, journal: Journal) returns (e: Dag)
    requires Inv(d) && MayStep(d, true)
    ensures Leads(d, journal, [StepOnce(true), CancelStep], e) && !MayLaunch(e)
  {
    StepKeepsInv(d, true);
    Once(Stepped(d, true), journal, CancelStep);
    e := Stepped(d, true).(stepping := false);
    Then(d, journal, StepOnce(true), [CancelStep], e);
    assert [StepOnce(true), CancelStep] == [StepOnce(true)] + [CancelStep];
  }

  /** A rerun visits the stage under the cursor by hand. */
  lemma RerunRuns(d: Dag, journal: Journal, requestId: RequestId) returns (e: Dag)
    requires Inv(d) && MayStep(d, true) && requestId !in d.usedRequests
    ensures Leads(d, journal, [RerunStage(d.position, true)] + [Launch, Begin(requestId)], e)
    ensures e.activity == Executing(Attempt(CursorStage(d).stageId, requestId)) && e.mode.Paused?
  {
    RerunVisitsAgain(d, requestId);
    RerunKeeps(d, d.position, true);
    e := VisitFollows(Rerun(d, d.position, true), journal, d.position - 1, requestId);
    Then(d, journal, RerunStage(d.position, true), [Launch, Begin(requestId)], e);
  }

  /** After a reload the run goes on with the stage that the plan says, unless it is at the end. */
  lemma ReloadRuns(
    d: Dag, journal: Journal, candidate: Template, layout: Layout, completed: set<StageId>, requestId: RequestId)
    returns (e: Dag)
    requires Inv(d) && Possible(d, journal, Reload(candidate, layout, completed)) && requestId !in d.usedRequests
    requires layout.prefix <= |layout.oldStages| && layout.prefix <= |layout.newStages|
    requires PlanCursor(layout, completed).nextPosition < |candidate.stages|
    ensures
      var reload := Reload(candidate, layout, completed);
      Leads(d, journal, [reload] + ([Resume] + [Launch, Begin(requestId)]), e)
    ensures
      var next := PlanCursor(layout, completed).nextPosition;
      e.activity == Executing(Attempt(candidate.stages[next].stageId, requestId))
  {
    var reload, cursor := Reload(candidate, layout, completed), PlanCursor(layout, completed);
    ReloadVisitsPlanned(d, candidate, layout, completed, journal, requestId);
    var r := Reloaded(d, candidate, layout, cursor, journal);
    ReloadKeeps(d, candidate, layout, cursor, journal);
    e := ResumedVisitFollows(r, journal, cursor.nextPosition, requestId);
    Then(d, journal, reload, [Resume] + [Launch, Begin(requestId)], e);
  }

  /** A move that waited for the node's snapshot is carried out after it: the target is visited next. */
  lemma DeferredMoveRuns(d: Dag, journal: Journal, outcome: Outcome, requestId: RequestId) returns (e: Dag)
    requires Inv(d) && d.mode.Running? && Acceptable(journal, d, outcome) && DefersDecision(d, outcome)
    requires Decides(d, outcome) && outcome.response.value.command.Move? && requestId !in d.usedRequests
    ensures Leads(d, journal, [Accept(outcome)] + ([ApplyPending] + ([Settle] + [Launch, Begin(requestId)])), e)
    ensures e.activity == Executing(Attempt(outcome.response.value.command.target, requestId))
  {
    var held, grown := Accepted(d, outcome, true), Recorded(journal, d, outcome);
    AcceptKeeps(d, outcome, true);
    AcceptKeeps(d, outcome, false);
    AppliedLater(d, outcome);
    e := MoveRuns(d, grown, outcome, requestId);
    Then(held, grown, ApplyPending, [Settle] + [Launch, Begin(requestId)], e);
    Then(d, journal, Accept(outcome), [ApplyPending] + ([Settle] + [Launch, Begin(requestId)]), e);
  }

  lemma MoveRuns(d: Dag, journal: Journal, outcome: Outcome, requestId: RequestId) returns (e: Dag)
    requires Inv(d) && d.mode.Running? && d.activity == Executing(outcome.attempt) && outcome.action.Advance?
    requires Decides(d, outcome) && outcome.response.value.command.Move? && requestId !in d.usedRequests
    requires outcome.response.value.command.target in Ids(d) && Inv(Accepted(d, outcome, false))
    ensures Leads(Accepted(d, outcome, false), journal, [Settle] + [Launch, Begin(requestId)], e)
    ensures e.activity == Executing(Attempt(outcome.response.value.command.target, requestId))
  {
    var a := Accepted(d, outcome, false);
    AppliedLater(d, outcome);
    SettleKeeps(a);
    MoveVisitsTarget(d, outcome, requestId);
    var target := IndexOf(d.template.stages, outcome.response.value.command.target);
    e := VisitFollows(Settled(a), journal, target, requestId);
    Then(a, journal, Settle, [Launch, Begin(requestId)], e);
  }

  lemma AppliedLater(d: Dag, outcome: Outcome)
    requires CursorInRange(d) && Decides(d, outcome) && TargetKnown(d, outcome.response.value.command)
    ensures Accepted(d, outcome, true).activity.Settling?
    ensures PendingApplied(Accepted(d, outcome, true)) == Accepted(d, outcome, false)
    ensures Accepted(d, outcome, false).pendingDecision.None? && Accepted(d, outcome, false).activity.Settling?
    ensures Settled(Accepted(d, outcome, false)).usedRequests == d.usedRequests
  {
  }

  // ----- pauses

  /** A pause leaves the run where it is; one that is asked for, or that a service needs, is meant to last. */
  lemma PausesLast(d: Dag, journal: Journal, step: Step)
    requires Inv(d) && Possible(d, journal, step)
    requires step.PauseRequested? || step.ServicePause? || step.JournalPause? || step.PauseReached?
    ensures
      var next := Next(d, journal, step);
      && next.mode.Paused? && next.position == d.position && next.results == d.results
      && (step.PauseRequested? || step.ServicePause? ==> next.desired.Paused?)
      && (step.ServicePause? ==> !next.stepping && !MayLaunch(next))
      && (step.JournalPause? || step.PauseReached? ==> next.desired == d.desired)
  {
  }

  /** When the journal is ready again, the run has the mode that was asked for. */
  lemma JournalPauseEnds(d: Dag, journal: Journal)
    requires Inv(d) && !d.activity.Halted?
    ensures Leads(d, journal, [JournalPause, JournalReady], d.(mode := d.desired))
  {
    var paused := d.(mode := Mode.Paused);
    NextInv(d, journal, JournalPause);
    Once(paused, journal, JournalReady);
    Then(d, journal, JournalPause, [JournalReady], d.(mode := d.desired));
    assert [JournalPause, JournalReady] == [JournalPause] + [JournalReady];
  }

  // ----- the ends of a run

  /** However a run ends, nothing launches afterwards; an operator's stop gives up the attempt, a failure keeps it. */
  lemma EndsLaunchNothing(d: Dag, journal: Journal, step: Step)
    requires Inv(d) && Possible(d, journal, step) && Ends(step)
    ensures
      var next := Next(d, journal, step);
      && !MayLaunch(next) && !MayResume(next) && !next.stepping
      && (step.LoseTrack? || step.StageStop? || step.Fail? ==> ActiveAttempt(next) == ActiveAttempt(d))
      && (step.OperatorStop? || step.Complete? ==> ActiveAttempt(next).None?)
      && (step.OperatorStop? ==> next.pendingAdvance == (d.pendingAdvance && ActiveAttempt(d).None?))
      && (step.LoseTrack? ==> next.mode.Paused? && next.desired.Paused? && !next.pendingAdvance)
      && (step.StageStop? ==> d.activity.attempt.stageId !in next.results && next.lastResult.None?)
      && (!step.StageStop? ==> next.results == d.results && next.lastResult == d.lastResult)
  {
  }

  /** A recovered attempt is taken up again, and a run without one waits. */
  lemma PreparationTakesUp(d: Dag, journal: Journal)
    requires Inv(d) && d.activity.Preparing? && !HasCommand(d.lastDecision, Stop) && d.pendingDecision.None?
    ensures
      Next(d, journal, Prepare)
      == d.(activity := if d.activity.recovered.Some? then Executing(d.activity.recovered.value) else Idle)
  {
  }
}
