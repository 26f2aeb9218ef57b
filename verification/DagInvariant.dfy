/**
 The invariant of a DAG run and its preservation by every step of the state machine.
 */
module DagInvariant {
  import opened Options
  import opened Templates
  import opened ReloadPlan
  import opened DagState

  // ----- the invariant of one DAG state

  ghost predicate InputAtCursor(d: Dag)
    requires CursorInRange(d)
  {
    d.pendingInput.Some? ==>
      && d.pendingInput.value.stageId == CursorStage(d).stageId
      && d.pendingInput.value.sourceStageId in Ids(d)
  }

  /** The result handed on is a current one, or the input that a conditional move transfers. */
  ghost predicate LastResultHeld(d: Dag) {
    d.lastResult.Some? ==>
      || d.lastResult.value.requestId in d.results.Values
      || (&& !d.pendingAdvance
          && d.pendingInput.Some? && d.pendingInput.value.requestId == d.lastResult.value.requestId)
  }

  ghost predicate LastDecisionSound(d: Dag) {
    d.lastDecision.Some? ==>
      var l := d.lastDecision.value;
      && l.sourceStageId in Ids(d)
      && (l.command.Move? ==>
            && d.pendingInput.Some?
            && d.pendingInput.value.stageId == l.command.target
            && d.pendingInput.value.requestId == l.requestId)
  }

  /** A deferred decision still belongs to the result that was just accepted under the cursor. */
  ghost predicate PendingDecisionSound(d: Dag)
    requires CursorInRange(d)
  {
    d.pendingDecision.Some? ==>
      var p := d.pendingDecision.value;
      && d.lastDecision.None?
      && (d.activity.Settling? || d.activity == Halted(None) || d.activity == Preparing(None))
      && d.lastResult.Some? && d.lastResult.value.requestId == p.requestId
      && p.sourceStageId in d.results && d.results[p.sourceStageId] == p.requestId
      && CursorStage(d).stageId == p.sourceStageId
      && TargetKnown(d, p.command)
  }

  /** While a visit is under way nothing is advanced or decided, and it belongs to the cursor. */
  ghost predicate VisitAtCursor(d: Dag)
    requires CursorInRange(d)
  {
    && (ActiveAttempt(d).Some? ==> ActiveAttempt(d).value.stageId == CursorStage(d).stageId
                                   && ActiveAttempt(d).value.requestId in d.usedRequests)
    && (ActiveAttempt(d).Some? || d.activity.Launching? ==> !d.pendingAdvance && d.lastDecision.None?)
  }

  /** A conditional pause is always cleared before anything can launch; a stop never idles. */
  ghost predicate DecisionsHold(d: Dag) {
    && (d.mode.Running? ==> d.desired.Running?)
    && (d.desired.Running? ==> !HasCommand(d.lastDecision, Pause))
    && (d.stepping ==> MayResume(d))
    && (d.stepping && !d.activity.Settling? ==> !HasCommand(d.lastDecision, Pause))
    && (d.activity.Idle? ==> !HasCommand(d.lastDecision, Stop))
  }

  ghost predicate Inv(d: Dag) {
    && ValidTemplate(d.template)
    && CursorInRange(d) && 1 <= d.cycle <= d.template.cycles
    && d.results.Keys <= Ids(d) && d.origins.Keys <= d.results.Keys
    && InputAtCursor(d) && LastResultHeld(d)
    && LastDecisionSound(d) && PendingDecisionSound(d)
    && VisitAtCursor(d) && DecisionsHold(d)
  }

  // ----- what the steps keep

  lemma LaunchKeeps(d: Dag)
    requires Inv(d) && MayLaunch(d)
    ensures Inv(Launched(d))
  {
    var l := Launched(d);
    if !d.pendingAdvance {
      assert l.results == d.results && l.position == d.position;
    } else if d.position + 1 > |d.template.stages| {
      assert l.results == map[] && l.position == 1;
    } else {
      assert l.results == d.results && l.pendingInput.None?;
    }
  }

  /** Dropping the result of a visit that starts over, or that was stopped. */
  lemma ForgetKeeps(d: Dag, stageId: StageId)
    requires Inv(d) && (d.activity.Launching? || d.activity.Executing?)
    ensures Inv(Forgotten(d, stageId))
  {
    var f := Forgotten(d, stageId);
    assert f.results.Keys <= d.results.Keys && f.origins.Keys <= f.results.Keys;
  }

  lemma BeginKeeps(d: Dag, requestId: RequestId)
    requires Inv(d) && d.activity.Launching?
    ensures Inv(Begun(d, requestId))
  {
    ForgetKeeps(d, CursorStage(d).stageId);
  }

  /** A success under the cursor has just been retained and its decision is about to be applied. */
  ghost predicate ReadyToDecide(d: Dag, source: DagDecision) {
    && Inv(d) && (d.activity.Settling? || d.activity.Preparing?)
    && ActiveAttempt(d).None?
    && d.pendingDecision.None? && d.lastDecision.None?
    && d.lastResult.Some? && d.lastResult.value.requestId == source.requestId
    && source.sourceStageId in d.results && d.results[source.sourceStageId] == source.requestId
    && CursorStage(d).stageId == source.sourceStageId
    && TargetKnown(d, source.command)
  }

  lemma RetainedKeeps(d: Dag, outcome: Outcome)
    requires Inv(d) && d.activity == Executing(outcome.attempt)
    ensures Inv(Retained(d, outcome))
    ensures Decides(d, outcome) && TargetKnown(d, outcome.response.value.command)
            ==> ReadyToDecide(Retained(d, outcome), DecisionOf(d, outcome))
  {
    var kept := Retained(d, outcome);
    if outcome.response.Some? {
      assert kept.results[outcome.attempt.stageId] == outcome.attempt.requestId;
      assert outcome.attempt.requestId in kept.results.Values;
    }
  }

  lemma DecidedKeeps(d: Dag, source: DagDecision)
    requires ReadyToDecide(d, source)
    ensures Inv(Decided(d, source))
  {
    if source.command.Move? {
      MoveKeeps(d, source, source.command.target);
    } else {
      var r := if source.command.Pause? then Paused else d.mode;
      NoteKeeps(d, source, r, if source.command.Pause? then Paused else d.desired);
    }
  }

  /** A command that leaves the cursor alone. */
  lemma NoteKeeps(d: Dag, source: DagDecision, mode: Mode, desired: Mode)
    requires ReadyToDecide(d, source) && !source.command.Move?
    requires if source.command.Pause? then mode == desired == Paused else mode == d.mode && desired == d.desired
    ensures Inv(d.(lastDecision := Some(source), mode := mode, desired := desired))
  {
    assert source.sourceStageId in Ids(d);
  }

  lemma MoveKeeps(d: Dag, source: DagDecision, target: StageId)
    requires ReadyToDecide(d, source) && source.command == Move(target)
    ensures Inv(Moved(d.(lastDecision := Some(source)), source, target))
  {
    var m := Moved(d.(lastDecision := Some(source)), source, target);
    assert CursorStage(m).stageId == target;
    assert m.results.Keys <= d.results.Keys && m.origins.Keys <= m.results.Keys;
    assert m.pendingInput.value.requestId == m.lastResult.value.requestId;
  }

  lemma AcceptKeeps(d: Dag, outcome: Outcome, deferred: bool)
    requires Inv(d) && d.activity == Executing(outcome.attempt)
    requires Decides(d, outcome) ==> TargetKnown(d, outcome.response.value.command)
    ensures Inv(Accepted(d, outcome, deferred))
  {
    RetainedKeeps(d, outcome);
    if Decides(d, outcome) && !deferred {
      DecidedKeeps(Retained(d, outcome), DecisionOf(d, outcome));
    }
  }

  lemma ApplyPendingKeeps(d: Dag)
    requires Inv(d) && (d.activity.Settling? || d.activity.Preparing?)
    ensures Inv(PendingApplied(d))
  {
    if d.pendingDecision.Some? {
      assert ReadyToDecide(d.(pendingDecision := None), d.pendingDecision.value);
      DecidedKeeps(d.(pendingDecision := None), d.pendingDecision.value);
    }
  }

  /** What a planned cursor offers to the state it is published into. */
  ghost predicate CursorFits(candidate: Template, layout: Layout, cursor: Cursor) {
    && ValidTemplate(candidate) && layout.newStages == candidate.stages
    && 1 <= cursor.stagePosition <= |candidate.stages| && cursor.nextPosition <= |candidate.stages|
    && cursor.preserved <= StageIds(candidate.stages)
  }

  lemma PlannedCursorFits(d: Dag, candidate: Template, layout: Layout, completed: set<StageId>)
    requires Inv(d) && ValidTemplate(candidate)
    requires IsLayout(d.template, candidate, CursorOf(d.position, d.pendingAdvance), layout)
    ensures CursorFits(candidate, layout, PlanCursor(layout, completed))
  {
    var oldNext := CursorOf(d.position, d.pendingAdvance);
    CursorPlacement(d.template, candidate, oldNext, layout, completed);
    PreservedIsOldPrefix(d.template, candidate, oldNext, layout, completed);
  }

  lemma ReloadedLastHeld(d: Dag, candidate: Template, layout: Layout, cursor: Cursor, journal: Journal)
    requires CursorFits(candidate, layout, cursor)
    ensures LastResultHeld(Reloaded(d, candidate, layout, cursor, journal))
  {
    var r := Reloaded(d, candidate, layout, cursor, journal);
    if r.lastResult.Some? {
      assert r.results[layout.newStages[cursor.nextPosition - 1].stageId] == r.lastResult.value.requestId;
    }
  }

  lemma ReloadKeeps(d: Dag, candidate: Template, layout: Layout, cursor: Cursor, journal: Journal)
    requires Inv(d) && AtIdlePause(d) && candidate.cycles == d.template.cycles
    requires CursorFits(candidate, layout, cursor)
    ensures Inv(Reloaded(d, candidate, layout, cursor, journal))
  {
    ReloadedLastHeld(d, candidate, layout, cursor, journal);
    var r := Reloaded(d, candidate, layout, cursor, journal);
    assert r.results.Keys <= cursor.preserved && r.origins.Keys <= r.results.Keys;
    assert ActiveAttempt(r) == None;
  }

  // ----- steps that only change who controls the run

  /** `r` differs from `d` in its scheduling, and perhaps in no longer counting a visit as done. */
  ghost predicate OnlyScheduling(d: Dag, r: Dag) {
    && r == d.(mode := r.mode, desired := r.desired, stepping := r.stepping, manual := r.manual,
               activity := r.activity, pendingAdvance := r.pendingAdvance)
    && (r.pendingAdvance ==> d.pendingAdvance)
    && (ActiveAttempt(r) == None || ActiveAttempt(r) == ActiveAttempt(d))
    && (r.activity == d.activity || !r.activity.Launching?)
    && (d.pendingDecision.Some? ==>
          r.activity.Settling? || r.activity == Halted(None) || r.activity == Preparing(None))
  }

  lemma SchedulingKeeps(d: Dag, r: Dag)
    requires Inv(d) && OnlyScheduling(d, r) && DecisionsHold(r)
    ensures Inv(r)
  {
  }

  lemma SettleKeeps(d: Dag)
    requires Inv(d) && d.activity.Settling? && d.pendingDecision.None?
    ensures OnlyScheduling(d, Settled(d)) && Inv(Settled(d))
  {
    SchedulingKeeps(d, Settled(d));
  }

  /** The run ends, with its attempt kept or cleared. */
  lemma HaltKeeps(d: Dag, r: Dag)
    requires Inv(d) && OnlyScheduling(d, r) && r.activity.Halted? && !r.stepping
    requires r.mode == d.mode && r.desired == d.desired
    ensures Inv(r)
  {
    SchedulingKeeps(d, r);
  }

  lemma LoseTrackKeeps(d: Dag)
    requires Inv(d) && d.activity.Executing?
    ensures OnlyScheduling(d, LostTrack(d)) && Inv(LostTrack(d))
  {
    SchedulingKeeps(d, LostTrack(d));
  }

  /** Pausing for whatever reason, and giving up a step. */
  lemma PauseKeeps(d: Dag, r: Dag)
    requires Inv(d) && OnlyScheduling(d, r) && r.activity == d.activity
    requires r.mode.Running? ==> r.desired.Running?
    requires r.desired.Running? ==> d.desired.Running?
    requires r.stepping ==> d.stepping
    ensures Inv(r)
  {
    SchedulingKeeps(d, r);
  }

  lemma WithoutPauseKeeps(d: Dag)
    requires Inv(d)
    ensures Inv(WithoutPause(d)) && !HasCommand(WithoutPause(d).lastDecision, Pause)
  {
  }

  lemma ResumeKeeps(d: Dag)
    requires Inv(d) && MayResume(d)
    ensures Inv(Resumed(d))
  {
    WithoutPauseKeeps(d);
    SchedulingKeeps(WithoutPause(d), Resumed(d));
  }

  lemma StepKeepsInv(d: Dag, servicesReady: bool)
    requires Inv(d)
    ensures Inv(Stepped(d, servicesReady))
  {
    if MayStep(d, servicesReady) {
      WithoutPauseKeeps(d);
      SchedulingKeeps(WithoutPause(d), Stepped(d, servicesReady));
    }
  }

  lemma RerunKeeps(d: Dag, position: int, servicesReady: bool)
    requires Inv(d)
    ensures Inv(Rerun(d, position, servicesReady))
  {
    if AtIdlePause(d) && position == d.position {
      var rewound := d.(pendingAdvance := false, manual := true);
      SchedulingKeeps(d, rewound);
      StepKeepsInv(rewound, servicesReady);
    }
  }

  lemma MoveCursorKeeps(d: Dag, position: int)
    requires Inv(d)
    ensures Inv(CursorMoved(d, position))
  {
  }

  lemma RetryKeeps(d: Dag, requestId: RequestId)
    requires Inv(d) && d.activity.Executing?
    ensures Inv(Retried(d, requestId))
  {
  }

  lemma StageStopKeeps(d: Dag)
    requires Inv(d) && d.activity.Executing?
    ensures Inv(StageStopped(d))
  {
    ForgetKeeps(d, d.activity.attempt.stageId);
    HaltKeeps(Forgotten(d, d.activity.attempt.stageId), StageStopped(d));
  }
}
