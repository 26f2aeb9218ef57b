/**
 Runs of the DAG state machine: every operator command, every outcome, every journal pause, crashes,
 snapshots, rollbacks and continuations, in any order and of any length. The invariant holds in all
 of them, so a checkpoint or snapshot taken at any moment passes its own validation.
 */
module DagRuns {
  import opened Options
  import opened Templates
  import opened ReloadPlan
  import opened DagState
  import opened DagInvariant
  import opened DagBacking
  import opened SnapshotState

  // ----- steps of one selected run

  datatype Step =
    | Launch
    | Begin(requestId: RequestId)
    | Retry(requestId: RequestId)
    | Accept(outcome: Outcome)
    | ApplyPending
    | Settle
    | LoseTrack
    | StageStop
    | Complete
    | Fail
    | OperatorStop
    | PauseRequested
    | PauseReached
    | Resume
    | StepOnce(servicesReady: bool)
    | CancelStep
    | RerunStage(position: int, servicesReady: bool)
    | MoveTo(position: int)
    | ServicePause
    | JournalPause
    | JournalReady
    | Reload(candidate: Template, layout: Layout, completed: set<StageId>)
    | Prepare

  /** Preparation applies a decision that was still pending before it schedules any work. */
  function Prepared(d: Dag): Dag
    requires d.activity.Preparing?
    requires d.pendingDecision.Some? ==> TargetKnown(d, d.pendingDecision.value.command)
  {
    if HasCommand(d.lastDecision, Stop) then d.(activity := Halted(None))
    else
      var applied := PendingApplied(d);
      if HasCommand(applied.lastDecision, Stop) then applied.(activity := Halted(None))
      else if d.activity.recovered.Some? then applied.(activity := Executing(d.activity.recovered.value))
      else applied.(activity := Idle)
  }

  /** When a step is possible at all; commands that the runner rejects are possible and change nothing. */
  ghost predicate Possible(d: Dag, journal: Journal, step: Step) {
    match step
    case Launch => MayLaunch(d)
    case Begin(r) => d.activity.Launching? && r !in d.usedRequests
    case Retry(r) => d.activity.Executing? && r !in d.usedRequests
    case Accept(o) => Acceptable(journal, d, o)
    case ApplyPending => d.activity.Settling?
    case Settle => d.activity.Settling? && d.pendingDecision.None?
    case LoseTrack => d.activity.Executing?
    case StageStop => d.activity.Executing?
    case Complete => d.activity.Idle? && AtDagEnd(d)
    case Resume => MayResume(d)
    case PauseRequested => !d.activity.Halted?
    case ServicePause => !d.activity.Halted?
    case JournalPause => !d.activity.Halted?
    case PauseReached => !d.activity.Halted?
    case JournalReady => !d.activity.Halted?
    case Reload(candidate, layout, completed) =>
      && AtIdlePause(d) && !d.stepping
      && ValidTemplate(candidate) && candidate.cycles == d.template.cycles
      && CursorInRange(d)
      && IsLayout(d.template, candidate, CursorOf(d.position, d.pendingAdvance), layout)
    case Prepare => d.activity.Preparing?
    case _ => true
  }

  /** Only a new attempt uses up a request id. */
  ghost function Next(d: Dag, journal: Journal, step: Step): (next: Dag)
    requires Inv(d) && Possible(d, journal, step)
    ensures next.usedRequests
         == d.usedRequests + if step.Begin? || step.Retry? then {step.requestId} else {}
  {
    match step
    case Launch => Launched(d)
    case Begin(r) => Begun(d, r)
    case Retry(r) => Retried(d, r)
    case Accept(o) => Accepted(d, o, DefersDecision(d, o))
    case ApplyPending => PendingApplied(d)
    case Settle => Settled(d)
    case LoseTrack => LostTrack(d)
    case StageStop => StageStopped(d)
    case Complete => d.(activity := Halted(None), stepping := false)
    case Fail => Failed(d)
    case OperatorStop => Stopped(d)
    case PauseRequested => d.(mode := Paused, desired := Paused)
    case PauseReached => d.(mode := Paused)
    case Resume => Resumed(d)
    case StepOnce(ready) => Stepped(d, ready)
    case CancelStep => d.(stepping := false)
    case RerunStage(position, ready) => Rerun(d, position, ready)
    case MoveTo(position) => CursorMoved(d, position)
    case ServicePause => d.(mode := Paused, desired := Paused, stepping := false)
    case JournalPause => d.(mode := Paused)
    case JournalReady => d.(mode := d.desired)
    case Reload(candidate, layout, completed) =>
      PlannedCursorFits(d, candidate, layout, completed);
      Reloaded(d, candidate, layout, PlanCursor(layout, completed), journal)
    case Prepare => Prepared(d)
  }

  function JournalAfter(d: Dag, journal: Journal, step: Step): Journal
    requires CursorInRange(d)
  {
    if step.Accept? then Recorded(journal, d, step.outcome) else journal
  }

  // ----- every step keeps the invariant

  /** The steps of the scheduler itself. */
  predicate Scheduled(step: Step) {
    step.Launch? || step.Begin? || step.Retry? || step.Accept? || step.ApplyPending? || step.Settle?
  }

  /** The steps after which the attempt in hand is no longer being followed. */
  predicate Ends(step: Step) {
    step.LoseTrack? || step.StageStop? || step.Complete? || step.Fail? || step.OperatorStop?
  }

  /** The commands that do more than pause. */
  predicate Commands(step: Step) {
    step.Resume? || step.StepOnce? || step.RerunStage? || step.MoveTo? || step.Reload? || step.Prepare?
  }

  lemma NextInv(d: Dag, journal: Journal, step: Step)
    requires Inv(d) && Possible(d, journal, step)
    ensures Inv(Next(d, journal, step))
  {
    if Scheduled(step) {
      ScheduledInv(d, journal, step);
    } else if Ends(step) {
      EndInv(d, journal, step);
    } else if Commands(step) {
      CommandInv(d, journal, step);
    } else {
      PauseKeeps(d, Next(d, journal, step));
    }
  }

  lemma ScheduledInv(d: Dag, journal: Journal, step: Step)
    requires Inv(d) && Possible(d, journal, step) && Scheduled(step)
    ensures Inv(Next(d, journal, step))
  {
    match step {
      case Launch => LaunchKeeps(d);
      case Begin(r) => BeginKeeps(d, r);
      case Retry(r) => RetryKeeps(d, r);
      case Accept(o) => AcceptKeeps(d, o, DefersDecision(d, o));
      case ApplyPending => ApplyPendingKeeps(d);
      case Settle => SettleKeeps(d);
    }
  }

  lemma EndInv(d: Dag, journal: Journal, step: Step)
    requires Inv(d) && Possible(d, journal, step) && Ends(step)
    ensures Inv(Next(d, journal, step))
  {
    if step.LoseTrack? {
      LoseTrackKeeps(d);
    } else if step.StageStop? {
      StageStopKeeps(d);
    } else {
      HaltKeeps(d, Next(d, journal, step));
    }
  }

  lemma CommandInv(d: Dag, journal: Journal, step: Step)
    requires Inv(d) && Possible(d, journal, step) && Commands(step)
    ensures Inv(Next(d, journal, step))
  {
    match step {
      case Resume => ResumeKeeps(d);
      case StepOnce(ready) => StepKeepsInv(d, ready);
      case RerunStage(position, ready) => RerunKeeps(d, position, ready);
      case MoveTo(position) => MoveCursorKeeps(d, position);
      case Reload(candidate, layout, completed) =>
        PlannedCursorFits(d, candidate, layout, completed);
        ReloadKeeps(d, candidate, layout, PlanCursor(layout, completed), journal);
      case Prepare => PrepareKeeps(d);
    }
  }

  /** Leaving preparation with nothing pending: a stop ends the run, an attempt is resumed. */
  lemma ActivateKeeps(d: Dag)
    requires Inv(d) && d.activity.Preparing? && d.pendingDecision.None?
    ensures HasCommand(d.lastDecision, Stop) ==> Inv(d.(activity := Halted(None)))
    ensures !HasCommand(d.lastDecision, Stop) && d.activity.recovered.None? ==> Inv(d.(activity := Idle))
    ensures d.activity.recovered.Some? ==> Inv(d.(activity := Executing(d.activity.recovered.value)))
  {
    if HasCommand(d.lastDecision, Stop) {
      HaltKeeps(d, d.(activity := Halted(None)));
    } else if d.activity.recovered.Some? {
      SchedulingKeeps(d, d.(activity := Executing(d.activity.recovered.value)));
    } else {
      SchedulingKeeps(d, d.(activity := Idle));
    }
  }

  lemma PendingAppliedSettles(d: Dag)
    requires d.pendingDecision.Some? ==> TargetKnown(d, d.pendingDecision.value.command)
    ensures PendingApplied(d).pendingDecision.None? && PendingApplied(d).activity == d.activity
  {
  }

  lemma PrepareKeeps(d: Dag)
    requires Inv(d) && d.activity.Preparing?
    ensures Inv(Prepared(d))
  {
    PendingAppliedSettles(d);
    if HasCommand(d.lastDecision, Stop) || d.activity.recovered.Some? {
      assert d.pendingDecision.None?;
      ActivateKeeps(d);
    } else {
      ApplyPendingKeeps(d);
      ActivateKeeps(PendingApplied(d));
    }
  }

  // ----- every step keeps the journal's backing

  lemma VisitStepNarrows(d: Dag, stageId: StageId, r: Dag)
    requires r == Forgotten(d, stageId).(activity := r.activity, manual := r.manual, stepping := r.stepping,
                                         usedRequests := r.usedRequests)
    requires d.usedRequests <= r.usedRequests
    ensures Narrows(d, r)
  {
    var forgotten := Forgotten(d, stageId);
    ForgetNarrows(d, stageId);
    ControlNarrows(forgotten, r);
    NarrowingTransitive(d, forgotten, r);
  }

  lemma BeginNarrows(d: Dag, requestId: RequestId)
    requires d.activity.Launching? && CursorInRange(d)
    ensures Narrows(d, Begun(d, requestId))
  {
    if d.activity.manual {
      VisitStepNarrows(d, CursorStage(d).stageId, Begun(d, requestId));
    } else {
      ControlNarrows(d, Begun(d, requestId));
    }
  }

  lemma ResumeNarrows(d: Dag)
    ensures Narrows(d, Resumed(d))
  {
    WithoutPauseNarrows(d);
    ControlNarrows(WithoutPause(d), Resumed(d));
    NarrowingTransitive(d, WithoutPause(d), Resumed(d));
  }

  lemma StepNarrows(d: Dag, servicesReady: bool)
    ensures Narrows(d, Stepped(d, servicesReady))
  {
    WithoutPauseNarrows(d);
    ControlNarrows(WithoutPause(d), WithoutPause(d).(stepping := true));
    NarrowingTransitive(d, WithoutPause(d), WithoutPause(d).(stepping := true));
  }

  lemma RerunNarrows(d: Dag, position: int, servicesReady: bool)
    ensures Narrows(d, Rerun(d, position, servicesReady))
  {
    var rewound := d.(pendingAdvance := false, manual := true);
    assert Transfers(rewound) == Transfers(d);
    StepNarrows(rewound, servicesReady);
    NarrowingTransitive(d, rewound, Stepped(rewound, servicesReady));
  }

  lemma PreparedBacked(d: Dag, journal: Journal)
    requires Inv(d) && Backs(journal, d) && d.activity.Preparing?
    ensures Backs(journal, Prepared(d))
  {
    if HasCommand(d.lastDecision, Stop) {
      ControlNarrows(d, Prepared(d));
      NarrowingKeepsBacking(journal, d, Prepared(d));
    } else {
      PendingAppliedBacked(journal, d);
      var applied, activity := PendingApplied(d), Prepared(d).activity;
      ControlNarrows(applied, applied.(activity := activity));
      NarrowingKeepsBacking(journal, applied, applied.(activity := activity));
    }
  }

  /** The steps that can add a reference or change which template the state belongs to. */
  predicate AddsReference(step: Step) {
    step.Accept? || step.ApplyPending? || step.Reload? || step.Prepare?
  }

  lemma NextBacked(d: Dag, journal: Journal, step: Step)
    requires Inv(d) && Backs(journal, d) && Possible(d, journal, step)
    ensures Backs(JournalAfter(d, journal, step), Next(d, journal, step))
  {
    if AddsReference(step) {
      AddingBacked(d, journal, step);
    } else {
      NextNarrows(d, journal, step);
      NarrowingKeepsBacking(journal, d, Next(d, journal, step));
    }
  }

  lemma AddingBacked(d: Dag, journal: Journal, step: Step)
    requires Inv(d) && Backs(journal, d) && Possible(d, journal, step) && AddsReference(step)
    ensures Backs(JournalAfter(d, journal, step), Next(d, journal, step))
  {
    match step {
      case Accept(o) => AcceptedBacked(journal, d, o, DefersDecision(d, o));
      case ApplyPending => PendingAppliedBacked(journal, d);
      case Reload(candidate, layout, completed) =>
        PlannedCursorFits(d, candidate, layout, completed);
        ReloadedBacked(journal, d, candidate, layout, PlanCursor(layout, completed));
      case Prepare => PreparedBacked(d, journal);
    }
  }

  lemma NextNarrows(d: Dag, journal: Journal, step: Step)
    requires Inv(d) && Possible(d, journal, step) && !AddsReference(step)
    ensures Narrows(d, Next(d, journal, step))
  {
    if Scheduled(step) {
      ScheduledNarrows(d, journal, step);
    } else if step.StageStop? {
      VisitStepNarrows(d, d.activity.attempt.stageId, StageStopped(d));
    } else if Commands(step) {
      CommandNarrows(d, journal, step);
    } else {
      ControlNarrows(d, Next(d, journal, step));
    }
  }

  lemma ScheduledNarrows(d: Dag, journal: Journal, step: Step)
    requires Inv(d) && Possible(d, journal, step) && !AddsReference(step) && Scheduled(step)
    ensures Narrows(d, Next(d, journal, step))
  {
    if step.Launch? {
      LaunchNarrows(d);
    } else if step.Begin? {
      BeginNarrows(d, step.requestId);
    } else {
      ControlNarrows(d, Next(d, journal, step));
    }
  }

  lemma CommandNarrows(d: Dag, journal: Journal, step: Step)
    requires Inv(d) && Possible(d, journal, step) && !AddsReference(step) && Commands(step)
    ensures Narrows(d, Next(d, journal, step))
  {
    if step.Resume? {
      ResumeNarrows(d);
    } else if step.StepOnce? {
      StepNarrows(d, step.servicesReady);
    } else if step.RerunStage? {
      RerunNarrows(d, step.position, step.servicesReady);
    } else {
      MoveCursorNarrows(d, step.position);
    }
  }
}
