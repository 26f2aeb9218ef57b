/**
 How far a run has come, and why it ends; and that a conditional decision which waits for a
 snapshot is applied exactly once.
 */
module DagProgress {
  import opened Options
  import opened Templates
  import opened ReloadPlan
  import opened DagState
  import opened DagInvariant
  import opened DagRuns
  import opened ExperimentHistory
  import opened SnapshotState

  // ----- the progress measure

  function Visits(d: Dag): nat {
    d.template.cycles * |d.template.stages|
  }

  /** Stage visits done: whole cycles, nodes before the cursor, and the one about to be advanced. */
  function Progress(d: Dag): int {
    (d.cycle - 1) * |d.template.stages| + CursorOf(d.position, d.pendingAdvance)
  }

  lemma MulFacts(x: int, y: int, n: nat)
    ensures (x + y) * n == x * n + y * n
    ensures x >= 1 ==> x * n >= n
  {
    if x >= 1 {
      MulMonotone(x, n);
    }
  }

  lemma {:induction false} MulMonotone(x: nat, n: nat)
    requires x >= 1
    ensures x * n >= n
    decreases x
  {
    if x > 1 {
      MulMonotone(x - 1, n);
      assert x * n == (x - 1) * n + n;
    }
  }

  lemma CycleArithmetic(n: nat, cycles: nat, cycle: nat, next: nat)
    requires 1 <= cycle <= cycles && next <= n && n >= 1
    ensures 0 <= (cycle - 1) * n + next <= cycles * n
    ensures (cycle - 1) * n + next == cycles * n <==> next == n && cycle == cycles
    ensures cycle * n == (cycle - 1) * n + n
  {
    var left, done := cycles - cycle, (cycle - 1) * n;
    MulFacts(cycle - 1, 1, n);
    MulFacts(left, cycle, n);
    MulFacts(cycle - 1, 0, n);
    assert cycle * n == done + n && cycles * n == left * n + done + n;
  }

  lemma ProgressBound(d: Dag)
    requires Inv(d)
    ensures 0 <= Progress(d) <= Visits(d)
    ensures Progress(d) == Visits(d) <==>
            d.pendingAdvance && d.position == |d.template.stages| && d.cycle == d.template.cycles
  {
    CycleArithmetic(|d.template.stages|, d.template.cycles, d.cycle, CursorOf(d.position, d.pendingAdvance));
  }

  /** The run is finished exactly when all visits are done, unless a condition asked for a pause. */
  lemma EndMeansAllVisitsDone(d: Dag)
    requires Inv(d)
    ensures AtDagEnd(d) <==> Progress(d) == Visits(d) && !HasCommand(d.lastDecision, Pause)
  {
    ProgressBound(d);
  }

  lemma LaunchKeepsProgress(d: Dag)
    requires CursorInRange(d)
    ensures Progress(Launched(d)) == Progress(d)
  {
    var n, l := |d.template.stages|, Launched(d);
    if d.pendingAdvance && d.position == n {
      assert l.cycle == d.cycle + 1 && CursorOf(l.position, l.pendingAdvance) == 0;
      MulFacts(d.cycle - 1, 1, n);
    } else {
      assert l.cycle == d.cycle && CursorOf(l.position, l.pendingAdvance) == CursorOf(d.position, d.pendingAdvance);
    }
  }

  // ----- runs without cursor commands

  predicate Forward(d: Dag, command: Command) {
    command.Move? && command.target in Ids(d) ==> IndexOf(d.template.stages, command.target) >= d.position
  }

  /** No operator moves the cursor, and every conditional move goes forward. */
  ghost predicate Ordinary(d: Dag, step: Step)
    requires CursorInRange(d)
  {
    match step
    case RerunStage(_, _) => false
    case MoveTo(_) => false
    case Reload(_, _, _) => false
    case Accept(o) => o.response.Some? ==> Forward(d, o.response.value.command)
    case ApplyPending => d.pendingDecision.Some? ==> Forward(d, d.pendingDecision.value.command)
    case Prepare => d.pendingDecision.Some? ==> Forward(d, d.pendingDecision.value.command)
    case _ => true
  }

  predicate Advances(step: Step) {
    step.Accept? && step.outcome.action.Advance?
  }

  predicate Moves(d: Dag, step: Step) {
    match step
    case Accept(o) => o.response.Some? && o.response.value.command.Move?
    case ApplyPending => d.pendingDecision.Some? && d.pendingDecision.value.command.Move?
    case Prepare => d.pendingDecision.Some? && d.pendingDecision.value.command.Move?
    case _ => false
  }

  lemma DecisionProgress(d: Dag, source: DagDecision)
    requires CursorInRange(d) && TargetKnown(d, source.command) && Forward(d, source.command)
    ensures Decided(d, source).template == d.template
    ensures Progress(Decided(d, source)) >= Progress(d)
    ensures !source.command.Move? ==> Progress(Decided(d, source)) == Progress(d)
  {
    match source.command
    case Move(target) =>
      assert Decided(d, source).position == IndexOf(d.template.stages, target) + 1;
      assert Decided(d, source).cycle == d.cycle;
    case _ =>
  }

  lemma AcceptProgress(d: Dag, outcome: Outcome, deferred: bool)
    requires Inv(d) && d.activity == Executing(outcome.attempt)
    requires outcome.response.Some? ==> outcome.action.Advance? && Forward(d, outcome.response.value.command)
    requires Decides(d, outcome) ==> TargetKnown(d, outcome.response.value.command)
    ensures var r := Accepted(d, outcome, deferred);
            && r.template == d.template
            && Progress(r) >= Progress(d) + (if outcome.action.Advance? then 1 else 0)
            && ((outcome.response.Some? && outcome.response.value.command.Move?)
                || Progress(r) == Progress(d) + (if outcome.action.Advance? then 1 else 0))
  {
    var kept := Retained(d, outcome);
    assert kept.template == d.template && kept.cycle == d.cycle;
    assert CursorOf(kept.position, kept.pendingAdvance)
        == CursorOf(d.position, d.pendingAdvance) + (if outcome.action.Advance? then 1 else 0);
    if Decides(d, outcome) && !deferred {
      DecisionProgress(kept, DecisionOf(d, outcome));
    }
  }

  lemma PendingProgress(d: Dag)
    requires Inv(d) && (d.pendingDecision.Some? ==> Forward(d, d.pendingDecision.value.command))
    ensures var r := PendingApplied(d);
            && r.template == d.template && Progress(r) >= Progress(d)
            && ((d.pendingDecision.Some? && d.pendingDecision.value.command.Move?) || Progress(r) == Progress(d))
  {
    if d.pendingDecision.Some? {
      var ready := d.(pendingDecision := None);
      SameCursorProgress(d, ready);
      DecisionProgress(ready, d.pendingDecision.value);
    }
  }

  lemma PreparedIsApplied(d: Dag)
    requires Inv(d) && d.activity.Preparing?
    ensures Prepared(d) == PendingApplied(d).(activity := Prepared(d).activity)
    ensures Prepared(d).pendingDecision.None?
  {
    PendingAppliedSettles(d);
  }

  lemma PrepareProgress(d: Dag)
    requires Inv(d) && d.activity.Preparing?
    requires d.pendingDecision.Some? ==> Forward(d, d.pendingDecision.value.command)
    ensures var r := Prepared(d);
            && r.template == d.template && Progress(r) >= Progress(d)
            && ((d.pendingDecision.Some? && d.pendingDecision.value.command.Move?) || Progress(r) == Progress(d))
  {
    PendingProgress(d);
    PreparedIsApplied(d);
    SameCursorProgress(PendingApplied(d), Prepared(d));
  }

  /** Every step keeps or increases progress, and an advancing outcome increases it. */
  lemma StepProgress(d: Dag, journal: Journal, step: Step)
    requires Inv(d) && Possible(d, journal, step) && Ordinary(d, step)
    ensures var next := Next(d, journal, step);
            && next.template == d.template
            && Progress(next) >= Progress(d) + (if Advances(step) then 1 else 0)
            && (Moves(d, step) || Progress(next) == Progress(d) + (if Advances(step) then 1 else 0))
  {
    if step.Launch? {
      LaunchKeepsProgress(d);
    } else if step.Accept? {
      AcceptProgress(d, step.outcome, DefersDecision(d, step.outcome));
    } else if step.ApplyPending? {
      PendingProgress(d);
    } else if step.Prepare? {
      PrepareProgress(d);
    } else {
      OtherProgress(d, journal, step);
    }
  }

  /** The steps that leave the cursor where it is. */
  lemma OtherProgress(d: Dag, journal: Journal, step: Step)
    requires Inv(d) && Possible(d, journal, step) && Ordinary(d, step)
    requires !step.Launch? && !step.Accept? && !step.ApplyPending? && !step.Prepare?
    ensures var next := Next(d, journal, step);
            next.template == d.template && Progress(next) == Progress(d)
  {
    if step.Begin? {
      SameCursorProgress(d, Begun(d, step.requestId));
    } else if Commands(step) {
      CommandProgress(d, journal, step);
    } else if Ends(step) {
      EndProgress(d, journal, step);
    } else {
      SameCursorProgress(d, Next(d, journal, step));
    }
  }

  lemma CommandProgress(d: Dag, journal: Journal, step: Step)
    requires Inv(d) && Possible(d, journal, step) && Ordinary(d, step) && Commands(step) && !step.Prepare?
    ensures var next := Next(d, journal, step);
            next.template == d.template && Progress(next) == Progress(d)
  {
    SameCursorProgress(d, if step.Resume? then Resumed(d) else Stepped(d, step.servicesReady));
  }

  lemma EndProgress(d: Dag, journal: Journal, step: Step)
    requires Inv(d) && Possible(d, journal, step) && Ends(step)
    ensures var next := Next(d, journal, step);
            next.template == d.template && Progress(next) == Progress(d)
  {
    if step.OperatorStop? {
      SameCursorProgress(d, Stopped(d));
    } else if step.LoseTrack? {
      SameCursorProgress(d, LostTrack(d));
    } else {
      SameCursorProgress(d, Next(d, journal, step));
    }
  }

  lemma SameCursorProgress(d: Dag, r: Dag)
    requires r.template == d.template && r.cycle == d.cycle && r.position == d.position
    requires r.pendingAdvance == d.pendingAdvance
    ensures Progress(r) == Progress(d)
  {
  }

  ghost predicate OrdinaryRun(d: Dag, journal: Journal, steps: seq<Step>)
    requires Inv(d)
    decreases steps
  {
    steps == []
    || (&& Possible(d, journal, steps[0]) && Ordinary(d, steps[0])
        && (NextInv(d, journal, steps[0]);
            OrdinaryRun(Next(d, journal, steps[0]), JournalAfter(d, journal, steps[0]), steps[1..])))
  }

  ghost function RunEnd(d: Dag, journal: Journal, steps: seq<Step>): (end: Dag)
    requires Inv(d) && OrdinaryRun(d, journal, steps)
    ensures Inv(end)
    decreases steps
  {
    if steps == [] then d
    else
      NextInv(d, journal, steps[0]);
      RunEnd(Next(d, journal, steps[0]), JournalAfter(d, journal, steps[0]), steps[1..])
  }

  ghost function AdvanceCount(steps: seq<Step>): nat {
    if steps == [] then 0 else (if Advances(steps[0]) then 1 else 0) + AdvanceCount(steps[1..])
  }

  ghost predicate NeverMoves(d: Dag, journal: Journal, steps: seq<Step>)
    requires Inv(d) && OrdinaryRun(d, journal, steps)
    decreases steps
  {
    steps == []
    || (!Moves(d, steps[0])
        && (NextInv(d, journal, steps[0]);
            NeverMoves(Next(d, journal, steps[0]), JournalAfter(d, journal, steps[0]), steps[1..])))
  }

  lemma {:induction false} RunProgress(d: Dag, journal: Journal, steps: seq<Step>)
    requires Inv(d) && OrdinaryRun(d, journal, steps)
    ensures var end := RunEnd(d, journal, steps);
            && end.template == d.template
            && Progress(end) >= Progress(d) + AdvanceCount(steps)
            && (NeverMoves(d, journal, steps) ==> Progress(end) == Progress(d) + AdvanceCount(steps))
    decreases steps
  {
    if steps != [] {
      NextInv(d, journal, steps[0]);
      StepProgress(d, journal, steps[0]);
      RunProgress(Next(d, journal, steps[0]), JournalAfter(d, journal, steps[0]), steps[1..]);
    }
  }

  /**
   A run without backward moves has at most one advancing outcome per node and cycle; if it never
   moves and gets to the end of the DAG, it has had exactly that many.
   */
  lemma AdvancingOutcomesAreBounded(template: Template, experimentId: ExperimentId, mode: Mode, steps: seq<Step>)
    requires ValidTemplate(template)
    requires OrdinaryRun(Beginning(template, experimentId, mode).dag, map[], steps)
    ensures AdvanceCount(steps) <= template.cycles * |template.stages|
    ensures var start := Beginning(template, experimentId, mode).dag;
            AtDagEnd(RunEnd(start, map[], steps)) && NeverMoves(start, map[], steps)
            ==> AdvanceCount(steps) == template.cycles * |template.stages|
  {
    var start := Beginning(template, experimentId, mode).dag;
    RunProgress(start, map[], steps);
    ProgressBound(RunEnd(start, map[], steps));
  }

  // ----- a deferred decision is applied exactly once

  /** Waiting for the snapshot makes no difference to where the run ends up. */
  lemma DeferredIsImmediate(d: Dag, outcome: Outcome)
    requires CursorInRange(d)
    requires Decides(d, outcome) ==> TargetKnown(d, outcome.response.value.command)
    ensures var deferred := Accepted(d, outcome, true);
            && (deferred.pendingDecision.Some? ==> TargetKnown(deferred, deferred.pendingDecision.value.command))
            && PendingApplied(deferred) == Accepted(d, outcome, false)
  {
  }

  /**
   A rerun that `step` refuses, because a service is not ready or a step is already waiting, is not
   without effect: it leaves the run as it was exactly when the stage under the cursor was still to
   be visited by hand; a finished visit is taken back.
   */
  lemma RefusedRerunTakesBackTheVisit(d: Dag, servicesReady: bool)
    requires AtIdlePause(d) && !MayStep(d, servicesReady)
    ensures Rerun(d, d.position, servicesReady) == d <==> !d.pendingAdvance && d.manual
    ensures d.pendingAdvance ==> Progress(Rerun(d, d.position, servicesReady)) == Progress(d) - 1
  {
    assert Rerun(d, d.position, servicesReady) == d.(pendingAdvance := false, manual := true);
  }

  // ----- a step that clears a conditional pause saves before it announces itself

  /** What goes on during that save, since commands are served one at a time. */
  predicate GoesOn(step: Step) {
    step.PauseReached? || step.ServicePause? || step.JournalPause? || step.JournalReady? || EndsRun(step)
  }

  predicate EndsRun(step: Step) {
    step.Complete? || step.Fail?
  }

  predicate NeverEnds(steps: seq<Step>) {
    forall s :: s in steps ==> !EndsRun(s)
  }

  lemma NeverEndsFrom(steps: seq<Step>)
    requires steps != []
    ensures NeverEnds(steps) <==> !EndsRun(steps[0]) && NeverEnds(steps[1..])
  {
    assert forall s :: s in steps <==> s == steps[0] || s in steps[1..];
  }

  lemma GoesOnOnce(d: Dag, journal: Journal, step: Step)
    requires Inv(d) && Possible(d, journal, step) && GoesOn(step)
    requires d.mode.Paused? && d.desired.Paused? && !d.stepping && (d.activity.Idle? || d.activity.Halted?)
    ensures var next := Next(d, journal, step);
            if EndsRun(step) then
              next.activity.Halted? && next.mode.Paused? && next.desired.Paused? && !next.stepping
            else next == d
  {
  }

  lemma {:induction false} GoesOnFor(d: Dag, journal: Journal, steps: seq<Step>)
    requires Inv(d) && OrdinaryRun(d, journal, steps) && forall s :: s in steps ==> GoesOn(s)
    requires d.mode.Paused? && d.desired.Paused? && !d.stepping && (d.activity.Idle? || d.activity.Halted?)
    ensures var end := RunEnd(d, journal, steps);
            if NeverEnds(steps) then end == d else end.activity.Halted?
    ensures d.activity.Halted? ==> RunEnd(d, journal, steps).activity.Halted?
    decreases steps
  {
    if steps != [] {
      NextInv(d, journal, steps[0]);
      GoesOnOnce(d, journal, steps[0]);
      var next := Next(d, journal, steps[0]);
      GoesOnFor(next, JournalAfter(d, journal, steps[0]), steps[1..]);
      NeverEndsFrom(steps);
    }
  }

  /**
   Announced after the save, the step is the one admitted before it exactly when the run has not
   ended meanwhile; otherwise it waits for a boundary of a run that is over.
   */
  lemma StepInTwoHalves(d: Dag, journal: Journal, steps: seq<Step>)
    requires Inv(d) && MayStep(d, true) && HasCommand(d.lastDecision, Pause)
    requires (WithoutPauseKeeps(d); OrdinaryRun(WithoutPause(d), journal, steps))
    requires forall s :: s in steps ==> GoesOn(s)
    ensures (WithoutPauseKeeps(d);
             var end := RunEnd(WithoutPause(d), journal, steps);
             && (end.(stepping := true) == Stepped(d, true) <==> NeverEnds(steps))
             && (end.(stepping := true) == Stepped(d, true) || end.activity.Halted?))
  {
    WithoutPauseKeeps(d);
    GoesOnFor(WithoutPause(d), journal, steps);
  }

  /** It happens to every step from a conditional pause at the end of the DAG when the run completes first. */
  lemma CompletesMeanwhile(d: Dag, journal: Journal)
    requires Inv(d) && MayStep(d, true) && HasCommand(d.lastDecision, Pause)
    requires d.pendingAdvance && d.position == |d.template.stages| && d.cycle == d.template.cycles
    ensures (WithoutPauseKeeps(d); OrdinaryRun(WithoutPause(d), journal, [Complete]))
    ensures (WithoutPauseKeeps(d);
             var end := RunEnd(WithoutPause(d), journal, [Complete]);
             end.activity.Halted? && end.(stepping := true) != Stepped(d, true))
  {
    WithoutPauseKeeps(d);
    NextInv(WithoutPause(d), journal, Complete);
    assert [Complete][1..] == [];
  }

  /** Equal up to who controls the scheduling. */
  predicate SameProgress(a: Dag, b: Dag) {
    b == a.(mode := b.mode, desired := b.desired, stepping := b.stepping, manual := b.manual, activity := b.activity)
  }

  lemma MoveCommutes(a: Dag, b: Dag, source: DagDecision, target: StageId)
    requires SameProgress(a, b) && target in Ids(a)
    ensures SameProgress(Moved(a, source, target), Moved(b, source, target))
  {
  }

  /** Applying a decision commutes with changes of control. */
  lemma DecisionCommutes(a: Dag, b: Dag, source: DagDecision)
    requires SameProgress(a, b) && TargetKnown(a, source.command)
    ensures SameProgress(Decided(a, source), Decided(b, source))
  {
    var left, right := a.(lastDecision := Some(source)), b.(lastDecision := Some(source));
    assert SameProgress(left, right);
    if source.command.Move? {
      MoveCommutes(left, right, source, source.command.target);
    }
  }

  lemma PendingCommutes(a: Dag, b: Dag)
    requires SameProgress(a, b)
    requires a.pendingDecision.Some? ==> TargetKnown(a, a.pendingDecision.value.command)
    ensures SameProgress(PendingApplied(a), PendingApplied(b))
  {
    if a.pendingDecision.Some? {
      DecisionCommutes(a.(pendingDecision := None), b.(pendingDecision := None), a.pendingDecision.value);
    }
  }

  /** A crash and the recovery that follows it, from a checkpoint. */
  ghost function RecoverOnce(saved: Dag): (r: Dag)
    requires Inv(saved)
    ensures Inv(r)
  {
    var recovered := Recovered(saved, false);
    SchedulingKeeps(saved, recovered);
    PrepareKeeps(recovered);
    Prepared(recovered)
  }

  lemma RecoveryAppliesPending(saved: Dag)
    requires Inv(saved)
    ensures SameProgress(PendingApplied(saved), RecoverOnce(saved))
    ensures RecoverOnce(saved).pendingDecision.None?
  {
    var recovered := Recovered(saved, false);
    SchedulingKeeps(saved, recovered);
    PendingCommutes(saved, recovered);
    PreparedIsApplied(recovered);
  }

  /** The last of `|saves| + 1` recoveries; `saves[i]` says whether the i-th one was checkpointed. */
  ghost function AfterCrashes(checkpoint: Dag, saves: seq<bool>): Dag
    requires Inv(checkpoint)
    decreases saves
  {
    if saves == [] then RecoverOnce(checkpoint)
    else AfterCrashes(if saves[0] then RecoverOnce(checkpoint) else checkpoint, saves[1..])
  }

  lemma {:induction false} CrashesApplyPendingOnce(checkpoint: Dag, saves: seq<bool>)
    requires Inv(checkpoint)
    ensures SameProgress(PendingApplied(checkpoint), AfterCrashes(checkpoint, saves))
    decreases saves
  {
    RecoveryAppliesPending(checkpoint);
    if saves != [] {
      var next := if saves[0] then RecoverOnce(checkpoint) else checkpoint;
      CrashesApplyPendingOnce(next, saves[1..]);
      assert saves[0] ==> PendingApplied(next) == next;
    }
  }

  /**
   A crash between accepting a conditional result and applying its decision, however often
   repeated, leads to where the uninterrupted run would have gone: the decision takes effect once.
   */
  lemma DeferredDecisionIsExactlyOnce(d: Dag, outcome: Outcome, saves: seq<bool>)
    requires Inv(d) && d.activity == Executing(outcome.attempt)
    requires Decides(d, outcome) ==> TargetKnown(d, outcome.response.value.command)
    ensures Inv(Accepted(d, outcome, true))
    ensures SameProgress(Accepted(d, outcome, false), AfterCrashes(Accepted(d, outcome, true), saves))
  {
    AcceptKeeps(d, outcome, true);
    DeferredIsImmediate(d, outcome);
    CrashesApplyPendingOnce(Accepted(d, outcome, true), saves);
  }

  lemma RestoreCommutesWithMove(
    d: Dag, journal: Journal, used: set<RequestId>, experimentId: ExperimentId, source: DagDecision, target: StageId)
    requires target in Ids(d)
    ensures SameProgress(RestoredState(Snapshot(Moved(d, source, target), journal, false), used, experimentId),
                         Moved(RestoredState(Snapshot(d, journal, false), used, experimentId), source, target))
  {
    var reset := StageIds(d.template.stages[IndexOf(d.template.stages, target)..]);
    assert FilledOrigins(Moved(d, source, target)) == FilledOrigins(d) - reset;
  }

  /** Restoring forgets who controlled the run. */
  lemma RestoreForgetsControl(
    d: Dag, mode: Mode, desired: Mode, journal: Journal, used: set<RequestId>, experimentId: ExperimentId)
    ensures RestoredState(Snapshot(d.(mode := mode, desired := desired), journal, false), used, experimentId)
         == RestoredState(Snapshot(d, journal, false), used, experimentId)
  {
    assert FilledOrigins(d.(mode := mode, desired := desired)) == FilledOrigins(d);
  }

  lemma RestoreKeepsNote(
    d: Dag, source: DagDecision, journal: Journal, used: set<RequestId>, experimentId: ExperimentId)
    ensures RestoredState(Snapshot(d.(lastDecision := Some(source)), journal, false), used, experimentId)
         == RestoredState(Snapshot(d, journal, false), used, experimentId).(lastDecision := Some(source))
  {
    assert FilledOrigins(d.(lastDecision := Some(source))) == FilledOrigins(d);
  }

  lemma RestoreCommutesWithDecision(
    d: Dag, journal: Journal, used: set<RequestId>, experimentId: ExperimentId, source: DagDecision)
    requires TargetKnown(d, source.command)
    ensures SameProgress(RestoredState(Snapshot(Decided(d, source), journal, false), used, experimentId),
                         Decided(RestoredState(Snapshot(d, journal, false), used, experimentId), source))
  {
    var noted := d.(lastDecision := Some(source));
    RestoreKeepsNote(d, source, journal, used, experimentId);
    match source.command
    case Move(target) => RestoreCommutesWithMove(noted, journal, used, experimentId, source, target);
    case Pause => RestoreForgetsControl(noted, Paused, Paused, journal, used, experimentId);
    case _ => assert Decided(d, source) == noted;
  }

  /** The same for a restore of the snapshot that the decision was waiting for. */
  lemma RestoreAppliesDeferred(d: Dag, journal: Journal, used: set<RequestId>, experimentId: ExperimentId)
    requires d.pendingDecision.Some? && TargetKnown(d, d.pendingDecision.value.command)
    ensures SameProgress(RestoredState(Snapshot(PendingApplied(d), journal, false), used, experimentId),
                         PendingApplied(RestoredState(Snapshot(d, journal, false), used, experimentId)))
  {
    var ready := d.(pendingDecision := None);
    assert RestoredState(Snapshot(ready, journal, false), used, experimentId)
        == RestoredState(Snapshot(d, journal, false), used, experimentId).(pendingDecision := None);
    RestoreCommutesWithDecision(ready, journal, used, experimentId, d.pendingDecision.value);
  }
}
