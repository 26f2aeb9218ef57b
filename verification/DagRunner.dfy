/**
 The runner object: the methods that change the DAG state field by field, each tied to the
 state machine's specification.
 */
module DagRunner {
  import opened Options
  import opened Templates
  import opened ReloadPlan
  import opened DagState

  /** What a conditional stage returned; `data` is absent when the field was omitted. */
  datatype Decision = Decision(command: Command, data: Option<Payload>)

  /**
   The accepted control and application output of a conditional stage. Without a command the stage
   forwards its input; a move has to name a node of this DAG.
   */
  function ConditionalOutput(
    decision: Decision, input: Payload, returnsData: bool, template: Template)
    : (r: Result<Response, string>)
    ensures r.Success? <==>
            && (decision.command.Move? ==> decision.command.target in StageIds(template.stages))
            && (returnsData ==> decision.data.Some?)
    ensures r.Success? ==> r.value.command == decision.command
    ensures r.Success? ==>
              if returnsData && !decision.command.Proceed? then Some(r.value.data) == decision.data
              else r.value.data == input
  {
    if decision.command.Move? && decision.command.target !in StageIds(template.stages) then
      Failure("Conditional move target is not a node in this DAG.")
    else if returnsData && decision.data.None? then
      Failure("Conditional stage with returns_data=true must return a data field.")
    else
      Success(Response(
        if !decision.command.Proceed? && returnsData then decision.data.value else input, decision.command))
  }

  /** `state` is the source's state record together with the runner's own flags. */
  class Runner {
    var state: Dag

    constructor (template: Template, experimentId: ExperimentId, mode: Mode)
      ensures state == Dag(template, experimentId, 1, 1, false, map[], map[], map[], None, None, None, None, {},
                           mode, mode, false, false, Preparing(None))
    {
      state := Dag(template, experimentId, 1, 1, false, map[], map[], map[], None, None, None, None, {},
                   mode, mode, false, false, Preparing(None));
    }

    method LaunchNextStage()
      modifies this
      ensures state == Launched(old(state))
    {
      if state.pendingAdvance {
        state := state.(pendingInput := None);
        state := state.(position := state.position + 1);
        if state.position > |state.template.stages| {
          state := state.(cycle := state.cycle + 1);
          state := state.(position := 1);
          state := state.(results := map[], origins := map[]);
          state := state.(lastResult := None);
        }
        state := state.(pendingAdvance := false);
      }
      assert state == Advanced(old(state));
      state := state.(lastDecision := None);
      state := state.(activity := Launching(state.manual));
      state := state.(manual := false);
    }

    method ApplyConditionalMove(source: DagDecision, target: StageId)
      requires target in Ids(state)
      modifies this
      ensures state == Moved(old(state), source, target)
    {
      var stages := state.template.stages;
      var index := 0;
      while stages[index].stageId != target
        invariant index <= IndexOf(stages, target)
        decreases |stages| - index
      {
        index := index + 1;
      }
      state := state.(pendingInput := Some(
        PendingInput(source.requestId, source.sourceStageId, source.experimentId, target)));
      ForgetStages(stages[index..]);
      state := state.(position := index + 1);
      state := state.(pendingAdvance := false);
    }

    /** The stages from a conditional target on lose their results, origins and retry counts. */
    method ForgetStages(stages: seq<Stage>)
      modifies this
      ensures state == old(state).(results := old(state).results - StageIds(stages),
                                   origins := old(state).origins - StageIds(stages),
                                   retries := old(state).retries - StageIds(stages))
    {
      var i := 0;
      ghost var reset := {};
      assert stages[..0] == [];
      while i < |stages|
        invariant i <= |stages|
        invariant reset == StageIds(stages[..i])
        invariant state == old(state).(results := old(state).results - reset,
                                       origins := old(state).origins - reset, retries := old(state).retries - reset)
      {
        var id := stages[i].stageId;
        StageIdsGrow(stages, i);
        Without(old(state).results, reset, id);
        Without(old(state).origins, reset, id);
        Without(old(state).retries, reset, id);
        reset := reset + {id};
        state := state.(results := state.results - {id});
        state := state.(origins := state.origins - {id});
        state := state.(retries := state.retries - {id});
        i := i + 1;
      }
      assert stages[..i] == stages;
    }

    method ApplyDagDecision(source: DagDecision)
      requires TargetKnown(state, source.command)
      modifies this
      ensures state == Decided(old(state), source)
    {
      state := state.(lastDecision := Some(source));
      match source.command {
        case Pause =>
          state := state.(desired := Paused);
          state := state.(mode := state.desired);
        case Move(target) => ApplyConditionalMove(source, target);
        case _ =>
      }
    }

    method ApplyPendingDagDecision()
      requires state.pendingDecision.Some? ==> TargetKnown(state, state.pendingDecision.value.command)
      modifies this
      ensures state == PendingApplied(old(state))
    {
      if state.pendingDecision.Some? {
        var source := state.pendingDecision.value;
        state := state.(pendingDecision := None);
        ApplyDagDecision(source);
      }
    }

    method ApplyStageOutcome(outcome: Outcome, deferDag: bool)
      requires CursorInRange(state)
      requires Decides(state, outcome) ==> TargetKnown(state, outcome.response.value.command)
      modifies this
      ensures state == Accepted(old(state), outcome, deferDag)
    {
      var stageId := outcome.attempt.stageId;
      state := state.(activity := Settling);
      state := state.(lastDecision := None);
      state := state.(pendingDecision := None);
      state := state.(pendingAdvance := outcome.action.Advance?);
      if outcome.action.Hold? {
        state := state.(desired := Paused);
        state := state.(mode := state.desired);
      }
      if outcome.response.None? {
        state := state.(lastResult := None);
        state := state.(results := state.results - {stageId});
        state := state.(origins := state.origins - {stageId});
        return;
      }
      state := state.(lastResult := Some(LastResult(outcome.attempt.requestId, outcome.response.value.data)));
      state := state.(results := state.results[stageId := outcome.attempt.requestId]);
      state := state.(origins := state.origins[stageId := state.experimentId]);
      if !state.template.stages[state.position - 1].conditional {
        return;
      }
      var source := DagDecision(
        outcome.attempt.requestId, stageId, state.experimentId, outcome.response.value.command);
      if deferDag {
        state := state.(pendingDecision := Some(source));
      } else {
        ApplyDagDecision(source);
      }
    }

    method FinishBoundary()
      modifies this
      ensures state == Settled(old(state))
    {
      var final := AtDagEnd(state);
      if HasCommand(state.lastDecision, Stop) {
        state := state.(activity := Halted(None));
        state := state.(stepping := false);
        return;
      }
      state := state.(activity := Idle);
      if state.stepping && !final {
        state := state.(stepping := false);
      }
    }

    method Resume() returns (ok: bool)
      modifies this
      ensures ok == MayResume(old(state))
      ensures ok ==> state.mode.Running? && state.desired.Running? && !HasCommand(state.lastDecision, Pause)
      ensures state == if ok then Resumed(old(state)) else old(state)
    {
      ok := MayResume(state);
      if ok {
        state := state.(mode := Running);
        state := state.(desired := Running);
        if HasCommand(state.lastDecision, Pause) {
          state := state.(lastDecision := None);
        }
      }
    }

    method StepOnce(servicesReady: bool) returns (ok: bool)
      modifies this
      ensures ok <==> old(state).mode.Paused? && old(state).activity.Idle? && !old(state).stepping && servicesReady
      ensures state == Stepped(old(state), servicesReady)
    {
      ok := state.mode.Paused? && state.activity.Idle? && !state.stepping && servicesReady;
      if ok {
        if HasCommand(state.lastDecision, Pause) {
          state := state.(lastDecision := None);
        }
        state := state.(stepping := true);
      }
    }

    method RerunStage(position: int, servicesReady: bool) returns (ok: bool)
      modifies this
      ensures state == Rerun(old(state), position, servicesReady)
      ensures ok <==> && position == old(state).position && old(state).mode.Paused? && old(state).activity.Idle?
                      && !old(state).stepping && servicesReady
    {
      if position != state.position || !state.mode.Paused? || !state.activity.Idle? {
        return false;
      }
      state := state.(pendingAdvance := false);
      state := state.(manual := true);
      ok := StepOnce(servicesReady);
    }

    method MoveCursor(position: int) returns (ok: bool)
      modifies this
      ensures state == CursorMoved(old(state), position)
      ensures ok <==> AtIdlePause(old(state)) && 1 <= position <= |old(state).template.stages|
      ensures ok ==> state.position == position && !state.pendingAdvance && state.pendingInput.None?
      ensures state.results == old(state).results && state.origins == old(state).origins
      ensures state.retries == old(state).retries && state.cycle == old(state).cycle
    {
      if !state.mode.Paused? || !state.activity.Idle? || !(1 <= position <= |state.template.stages|) {
        return false;
      }
      state := state.(position := position);
      state := state.(pendingInput := None);
      state := state.(lastDecision := None);
      state := state.(pendingDecision := None);
      if !(state.lastResult.Some? && state.lastResult.value.requestId in state.results.Values) {
        state := state.(lastResult := None);
      }
      state := state.(pendingAdvance := false);
      ok := true;
    }

    method PublishReloadDag(candidate: Template, layout: Layout, cursor: Cursor, journal: Journal)
      requires 1 <= cursor.stagePosition <= |layout.newStages|
      requires cursor.nextPosition <= |layout.newStages|
      modifies this
      ensures state == Reloaded(old(state), candidate, layout, cursor, journal)
    {
      state := state.(template := candidate);
      state := state.(results := Kept(state.results, cursor.preserved));
      state := state.(origins := Kept(state.origins, cursor.preserved));
      state := state.(retries := Kept(state.retries, cursor.preserved));
      state := state.(position := cursor.stagePosition);
      state := state.(pendingAdvance := cursor.pendingAdvance);
      RetainTransfers(layout, cursor);
      RepublishLastResult(layout, cursor, journal);
      state := state.(desired := Paused);
    }

    /** Conditional input and the last decision survive only with both ends and the cursor intact. */
    method RetainTransfers(layout: Layout, cursor: Cursor)
      requires 1 <= cursor.stagePosition <= |layout.newStages|
      modifies this
      ensures state == old(state).(pendingInput := ReloadedInput(old(state), layout, cursor),
                                   lastDecision := ReloadedDecision(old(state), layout, cursor))
    {
      if state.pendingInput.Some?
         && (state.pendingInput.value.sourceStageId !in cursor.preserved
             || state.pendingInput.value.stageId !in cursor.preserved
             || state.pendingInput.value.stageId != layout.newStages[cursor.stagePosition - 1].stageId)
      {
        state := state.(pendingInput := None);
      }
      if state.lastDecision.Some?
         && (state.lastDecision.value.sourceStageId !in cursor.preserved
             || (state.lastDecision.value.command.Move? && state.pendingInput.None?))
      {
        state := state.(lastDecision := None);
      }
    }

    method RepublishLastResult(layout: Layout, cursor: Cursor, journal: Journal)
      requires cursor.nextPosition <= |layout.newStages|
      modifies this
      ensures state == old(state).(lastResult := ReloadedLast(old(state).results, layout, cursor, journal))
    {
      state := state.(lastResult := None);
      if cursor.nextPosition > 0 {
        var predecessor := layout.newStages[cursor.nextPosition - 1].stageId;
        if predecessor in state.results && state.results[predecessor] in journal {
          var requestId := state.results[predecessor];
          state := state.(lastResult := Some(LastResult(requestId, journal[requestId].data)));
        }
      }
    }
  }

  lemma Without<V>(m: map<StageId, V>, removed: set<StageId>, id: StageId)
    ensures (m - removed) - {id} == m - (removed + {id})
  {
  }

  lemma {:induction false} StageIdsGrow(stages: seq<Stage>, i: nat)
    requires i < |stages|
    ensures StageIds(stages[..i + 1]) == StageIds(stages[..i]) + {stages[i].stageId}
  {
    forall id ensures id in StageIds(stages[..i + 1]) <==> id in StageIds(stages[..i]) + {stages[i].stageId} {
      StageIdsAre(stages[..i + 1], id);
      StageIdsAre(stages[..i], id);
      if id in StageIds(stages[..i + 1]) {
        var k :| 0 <= k < i + 1 && stages[..i + 1][k].stageId == id;
        assert k < i ==> stages[..i][k].stageId == id;
      }
      if id in StageIds(stages[..i]) {
        var k :| 0 <= k < i && stages[..i][k].stageId == id;
        assert stages[..i + 1][k].stageId == id;
      }
      assert stages[..i + 1][i].stageId == stages[i].stageId;
    }
  }
}
