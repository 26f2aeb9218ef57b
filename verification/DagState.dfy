/**
 The state of one experiment's DAG run and what every step does to it: launching, accepting an
 outcome, conditional decisions, operator commands, template reload. The functions here are the
 specification; `DagRunner` carries the steps out field by field.
 */
module DagState {
  import opened Options
  import opened Templates
  import opened ReloadPlan

  type RequestId = string
  type ExperimentId = string
  type Payload = string

  /** The decision of a conditional stage; `Proceed` is the absent command. */
  datatype Command = Proceed | Pause | Stop | Move(target: StageId)

  datatype PendingInput = PendingInput(
    requestId: RequestId, sourceStageId: StageId, experimentId: ExperimentId, stageId: StageId)

  datatype DagDecision = DagDecision(
    requestId: RequestId, sourceStageId: StageId, experimentId: ExperimentId, command: Command)

  datatype LastResult = LastResult(requestId: RequestId, data: Payload)

  datatype Mode = Running | Paused

  datatype Attempt = Attempt(stageId: StageId, requestId: RequestId)

  /**
   What the scheduler is doing. It stands for the stage task, the idle event and the active attempt:
   only `Idle` has the idle event set, only `Launching` and `Executing` have a stage task.
   */
  datatype Activity =
    | Preparing(recovered: Option<Attempt>)
    | Idle
    | Launching(manual: bool)
    | Executing(attempt: Attempt)
    | Settling
    | Unresolved(attempt: Attempt)
    | Halted(kept: Option<Attempt>)

  datatype Dag = Dag(
    template: Template,
    experimentId: ExperimentId,
    position: nat,
    cycle: nat,
    pendingAdvance: bool,
    results: map<StageId, RequestId>,
    origins: map<StageId, ExperimentId>,
    retries: map<StageId, nat>,
    lastResult: Option<LastResult>,
    pendingInput: Option<PendingInput>,
    lastDecision: Option<DagDecision>,
    pendingDecision: Option<DagDecision>,
    usedRequests: set<RequestId>,
    mode: Mode,
    desired: Mode,
    stepping: bool,
    manual: bool,
    activity: Activity)

  /** An accepted result as the journal keeps it. */
  datatype Record = Record(
    experimentId: ExperimentId, stageId: StageId, data: Payload, command: Option<Command>)

  type Journal = map<RequestId, Record>

  datatype Action = Advance | Hold

  datatype Response = Response(data: Payload, command: Command)

  /** A finished stage visit that is neither unknown nor a stop; `response` is a success. */
  datatype Outcome = Outcome(attempt: Attempt, action: Action, response: Option<Response>)

  // ----- reading the state

  predicate CursorInRange(d: Dag) {
    1 <= d.position <= |d.template.stages|
  }

  function CursorStage(d: Dag): Stage
    requires CursorInRange(d)
  {
    d.template.stages[d.position - 1]
  }

  function Ids(d: Dag): set<StageId> {
    StageIds(d.template.stages)
  }

  predicate HasCommand(decision: Option<DagDecision>, command: Command) {
    decision.Some? && decision.value.command == command
  }

  predicate TargetKnown(d: Dag, command: Command) {
    command.Move? ==> command.target in Ids(d)
  }

  function ActiveAttempt(d: Dag): Option<Attempt> {
    match d.activity
    case Executing(a) => Some(a)
    case Unresolved(a) => Some(a)
    case Preparing(a) => a
    case Halted(a) => a
    case _ => None
  }

  /** Ordinary advancement has reached the end of the last cycle. */
  predicate AtDagEnd(d: Dag) {
    && d.pendingAdvance
    && d.position == |d.template.stages|
    && d.cycle == d.template.cycles
    && !HasCommand(d.lastDecision, Pause)
  }

  /** The scheduler's decision to launch, once services are ready. */
  predicate MayLaunch(d: Dag) {
    d.activity.Idle? && !AtDagEnd(d) && (d.mode.Running? || d.stepping)
  }

  // ----- the steps of the scheduler

  function Advanced(d: Dag): Dag {
    if !d.pendingAdvance then d
    else if d.position + 1 > |d.template.stages| then
      d.(pendingInput := None, position := 1, cycle := d.cycle + 1, results := map[], origins := map[],
         lastResult := None, pendingAdvance := false)
    else
      d.(pendingInput := None, position := d.position + 1, pendingAdvance := false)
  }

  function Launched(d: Dag): (r: Dag)
    ensures r.usedRequests == d.usedRequests
  {
    Advanced(d).(lastDecision := None, activity := Launching(d.manual), manual := false)
  }

  function Forgotten(d: Dag, stageId: StageId): Dag {
    d.(results := d.results - {stageId}, origins := d.origins - {stageId}, lastResult := None)
  }

  function Begun(d: Dag, requestId: RequestId): Dag
    requires d.activity.Launching? && CursorInRange(d)
  {
    var stageId := CursorStage(d).stageId;
    var ready := if d.activity.manual then Forgotten(d, stageId) else d;
    ready.(activity := Executing(Attempt(stageId, requestId)), usedRequests := d.usedRequests + {requestId})
  }

  function Retried(d: Dag, requestId: RequestId): Dag
    requires d.activity.Executing?
  {
    var stageId := d.activity.attempt.stageId;
    var used := if stageId in d.retries then d.retries[stageId] else 0;
    d.(retries := d.retries[stageId := used + 1],
       activity := Executing(Attempt(stageId, requestId)),
       usedRequests := d.usedRequests + {requestId})
  }

  // ----- outcomes and decisions

  function Moved(d: Dag, source: DagDecision, target: StageId): Dag
    requires target in Ids(d)
  {
    var index := IndexOf(d.template.stages, target);
    var reset := StageIds(d.template.stages[index..]);
    d.(pendingInput := Some(PendingInput(source.requestId, source.sourceStageId, source.experimentId, target)),
       results := d.results - reset, origins := d.origins - reset, retries := d.retries - reset,
       position := index + 1, pendingAdvance := false)
  }

  function Decided(d: Dag, source: DagDecision): (r: Dag)
    requires TargetKnown(d, source.command)
    ensures r.usedRequests == d.usedRequests && r.activity == d.activity && r.pendingDecision == d.pendingDecision
  {
    var noted := d.(lastDecision := Some(source));
    match source.command
    case Pause => noted.(mode := Paused, desired := Paused)
    case Move(target) => Moved(noted, source, target)
    case _ => noted
  }

  function DecisionOf(d: Dag, outcome: Outcome): DagDecision
    requires outcome.response.Some?
  {
    DagDecision(outcome.attempt.requestId, outcome.attempt.stageId, d.experimentId, outcome.response.value.command)
  }

  /** A conditional decision is taken only from the node under the cursor. */
  predicate Decides(d: Dag, outcome: Outcome)
    requires CursorInRange(d)
  {
    outcome.response.Some? && CursorStage(d).conditional
  }

  /** The outcome retained, before any conditional decision is applied. */
  function Retained(d: Dag, outcome: Outcome): Dag {
    var stageId, requestId := outcome.attempt.stageId, outcome.attempt.requestId;
    var settled := d.(activity := Settling, lastDecision := None, pendingDecision := None,
                      pendingAdvance := outcome.action.Advance?,
                      mode := if outcome.action.Hold? then Paused else d.mode,
                      desired := if outcome.action.Hold? then Paused else d.desired);
    if outcome.response.None? then Forgotten(settled, stageId)
    else settled.(lastResult := Some(LastResult(requestId, outcome.response.value.data)),
                  results := d.results[stageId := requestId],
                  origins := d.origins[stageId := d.experimentId])
  }

  function Accepted(d: Dag, outcome: Outcome, deferred: bool): (r: Dag)
    requires CursorInRange(d)
    requires Decides(d, outcome) ==> TargetKnown(d, outcome.response.value.command)
    ensures r.usedRequests == d.usedRequests
  {
    var kept := Retained(d, outcome);
    if !Decides(d, outcome) then kept
    else if deferred then kept.(pendingDecision := Some(DecisionOf(d, outcome)))
    else Decided(kept, DecisionOf(d, outcome))
  }

  function PendingApplied(d: Dag): (r: Dag)
    requires d.pendingDecision.Some? ==> TargetKnown(d, d.pendingDecision.value.command)
    ensures r.usedRequests == d.usedRequests
  {
    if d.pendingDecision.None? then d
    else Decided(d.(pendingDecision := None), d.pendingDecision.value)
  }

  /** The decision waits for the snapshot that the node's policy requests after a success. */
  predicate DefersDecision(d: Dag, outcome: Outcome)
    requires CursorInRange(d)
  {
    d.template.snapshotAfterEpoch && CursorStage(d).snapshotAfter && outcome.response.Some?
  }

  /** The boundary is finished: a stop ends the run, anything else returns to idle. */
  function Settled(d: Dag): Dag {
    if HasCommand(d.lastDecision, Stop) then d.(activity := Halted(None), stepping := false)
    else d.(activity := Idle, stepping := d.stepping && AtDagEnd(d))
  }

  function LostTrack(d: Dag): Dag
    requires d.activity.Executing?
  {
    d.(activity := Unresolved(d.activity.attempt), pendingAdvance := false,
       mode := Paused, desired := Paused, stepping := false)
  }

  function StageStopped(d: Dag): Dag
    requires d.activity.Executing?
  {
    Forgotten(d, d.activity.attempt.stageId).(activity := Halted(Some(d.activity.attempt)), stepping := false)
  }

  function Failed(d: Dag): Dag {
    d.(activity := Halted(ActiveAttempt(d)), stepping := false)
  }

  /** An operator's stop clears the attempt, whose visit then counts as not done. */
  function Stopped(d: Dag): Dag {
    d.(activity := Halted(None), stepping := false,
       pendingAdvance := d.pendingAdvance && ActiveAttempt(d).None?)
  }

  // ----- operator commands; a rejected command leaves the state alone

  function WithoutPause(d: Dag): Dag {
    d.(lastDecision := if HasCommand(d.lastDecision, Pause) then None else d.lastDecision)
  }

  predicate MayResume(d: Dag) {
    d.activity.Idle? || d.activity.Launching? || d.activity.Executing? || d.activity.Settling?
  }

  function Resumed(d: Dag): Dag {
    WithoutPause(d).(mode := Running, desired := Running)
  }

  predicate MayStep(d: Dag, servicesReady: bool) {
    d.mode.Paused? && d.activity.Idle? && !d.stepping && servicesReady
  }

  function Stepped(d: Dag, servicesReady: bool): Dag {
    if MayStep(d, servicesReady) then WithoutPause(d).(stepping := true) else d
  }

  predicate AtIdlePause(d: Dag) {
    d.mode.Paused? && d.activity.Idle?
  }

  /** The cursor is rewound before `step` is asked, so a step that is refused keeps the rewind. */
  function Rerun(d: Dag, position: int, servicesReady: bool): (r: Dag)
    ensures r.usedRequests == d.usedRequests
  {
    if AtIdlePause(d) && position == d.position
    then Stepped(d.(pendingAdvance := false, manual := true), servicesReady)
    else d
  }

  function CursorMoved(d: Dag, position: int): Dag {
    if AtIdlePause(d) && 1 <= position <= |d.template.stages| then
      d.(position := position, pendingInput := None, lastDecision := None, pendingDecision := None,
         lastResult := if d.lastResult.Some? && d.lastResult.value.requestId in d.results.Values
                       then d.lastResult else None,
         pendingAdvance := false)
    else d
  }

  // ----- template reload

  function Kept<V>(m: map<StageId, V>, ids: set<StageId>): map<StageId, V> {
    map s | s in m && s in ids :: m[s]
  }

  function ReloadedInput(d: Dag, layout: Layout, cursor: Cursor): Option<PendingInput>
    requires 1 <= cursor.stagePosition <= |layout.newStages|
  {
    if d.pendingInput.Some?
       && (d.pendingInput.value.sourceStageId !in cursor.preserved
           || d.pendingInput.value.stageId !in cursor.preserved
           || d.pendingInput.value.stageId != layout.newStages[cursor.stagePosition - 1].stageId)
    then None else d.pendingInput
  }

  function ReloadedLast(
    results: map<StageId, RequestId>, layout: Layout, cursor: Cursor, journal: Journal): Option<LastResult>
    requires cursor.nextPosition <= |layout.newStages|
  {
    if cursor.nextPosition == 0 then None
    else
      var predecessor := layout.newStages[cursor.nextPosition - 1].stageId;
      if predecessor in results && results[predecessor] in journal
      then Some(LastResult(results[predecessor], journal[results[predecessor]].data))
      else None
  }

  function ReloadedDecision(d: Dag, layout: Layout, cursor: Cursor): Option<DagDecision>
    requires 1 <= cursor.stagePosition <= |layout.newStages|
  {
    if d.lastDecision.Some?
       && (d.lastDecision.value.sourceStageId !in cursor.preserved
           || (d.lastDecision.value.command.Move? && ReloadedInput(d, layout, cursor).None?))
    then None else d.lastDecision
  }

  function Reloaded(d: Dag, candidate: Template, layout: Layout, cursor: Cursor, journal: Journal): Dag
    requires 1 <= cursor.stagePosition <= |layout.newStages|
    requires cursor.nextPosition <= |layout.newStages|
  {
    var results := Kept(d.results, cursor.preserved);
    d.(template := candidate,
       results := results,
       origins := Kept(d.origins, cursor.preserved),
       retries := Kept(d.retries, cursor.preserved),
       position := cursor.stagePosition,
       pendingAdvance := cursor.pendingAdvance,
       pendingInput := ReloadedInput(d, layout, cursor),
       lastDecision := ReloadedDecision(d, layout, cursor),
       lastResult := ReloadedLast(results, layout, cursor, journal),
       desired := Paused)
  }
}
