/**
 Checkpointing ahead of the state file, and the state a crashed runner is recovered with. A
 checkpoint is frozen under a fresh id, committed to the journal and only then copied to the state
 file; services save the live state to the same file whenever they observe something.
 */
module WriteAhead {
  import opened Options
  import opened Templates
  import opened JournalScan

  /**
   `memory` is the document that a save of the live state would write. `frozen` keeps every
   checkpoint ever prepared, `inflight` those not committed yet and `unpublished` those committed
   but not copied to the file.
   */
  datatype World = World(
    id: string, memory: Checkpoint, file: Option<Checkpoint>, events: seq<Event>,
    frozen: map<string, Checkpoint>, inflight: set<string>, unpublished: set<string>)

  datatype Step =
    | Change(state: Checkpoint)
    | Observe(services: map<ServiceId, string>)
    | Freeze(state: Checkpoint, checkpointId: string)
    | Commit(checkpointId: string)
    | Publish(checkpointId: string)
    | ServiceSave
    | RebuildCommit
    | Restore(saved: Checkpoint)
    | Foreign(event: Event)
    | LoseFile
    | Crash

  /** Everything but the services, which may be observed later than the checkpoint. */
  function Core(c: Checkpoint): Checkpoint {
    c.(services := map[])
  }

  function Latest(w: World): Option<Checkpoint> {
    EvidenceOf(w.id, w.events, |w.events|).latest
  }

  // ----- recovery

  predicate Superseded(file: Checkpoint, latest: Checkpoint) {
    latest.checkpointId != file.checkpointId || file.rebuilding || latest.rebuilding
  }

  function Adopted(file: Checkpoint, latest: Option<Checkpoint>): Checkpoint {
    if latest.Some? && Superseded(file, latest.value) then
      if file.runId == latest.value.runId && !file.rebuilding && !latest.value.rebuilding
      then latest.value.(services := file.services)
      else latest.value
    else file
  }

  /** The state recovery starts from; nothing when neither the file nor the journal has one. */
  function RecoveredState(w: World): Option<Checkpoint> {
    if w.file.Some? then Some(Adopted(w.file.value, Latest(w))) else Latest(w)
  }

  /** Recovery gives the last committed progress, or without one the file as it is. */
  predicate RecoversCommitted(w: World) {
    match Latest(w)
    case Some(committed) =>
      RecoveredState(w).Some? && Core(RecoveredState(w).value) == Core(committed)
    case None => RecoveredState(w) == w.file
  }

  // ----- the steps

  function Marked(state: Checkpoint, checkpointId: Option<string>): Checkpoint {
    state.(checkpointId := checkpointId)
  }

  ghost predicate Possible(w: World, step: Step) {
    match step
    case Change(state) => state.checkpointId == w.memory.checkpointId
    case Freeze(_, checkpointId) => checkpointId !in w.frozen
    case Commit(checkpointId) => checkpointId in w.inflight && checkpointId in w.frozen
    case Publish(checkpointId) => checkpointId in w.unpublished && checkpointId in w.frozen
    case RebuildCommit => w.memory.rebuilding && w.memory.checkpointId.Some?
    case Foreign(event) => !Resets(w.id, event)
    case Crash => RecoveredState(w).Some?
    case _ => true
  }

  function Next(w: World, step: Step): World
    requires Possible(w, step)
  {
    match step
    case Change(state) => w.(memory := state)
    case Observe(services) => w.(memory := w.memory.(services := services))
    case Freeze(state, x) =>
      var checkpoint := Marked(state, Some(x));
      w.(memory := checkpoint, frozen := w.frozen[x := checkpoint], inflight := w.inflight + {x})
    case Commit(x) =>
      w.(events := w.events + [Event(w.id, RunnerCheckpoint(w.frozen[x]))],
         inflight := w.inflight - {x}, unpublished := w.unpublished + {x})
    case Publish(x) => w.(file := Some(w.frozen[x]), unpublished := w.unpublished - {x})
    case ServiceSave => w.(file := Some(w.memory))
    case RebuildCommit => w.(events := w.events + [Event(w.id, RebuildCheckpoint(w.memory))])
    case Restore(saved) =>
      var restored := Marked(saved, None);
      w.(memory := restored, file := Some(restored), events := w.events + [Event(w.id, Restored)],
         inflight := {}, unpublished := {})
    case Foreign(event) => w.(events := w.events + [event])
    case LoseFile => w.(file := None)
    case Crash => w.(memory := RecoveredState(w).value, inflight := {}, unpublished := {})
  }

  // ----- what every run keeps

  /** `x` is, or can still become, the id of a last committed checkpoint outside a reload. */
  predicate Live(w: World, x: string) {
    || (x in w.inflight && x in w.frozen && !w.frozen[x].rebuilding)
    || (Latest(w).Some? && Latest(w).value.checkpointId == Some(x) && !Latest(w).value.rebuilding)
  }

  /** A document that does not change the progress of the checkpoint it is named after. */
  predicate Faithful(w: World, c: Checkpoint) {
    c.rebuilding || c.checkpointId.None? || !Live(w, c.checkpointId.value)
    || (c.checkpointId.value in w.frozen && Core(c) == Core(w.frozen[c.checkpointId.value]))
  }

  predicate Named(w: World, c: Checkpoint) {
    c.checkpointId.Some? ==> c.checkpointId.value in w.frozen
  }

  ghost predicate Sound(w: World) {
    && (forall x :: x in w.frozen ==> w.frozen[x].checkpointId == Some(x))
    && w.inflight <= w.frozen.Keys && w.unpublished <= w.frozen.Keys
    && Named(w, w.memory)
    && (w.file.Some? ==> Named(w, w.file.value) && Faithful(w, w.file.value))
    && (Latest(w).Some? ==> Latest(w).value.checkpointId.Some? && Named(w, Latest(w).value)
                            && Faithful(w, Latest(w).value))
  }

  /**
   The live state has changed since the checkpoint it is named after, and that checkpoint is the
   last one committed or may become it.
   */
  predicate Exposed(w: World) {
    !Faithful(w, w.memory)
  }

  lemma SoundRecovers(w: World)
    requires Sound(w)
    ensures RecoversCommitted(w)
  {
    if w.file.Some? && Latest(w).Some? && !Superseded(w.file.value, Latest(w).value) {
      assert Live(w, Latest(w).value.checkpointId.value);
    }
  }

  lemma LatestAfter(w: World, event: Event)
    ensures Latest(w.(events := w.events + [event]))
         == if event.experiment == w.id && event.what.Restored? then None
            else if event.experiment == w.id && IsCheckpoint(event) then Some(event.what.data)
            else Latest(w)
  {
    AppendedEvent(w.id, w.events, event);
  }

  /** Every step but a save of an exposed state keeps the world sound. */
  lemma StepKeepsSound(w: World, step: Step)
    requires Sound(w) && Possible(w, step)
    requires step.ServiceSave? ==> !Exposed(w)
    ensures Sound(Next(w, step))
  {
    if step.Commit? {
      CommitKeepsSound(w, step.checkpointId);
    } else if step.RebuildCommit? {
      LatestAfter(w, Event(w.id, RebuildCheckpoint(w.memory)));
    } else if step.Restore? {
      LatestAfter(w, Event(w.id, Restored));
    } else if step.Foreign? {
      LatestAfter(w, step.event);
    } else if step.Freeze? {
      FreezeKeepsSound(w, step);
    } else if step.Crash? {
      CrashKeepsSound(w);
    } else {
      FileStepKeepsSound(w, step);
    }
  }

  lemma FileStepKeepsSound(w: World, step: Step)
    requires Sound(w) && Possible(w, step) && (step.ServiceSave? ==> !Exposed(w))
    requires step.Change? || step.Observe? || step.Publish? || step.ServiceSave? || step.LoseFile?
    ensures Sound(Next(w, step))
  {
    assert Latest(Next(w, step)) == Latest(w);
  }

  lemma CrashKeepsSound(w: World)
    requires Sound(w) && Possible(w, Crash)
    ensures Sound(Next(w, Crash))
  {
    assert Latest(Next(w, Crash)) == Latest(w);
  }

  lemma CommitKeepsSound(w: World, x: string)
    requires Sound(w) && Possible(w, Commit(x))
    ensures Sound(Next(w, Commit(x)))
  {
    LatestAfter(w, Event(w.id, RunnerCheckpoint(w.frozen[x])));
  }

  lemma FreezeKeepsSound(w: World, step: Step)
    requires Sound(w) && step.Freeze? && Possible(w, step)
    ensures Sound(Next(w, step))
  {
    assert Latest(Next(w, step)) == Latest(w);
  }

  /** After a restoration recovery gives the restored state, without an id. */
  lemma RestorationRecovers(w: World, saved: Checkpoint)
    ensures RecoveredState(Next(w, Restore(saved))) == Some(Marked(saved, None))
    ensures Latest(Next(w, Restore(saved))).None?
  {
    LatestAfter(w, Event(w.id, Restored));
  }

  /** A committed checkpoint is what a crash right after it recovers, published or not. */
  lemma CommittedIsRecovered(w: World, x: string)
    requires Sound(w) && Possible(w, Commit(x))
    ensures
      var committed := Next(w, Commit(x));
      && Possible(committed, Crash) && Core(Next(committed, Crash).memory) == Core(w.frozen[x])
      && Latest(committed) == Some(w.frozen[x])
      && Next(committed, Crash).inflight == Next(committed, Crash).unpublished == {}
  {
    CommitKeepsSound(w, x);
    LatestAfter(w, Event(w.id, RunnerCheckpoint(w.frozen[x])));
    SoundRecovers(Next(w, Commit(x)));
  }

  /** The same for the checkpoint of an unfinished reload; a lost file is made up for by the journal. */
  lemma RebuildIsRecovered(w: World)
    requires Sound(w) && Possible(w, RebuildCommit)
    ensures
      var committed := Next(w, RebuildCommit);
      && Latest(committed) == Some(w.memory)
      && RecoveredState(committed).Some? && Core(RecoveredState(committed).value) == Core(w.memory)
      && RecoveredState(Next(committed, LoseFile)) == Some(w.memory)
  {
    StepKeepsSound(w, RebuildCommit);
    LatestAfter(w, Event(w.id, RebuildCheckpoint(w.memory)));
    SoundRecovers(Next(w, RebuildCommit));
  }

  /** What services observe is what recovery has of them, once it is saved. */
  lemma ObservedServicesAreRecovered(w: World, services: map<ServiceId, string>)
    requires Sound(w) && !Exposed(w) && Latest(w) == Some(w.memory) && !w.memory.rebuilding
    ensures
      var saved := Next(Next(w, Observe(services)), ServiceSave);
      RecoveredState(saved) == Some(w.memory.(services := services))
  {
    assert Latest(Next(Next(w, Observe(services)), ServiceSave)) == Latest(w);
  }

  // ----- whole runs

  ghost predicate Plays(w: World, steps: seq<Step>)
    decreases |steps|
  {
    steps == [] || (Possible(w, steps[0]) && Plays(Next(w, steps[0]), steps[1..]))
  }

  ghost function Outcome(w: World, steps: seq<Step>): World
    requires Plays(w, steps)
    decreases |steps|
  {
    if steps == [] then w else Outcome(Next(w, steps[0]), steps[1..])
  }

  ghost predicate NeverSavesExposed(w: World, steps: seq<Step>)
    requires Plays(w, steps)
    decreases |steps|
  {
    steps == [] || ((steps[0].ServiceSave? ==> !Exposed(w)) && NeverSavesExposed(Next(w, steps[0]), steps[1..]))
  }

  /** A new experiment, before its first checkpoint. */
  function Beginning(id: string, state: Checkpoint): World {
    World(id, Marked(state, None), None, [], map[], {}, {})
  }

  /**
   However checkpoints, service saves, restorations and crashes interleave, recovery continues
   from the progress of the last committed checkpoint after the last restoration.
   */
  lemma CommittedProgressSurvives(id: string, state: Checkpoint, steps: seq<Step>)
    requires Plays(Beginning(id, state), steps) && NeverSavesExposed(Beginning(id, state), steps)
    ensures RecoversCommitted(Outcome(Beginning(id, state), steps))
  {
    RunKeepsSound(Beginning(id, state), steps);
    SoundRecovers(Outcome(Beginning(id, state), steps));
  }

  lemma {:induction false} RunKeepsSound(w: World, steps: seq<Step>)
    requires Sound(w) && Plays(w, steps) && NeverSavesExposed(w, steps)
    ensures Sound(Outcome(w, steps))
    decreases |steps|
  {
    if steps != [] {
      StepKeepsSound(w, steps[0]);
      RunKeepsSound(Next(w, steps[0]), steps[1..]);
    }
  }

  // ----- the one way to lose it

  lemma ExposedSaveLoses(w: World, steps: seq<Step>)
    requires Sound(w) && Exposed(w)
    requires steps == if w.memory.checkpointId.value in w.inflight then [Commit(w.memory.checkpointId.value)] else []
    ensures Plays(Next(w, ServiceSave), steps) && NeverSavesExposed(Next(w, ServiceSave), steps)
    ensures !RecoversCommitted(Outcome(Next(w, ServiceSave), steps))
  {
    var saved, x := Next(w, ServiceSave), w.memory.checkpointId.value;
    if x in w.inflight {
      LatestAfter(saved, Event(w.id, RunnerCheckpoint(w.frozen[x])));
      assert steps[1..] == [];
    }
  }

  /**
   A save of the live state is harmless exactly when the state is not exposed: otherwise the
   recovery right after it, or right after its checkpoint is committed, gives something else.
   */
  lemma SaveIsSafeIffNotExposed(w: World)
    requires Sound(w)
    ensures !Exposed(w) <==>
              (forall steps :: Plays(w, [ServiceSave] + steps) && NeverSavesExposed(Next(w, ServiceSave), steps) ==>
                 RecoversCommitted(Outcome(w, [ServiceSave] + steps)))
  {
    var saved := Next(w, ServiceSave);
    if Exposed(w) {
      var steps := if w.memory.checkpointId.value in w.inflight then [Commit(w.memory.checkpointId.value)] else [];
      ExposedSaveLoses(w, steps);
      Leading(w, ServiceSave, [ServiceSave] + steps);
    } else {
      StepKeepsSound(w, ServiceSave);
      forall steps | Plays(w, [ServiceSave] + steps) && NeverSavesExposed(saved, steps)
        ensures RecoversCommitted(Outcome(w, [ServiceSave] + steps))
      {
        assert ([ServiceSave] + steps)[1..] == steps;
        RunKeepsSound(saved, steps);
        SoundRecovers(Outcome(saved, steps));
      }
    }
  }

  lemma Leading(w: World, step: Step, steps: seq<Step>)
    requires steps != [] && steps[0] == step && Possible(w, step) && Plays(Next(w, step), steps[1..])
    ensures Plays(w, steps) && Outcome(w, steps) == Outcome(Next(w, step), steps[1..])
  {
  }

  /** The DAG part of a document: of what the scheduler does, only the active attempt is saved. */
  function Document(d: D.Dag): D.Dag {
    d.(activity := D.Preparing(D.ActiveAttempt(d)), stepping := false, manual := false, desired := d.mode)
  }

  /** Whether a stopping outcome of the running stage finds anything to forget. */
  predicate NothingToForget(d: D.Dag)
    requires d.activity.Executing?
  {
    var stageId := d.activity.attempt.stageId;
    d.lastResult.None? && stageId !in d.results && stageId !in d.origins
  }

  /** The live state after a stage outcome that stops the experiment. */
  function StoppedState(w: World, d: D.Dag): Checkpoint
    requires D.CursorInRange(d) && d.activity.Executing?
  {
    w.memory.(dag := Document(D.StageStopped(d)))
  }

  lemma ForgettingChanges(d: D.Dag)
    requires d.activity.Executing?
    ensures Document(D.StageStopped(d)) == Document(d) <==> NothingToForget(d)
  {
    var stageId := d.activity.attempt.stageId;
    var stopped := Document(D.StageStopped(d));
    if NothingToForget(d) {
      assert d.results - {stageId} == d.results && d.origins - {stageId} == d.origins;
    } else {
      assert stageId !in stopped.results && stageId !in stopped.origins && stopped.lastResult.None?;
    }
  }

  /**
   A stage outcome that stops the experiment forgets results under the id of the last checkpoint,
   and stopping the services saves that state. If the runner dies before the failure checkpoint,
   recovery has the committed progress exactly when there was nothing to forget.
   */
  lemma StoppingOutcomeLosesResults(w: World, d: D.Dag)
    requires Sound(w) && Latest(w) == Some(w.memory) && !w.memory.rebuilding
    requires D.CursorInRange(d) && d.activity.Executing? && w.memory.dag == Document(d)
    ensures
      var steps := [Change(StoppedState(w, d)), ServiceSave];
      && Plays(w, steps) && RecoveredState(Outcome(w, steps)) == Some(StoppedState(w, d))
      && (RecoversCommitted(Outcome(w, steps)) <==> NothingToForget(d))
  {
    var stopped := StoppedState(w, d);
    var changed := Next(w, Change(stopped));
    var saved := Next(changed, ServiceSave);
    Leading(changed, ServiceSave, [ServiceSave]);
    Leading(w, Change(stopped), [Change(stopped), ServiceSave]);
    assert Latest(saved) == Latest(w);
    assert RecoveredState(saved) == Some(stopped);
    ForgettingChanges(d);
  }

  /** Every run that has just committed the checkpoint of a running stage gets there. */
  lemma CheckpointedWorld(id: string, start: Checkpoint, state: Checkpoint, x: string)
    ensures
      var steps := [Freeze(state, x), Commit(x), Publish(x)];
      var w := Beginning(id, start);
      && Plays(w, steps) && Sound(Outcome(w, steps))
      && Outcome(w, steps).memory == Marked(state, Some(x)) && Latest(Outcome(w, steps)) == Some(Marked(state, Some(x)))
      && Outcome(w, steps).file == Some(Marked(state, Some(x)))
  {
    var w := Beginning(id, start);
    var frozen := Next(w, Freeze(state, x));
    var committed := Next(frozen, Commit(x));
    var published := Next(committed, Publish(x));
    LatestAfter(frozen, Event(id, RunnerCheckpoint(frozen.frozen[x])));
    FreezeKeepsSound(w, Freeze(state, x));
    CommitKeepsSound(frozen, x);
    FileStepKeepsSound(committed, Publish(x));
    Leading(committed, Publish(x), [Publish(x)]);
    Leading(frozen, Commit(x), [Commit(x), Publish(x)]);
    Leading(w, Freeze(state, x), [Freeze(state, x), Commit(x), Publish(x)]);
    assert Latest(published) == Latest(committed);
  }

  lemma LatestStays(w: World, state: Checkpoint)
    requires Possible(w, Change(state))
    ensures Plays(w, [Change(state), ServiceSave]) && Latest(Outcome(w, [Change(state), ServiceSave])) == Latest(w)
  {
    Leading(Next(w, Change(state)), ServiceSave, [ServiceSave]);
    Leading(w, Change(state), [Change(state), ServiceSave]);
  }

  // ----- the runner's own methods

  /** The parts of the runner that save and recover its state; `world` is its history. */
  class StateKeeper {
    var state: Checkpoint
    var pendingAdvance: bool
    var file: Option<Checkpoint>
    ghost var world: World

    constructor (id: string, state: Checkpoint)
      ensures Valid() && world == Beginning(id, state)
    {
      this.state, this.pendingAdvance, this.file := Marked(state, None), state.dag.pendingAdvance, None;
      this.world := Beginning(id, state);
    }

    ghost predicate Valid()
      reads this
    {
      Sound(world) && world.memory == state && world.file == file
    }

    /** Freezes a checkpoint: the scheduler's pending flag and a fresh id go into the state first. */
    method PrepareStateSave(newId: string) returns (checkpoint: Checkpoint)
      requires Valid() && newId !in world.frozen
      modifies this
      ensures Valid() && checkpoint == state && checkpoint.dag.pendingAdvance == pendingAdvance
      ensures world == Next(old(world), Freeze(checkpoint, newId))
      ensures pendingAdvance == old(pendingAdvance)
    {
      state := state.(dag := state.dag.(pendingAdvance := pendingAdvance));
      ghost var frozen := state;
      state := state.(checkpointId := Some(newId));
      checkpoint := state;
      FreezeKeepsSound(world, Freeze(frozen, newId));
      assert Next(world, Freeze(frozen, newId)) == Next(world, Freeze(checkpoint, newId));
      world := Next(world, Freeze(frozen, newId));
    }

    /** Commits the frozen checkpoint and only then copies it to the file, which may fail. */
    method PersistState(checkpoint: Checkpoint, writable: bool)
      requires Valid() && checkpoint.checkpointId.Some? && checkpoint.checkpointId.value in world.inflight
      requires checkpoint.checkpointId.value in world.frozen
      requires world.frozen[checkpoint.checkpointId.value] == checkpoint
      modifies this
      ensures Valid() && state == old(state) && pendingAdvance == old(pendingAdvance)
      ensures Latest(world) == Some(checkpoint)
      ensures file == if writable then Some(checkpoint) else old(file)
      ensures
        var committed := Next(old(world), Commit(checkpoint.checkpointId.value));
        world == if writable then Next(committed, Publish(checkpoint.checkpointId.value)) else committed
    {
      var x := checkpoint.checkpointId.value;
      LatestAfter(world, Event(world.id, RunnerCheckpoint(checkpoint)));
      CommitKeepsSound(world, x);
      world := Next(world, Commit(x));
      if writable {
        FileStepKeepsSound(world, Publish(x));
        file := Some(checkpoint);
        world := Next(world, Publish(x));
      }
    }

    /**
     The recovered runner: the state just loaded, from the file or without one from the journal,
     gives way to the journal's last checkpoint unless both are the same one. Afterwards the state
     has the committed progress.
     */
    method AdoptRecoveryCheckpoint(latest: Option<Checkpoint>)
      requires Valid() && latest == Latest(world)
      requires if file.Some? then state == file.value else latest == Some(state)
      modifies this
      ensures Valid() && file == old(file)
      ensures latest.Some? ==> Core(state) == Core(latest.value)
      ensures latest.None? ==> state == old(state)
      ensures latest.Some? ==>
                state.services == if old(state).runId == latest.value.runId
                                     && !old(state).rebuilding && !latest.value.rebuilding
                                  then old(state).services else latest.value.services
      ensures world == Next(old(world), Crash)
    {
      SoundRecovers(world);
      CrashKeepsSound(world);
      world := Next(world, Crash);
      if latest.Some? && (latest.value.checkpointId != state.checkpointId
                          || state.rebuilding || latest.value.rebuilding) {
        var committed := latest.value;
        if state.runId == committed.runId && !state.rebuilding && !committed.rebuilding {
          committed := committed.(services := state.services);
        }
        state := committed;
      }
    }
  }
}
