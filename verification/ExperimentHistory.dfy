/**
 Whole histories of an experiment: the steps of its runs interleaved with checkpoints, crashes and
 recoveries, snapshots, rollbacks and continuations. Everything that is ever saved stays valid.
 */
module ExperimentHistory {
  import opened Options
  import opened Templates
  import opened ReloadPlan
  import opened DagState
  import opened DagInvariant
  import opened DagBacking
  import opened DagRuns
  import opened SnapshotState

  /**
   What survives a crash is the journal, the last checkpoint, and the snapshots. `file` is the live
   state as a service saved it under the id of the last checkpoint, if one did.
   */
  datatype History = History(
    dag: Dag, journal: Journal, checkpoint: Dag, file: Option<Dag>, snapshots: seq<Snapshot>)

  datatype Event =
    | Act(step: Step)
    | Save
    | ServiceSave
    | CrashAndRecover(servicesStopped: bool)
    | CrashAndAdopt(servicesStopped: bool)
    | TakeSnapshot
    | Rollback(index: nat)
    | Continue(index: nat, experimentId: ExperimentId)

  /** Recovery is always paused; a terminal experiment whose services stopped stays terminal. */
  function Recovered(saved: Dag, servicesStopped: bool): Dag {
    saved.(mode := Paused, desired := Paused, stepping := false, manual := false,
           activity := if saved.activity == Halted(None) && servicesStopped then saved.activity
                       else Preparing(ActiveAttempt(saved)))
  }

  predicate StageFree(d: Dag) {
    d.activity.Idle? || d.activity.Settling? || d.activity == Halted(None)
  }

  ghost predicate Occurs(h: History, event: Event)
    requires Inv(h.dag)
  {
    match event
    case Act(step) => Possible(h.dag, h.journal, step)
    case CrashAndAdopt(_) => h.file.Some?
    case TakeSnapshot => StageFree(h.dag)
    case Rollback(i) =>
      && i < |h.snapshots| && h.snapshots[i].dag.experimentId == h.dag.experimentId
      && (h.dag.activity.Halted? || AtIdlePause(h.dag))
    case Continue(i, _) => i < |h.snapshots| && h.dag.activity.Halted?
    case _ => true
  }

  ghost function After(h: History, event: Event): History
    requires Inv(h.dag) && Occurs(h, event)
  {
    match event
    case Act(step) =>
      var next := Next(h.dag, h.journal, step);
      // A new attempt is checkpointed before anything is started for it.
      var saved := step.Begin? || step.Retry?;
      History(next, JournalAfter(h.dag, h.journal, step), if saved then next else h.checkpoint,
              if saved then None else h.file, h.snapshots)
    case Save => h.(checkpoint := h.dag, file := None)
    case ServiceSave => h.(file := Some(h.dag))
    // A file under any other id than the last checkpoint's gives way to that checkpoint.
    case CrashAndRecover(stopped) => h.(dag := Recovered(h.checkpoint, stopped))
    case CrashAndAdopt(stopped) => h.(dag := Recovered(h.file.value, stopped))
    case TakeSnapshot => h.(snapshots := h.snapshots + [Snapshot(h.dag, h.journal, h.dag.activity.Halted?)])
    case Rollback(i) =>
      var restored := RestoredState(h.snapshots[i], h.dag.usedRequests, h.dag.experimentId);
      h.(dag := restored, journal := h.snapshots[i].journal, checkpoint := restored, file := None)
    case Continue(i, experimentId) =>
      var restored := RestoredState(h.snapshots[i], {}, experimentId);
      h.(dag := restored, journal := h.snapshots[i].journal, checkpoint := restored, file := None)
  }

  ghost predicate SnapshotSound(s: Snapshot) {
    Inv(s.dag) && Backs(s.journal, s.dag) && StageFree(s.dag)
  }

  ghost predicate Sound(h: History) {
    && Inv(h.dag) && Backs(h.journal, h.dag)
    && Inv(h.checkpoint) && Backs(h.journal, h.checkpoint)
    && h.checkpoint.usedRequests == h.dag.usedRequests
    && (h.file.Some? ==> Inv(h.file.value) && Backs(h.journal, h.file.value)
                         && h.file.value.usedRequests == h.dag.usedRequests)
    && (forall i :: 0 <= i < |h.snapshots| ==> SnapshotSound(h.snapshots[i]))
  }

  lemma RecoveredSound(journal: Journal, saved: Dag, servicesStopped: bool)
    requires Inv(saved) && Backs(journal, saved)
    ensures Inv(Recovered(saved, servicesStopped)) && Backs(journal, Recovered(saved, servicesStopped))
  {
    var r := Recovered(saved, servicesStopped);
    if saved.pendingDecision.Some? {
      assert ActiveAttempt(saved) == None;
    }
    SchedulingKeeps(saved, r);
    ControlNarrows(saved, r);
    NarrowingKeepsBacking(journal, saved, r);
  }

  lemma RestoredInv(snapshot: Snapshot, stoppedRequests: set<RequestId>, experimentId: ExperimentId)
    requires SnapshotSound(snapshot)
    ensures Inv(RestoredState(snapshot, stoppedRequests, experimentId))
  {
    var r := RestoredState(snapshot, stoppedRequests, experimentId);
    assert r.origins.Keys == r.results.Keys;
  }

  lemma RestoredSound(snapshot: Snapshot, stoppedRequests: set<RequestId>, experimentId: ExperimentId)
    requires SnapshotSound(snapshot)
    ensures var r := RestoredState(snapshot, stoppedRequests, experimentId);
            Inv(r) && Backs(snapshot.journal, r) && ActiveAttempt(r).None?
  {
    RestoredInv(snapshot, stoppedRequests, experimentId);
    RestorePreservesValidity(snapshot, stoppedRequests, experimentId);
  }

  lemma ActSound(h: History, step: Step)
    requires Sound(h) && Possible(h.dag, h.journal, step)
    ensures Sound(After(h, Act(step)))
  {
    var next := Next(h.dag, h.journal, step);
    NextInv(h.dag, h.journal, step);
    NextBacked(h.dag, h.journal, step);
    if step.Accept? && step.outcome.response.Some? {
      var requestId, record := step.outcome.attempt.requestId, RecordOf(h.dag, step.outcome);
      GrowingKeepsBacking(h.journal, h.checkpoint, requestId, record);
      if h.file.Some? {
        GrowingKeepsBacking(h.journal, h.file.value, requestId, record);
      }
    }
  }

  lemma EventSound(h: History, event: Event)
    requires Sound(h) && Occurs(h, event)
    ensures Sound(After(h, event))
  {
    match event
    case Act(step) => ActSound(h, step);
    case CrashAndRecover(stopped) => RecoveredSound(h.journal, h.checkpoint, stopped);
    case CrashAndAdopt(stopped) => RecoveredSound(h.journal, h.file.value, stopped);
    case Rollback(i) => RestoredSound(h.snapshots[i], h.dag.usedRequests, h.dag.experimentId);
    case Continue(i, experimentId) => RestoredSound(h.snapshots[i], {}, experimentId);
    case Save =>
    case ServiceSave =>
    case TakeSnapshot =>
  }

  // ----- histories

  /** The events can happen one after the other. */
  ghost predicate Plays(h: History, events: seq<Event>)
    requires Sound(h)
    decreases events
  {
    events == []
    || (Occurs(h, events[0])
        && (EventSound(h, events[0]); Plays(After(h, events[0]), events[1..])))
  }

  ghost function Outcome(h: History, events: seq<Event>): (end: History)
    requires Sound(h) && Plays(h, events)
    ensures Sound(end)
    decreases events
  {
    if events == [] then h
    else
      EventSound(h, events[0]);
      Outcome(After(h, events[0]), events[1..])
  }

  function Started(template: Template, experimentId: ExperimentId, mode: Mode): Dag {
    Dag(template, experimentId, 1, 1, false, map[], map[], map[], None, None, None, None, {},
        mode, mode, false, false, Preparing(None))
  }

  ghost function Beginning(template: Template, experimentId: ExperimentId, mode: Mode): (h: History)
    requires ValidTemplate(template)
    ensures Sound(h)
  {
    var d := Started(template, experimentId, mode);
    History(d, map[], d, None, [])
  }

  // ----- the checks on saved documents

  /** The reference checks of a saved state document. */
  predicate DocumentValid(d: Dag) {
    && CursorInRange(d)
    && d.origins.Keys <= d.results.Keys
    && (d.pendingInput.Some? ==>
          && d.pendingInput.value.sourceStageId in Ids(d)
          && d.pendingInput.value.stageId == CursorStage(d).stageId)
    && (d.lastDecision.Some? ==>
          d.lastDecision.value.sourceStageId in Ids(d) && TargetKnown(d, d.lastDecision.value.command))
    && (d.pendingDecision.Some? ==>
          var p := d.pendingDecision.value;
          && ActiveAttempt(d).None? && d.lastDecision.None?
          && d.lastResult.Some? && d.lastResult.value.requestId == p.requestId
          && p.sourceStageId in d.results && d.results[p.sourceStageId] == p.requestId
          && CursorStage(d).stageId == p.sourceStageId
          && p.sourceStageId in Ids(d) && TargetKnown(d, p.command))
  }

  lemma InvIsValidDocument(d: Dag)
    requires Inv(d)
    ensures DocumentValid(d)
  {
    assert CursorStage(d).stageId in Ids(d);
  }

  ghost predicate Restorable(s: Snapshot) {
    && DocumentValid(s.dag) && PassesJournal(s.dag, s.journal)
    && forall used, experimentId {:trigger RestoredState(s, used, experimentId)} ::
         var r := RestoredState(s, used, experimentId);
         DocumentValid(r) && PassesJournal(r, s.journal)
  }

  /**
   Whatever happens, the current state, the last checkpoint, a later file and every snapshot pass the document
   checks and validate against their journals, and every snapshot can be restored under any id.
   */
  lemma SavedStatesAreValid(template: Template, experimentId: ExperimentId, mode: Mode, events: seq<Event>)
    requires ValidTemplate(template) && Plays(Beginning(template, experimentId, mode), events)
    ensures var h := Outcome(Beginning(template, experimentId, mode), events);
            && DocumentValid(h.dag) && PassesJournal(h.dag, h.journal)
            && DocumentValid(h.checkpoint) && PassesJournal(h.checkpoint, h.journal)
            && (h.file.Some? ==> DocumentValid(h.file.value) && PassesJournal(h.file.value, h.journal))
            && forall i :: 0 <= i < |h.snapshots| ==> Restorable(h.snapshots[i])
  {
    var h := Outcome(Beginning(template, experimentId, mode), events);
    InvIsValidDocument(h.dag);
    InvIsValidDocument(h.checkpoint);
    if h.file.Some? {
      InvIsValidDocument(h.file.value);
    }
    forall i | 0 <= i < |h.snapshots| ensures Restorable(h.snapshots[i]) {
      var s := h.snapshots[i];
      assert SnapshotSound(s);
      InvIsValidDocument(s.dag);
      forall used, id ensures var r := RestoredState(s, used, id); DocumentValid(r) && PassesJournal(r, s.journal) {
        RestoredSound(s, used, id);
        InvIsValidDocument(RestoredState(s, used, id));
      }
    }
  }

  /** The run state invariant over every history, for the current state and the last checkpoint. */
  lemma DagStateInvariant(template: Template, experimentId: ExperimentId, mode: Mode, events: seq<Event>)
    requires ValidTemplate(template) && Plays(Beginning(template, experimentId, mode), events)
    ensures var d := Outcome(Beginning(template, experimentId, mode), events).dag;
            && 1 <= d.position <= |d.template.stages|
            && 1 <= d.cycle <= d.template.cycles
            && (d.pendingInput.Some? ==> d.pendingInput.value.stageId == d.template.stages[d.position - 1].stageId)
            && (d.lastResult.Some? ==>
                  || d.lastResult.value.requestId in d.results.Values
                  || (d.pendingInput.Some? && d.pendingInput.value.requestId == d.lastResult.value.requestId))
            && (MayLaunch(d) ==> !HasCommand(d.lastDecision, Pause) && !HasCommand(d.lastDecision, Stop))
  {
    var d := Outcome(Beginning(template, experimentId, mode), events).dag;
    assert Inv(d);
  }

  /**
   Request ids used once stay used, through crashes and rollbacks: unless another experiment is
   continued, an id that was issued is never issued again.
   */
  lemma {:induction false} IssuedIdsStayUsed(h: History, events: seq<Event>)
    requires Sound(h) && Plays(h, events)
    requires forall i :: 0 <= i < |events| ==> !events[i].Continue?
    ensures h.dag.usedRequests <= Outcome(h, events).dag.usedRequests
    ensures forall i :: 0 <= i < |events| && events[i].Act? && (events[i].step.Begin? || events[i].step.Retry?) ==>
              events[i].step.requestId !in h.dag.usedRequests
    decreases events
  {
    if events != [] {
      var e, next := events[0], After(h, events[0]);
      assert h.dag.usedRequests <= next.dag.usedRequests;
      EventSound(h, e);
      IssuedIdsStayUsed(next, events[1..]);
      forall i | 1 <= i < |events| ensures events[i] == events[1..][i - 1] {}
    }
  }

  // ----- what comes back

  /** What a run has got to: everything but who controls it and which ids it has used. */
  predicate SameState(a: Dag, b: Dag) {
    && a.template == b.template && a.position == b.position && a.cycle == b.cycle
    && a.pendingAdvance == b.pendingAdvance && a.results == b.results && a.retries == b.retries
    && a.lastResult == b.lastResult && a.pendingInput == b.pendingInput && a.pendingDecision == b.pendingDecision
  }

  lemma {:induction false} SnapshotsStay(h: History, events: seq<Event>)
    requires Sound(h) && Plays(h, events)
    ensures h.snapshots <= Outcome(h, events).snapshots
    decreases events
  {
    if events != [] {
      EventSound(h, events[0]);
      SnapshotsStay(After(h, events[0]), events[1..]);
    }
  }

  /** Whatever happens after a snapshot, a rollback to it brings back the run and its journal as they were. */
  lemma RollbackReturns(h: History, events: seq<Event>)
    requires Sound(h) && Occurs(h, TakeSnapshot)
    requires (EventSound(h, TakeSnapshot); Plays(After(h, TakeSnapshot), events))
    requires (EventSound(h, TakeSnapshot);
              Occurs(Outcome(After(h, TakeSnapshot), events), Rollback(|h.snapshots|)))
    ensures (EventSound(h, TakeSnapshot);
             var later := Outcome(After(h, TakeSnapshot), events);
             var r := After(later, Rollback(|h.snapshots|));
             && SameState(r.dag, h.dag) && r.journal == h.journal && r.dag.experimentId == h.dag.experimentId
             && r.dag == r.checkpoint && r.file.None? && r.dag.mode.Paused?
             && h.dag.usedRequests + later.dag.usedRequests == r.dag.usedRequests)
  {
    EventSound(h, TakeSnapshot);
    SnapshotsStay(After(h, TakeSnapshot), events);
    var later := Outcome(After(h, TakeSnapshot), events);
    assert later.snapshots[|h.snapshots|] == Snapshot(h.dag, h.journal, h.dag.activity.Halted?);
  }

  /** A continuation takes over the run and its journal under an id of its own, with the ids used up to then. */
  lemma ContinuationTakesOver(h: History, index: nat, experimentId: ExperimentId)
    requires Sound(h) && Occurs(h, Continue(index, experimentId))
    ensures
      var r, s := After(h, Continue(index, experimentId)), h.snapshots[index];
      && SameState(r.dag, s.dag) && r.journal == s.journal && r.dag.experimentId == experimentId
      && r.dag == r.checkpoint && r.dag.usedRequests == s.dag.usedRequests
  {
  }

  /** The event neither takes a checkpoint nor replaces the run. */
  predicate KeepsCheckpoint(event: Event) {
    match event
    case Act(step) => !step.Begin? && !step.Retry?
    case ServiceSave => true
    case TakeSnapshot => true
    case CrashAndRecover(_) => true
    case CrashAndAdopt(_) => true
    case _ => false
  }

  lemma {:induction false} CheckpointStays(h: History, events: seq<Event>)
    requires Sound(h) && Plays(h, events) && forall e :: e in events ==> KeepsCheckpoint(e)
    ensures Outcome(h, events).checkpoint == h.checkpoint
    decreases events
  {
    if events != [] {
      EventSound(h, events[0]);
      assert KeepsCheckpoint(events[0]);
      CheckpointStays(After(h, events[0]), events[1..]);
    }
  }

  /** A crash takes the run back to its last checkpoint, and a save or a new attempt is one. */
  lemma CrashReturnsToCheckpoint(h: History, events: seq<Event>, servicesStopped: bool)
    requires Sound(h) && Plays(h, events) && forall e :: e in events ==> KeepsCheckpoint(e)
    ensures
      var r := After(Outcome(h, events), CrashAndRecover(servicesStopped));
      && SameState(r.dag, h.checkpoint) && r.dag.lastDecision == h.checkpoint.lastDecision
      && r.dag.usedRequests == h.checkpoint.usedRequests && r.dag.mode.Paused? && !r.dag.stepping
      && ActiveAttempt(r.dag) == ActiveAttempt(h.checkpoint)
      && (r.dag.activity.Halted? <==> h.checkpoint.activity == Halted(None) && servicesStopped)
  {
    CheckpointStays(h, events);
  }

  lemma SavesAreCheckpoints(h: History, event: Event)
    requires Sound(h) && Occurs(h, event)
    requires event.Save? || (event.Act? && (event.step.Begin? || event.step.Retry?))
    ensures After(h, event).checkpoint == After(h, event).dag && After(h, event).file.None?
  {
  }

  /** A file that a service has saved since is taken over as it is. */
  lemma AdoptedFileReturns(h: History, servicesStopped: bool)
    requires Sound(h)
    ensures
      var saved := After(h, ServiceSave);
      && Occurs(saved, CrashAndAdopt(servicesStopped))
      && SameState(After(saved, CrashAndAdopt(servicesStopped)).dag, h.dag)
      && saved.dag == h.dag && saved.checkpoint == h.checkpoint
  {
  }
}
