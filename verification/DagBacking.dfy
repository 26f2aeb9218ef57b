/**
 What the journal has to hold for a DAG state, and its preservation: every reference of the state
 names an accepted result, so every checkpoint and snapshot passes validation.
 */
module DagBacking {
  import opened Options
  import opened Templates
  import opened ReloadPlan
  import opened DagState
  import opened DagInvariant
  import opened SnapshotState

  /** The journal accepts every reference, and no accepted id can be issued again. */
  ghost predicate Backs(journal: Journal, d: Dag) {
    && PassesJournal(d, journal)
    && (d.lastResult.Some? ==>
          && d.lastResult.value.requestId in journal
          && journal[d.lastResult.value.requestId].data == d.lastResult.value.data)
    && journal.Keys <= d.usedRequests
  }

  /** Dropping references, and moving the cursor or the scheduler, cannot invalidate what is left. */
  ghost predicate Narrows(d: Dag, r: Dag) {
    && r.experimentId == d.experimentId && d.usedRequests <= r.usedRequests
    && (forall s :: s in r.results ==>
          s in d.results && r.results[s] == d.results[s] && OriginOf(r, s) == OriginOf(d, s))
    && (r.lastResult.Some? ==> r.lastResult == d.lastResult)
    && (forall t :: t in Transfers(r) ==> t in Transfers(d))
  }

  lemma NarrowingKeepsBacking(journal: Journal, d: Dag, r: Dag)
    requires Backs(journal, d) && Narrows(d, r)
    ensures Backs(journal, r)
  {
    forall s | s in r.results ensures ResultValid(r, journal, s) {
      assert ResultValid(d, journal, s);
    }
  }

  /** The record the runner's acceptance leaves in the journal. */
  function RecordOf(d: Dag, outcome: Outcome): Record
    requires CursorInRange(d) && outcome.response.Some?
  {
    Record(d.experimentId, outcome.attempt.stageId, outcome.response.value.data,
           if CursorStage(d).conditional then Some(outcome.response.value.command) else None)
  }

  function Recorded(journal: Journal, d: Dag, outcome: Outcome): Journal
    requires CursorInRange(d)
  {
    if outcome.response.None? then journal
    else journal[outcome.attempt.requestId := RecordOf(d, outcome)]
  }

  /** An id is accepted once; recovery may find the same acceptance already committed. */
  ghost predicate Acceptable(journal: Journal, d: Dag, outcome: Outcome) {
    && CursorInRange(d)
    && d.activity == Executing(outcome.attempt)
    && (outcome.response.Some? ==> outcome.action.Advance?)
    && (outcome.attempt.requestId in journal ==>
          outcome.response.Some? && journal[outcome.attempt.requestId] == RecordOf(d, outcome))
    && (Decides(d, outcome) ==> TargetKnown(d, outcome.response.value.command))
  }

  lemma GrowingKeepsBacking(journal: Journal, d: Dag, requestId: RequestId, record: Record)
    requires Backs(journal, d) && requestId in d.usedRequests
    requires requestId in journal ==> journal[requestId] == record
    ensures Backs(journal[requestId := record], d)
  {
    var grown := journal[requestId := record];
    forall s | s in d.results ensures ResultValid(d, grown, s) {
      assert ResultValid(d, journal, s);
    }
  }

  lemma RetainedBacked(journal: Journal, d: Dag, outcome: Outcome)
    requires Inv(d) && Backs(journal, d) && Acceptable(journal, d, outcome)
    ensures Backs(Recorded(journal, d, outcome), Retained(d, outcome))
  {
    var kept := Retained(d, outcome);
    if outcome.response.None? {
      NarrowingKeepsBacking(journal, d, kept);
    } else {
      GrowingKeepsBacking(journal, d, outcome.attempt.requestId, RecordOf(d, outcome));
      SuccessBacked(Recorded(journal, d, outcome), d, outcome);
    }
  }

  lemma SuccessBacked(grown: Journal, d: Dag, outcome: Outcome)
    requires CursorInRange(d) && Backs(grown, d) && outcome.response.Some?
    requires outcome.attempt.requestId in grown && grown[outcome.attempt.requestId] == RecordOf(d, outcome)
    ensures Backs(grown, Retained(d, outcome))
  {
    var kept := Retained(d, outcome);
    forall t | t in Transfers(kept) ensures TransferValid(kept, grown, t) {
      assert t in Transfers(d);
    }
    forall s | s in kept.results ensures ResultValid(kept, grown, s) {
      if s != outcome.attempt.stageId {
        assert ResultValid(d, grown, s) && OriginOf(kept, s) == OriginOf(d, s);
      }
    }
  }

  lemma MovedNarrows(d: Dag, source: DagDecision, target: StageId)
    requires target in Ids(d) && source.command == Move(target) && d.lastDecision == Some(source)
    requires d.pendingDecision.None?
    ensures Narrows(d, Moved(d, source, target))
  {
    var m := Moved(d, source, target);
    assert InputDecision(m.pendingInput.value) == source;
    assert Transfers(m) == [source, source];
  }

  lemma NotedBacked(journal: Journal, d: Dag, source: DagDecision)
    requires Backs(journal, d) && d.lastDecision.None? && TransferValid(d, journal, source)
    ensures Backs(journal, d.(lastDecision := Some(source)))
  {
    var noted := d.(lastDecision := Some(source));
    forall t | t in Transfers(noted) ensures TransferValid(noted, journal, t) {
      assert t == source || t in Transfers(d);
    }
    forall s | s in noted.results ensures ResultValid(noted, journal, s) {
      assert ResultValid(d, journal, s);
    }
  }

  lemma DecidedBacked(journal: Journal, d: Dag, source: DagDecision)
    requires d.lastDecision.None? && d.pendingDecision.None? && TargetKnown(d, source.command)
    requires Backs(journal, d) && TransferValid(d, journal, source)
    ensures Backs(journal, Decided(d, source))
  {
    var noted := d.(lastDecision := Some(source));
    NotedBacked(journal, d, source);
    match source.command
    case Move(target) =>
      MovedNarrows(noted, source, target);
      NarrowingKeepsBacking(journal, noted, Moved(noted, source, target));
    case Pause =>
      assert Transfers(Decided(d, source)) == Transfers(noted);
      NarrowingKeepsBacking(journal, noted, Decided(d, source));
    case _ =>
  }

  lemma DeferredBacked(journal: Journal, d: Dag, source: DagDecision)
    requires Backs(journal, d) && TransferValid(d, journal, source)
    ensures Backs(journal, d.(pendingDecision := Some(source)))
  {
    var r := d.(pendingDecision := Some(source));
    forall t | t in Transfers(r) ensures TransferValid(r, journal, t) {
      assert t == source || t in Transfers(d);
    }
    forall s | s in r.results ensures ResultValid(r, journal, s) {
      assert ResultValid(d, journal, s);
    }
  }

  lemma AcceptedBacked(journal: Journal, d: Dag, outcome: Outcome, deferred: bool)
    requires Inv(d) && Backs(journal, d) && Acceptable(journal, d, outcome)
    ensures Backs(Recorded(journal, d, outcome), Accepted(d, outcome, deferred))
  {
    var kept, grown := Retained(d, outcome), Recorded(journal, d, outcome);
    RetainedBacked(journal, d, outcome);
    RetainedKeeps(d, outcome);
    if Decides(d, outcome) {
      var source := DecisionOf(d, outcome);
      assert TransferValid(kept, grown, source);
      if deferred {
        DeferredBacked(grown, kept, source);
      } else {
        DecidedBacked(grown, kept, source);
      }
    }
  }

  lemma PendingAppliedBacked(journal: Journal, d: Dag)
    requires Inv(d) && Backs(journal, d) && (d.activity.Settling? || d.activity.Preparing?)
    ensures Backs(journal, PendingApplied(d))
  {
    if d.pendingDecision.Some? {
      PendingTakenBacked(journal, d);
      DecidedBacked(journal, d.(pendingDecision := None), d.pendingDecision.value);
    }
  }

  lemma PendingTakenBacked(journal: Journal, d: Dag)
    requires Backs(journal, d) && d.pendingDecision.Some?
    ensures Backs(journal, d.(pendingDecision := None))
    ensures TransferValid(d.(pendingDecision := None), journal, d.pendingDecision.value)
  {
    var ready := d.(pendingDecision := None);
    assert d.pendingDecision.value in Transfers(d) && TransferValid(d, journal, d.pendingDecision.value);
    assert Narrows(d, ready);
    NarrowingKeepsBacking(journal, d, ready);
  }

  /** The result republished as the last one after a reload is one the journal has accepted. */
  lemma ReloadedBacked(journal: Journal, d: Dag, candidate: Template, layout: Layout, cursor: Cursor)
    requires Backs(journal, d) && CursorFits(candidate, layout, cursor)
    ensures Backs(journal, Reloaded(d, candidate, layout, cursor, journal))
    ensures var r := Reloaded(d, candidate, layout, cursor, journal);
            cursor.nextPosition > 0 && layout.newStages[cursor.nextPosition - 1].stageId in r.results
            ==> r.lastResult.Some?
  {
    var r := Reloaded(d, candidate, layout, cursor, journal);
    forall s | s in r.results
      ensures ResultValid(r, journal, s)
    {
      assert ResultValid(d, journal, s);
      assert OriginOf(r, s) == OriginOf(d, s);
    }
    forall t | t in Transfers(r) ensures TransferValid(r, journal, t) {
      assert t in Transfers(d);
    }
  }

  // ----- steps that only drop references

  /** Only the cursor and the scheduling change, or further request ids are used up. */
  lemma ControlNarrows(d: Dag, r: Dag)
    requires r == d.(activity := r.activity, manual := r.manual, stepping := r.stepping,
                     mode := r.mode, desired := r.desired, pendingAdvance := r.pendingAdvance,
                     retries := r.retries, usedRequests := r.usedRequests)
    requires d.usedRequests <= r.usedRequests
    ensures Narrows(d, r)
  {
    assert Transfers(r) == Transfers(d);
  }

  lemma NarrowingTransitive(d: Dag, m: Dag, r: Dag)
    requires Narrows(d, m) && Narrows(m, r)
    ensures Narrows(d, r)
  {
  }

  lemma FewerTransfers(d: Dag, r: Dag)
    requires r.pendingInput.None? || r.pendingInput == d.pendingInput
    requires r.lastDecision.None? || r.lastDecision == d.lastDecision
    requires r.pendingDecision.None? || r.pendingDecision == d.pendingDecision
    ensures forall t :: t in Transfers(r) ==> t in Transfers(d)
  {
  }

  lemma AdvanceNarrows(d: Dag)
    ensures Narrows(d, Advanced(d))
  {
    FewerTransfers(d, Advanced(d));
  }

  lemma LaunchNarrows(d: Dag)
    ensures Narrows(d, Launched(d))
  {
    AdvanceNarrows(d);
    var a := Advanced(d);
    assert Narrows(a, Launched(d));
    NarrowingTransitive(d, a, Launched(d));
  }

  lemma ForgetNarrows(d: Dag, stageId: StageId)
    ensures Narrows(d, Forgotten(d, stageId))
  {
    assert Transfers(Forgotten(d, stageId)) == Transfers(d);
  }

  lemma WithoutPauseNarrows(d: Dag)
    ensures Narrows(d, WithoutPause(d))
  {
  }

  lemma MoveCursorNarrows(d: Dag, position: int)
    ensures Narrows(d, CursorMoved(d, position))
  {
  }
}
