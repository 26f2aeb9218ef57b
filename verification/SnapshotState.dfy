/**
 The state document of a snapshot: checking it against the snapshot's journal, and turning it into
 the state of a rolled-back or continued experiment.
 */
module SnapshotState {
  import opened Options
  import opened Templates
  import opened DagState

  /** `stopped` is set on the final snapshot of a run that was stopped. */
  datatype Snapshot = Snapshot(dag: Dag, journal: Journal, stopped: bool)

  // ----- validation against the journal

  /** A reference to an accepted successful result of the named experiment and stage. */
  predicate Backed(journal: Journal, requestId: RequestId, experimentId: ExperimentId, stageId: StageId) {
    && requestId in journal
    && journal[requestId].experimentId == experimentId
    && journal[requestId].stageId == stageId
  }

  predicate DataAgrees(d: Dag, journal: Journal, requestId: RequestId)
    requires requestId in journal
  {
    d.lastResult.Some? && d.lastResult.value.requestId == requestId
    ==> d.lastResult.value.data == journal[requestId].data
  }

  /** Pending input counts as the move that assigned it. */
  function InputDecision(input: PendingInput): DagDecision {
    DagDecision(input.requestId, input.sourceStageId, input.experimentId, Move(input.stageId))
  }

  function Transfers(d: Dag): seq<DagDecision> {
    (if d.pendingInput.Some? then [InputDecision(d.pendingInput.value)] else [])
    + (if d.lastDecision.Some? then [d.lastDecision.value] else [])
    + (if d.pendingDecision.Some? then [d.pendingDecision.value] else [])
  }

  predicate TransferValid(d: Dag, journal: Journal, t: DagDecision) {
    && Backed(journal, t.requestId, t.experimentId, t.sourceStageId)
    && journal[t.requestId].command == Some(t.command)
    && DataAgrees(d, journal, t.requestId)
  }

  function OriginOf(d: Dag, stageId: StageId): ExperimentId {
    if stageId in d.origins then d.origins[stageId] else d.experimentId
  }

  predicate ResultValid(d: Dag, journal: Journal, stageId: StageId)
    requires stageId in d.results
  {
    && Backed(journal, d.results[stageId], OriginOf(d, stageId), stageId)
    && DataAgrees(d, journal, d.results[stageId])
  }

  ghost predicate PassesJournal(d: Dag, journal: Journal) {
    && (forall t :: t in Transfers(d) ==> TransferValid(d, journal, t))
    && (forall s :: s in d.results ==> ResultValid(d, journal, s))
  }

  /** The journal has the request as a result of this stage in this experiment. */
  predicate Vouches(
    d: Dag, journal: Journal, requestId: RequestId, experimentId: ExperimentId, stageId: StageId)
  {
    && requestId in journal
    && journal[requestId].experimentId == experimentId && journal[requestId].stageId == stageId
    && (d.lastResult.Some? && d.lastResult.value.requestId == requestId ==>
          d.lastResult.value.data == journal[requestId].data)
  }

  /**
   What passing says, field by field: each result is one of its stage in the experiment it came from,
   each transfer one of its source with the command it stands for, and the data handed on is theirs.
   */
  lemma PassingMeans(d: Dag, journal: Journal)
    ensures PassesJournal(d, journal) <==> (
              && (forall s :: s in d.results ==>
                    Vouches(d, journal, d.results[s], if s in d.origins then d.origins[s] else d.experimentId, s))
              && (d.pendingInput.Some? ==>
                    var p := d.pendingInput.value;
                    && Vouches(d, journal, p.requestId, p.experimentId, p.sourceStageId)
                    && journal[p.requestId].command == Some(Move(p.stageId)))
              && (d.lastDecision.Some? ==>
                    var l := d.lastDecision.value;
                    && Vouches(d, journal, l.requestId, l.experimentId, l.sourceStageId)
                    && journal[l.requestId].command == Some(l.command))
              && (d.pendingDecision.Some? ==>
                    var p := d.pendingDecision.value;
                    && Vouches(d, journal, p.requestId, p.experimentId, p.sourceStageId)
                    && journal[p.requestId].command == Some(p.command)))
  {
    TransfersAre(d);
    forall s | s in d.results
      ensures ResultValid(d, journal, s)
         <==> Vouches(d, journal, d.results[s], if s in d.origins then d.origins[s] else d.experimentId, s)
    {
    }
    if d.pendingInput.Some? {
      assert InputDecision(d.pendingInput.value) in Transfers(d);
    }
    if d.lastDecision.Some? {
      assert d.lastDecision.value in Transfers(d);
    }
    if d.pendingDecision.Some? {
      assert d.pendingDecision.value in Transfers(d);
    }
  }

  lemma TransfersAre(d: Dag)
    ensures forall t :: t in Transfers(d) <==>
              || (d.pendingInput.Some? && t == InputDecision(d.pendingInput.value))
              || (d.lastDecision.Some? && t == d.lastDecision.value)
              || (d.pendingDecision.Some? && t == d.pendingDecision.value)
  {
  }

  /** Whether the state's references are all accepted by the journal; the source raises otherwise. */
  method ValidateJournalResults(d: Dag, journal: Journal) returns (valid: bool)
    ensures valid <==> PassesJournal(d, journal)
  {
    var transfers := Transfers(d);
    for i := 0 to |transfers|
      invariant forall k :: 0 <= k < i ==> TransferValid(d, journal, transfers[k])
    {
      if !TransferValid(d, journal, transfers[i]) {
        return false;
      }
    }
    var unchecked := d.results.Keys;
    while unchecked != {}
      invariant unchecked <= d.results.Keys
      invariant forall s :: s in d.results && s !in unchecked ==> ResultValid(d, journal, s)
      decreases unchecked
    {
      var s :| s in unchecked;
      if !ResultValid(d, journal, s) {
        return false;
      }
      unchecked := unchecked - {s};
    }
    valid := true;
  }

  // ----- restoring

  function FilledOrigins(d: Dag): map<StageId, ExperimentId> {
    map s | s in d.origins.Keys + d.results.Keys :: OriginOf(d, s)
  }

  /** A stop that was completed in the snapshot is not issued again. */
  function RestoredDecision(snapshot: Snapshot): Option<DagDecision> {
    if snapshot.stopped && HasCommand(snapshot.dag.lastDecision, Stop) then None else snapshot.dag.lastDecision
  }

  function RestoredState(
    snapshot: Snapshot, stoppedRequests: set<RequestId>, experimentId: ExperimentId): Dag
  {
    snapshot.dag.(
      experimentId := experimentId,
      origins := FilledOrigins(snapshot.dag),
      lastDecision := RestoredDecision(snapshot),
      usedRequests := snapshot.dag.usedRequests + stoppedRequests,
      mode := Paused, desired := Paused, stepping := false, manual := false,
      activity := Preparing(None))
  }

  method RestoreSavedState(
    snapshot: Snapshot, stoppedRequests: set<RequestId>, experimentId: ExperimentId)
    returns (restored: Dag)
    ensures restored == RestoredState(snapshot, stoppedRequests, experimentId)
  {
    var saved := snapshot.dag;
    var origins := saved.origins;
    var rest := saved.results.Keys;
    while rest != {}
      invariant rest <= saved.results.Keys
      invariant origins.Keys == saved.origins.Keys + (saved.results.Keys - rest)
      invariant forall s :: s in origins ==> origins[s] == OriginOf(saved, s)
      decreases rest
    {
      var s :| s in rest;
      if s !in origins {
        origins := origins[s := saved.experimentId];
      }
      rest := rest - {s};
    }
    assert origins == FilledOrigins(saved);
    restored := saved.(
      experimentId := experimentId,
      origins := origins,
      lastDecision := RestoredDecision(snapshot),
      usedRequests := saved.usedRequests + stoppedRequests,
      mode := Paused, desired := Paused, stepping := false, manual := false,
      activity := Preparing(None));
  }

  // ----- restoring preserves validity

  /**
   A state that validates against its journal still validates after it is restored under any
   experiment id, because every result keeps the experiment it came from.
   */
  lemma RestorePreservesValidity(
    snapshot: Snapshot, stoppedRequests: set<RequestId>, experimentId: ExperimentId)
    requires PassesJournal(snapshot.dag, snapshot.journal)
    ensures PassesJournal(RestoredState(snapshot, stoppedRequests, experimentId), snapshot.journal)
  {
    var d := snapshot.dag;
    var r := RestoredState(snapshot, stoppedRequests, experimentId);
    forall t | t in Transfers(r) ensures TransferValid(r, snapshot.journal, t) {
      assert t in Transfers(d);
    }
    forall s | s in r.results ensures ResultValid(r, snapshot.journal, s) {
      assert ResultValid(d, snapshot.journal, s);
      assert OriginOf(r, s) == OriginOf(d, s);
    }
  }

  /** One rollback or continuation: the id it restores under, and the ids the stopped run had used. */
  datatype Restoration = Restoration(experimentId: ExperimentId, stoppedRequests: set<RequestId>)

  /** Snapshot and restore again, one restoration after the other. */
  ghost function RestoredChain(snapshot: Snapshot, chain: seq<Restoration>): Snapshot
    decreases chain
  {
    if chain == [] then snapshot
    else
      var next := RestoredState(snapshot, chain[0].stoppedRequests, chain[0].experimentId);
      RestoredChain(Snapshot(next, snapshot.journal, false), chain[1..])
  }

  /**
   Validity, result origins and request identities survive any chain of continuations and rollbacks:
   no id held by the snapshot or by any of the stopped runs is lost.
   */
  lemma {:induction false} ChainPreservesValidity(snapshot: Snapshot, chain: seq<Restoration>)
    requires PassesJournal(snapshot.dag, snapshot.journal)
    ensures var last := RestoredChain(snapshot, chain);
            && last.journal == snapshot.journal && PassesJournal(last.dag, last.journal)
            && last.dag.results == snapshot.dag.results
            && (forall s :: s in snapshot.dag.results ==> OriginOf(last.dag, s) == OriginOf(snapshot.dag, s))
            && snapshot.dag.usedRequests <= last.dag.usedRequests
            && (forall i :: 0 <= i < |chain| ==> chain[i].stoppedRequests <= last.dag.usedRequests)
    decreases chain
  {
    if chain != [] {
      var first := chain[0];
      RestorePreservesValidity(snapshot, first.stoppedRequests, first.experimentId);
      var next := Snapshot(RestoredState(snapshot, first.stoppedRequests, first.experimentId),
                           snapshot.journal, false);
      forall s | s in snapshot.dag.results ensures OriginOf(next.dag, s) == OriginOf(snapshot.dag, s) {
        assert s in next.dag.origins;
      }
      ChainPreservesValidity(next, chain[1..]);
      forall i | 1 <= i < |chain| ensures chain[i] == chain[1..][i - 1] {}
    }
  }
}
