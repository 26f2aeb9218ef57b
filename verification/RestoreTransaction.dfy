/**
 The restoration transaction: a marker file whose phase only moves forward, three working trees and
 two directory renames. The power can go before any single change on disk; a later process resumes
 from the marker. Copying and deleting trees is not atomic and can leave a partial tree behind.
 */
module RestoreTransaction {
  import opened Options

  type Id = string

  /** The journal generation of a tree: the archived one, or the one derived from a restoration id. */
  datatype Generation = Archived(snapshotId: Id) | DerivedFrom(restorationId: Id)

  /** `journal` is the generation in the database, `identity` the one in `runner/journal.json`. */
  datatype Tree =
    | Absent
    | Partial
    | Experiment(files: string, journal: Generation, identity: Generation)

  datatype Phase = Staging | Prepared | FilesInstalled | JournalRestored | ServicesStarting | Complete | Failed

  datatype Transaction = Transaction(
    restorationId: Id, snapshotId: Id, source: string, preserveDiagnostics: bool, phase: Phase)

  datatype Error =
    | SourceOrReplacementMissing
    | ReplacementMissing
    | AmbiguousDirectories
    | CachedSnapshotDiffers
    | StateMissing
    | SnapshotInvalid
    | ServicesFailed
    | ServicesNotStopped
    | FreshRollbackRequired
    | UnresolvedTransaction

  /** How a call ended: normally, with an exception, or because the power went. */
  datatype Outcome = Returned | Raised(error: Error) | PowerLost

  function Rank(phase: Phase): nat {
    match phase
    case Staging => 0
    case Prepared => 1
    case FilesInstalled => 2
    case JournalRestored => 3
    case ServicesStarting => 4
    case _ => 5
  }

  /** The files of a snapshot, which are also those of the tree staged from it. */
  function SnapshotFiles(snapshotId: Id): string {
    "snapshot " + snapshotId
  }

  function SnapshotTree(snapshotId: Id): Tree {
    Experiment(SnapshotFiles(snapshotId), Archived(snapshotId), Archived(snapshotId))
  }

  /** A tree whose journal has moved to the generation of this restoration. */
  function BoundTree(t: Transaction, files: string): Tree {
    Experiment(files, DerivedFrom(t.restorationId), DerivedFrom(t.restorationId))
  }

  /** What the outside decides during one call. */
  datatype Surroundings = Surroundings(
    snapshotValid: bool, servicesReady: bool, stopsClean: bool, filesWritten: string)

  datatype Request = Request(snapshotId: Id, source: string, resume: bool, preserveDiagnostics: bool, freshId: Id)

  function Count(counts: map<Id, nat>, id: Id): nat {
    if id in counts then counts[id] else 0
  }

  /** Changes on disk that one uninterrupted `FinishRestore` makes at most. */
  const CHANGES_TO_FINISH: nat := 24

  /** The same for `Restore`, which may have to stop, file away and begin before that. */
  const CHANGES_TO_RESTORE: nat := 29

  /** How a restoration that is continued from its marker ends, unless the power goes. */
  function Finishing(phase: Phase, env: Surroundings, retryFailed: bool): Outcome
    requires phase != Complete
  {
    if phase == ServicesStarting || phase == Failed then
      if !env.stopsClean then Raised(ServicesNotStopped)
      else if retryFailed then Returned else Raised(FreshRollbackRequired)
    else if phase == Staging && !env.snapshotValid then Raised(SnapshotInvalid)
    else if !env.servicesReady then Raised(ServicesFailed)
    else Returned
  }

  /** The marker is of an unfinished restoration of what is asked for. */
  predicate Continues(marker: Option<Transaction>, request: Request) {
    && marker.Some? && Rank(marker.value.phase) < 5
    && marker.value.snapshotId == request.snapshotId && marker.value.source == request.source
  }

  /** How a request ends, unless the power goes. */
  function Answer(marker: Option<Transaction>, request: Request, env: Surroundings): Outcome {
    if marker.Some? && marker.value.phase == Failed && (request.resume || !env.stopsClean) then
      Finishing(Failed, env, !request.resume)
    else if marker.Some? && Rank(marker.value.phase) < 5 then
      if Continues(marker, request) then Finishing(marker.value.phase, env, false) else Raised(UnresolvedTransaction)
    else if !env.snapshotValid then Raised(SnapshotInvalid)
    else if !env.stopsClean then Raised(ServicesNotStopped)
    else Finishing(Staging, env, false)
  }

  /** The same restoration, no further back. */
  ghost predicate Forward(before: Option<Transaction>, after: Option<Transaction>) {
    && before.Some? && after.Some?
    && after.value == before.value.(phase := after.value.phase)
    && Rank(before.value.phase) <= Rank(after.value.phase)
  }

  class Restorer {
    // on disk; `previous`, `replacement` and `cached` are in the workspace of the current restoration
    var target: Tree
    var previous: Tree
    var replacement: Tree
    var cached: Tree
    var marker: Option<Transaction>
    // how often the services of a restoration were started to load its state, and all ids ever issued
    var loads: map<Id, nat>
    var issued: set<Id>
    // changes that still reach the disk before the power goes
    var power: nat
    // the experiment tree that the current restoration displaces
    ghost var displaced: Tree

    /** The old experiment tree is intact in exactly one place: still installed, or moved aside. */
    ghost predicate OneIntactCopy()
      reads this
    {
      displaced.Experiment? && if previous == Absent then target == displaced else previous == displaced
    }

    /** Where the trees are in each phase. */
    ghost predicate Laid(t: Transaction)
      reads this
    {
      var staged := SnapshotTree(t.snapshotId);
      match t.phase
      case Staging =>
        target == displaced && previous == Absent
      case Prepared =>
        && cached == staged
        && (|| (target == displaced && previous == Absent && replacement == staged)
            || (target == Absent && previous == displaced && replacement == staged)
            || (target == staged && previous == displaced && replacement == Absent))
      case FilesInstalled =>
        && cached == staged && previous == displaced && replacement == Absent
        && (|| target == staged
            || target == staged.(journal := DerivedFrom(t.restorationId))
            || target == BoundTree(t, staged.files))
      case JournalRestored =>
        cached == staged && previous == displaced && replacement == Absent && target == BoundTree(t, staged.files)
      case Complete =>
        target.Experiment? && target.journal == DerivedFrom(t.restorationId)
      case _ =>
        && previous == displaced && replacement == Absent
        && target.Experiment? && target.journal == DerivedFrom(t.restorationId)
    }

    ghost predicate Valid()
      reads this
    {
      && displaced.Experiment?
      && (marker.None? ==> target.Experiment?)
      && (marker.Some? ==> Laid(marker.value) && marker.value.restorationId in issued)
      && (forall id :: id in loads ==> loads[id] <= 1 && id in issued)
      && (marker.Some? && Rank(marker.value.phase) < Rank(ServicesStarting) ==>
            marker.value.restorationId !in loads)
    }

    constructor (installed: Tree)
      requires installed.Experiment?
      ensures Valid() && target == installed && marker == None && loads == map[] && issued == {}
    {
      target, previous, replacement, cached := installed, Absent, Absent, Absent;
      marker, loads, issued, power := None, map[], {}, 0;
      displaced := installed;
    }

    /** One more change reaches the disk, or the power goes first. */
    method Change() returns (reached: bool)
      modifies this`power
      ensures reached <==> old(power) > 0
      ensures power == if reached then old(power) - 1 else old(power)
    {
      reached := power > 0;
      if reached {
        power := power - 1;
      }
    }

    method WriteMarker(phase: Phase) returns (reached: bool)
      requires marker.Some?
      modifies this`power, this`marker
      ensures reached <==> old(power) > 0
      ensures power == if reached then old(power) - 1 else old(power)
      ensures marker == if reached then Some(old(marker).value.(phase := phase)) else old(marker)
    {
      reached := Change();
      if reached {
        marker := Some(marker.value.(phase := phase));
      }
    }

    /** Removes what an interrupted staging left behind. */
    method ClearWorkspace() returns (reached: bool)
      modifies this`power, this`cached, this`replacement
      ensures reached ==> cached == Absent && replacement == Absent
      ensures power + 4 >= old(power) && (!reached ==> old(power) < 4)
    {
      reached := true;
      if cached != Absent {
        reached := Change();
        if !reached { return; }
        cached := Partial;
        reached := Change();
        if !reached { return; }
        cached := Absent;
      }
      if replacement != Absent {
        reached := Change();
        if !reached { return; }
        replacement := Partial;
        reached := Change();
        if !reached { return; }
        replacement := Absent;
      }
    }

    /** Copies the archive to the cache, and the cache to the replacement tree. */
    method CopySnapshot(snapshotId: Id) returns (reached: bool)
      requires cached == Absent && replacement == Absent
      modifies this`power, this`cached, this`replacement
      ensures reached ==> cached == replacement == SnapshotTree(snapshotId)
      ensures power + 4 >= old(power) && (!reached ==> old(power) < 4)
    {
      reached := Change();
      if !reached { return; }
      cached := Partial;
      reached := Change();
      if !reached { return; }
      cached := SnapshotTree(snapshotId);
      reached := Change();
      if !reached { return; }
      replacement := Partial;
      reached := Change();
      if !reached { return; }
      replacement := cached;
    }

    method StageSnapshot(env: Surroundings) returns (o: Outcome)
      requires Valid() && marker.Some? && marker.value.phase == Staging
      modifies this`power, this`marker, this`cached, this`replacement
      ensures Valid() && Forward(old(marker), marker)
      ensures Rank(marker.value.phase) <= Rank(Prepared)
      ensures o == Returned <==> marker.value.phase == Prepared
      ensures o == Returned ==> env.snapshotValid
      ensures o.Raised? ==> o.error == SnapshotInvalid && !env.snapshotValid
      ensures power + 9 >= old(power) && (o == PowerLost ==> old(power) < 9)
    {
      if !env.snapshotValid {
        return Raised(SnapshotInvalid);
      }
      var reached := ClearWorkspace();
      if !reached { return PowerLost; }
      reached := CopySnapshot(marker.value.snapshotId);
      if !reached { return PowerLost; }
      reached := WriteMarker(Prepared);
      o := if reached then Returned else PowerLost;
    }

    /** None of the complaints about missing or ambiguous directories can come up. */
    method InstallFiles() returns (o: Outcome)
      requires Valid() && marker.Some? && marker.value.phase == Prepared
      modifies this`power, this`marker, this`target, this`previous, this`replacement
      ensures Valid() && Forward(old(marker), marker)
      ensures o == Returned || o == PowerLost
      ensures Rank(marker.value.phase) <= Rank(FilesInstalled)
      ensures o == Returned <==> marker.value.phase == FilesInstalled
      ensures o == Returned ==> target == SnapshotTree(marker.value.snapshotId)
      ensures power + 3 >= old(power) && (o == PowerLost ==> old(power) < 3)
    {
      var reached;
      if previous == Absent {
        if !target.Experiment? || !replacement.Experiment? {
          return Raised(SourceOrReplacementMissing);
        }
        reached := Change();
        if !reached { return PowerLost; }
        target, previous := Absent, target;
      }
      if target == Absent {
        if !replacement.Experiment? {
          return Raised(ReplacementMissing);
        }
        reached := Change();
        if !reached { return PowerLost; }
        replacement, target := Absent, replacement;
      } else if replacement != Absent {
        return Raised(AmbiguousDirectories);
      }
      reached := WriteMarker(FilesInstalled);
      o := if reached then Returned else PowerLost;
    }

    /** Repeating an interrupted commit arrives at the same generation. */
    method BindJournal() returns (o: Outcome)
      requires Valid() && marker.Some?
      requires marker.value.phase == FilesInstalled || marker.value.phase == JournalRestored
      modifies this`power, this`marker, this`target
      ensures Valid() && Forward(old(marker), marker)
      ensures o == Returned || o == PowerLost
      ensures o == Returned ==>
                && marker.value.phase == JournalRestored
                && target == BoundTree(marker.value, SnapshotFiles(marker.value.snapshotId))
      ensures Rank(marker.value.phase) <= Rank(JournalRestored)
      ensures power + 3 >= old(power) && (o == PowerLost ==> old(power) < 3)
    {
      if marker.value.phase == JournalRestored {
        return Returned;
      }
      var generation := DerivedFrom(marker.value.restorationId);
      var reached := Change();
      if !reached { return PowerLost; }
      target := target.(journal := generation);
      reached := Change();
      if !reached { return PowerLost; }
      target := target.(identity := generation);
      reached := WriteMarker(JournalRestored);
      o := if reached then Returned else PowerLost;
    }

    /** Starts the services of the restored tree, which then write what they load. */
    method LoadServices(files: string) returns (reached: bool)
      requires marker.Some? && target.Experiment?
      modifies this`power, this`target, this`loads
      ensures reached <==> old(power) > 0
      ensures power == if reached then old(power) - 1 else old(power)
      ensures target == if reached then old(target).(files := files) else old(target)
      ensures var id := marker.value.restorationId;
              loads == if reached then old(loads)[id := Count(old(loads), id) + 1] else old(loads)
    {
      reached := Change();
      if reached {
        loads := loads[marker.value.restorationId := Count(loads, marker.value.restorationId) + 1];
        target := target.(files := files);
      }
    }

    /** The marker is written before anything is started, so an interruption is never retried. */
    method StartServices(env: Surroundings) returns (o: Outcome)
      requires Valid() && marker.Some? && marker.value.phase == JournalRestored
      modifies this`power, this`marker, this`target, this`loads
      ensures Valid() && Forward(old(marker), marker)
      ensures o == Returned <==> marker.value.phase == Complete
      ensures o == Returned ==> env.servicesReady
      ensures Rank(marker.value.phase) == 5 ==> Count(loads, marker.value.restorationId) == 1
      ensures o.Raised? ==> o.error == ServicesFailed && !env.servicesReady && marker.value.phase == Failed
      ensures Rank(marker.value.phase) == 5 ==>
                target == BoundTree(old(marker).value, env.filesWritten)
      ensures power + 4 >= old(power) && (o == PowerLost ==> old(power) < 4)
    {
      var reached := WriteMarker(ServicesStarting);
      if !reached { return PowerLost; }
      reached := LoadServices(env.filesWritten);
      if !reached { return PowerLost; }
      if env.servicesReady {
        reached := Change();
        if !reached { return PowerLost; }
        reached := WriteMarker(Complete);
        o := if reached then Returned else PowerLost;
      } else {
        reached := WriteMarker(Failed);
        o := if reached then Raised(ServicesFailed) else PowerLost;
      }
    }

    method CleanUp() returns (o: Outcome)
      requires Valid() && marker.Some? && marker.value.phase == Complete
      modifies this`power, this`previous, this`cached
      ensures Valid()
      ensures o == Returned || o == PowerLost
      ensures o == Returned ==> previous == cached == Absent
      ensures o == PowerLost ==> old(power) < 4
    {
      var reached := Change();
      if !reached { return PowerLost; }
      previous := Partial;
      reached := Change();
      if !reached { return PowerLost; }
      previous := Absent;
      reached := Change();
      if !reached { return PowerLost; }
      cached := Partial;
      reached := Change();
      if !reached { return PowerLost; }
      cached := Absent;
      o := Returned;
    }

    /** An interrupted load may have been executed: stop its participants, ask for a fresh rollback. */
    method StopInterrupted(env: Surroundings, retryFailed: bool) returns (o: Outcome)
      requires Valid() && marker.Some?
      requires marker.value.phase == ServicesStarting || marker.value.phase == Failed
      modifies this`power, this`marker
      ensures Valid() && Forward(old(marker), marker) && marker.value.phase != Complete
      ensures o == Returned ==> retryFailed && env.stopsClean && marker.value.phase == Failed
      ensures o == PowerLost || o == Finishing(old(marker).value.phase, env, retryFailed)
      ensures power + 1 >= old(power) && (o == PowerLost ==> old(power) < 1)
    {
      if !target.Experiment? {
        return Raised(StateMissing);
      }
      var reached := WriteMarker(Failed);
      if !reached { return PowerLost; }
      if !env.stopsClean {
        return Raised(ServicesNotStopped);
      }
      o := if retryFailed then Returned else Raised(FreshRollbackRequired);
    }

    /** Everything that may be repeated: up to the restored journal, from any earlier phase. */
    method ReachJournal(env: Surroundings) returns (o: Outcome)
      requires Valid() && marker.Some? && Rank(marker.value.phase) <= Rank(JournalRestored)
      modifies this`power, this`marker, this`target, this`previous, this`replacement, this`cached
      ensures Valid() && Forward(old(marker), marker) && Rank(marker.value.phase) <= Rank(JournalRestored)
      ensures o == Returned ==>
                && (old(marker).value.phase == Staging ==> env.snapshotValid)
                && marker.value.phase == JournalRestored
                && target == BoundTree(marker.value, SnapshotFiles(marker.value.snapshotId))
      ensures o.Raised? ==>
                && o.error == SnapshotInvalid && old(marker).value.phase == Staging && !env.snapshotValid
                && target == old(target)
      ensures power + 16 >= old(power) && (o == PowerLost ==> old(power) < 16)
    {
      var reached := WriteMarker(marker.value.phase);
      if !reached { return PowerLost; }
      if marker.value.phase == Staging {
        o := StageSnapshot(env);
        if o != Returned { return; }
      }
      if cached != SnapshotTree(marker.value.snapshotId) {
        return Raised(CachedSnapshotDiffers);
      }
      if marker.value.phase == Prepared {
        o := InstallFiles();
        if o != Returned { return; }
      }
      o := BindJournal();
    }

    /**
     Continues a restoration from whatever phase its marker says. With enough power and a willing
     outside it completes from every phase up to the restored journal; from a started or failed
     load it never completes and loads nothing.
     */
    method FinishRestore(env: Surroundings, retryFailed: bool) returns (o: Outcome)
      requires Valid() && marker.Some? && marker.value.phase != Complete
      modifies this
      ensures Valid() && Forward(old(marker), marker)
      ensures displaced == old(displaced) && issued == old(issued)
      ensures Rank(old(marker).value.phase) >= Rank(ServicesStarting) ==>
                loads == old(loads) && marker.value.phase != Complete
      ensures Rank(old(marker).value.phase) <= Rank(JournalRestored) && Rank(marker.value.phase) == 5 ==>
                target == BoundTree(old(marker).value, env.filesWritten)
      ensures Rank(old(marker).value.phase) <= Rank(JournalRestored) && old(power) >= CHANGES_TO_FINISH
              && (env.snapshotValid || old(marker).value.phase != Staging) && env.servicesReady
              ==> o == Returned && marker.value.phase == Complete
      ensures o == Returned ==>
                || marker.value.phase == Complete
                || (marker.value.phase == Failed && retryFailed && env.stopsClean)
      ensures o == PowerLost || o == Finishing(old(marker).value.phase, env, retryFailed)
      ensures o == Returned && marker.value.phase == Complete ==>
                if marker.value.preserveDiagnostics
                then previous == displaced && cached == SnapshotTree(marker.value.snapshotId)
                else previous == cached == Absent
      ensures Rank(old(marker).value.phase) <= Rank(JournalRestored) && Rank(marker.value.phase) == 5 ==>
                Count(loads, marker.value.restorationId) == 1
      ensures o == PowerLost ==> old(power) < CHANGES_TO_FINISH
      ensures Rank(old(marker).value.phase) >= Rank(ServicesStarting) ==>
                power + 1 >= old(power) && target == old(target)
      ensures o.Raised? && o.error != ServicesFailed ==> target == old(target)
    {
      if marker.value.phase == ServicesStarting || marker.value.phase == Failed {
        o := StopInterrupted(env, retryFailed);
        return;
      }
      o := ReachJournal(env);
      if o != Returned { return; }
      o := StartServices(env);
      if o != Returned { return; }
      if !marker.value.preserveDiagnostics {
        o := CleanUp();
      }
    }

    /** A new restoration with a workspace of its own, displacing the tree that is installed now. */
    method Begin(request: Request, env: Surroundings) returns (o: Outcome)
      requires Valid() && marker.None? && request.freshId !in issued
      modifies this
      ensures Valid() && issued <= old(issued) + {request.freshId}
      ensures loads == old(loads)
      ensures o.Raised? ==> o.error in {SnapshotInvalid, ServicesNotStopped} && marker.None?
      ensures o == Returned ==>
                && marker == Some(Transaction(request.freshId, request.snapshotId, request.source,
                                              request.preserveDiagnostics, Staging))
                && displaced == old(target)
      ensures target == old(target)
      ensures o == PowerLost || o == if !env.snapshotValid then Raised(SnapshotInvalid)
                                     else if !env.stopsClean then Raised(ServicesNotStopped) else Returned
      ensures power + 2 >= old(power) && (o == PowerLost ==> old(power) < 2)
    {
      if !env.snapshotValid {
        return Raised(SnapshotInvalid);
      }
      if !env.stopsClean {
        return Raised(ServicesNotStopped);
      }
      var reached := Change();
      if !reached { return PowerLost; }
      previous, replacement, cached := Absent, Absent, Absent;
      issued := issued + {request.freshId};
      reached := Change();
      if !reached { return PowerLost; }
      displaced := target;
      marker := Some(Transaction(
        request.freshId, request.snapshotId, request.source, request.preserveDiagnostics, Staging));
      o := Returned;
    }

    /** Files a finished or failed transaction away and removes its marker. */
    method Abandon() returns (reached: bool)
      requires Valid() && marker.Some? && Rank(marker.value.phase) == 5
      modifies this`power, this`marker
      ensures Valid()
      ensures marker == if reached then None else old(marker)
      ensures power + 2 >= old(power) && (!reached ==> old(power) < 2)
    {
      reached := Change();
      if !reached { return; }
      reached := Change();
      if !reached { return; }
      marker := None;
    }

    /** A new restoration from the beginning to the end. */
    method StartOver(request: Request, env: Surroundings) returns (o: Outcome)
      requires Valid() && marker.None? && request.freshId !in issued
      modifies this
      ensures Valid() && issued <= old(issued) + {request.freshId}
      ensures o == Returned ==>
                && marker == Some(Transaction(request.freshId, request.snapshotId, request.source,
                                              request.preserveDiagnostics, Complete))
                && target == BoundTree(marker.value, env.filesWritten)
      ensures o == PowerLost || o == Answer(None, request, env)
      ensures o == PowerLost ==> old(power) < CHANGES_TO_FINISH + 2
      ensures o.Raised? && o.error != ServicesFailed ==> target == old(target)
    {
      o := Begin(request, env);
      if o != Returned { return; }
      o := FinishRestore(env, false);
    }

    /** The entry point: resume, retry, refuse, or start over, as the marker demands. */
    method Restore(request: Request, env: Surroundings) returns (o: Outcome)
      requires Valid() && request.freshId !in issued
      modifies this
      ensures Valid() && issued <= old(issued) + {request.freshId}
      ensures old(marker).Some? && Rank(old(marker).value.phase) < 5
              && (old(marker).value.snapshotId != request.snapshotId || old(marker).value.source != request.source)
              ==> o == Raised(UnresolvedTransaction) && marker == old(marker) && target == old(target)
      ensures o == Returned ==>
                && marker.Some? && marker.value.phase == Complete
                && marker.value.snapshotId == request.snapshotId && marker.value.source == request.source
                && target == BoundTree(marker.value, env.filesWritten)
      ensures o == Returned ==>
                if Continues(old(marker), request) then marker == Some(old(marker).value.(phase := Complete))
                else marker.value.restorationId == request.freshId
                     && marker.value.preserveDiagnostics == request.preserveDiagnostics
      ensures o == PowerLost || o == Answer(old(marker), request, env)
      ensures o == PowerLost ==> old(power) < CHANGES_TO_RESTORE
      ensures o.Raised? && o.error != ServicesFailed ==> target == old(target)
    {
      if marker.Some? {
        if marker.value.phase == Failed {
          o := FinishRestore(env, !request.resume);
          if o != Returned { return; }
        }
        if Rank(marker.value.phase) == 5 {
          var reached := Abandon();
          if !reached { return PowerLost; }
        } else if marker.value.snapshotId == request.snapshotId && marker.value.source == request.source {
          o := FinishRestore(env, false);
          return;
        } else {
          return Raised(UnresolvedTransaction);
        }
      }
      o := StartOver(request, env);
    }
  }

  // ----- histories of sessions

  /** One process lifetime: a request, the outside, and how many changes it gets to make. */
  datatype Session = Session(request: Request, env: Surroundings, power: nat)

  ghost predicate FreshIds(sessions: seq<Session>, issued: set<Id>) {
    && (forall i :: 0 <= i < |sessions| ==> sessions[i].request.freshId !in issued)
    && (forall i, j :: 0 <= i < j < |sessions| ==> sessions[i].request.freshId != sessions[j].request.freshId)
  }

  /**
   Any number of processes, each dying at any point: before completion the old experiment is intact
   in exactly one place, and no restoration ever starts and loads its services twice.
   */
  method RunSessions(restorer: Restorer, sessions: seq<Session>)
    requires restorer.Valid() && FreshIds(sessions, restorer.issued)
    modifies restorer
    ensures restorer.Valid()
    ensures restorer.marker.Some? && restorer.marker.value.phase != Complete ==> restorer.OneIntactCopy()
    ensures forall id :: Count(restorer.loads, id) <= 1
  {
    for i := 0 to |sessions|
      invariant restorer.Valid()
      invariant FreshIds(sessions[i..], restorer.issued)
    {
      var session := sessions[i];
      assert sessions[i..][0] == session;
      assert sessions[i..][1..] == sessions[i + 1..];
      restorer.power := session.power;
      var o := restorer.Restore(session.request, session.env);
    }
    IntactUntilComplete(restorer);
  }

  /** In every valid state short of completion the displaced tree has exactly one intact copy. */
  lemma IntactUntilComplete(restorer: Restorer)
    requires restorer.Valid()
    ensures restorer.marker.Some? && restorer.marker.value.phase != Complete ==> restorer.OneIntactCopy()
    ensures forall id :: Count(restorer.loads, id) <= 1
  {
  }
}
