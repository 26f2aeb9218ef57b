/**
 Planning a template reload: which prefix of the DAG is unchanged, where the cursor goes, and
 which stage results stay valid. `cursor` below means the zero-based index of the next node to
 run, which the checkpoint encodes as a one-based position and a pending-advance flag.
 */
module ReloadPlan {
  import opened Options
  import opened Templates

  datatype Layout = Layout(
    changedServices: set<ServiceId>,
    oldStages: seq<Stage>,
    newStages: seq<Stage>,
    prefix: nat,
    nextPosition: nat)

  datatype Cursor = Cursor(
    nextPosition: nat,
    stagePosition: nat,
    pendingAdvance: bool,
    rewind: bool,
    preserved: set<StageId>)

  /** The cursor that a one-based position and a pending-advance flag stand for. */
  function CursorOf(position: int, pendingAdvance: bool): int {
    position - 1 + if pendingAdvance then 1 else 0
  }

  // ----- comparing definitions

  /** Two nodes with the same document, the snapshot policy left aside. */
  predicate SameDefinition(before: Stage, after: Stage) {
    before.(snapshotAfter := false) == after.(snapshotAfter := false)
  }

  predicate Survives(before: Stage, after: Stage, changedServices: set<ServiceId>) {
    && SameDefinition(before, after)
    && !(before.serviceId.Some? && before.serviceId.value in changedServices)
  }

  /** The entry a dictionary built from the list holds for `id`: later entries win. */
  function LastWithId(services: seq<Service>, id: ServiceId): Option<Service> {
    if |services| == 0 then None
    else if services[|services| - 1].serviceId == id then Some(services[|services| - 1])
    else LastWithId(services[..|services| - 1], id)
  }

  /** Services that are added, removed, or whose document differs. */
  function ChangedServices(before: seq<Service>, after: seq<Service>): set<ServiceId> {
    set s | s in before + after && LastWithId(before, s.serviceId) != LastWithId(after, s.serviceId)
      :: s.serviceId
  }

  // ----- the specification of the plan

  ghost predicate IsUnchangedPrefix(
    before: seq<Stage>, after: seq<Stage>, changedServices: set<ServiceId>, prefix: nat)
  {
    && prefix <= |before| && prefix <= |after|
    && (forall i :: 0 <= i < prefix ==> Survives(before[i], after[i], changedServices))
    && (prefix < |before| && prefix < |after| ==> !Survives(before[prefix], after[prefix], changedServices))
  }

  /** Where the first old node at or after the cursor that still exists now stands. */
  ghost predicate IsFirstSurvivor(before: seq<Stage>, oldNext: nat, after: seq<Stage>, position: nat)
    requires oldNext <= |before|
  {
    || (position == |after| && forall i :: oldNext <= i < |before| ==> before[i].stageId !in StageIds(after))
    || exists i :: oldNext <= i < |before| && FirstSurvivorAt(before, oldNext, after, position, i)
  }

  ghost predicate FirstSurvivorAt(before: seq<Stage>, oldNext: nat, after: seq<Stage>, position: nat, i: nat)
    requires oldNext <= i < |before|
  {
    && position < |after| && after[position].stageId == before[i].stageId
    && forall k :: oldNext <= k < i ==> before[k].stageId !in StageIds(after)
  }

  ghost predicate IsLayout(previous: Template, candidate: Template, oldNext: nat, layout: Layout)
    requires oldNext <= |previous.stages|
  {
    && layout.oldStages == previous.stages && layout.newStages == candidate.stages
    && layout.changedServices == ChangedServices(previous.services, candidate.services)
    && IsUnchangedPrefix(previous.stages, candidate.stages, layout.changedServices, layout.prefix)
    && (if oldNext == layout.prefix then layout.nextPosition == layout.prefix
        else IsFirstSurvivor(previous.stages, oldNext, candidate.stages, layout.nextPosition))
  }

  // ----- the operations

  /** Fails only on a saved cursor outside the applied DAG. */
  method PlanLayout(previous: Template, candidate: Template, position: int, pendingAdvance: bool)
    returns (r: Result<Layout, string>)
    ensures r.Success? <==> 0 <= CursorOf(position, pendingAdvance) <= |previous.stages|
    ensures r.Success? ==> IsLayout(previous, candidate, CursorOf(position, pendingAdvance), r.value)
  {
    var changed := ChangedServices(previous.services, candidate.services);
    var before, after := previous.stages, candidate.stages;
    var prefix := 0;
    while prefix < |before| && prefix < |after| && Survives(before[prefix], after[prefix], changed)
      invariant prefix <= |before| && prefix <= |after|
      invariant forall i :: 0 <= i < prefix ==> Survives(before[i], after[i], changed)
    {
      prefix := prefix + 1;
    }
    var oldNext := CursorOf(position, pendingAdvance);
    if !(0 <= oldNext <= |before|) {
      return Failure("Saved cursor is outside the applied DAG.");
    }
    var nextPosition := |after|;
    var k := oldNext;
    while k < |before|
      invariant oldNext <= k <= |before|
      invariant nextPosition == |after|
      invariant forall i :: oldNext <= i < k ==> before[i].stageId !in StageIds(after)
    {
      if before[k].stageId in StageIds(after) {
        nextPosition := IndexOf(after, before[k].stageId);
        assert FirstSurvivorAt(before, oldNext, after, nextPosition, k);
        break;
      }
      k := k + 1;
    }
    if oldNext == prefix {
      nextPosition := prefix;
    }
    r := Success(Layout(changed, before, after, prefix, nextPosition));
  }

  function Invalidated(layout: Layout): set<StageId>
    requires layout.prefix <= |layout.oldStages|
  {
    StageIds(layout.oldStages[layout.prefix..])
  }

  function PlanCursor(layout: Layout, completed: set<StageId>): Cursor
    requires layout.prefix <= |layout.oldStages| && layout.prefix <= |layout.newStages|
  {
    var rewind := completed * Invalidated(layout) != {} && layout.prefix < layout.nextPosition;
    var wanted := if rewind then layout.prefix else layout.nextPosition;
    var nextPosition := if wanted <= |layout.newStages| then wanted else |layout.newStages|;
    var pending := nextPosition == |layout.newStages|;
    Cursor(
      nextPosition,
      if pending then |layout.newStages| else nextPosition + 1,
      pending,
      rewind,
      StageIds(layout.newStages[..layout.prefix]))
  }

  // ----- what the plan guarantees

  /** The unchanged prefix holds the same ids on both sides, in the same places. */
  lemma PrefixIds(before: seq<Stage>, after: seq<Stage>, changed: set<ServiceId>, prefix: nat)
    requires IsUnchangedPrefix(before, after, changed, prefix)
    ensures forall i :: 0 <= i < prefix ==> before[i].stageId == after[i].stageId
    ensures StageIds(before[..prefix]) == StageIds(after[..prefix])
  {
    forall i | 0 <= i < prefix ensures before[i].stageId == after[i].stageId {
      assert Survives(before[i], after[i], changed);
    }
    var left, right := before[..prefix], after[..prefix];
    forall id ensures id in StageIds(left) <==> id in StageIds(right) {
      StageIdsAre(left, id);
      StageIdsAre(right, id);
      assert forall i :: 0 <= i < prefix ==> left[i].stageId == right[i].stageId;
    }
  }

  /** `s` is the entry that counts for its id: no later one has it too. */
  ghost predicate Counts(services: seq<Service>, s: Service) {
    exists k :: 0 <= k < |services| && services[k] == s
                && forall m :: k < m < |services| ==> services[m].serviceId != s.serviceId
  }

  /** The same entry counts for `id` on both sides, or none does. */
  ghost predicate SameService(before: seq<Service>, after: seq<Service>, id: ServiceId) {
    forall s: Service :: s.serviceId == id ==> (Counts(before, s) <==> Counts(after, s))
  }

  /** The nodes differ in nothing but the snapshot policy, and what they call is the same. */
  ghost predicate SameWork(previous: Template, candidate: Template, before: Stage, after: Stage) {
    && before.stageId == after.stageId && before.conditional == after.conditional
    && before.serviceId == after.serviceId && before.content == after.content
    && (before.serviceId.Some? ==> SameService(previous.services, candidate.services, before.serviceId.value))
  }

  lemma {:induction false} LastCounts(services: seq<Service>, s: Service)
    ensures Counts(services, s) <==> LastWithId(services, s.serviceId) == Some(s)
  {
    if services != [] {
      var n := |services| - 1;
      LastCounts(services[..n], s);
      if services[n].serviceId == s.serviceId {
        if Counts(services, s) {
          var k :| 0 <= k < |services| && services[k] == s
                   && forall m :: k < m < |services| ==> services[m].serviceId != s.serviceId;
          assert k == n;
        }
      } else {
        if Counts(services, s) {
          var k :| 0 <= k < |services| && services[k] == s
                   && forall m :: k < m < |services| ==> services[m].serviceId != s.serviceId;
          assert services[..n][k] == s;
        }
        if Counts(services[..n], s) {
          var k :| 0 <= k < n && services[..n][k] == s
                   && forall m :: k < m < n ==> services[..n][m].serviceId != s.serviceId;
          forall m | k < m < |services| ensures services[m].serviceId != s.serviceId {
            if m < n { assert services[..n][m] == services[m]; }
          }
        }
      }
    }
  }

  lemma {:induction false} LastIsListed(services: seq<Service>, id: ServiceId)
    ensures LastWithId(services, id).Some? ==>
              LastWithId(services, id).value in services && LastWithId(services, id).value.serviceId == id
  {
    if services != [] {
      LastIsListed(services[..|services| - 1], id);
    }
  }

  lemma SameServiceIsUnchanged(before: seq<Service>, after: seq<Service>, id: ServiceId)
    ensures SameService(before, after, id) <==> id !in ChangedServices(before, after)
  {
    var x, y := LastWithId(before, id), LastWithId(after, id);
    LastIsListed(before, id);
    LastIsListed(after, id);
    forall s: Service ensures Counts(before, s) <==> LastWithId(before, s.serviceId) == Some(s) {
      LastCounts(before, s);
    }
    forall s: Service ensures Counts(after, s) <==> LastWithId(after, s.serviceId) == Some(s) {
      LastCounts(after, s);
    }
    if x != y {
      var s := if x.Some? then x.value else y.value;
      assert s in before + after && s.serviceId == id;
      assert Counts(before, s) <==> x == Some(s);
    }
  }

  lemma SurvivesIsSameWork(previous: Template, candidate: Template, before: Stage, after: Stage)
    ensures Survives(before, after, ChangedServices(previous.services, candidate.services))
       <==> SameWork(previous, candidate, before, after)
  {
    if before.serviceId.Some? {
      SameServiceIsUnchanged(previous.services, candidate.services, before.serviceId.value);
    }
  }

  /** The prefix holds the nodes whose work is the same, and ends at the first whose work is not. */
  lemma PrefixIsSameWork(previous: Template, candidate: Template, oldNext: nat, layout: Layout)
    requires oldNext <= |previous.stages| && IsLayout(previous, candidate, oldNext, layout)
    ensures
      && layout.prefix <= |previous.stages| && layout.prefix <= |candidate.stages|
      && (forall i :: 0 <= i < layout.prefix ==>
            SameWork(previous, candidate, previous.stages[i], candidate.stages[i]))
      && (layout.prefix < |previous.stages| && layout.prefix < |candidate.stages| ==>
            !SameWork(previous, candidate, previous.stages[layout.prefix], candidate.stages[layout.prefix]))
  {
    forall i | 0 <= i < |previous.stages| && i < |candidate.stages|
      ensures Survives(previous.stages[i], candidate.stages[i], layout.changedServices)
         <==> SameWork(previous, candidate, previous.stages[i], candidate.stages[i])
    {
      SurvivesIsSameWork(previous, candidate, previous.stages[i], candidate.stages[i]);
    }
  }

  /** Where the remapped cursor can be, before the question of a rewind. */
  lemma LayoutPosition(previous: Template, candidate: Template, oldNext: nat, layout: Layout)
    requires UniqueStageIds(previous.stages) && UniqueStageIds(candidate.stages)
    requires oldNext <= |previous.stages| && IsLayout(previous, candidate, oldNext, layout)
    ensures oldNext <= layout.prefix ==> layout.nextPosition == oldNext
    ensures oldNext > layout.prefix ==> layout.prefix <= layout.nextPosition
    ensures layout.nextPosition <= |candidate.stages|
  {
    var before, after, prefix := previous.stages, candidate.stages, layout.prefix;
    PrefixIds(before, after, layout.changedServices, prefix);
    if oldNext < prefix {
      assert before[oldNext].stageId == after[oldNext].stageId;
    } else if oldNext > prefix && layout.nextPosition < |after| {
      var i :| oldNext <= i < |before| && FirstSurvivorAt(before, oldNext, after, layout.nextPosition, i);
      assert forall k :: 0 <= k < prefix ==> after[k].stageId != before[i].stageId;
    }
  }

  /** Completed work is invalidated exactly when it sits in the old DAG behind the prefix. */
  lemma InvalidatedWork(layout: Layout, completed: set<StageId>)
    requires layout.prefix <= |layout.oldStages|
    ensures completed * Invalidated(layout) != {} <==>
            exists i :: layout.prefix <= i < |layout.oldStages| && layout.oldStages[i].stageId in completed
  {
    var stages, lost := layout.oldStages, layout.oldStages[layout.prefix..];
    if completed * Invalidated(layout) != {} {
      var id :| id in completed * Invalidated(layout);
      StageIdsAre(lost, id);
      var k :| 0 <= k < |lost| && lost[k].stageId == id;
      assert stages[layout.prefix + k].stageId in completed;
    }
    if exists i :: layout.prefix <= i < |stages| && stages[i].stageId in completed {
      var i :| layout.prefix <= i < |stages| && stages[i].stageId in completed;
      StageIdsOfSlice(stages, layout.prefix, |stages|);
      assert stages[i].stageId in completed * Invalidated(layout);
    }
  }

  /**
   A reload leaves no stale work behind the cursor: every completed node strictly before the new
   cursor lies in the unchanged prefix.
   */
  lemma NoStaleWorkBehindCursor(
    previous: Template, candidate: Template, oldNext: nat, layout: Layout, completed: set<StageId>, i: nat)
    requires UniqueStageIds(previous.stages) && UniqueStageIds(candidate.stages)
    requires oldNext <= |previous.stages| && IsLayout(previous, candidate, oldNext, layout)
    requires completed <= StageIds(previous.stages)
    requires i < PlanCursor(layout, completed).nextPosition <= |candidate.stages|
    requires candidate.stages[i].stageId in completed
    ensures i < layout.prefix
  {
    var before, after := previous.stages, candidate.stages;
    PrefixIds(before, after, layout.changedServices, layout.prefix);
    InvalidatedWork(layout, completed);
    StageIdsAre(before, after[i].stageId);
    var k :| 0 <= k < |before| && before[k].stageId == after[i].stageId;
    if k < layout.prefix {
      assert before[k].stageId == after[k].stageId;
    }
  }

  /**
   Where the cursor goes. Inside or at the end of the unchanged prefix it stays; elsewhere it lands
   between the prefix and the end of the new DAG; and the published position and flag encode it.
   */
  lemma CursorPlacement(
    previous: Template, candidate: Template, oldNext: nat, layout: Layout, completed: set<StageId>)
    requires ValidTemplate(candidate) && UniqueStageIds(previous.stages)
    requires oldNext <= |previous.stages| && IsLayout(previous, candidate, oldNext, layout)
    ensures var cursor := PlanCursor(layout, completed);
            && (oldNext <= layout.prefix ==> cursor.nextPosition == oldNext)
            && (oldNext > layout.prefix ==> layout.prefix <= cursor.nextPosition <= |candidate.stages|)
            && 1 <= cursor.stagePosition <= |candidate.stages|
            && CursorOf(cursor.stagePosition, cursor.pendingAdvance) == cursor.nextPosition
  {
    LayoutPosition(previous, candidate, oldNext, layout);
  }

  /**
   The results that survive are those of the unchanged prefix, which is the same set of ids
   whether it is read off the old DAG or off the new one.
   */
  lemma PreservedIsOldPrefix(
    previous: Template, candidate: Template, oldNext: nat, layout: Layout, completed: set<StageId>)
    requires oldNext <= |previous.stages| && IsLayout(previous, candidate, oldNext, layout)
    ensures var preserved := PlanCursor(layout, completed).preserved;
            && preserved == StageIds(previous.stages[..layout.prefix])
            && preserved <= StageIds(previous.stages)
            && preserved <= StageIds(candidate.stages)
  {
    PrefixIds(previous.stages, candidate.stages, layout.changedServices, layout.prefix);
    StageIdsOfSlice(previous.stages, 0, layout.prefix);
    StageIdsOfSlice(candidate.stages, 0, layout.prefix);
  }

  /**
   A rewind is never taken without need: it happens exactly when the cursor would stand beyond the
   prefix while some completed node of the old DAG behind the prefix lost its definition.
   */
  lemma RewindOnlyWhenWorkIsLost(
    previous: Template, candidate: Template, oldNext: nat, layout: Layout, completed: set<StageId>)
    requires UniqueStageIds(previous.stages) && UniqueStageIds(candidate.stages)
    requires oldNext <= |previous.stages| && IsLayout(previous, candidate, oldNext, layout)
    ensures PlanCursor(layout, completed).rewind <==>
            && oldNext > layout.prefix && layout.nextPosition > layout.prefix
            && exists i :: layout.prefix <= i < |previous.stages| && previous.stages[i].stageId in completed
  {
    LayoutPosition(previous, candidate, oldNext, layout);
    InvalidatedWork(layout, completed);
  }

  /** Reloading the template that is already applied plans to change nothing. */
  lemma ReloadOfSameTemplateIsIdentity(t: Template, oldNext: nat, layout: Layout, completed: set<StageId>)
    requires ValidTemplate(t) && oldNext <= |t.stages| && IsLayout(t, t, oldNext, layout)
    ensures layout.prefix == |t.stages|
    ensures var cursor := PlanCursor(layout, completed);
            cursor.nextPosition == oldNext && !cursor.rewind && cursor.preserved == StageIds(t.stages)
  {
    assert ChangedServices(t.services, t.services) == {};
    if layout.prefix < |t.stages| {
      assert Survives(t.stages[layout.prefix], t.stages[layout.prefix], {});
    }
    assert t.stages[..|t.stages|] == t.stages;
    LayoutPosition(t, t, oldNext, layout);
  }
}
