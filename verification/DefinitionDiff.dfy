/**
 The field-level difference of two definitions, as recorded when a template is reloaded. The
 difference is computed with an explicit worklist; here it is tied to a structural recursion and
 shown to be a patch that can be applied forwards and backwards.
 */
module DefinitionDiff {
  import opened Collections
  import opened Names
  import opened Options

  type Name = string

  /** JSON values. Numbers keep their spelling, as the canonical dump the source compares does. */
  datatype Json =
    | Null
    | Bool(b: bool)
    | Number(spelling: string)
    | Text(s: string)
    | Array(items: seq<Json>)
    | Object(fields: map<Name, Json>)

  type Path = seq<Name>

  /** One recorded difference. A missing value is `None`, which is not the value `Some(Null)`. */
  datatype Change = Change(path: Path, before: Option<Json>, after: Option<Json>)

  function Field(value: Json, name: Name): Option<Json> {
    if value.Object? && name in value.fields then Some(value.fields[name]) else None
  }

  predicate BothObjects(before: Option<Json>, after: Option<Json>) {
    before.Some? && after.Some? && before.value.Object? && after.value.Object?
  }

  // ----- field names in order

  predicate IsLeastName(least: Name, names: set<Name>) {
    least in names && forall n :: n in names ==> n == least || Before(least, n)
  }

  lemma {:induction false} LeastNameExists(names: set<Name>)
    requires names != {}
    ensures exists least :: IsLeastName(least, names)
  {
    var any :| any in names;
    var rest := names - {any};
    if rest == {} {
      assert names == {any};
      assert IsLeastName(any, names);
    } else {
      LeastNameExists(rest);
      var other :| IsLeastName(other, rest);
      BeforeIsTotal(any, other);
      forall n | n in rest { BeforeIsStrict(any, other, n); }
      assert IsLeastName(if Before(any, other) then any else other, names);
    }
  }

  function LeastName(names: set<Name>): (least: Name)
    requires names != {}
    ensures IsLeastName(least, names)
  {
    LeastNameExists(names);
    assert forall a, b :: IsLeastName(a, names) && IsLeastName(b, names) ==> a == b by {
      forall a, b | IsLeastName(a, names) && IsLeastName(b, names) ensures a == b {
        BeforeIsStrict(a, b, a);
      }
    }
    var least :| least in names && IsLeastName(least, names);
    least
  }

  function Sorted(names: set<Name>): (sorted: seq<Name>)
    ensures forall n :: n in sorted <==> n in names
    ensures forall i, j :: 0 <= i < j < |sorted| ==> sorted[i] != sorted[j]
  {
    if names == {} then [] else var least := LeastName(names); [least] + Sorted(names - {least})
  }

  function FieldNames(before: Json, after: Json): seq<Name>
    requires before.Object? && after.Object?
  {
    Sorted(before.fields.Keys + after.fields.Keys)
  }

  // ----- the difference, as a recursion over the documents

  function Diff(path: Path, before: Option<Json>, after: Option<Json>): seq<Change>
    decreases before.Some?, if before.Some? then before.value else Null
  {
    if before == after then []
    else if BothObjects(before, after) then
      FieldDiffs(path, before.value, after.value, FieldNames(before.value, after.value))
    else [Change(path, before, after)]
  }

  function FieldDiffs(path: Path, before: Json, after: Json, names: seq<Name>): seq<Change>
    requires before.Object? && after.Object?
    decreases true, before, |names|
  {
    if names == [] then []
    else Diff(path + [names[0]], Field(before, names[0]), Field(after, names[0]))
         + FieldDiffs(path, before, after, names[1..])
  }

  // ----- the worklist

  datatype Pending = Pending(path: Path, before: Option<Json>, after: Option<Json>)

  /** Number of worklist entries that one entry gives rise to, itself included. */
  function Work(before: Option<Json>, after: Option<Json>): nat
    decreases before.Some?, if before.Some? then before.value else Null
  {
    if before == after || !BothObjects(before, after) then 1
    else 1 + FieldWork(before.value, after.value, FieldNames(before.value, after.value))
  }

  function FieldWork(before: Json, after: Json, names: seq<Name>): nat
    requires before.Object? && after.Object?
    decreases true, before, |names|
  {
    if names == [] then 0
    else Work(Field(before, names[0]), Field(after, names[0])) + FieldWork(before, after, names[1..])
  }

  function StackDiff(stack: seq<Pending>): seq<Change> {
    if stack == [] then []
    else
      var top := stack[|stack| - 1];
      Diff(top.path, top.before, top.after) + StackDiff(stack[..|stack| - 1])
  }

  function StackWork(stack: seq<Pending>): nat {
    if stack == [] then 0
    else
      var top := stack[|stack| - 1];
      Work(top.before, top.after) + StackWork(stack[..|stack| - 1])
  }

  lemma StackPush(stack: seq<Pending>, item: Pending)
    ensures StackDiff(stack + [item]) == Diff(item.path, item.before, item.after) + StackDiff(stack)
    ensures StackWork(stack + [item]) == Work(item.before, item.after) + StackWork(stack)
  {
    assert (stack + [item])[..|stack|] == stack;
  }

  /** On top of `below` lie entries for the fields in `names`. */
  ghost predicate Pushed(
    below: seq<Pending>, pending: seq<Pending>, path: Path, before: Json, after: Json, names: seq<Name>)
    requires before.Object? && after.Object?
  {
    && StackDiff(pending) == FieldDiffs(path, before, after, names) + StackDiff(below)
    && StackWork(pending) == FieldWork(before, after, names) + StackWork(below)
  }

  lemma FieldPushed(
    below: seq<Pending>, pending: seq<Pending>, path: Path, before: Json, after: Json, names: seq<Name>)
    requires before.Object? && after.Object? && names != []
    requires Pushed(below, pending, path, before, after, names[1..])
    ensures
      var item := Pending(path + [names[0]], Field(before, names[0]), Field(after, names[0]));
      Pushed(below, pending + [item], path, before, after, names)
  {
    var item := Pending(path + [names[0]], Field(before, names[0]), Field(after, names[0]));
    StackPush(pending, item);
    Regroup(Diff(item.path, item.before, item.after), FieldDiffs(path, before, after, names[1..]), StackDiff(below));
  }

  /** Replaces an entry for two objects by the entries of their fields, the first name on top. */
  method PushFields(below: seq<Pending>, top: Pending) returns (pending: seq<Pending>)
    requires BothObjects(top.before, top.after) && top.before != top.after
    ensures StackDiff(pending) == Diff(top.path, top.before, top.after) + StackDiff(below)
    ensures StackWork(pending) == Work(top.before, top.after) - 1 + StackWork(below)
  {
    pending := below;
    var before, after := top.before.value, top.after.value;
    var names := FieldNames(before, after);
    var i := |names|;
    while i > 0
      invariant 0 <= i <= |names|
      invariant Pushed(below, pending, top.path, before, after, names[i..])
    {
      i := i - 1;
      var item := Pending(top.path + [names[i]], Field(before, names[i]), Field(after, names[i]));
      FieldPushed(below, pending, top.path, before, after, names[i..]);
      assert names[i..][1..] == names[i + 1..];
      pending := pending + [item];
    }
    assert names[0..] == names;
  }

  /** The recorded `fields` list; the worklist runs out because the pending work shrinks. */
  method DefinitionChange(before: Option<Json>, after: Option<Json>) returns (fields: seq<Change>)
    ensures fields == Diff([], before, after)
  {
    fields := [];
    var pending := [Pending([], before, after)];
    assert pending[..0] == [];
    while pending != []
      invariant fields + StackDiff(pending) == Diff([], before, after)
      decreases StackWork(pending)
    {
      var top := pending[|pending| - 1];
      pending := pending[..|pending| - 1];
      Regroup(fields, Diff(top.path, top.before, top.after), StackDiff(pending));
      if top.before == top.after {
        continue;
      }
      if BothObjects(top.before, top.after) {
        pending := PushFields(pending, top);
      } else {
        fields := fields + [Change(top.path, top.before, top.after)];
      }
    }
  }

  // ----- applying a difference

  function Get(document: Option<Json>, path: Path): Option<Json>
    decreases path
  {
    if path == [] || document.None? then document
    else Get(Field(document.value, path[0]), path[1..])
  }

  function WithField(value: Json, name: Name, field: Option<Json>): Json
    requires value.Object?
  {
    Object(if field.Some? then value.fields[name := field.value] else value.fields - {name})
  }

  function Put(document: Option<Json>, path: Path, value: Option<Json>): Option<Json>
    decreases path
  {
    if path == [] then value
    else if document.None? || !document.value.Object? then document
    else Some(WithField(document.value, path[0], Put(Field(document.value, path[0]), path[1..], value)))
  }

  /** Every object on the way to the last name of the path is there. */
  predicate Reaches(document: Option<Json>, path: Path)
    decreases path
  {
    path == []
    || (document.Some? && document.value.Object? && Reaches(Field(document.value, path[0]), path[1..]))
  }

  function Patch(document: Option<Json>, changes: seq<Change>): Option<Json>
    decreases changes
  {
    if changes == [] then document
    else Patch(Put(document, changes[0].path, changes[0].after), changes[1..])
  }

  function Inverted(changes: seq<Change>): seq<Change> {
    seq(|changes|, i requires 0 <= i < |changes| => Change(changes[i].path, changes[i].after, changes[i].before))
  }

  lemma {:induction false} PatchAppend(document: Option<Json>, first: seq<Change>, second: seq<Change>)
    ensures Patch(document, first + second) == Patch(Patch(document, first), second)
    decreases first
  {
    if first == [] {
      assert first + second == second;
    } else {
      assert (first + second)[1..] == first[1..] + second;
      PatchAppend(Put(document, first[0].path, first[0].after), first[1..], second);
    }
  }

  lemma WithFieldLaws(value: Json, name: Name, first: Option<Json>, second: Option<Json>)
    requires value.Object?
    ensures WithField(value, name, Field(value, name)) == value
    ensures WithField(WithField(value, name, first), name, second) == WithField(value, name, second)
    ensures Field(WithField(value, name, first), name) == first
  {
    assert name !in value.fields ==> value.fields - {name} == value.fields;
    assert name in value.fields ==> value.fields[name := value.fields[name]] == value.fields;
    var once := WithField(value, name, first).fields;
    assert second.Some? ==> once[name := second.value] == value.fields[name := second.value];
    assert second.None? ==> once - {name} == value.fields - {name};
  }

  /** Writing one field below a freshly written object is writing the changed object. */
  lemma {:induction false} PutField(document: Option<Json>, path: Path, value: Json, name: Name, field: Option<Json>)
    requires Reaches(document, path) && value.Object?
    ensures var written := Put(document, path, Some(value));
            && Reaches(written, path + [name])
            && Get(written, path + [name]) == Field(value, name)
            && Put(written, path + [name], field) == Put(document, path, Some(WithField(value, name, field)))
    decreases path
  {
    if path == [] {
      assert path + [name] == [name];
    } else {
      var inner := Field(document.value, path[0]);
      WithFieldLaws(document.value, path[0], Put(inner, path[1..], Some(value)),
                    Put(inner, path[1..], Some(WithField(value, name, field))));
      assert (path + [name])[1..] == path[1..] + [name];
      PutField(Field(document.value, path[0]), path[1..], value, name, field);
    }
  }

  lemma {:induction false} PutGet(document: Option<Json>, path: Path)
    requires Reaches(document, path)
    ensures Put(document, path, Get(document, path)) == document
    decreases path
  {
    if path != [] {
      WithFieldLaws(document.value, path[0], None, None);
      PutGet(Field(document.value, path[0]), path[1..]);
    }
  }

  /** The object that agrees with `after` on the names already handled and with `before` elsewhere. */
  ghost function Merged(before: Json, after: Json, pending: set<Name>): Json
    requires before.Object? && after.Object?
  {
    Object(map n | n in before.fields.Keys + after.fields.Keys
                   && Field(if n in pending then before else after, n).Some?
           :: Field(if n in pending then before else after, n).value)
  }

  lemma MergedEnds(before: Json, after: Json, all: set<Name>)
    requires before.Object? && after.Object?
    requires all == before.fields.Keys + after.fields.Keys
    ensures Merged(before, after, all) == before
    ensures Merged(before, after, {}) == after
  {
    assert Merged(before, after, all).fields == before.fields;
    assert Merged(before, after, {}).fields == after.fields;
  }

  lemma PatchOne(document: Option<Json>, change: Change)
    ensures Patch(document, [change]) == Put(document, change.path, change.after)
  {
    assert [change][1..] == [];
  }

  lemma {:induction false} PatchDiff(document: Option<Json>, path: Path, before: Option<Json>, after: Option<Json>)
    requires Reaches(document, path) && Get(document, path) == before
    ensures Patch(document, Diff(path, before, after)) == Put(document, path, after)
    decreases before.Some?, if before.Some? then before.value else Null
  {
    if before == after {
      PutGet(document, path);
    } else if BothObjects(before, after) {
      var names := FieldNames(before.value, after.value);
      PutGet(document, path);
      assert (set n | n in names) == before.value.fields.Keys + after.value.fields.Keys;
      MergedEnds(before.value, after.value, set n | n in names);
      PatchFields(document, path, before.value, after.value, names);
    } else {
      PatchOne(document, Change(path, before, after));
    }
  }

  lemma {:induction false} PatchFields(
    document: Option<Json>, path: Path, before: Json, after: Json, names: seq<Name>)
    requires before.Object? && after.Object? && Reaches(document, path)
    requires forall i, j :: 0 <= i < j < |names| ==> names[i] != names[j]
    ensures Patch(Put(document, path, Some(Merged(before, after, set n | n in names))),
                  FieldDiffs(path, before, after, names))
         == Put(document, path, Some(Merged(before, after, {})))
    decreases true, before, |names|
  {
    var todo := set n | n in names;
    if names == [] {
      assert todo == {};
    } else {
      var name, rest := names[0], set n | n in names[1..];
      var value := Merged(before, after, todo);
      var current := Put(document, path, Some(value));
      assert todo == {name} + rest && name !in rest;
      assert WithField(value, name, Field(after, name)) == Merged(before, after, rest);
      PutField(document, path, value, name, Field(after, name));
      PatchDiff(current, path + [name], Field(before, name), Field(after, name));
      PatchAppend(current, Diff(path + [name], Field(before, name), Field(after, name)),
                  FieldDiffs(path, before, after, names[1..]));
      PatchFields(document, path, before, after, names[1..]);
    }
  }

  /** Applying the recorded fields to the old definition gives the new one. */
  lemma {:induction false} PatchForwards(before: Option<Json>, after: Option<Json>)
    ensures Patch(before, Diff([], before, after)) == after
  {
    PatchDiff(before, [], before, after);
  }

  lemma InvertedAppend(first: seq<Change>, second: seq<Change>)
    ensures Inverted(first + second) == Inverted(first) + Inverted(second)
  {
  }

  /** The difference is symmetric: swapping the documents swaps the recorded values. */
  lemma {:induction false} DiffInverted(path: Path, before: Option<Json>, after: Option<Json>)
    ensures Diff(path, after, before) == Inverted(Diff(path, before, after))
    decreases before.Some?, if before.Some? then before.value else Null
  {
    if before != after && BothObjects(before, after) {
      assert before.value.fields.Keys + after.value.fields.Keys == after.value.fields.Keys + before.value.fields.Keys;
      FieldDiffsInverted(path, before.value, after.value, FieldNames(before.value, after.value));
    }
  }

  lemma {:induction false} FieldDiffsInverted(path: Path, before: Json, after: Json, names: seq<Name>)
    requires before.Object? && after.Object?
    ensures FieldDiffs(path, after, before, names) == Inverted(FieldDiffs(path, before, after, names))
    decreases true, before, |names|
  {
    if names != [] {
      DiffInverted(path + [names[0]], Field(before, names[0]), Field(after, names[0]));
      FieldDiffsInverted(path, before, after, names[1..]);
      InvertedAppend(Diff(path + [names[0]], Field(before, names[0]), Field(after, names[0])),
                     FieldDiffs(path, before, after, names[1..]));
    }
  }

  /** Applying them in reverse to the new definition gives the old one back. */
  lemma PatchBackwards(before: Option<Json>, after: Option<Json>)
    ensures Patch(after, Inverted(Diff([], before, after))) == before
  {
    DiffInverted([], before, after);
    PatchForwards(after, before);
  }

  // ----- the shape of the list

  ghost predicate PrefixFree(changes: seq<Change>) {
    forall i, j :: 0 <= i < j < |changes| ==>
      !(changes[i].path <= changes[j].path) && !(changes[j].path <= changes[i].path)
  }

  ghost predicate Genuine(changes: seq<Change>, path: Path, before: Option<Json>, after: Option<Json>) {
    forall i :: 0 <= i < |changes| ==>
      && changes[i].before != changes[i].after
      && path <= changes[i].path
      && Get(before, changes[i].path[|path|..]) == changes[i].before
      && Get(after, changes[i].path[|path|..]) == changes[i].after
  }

  /**
   Every recorded field really differs, records the values found at its path in the two documents,
   and no recorded path lies inside another.
   */
  lemma {:induction false} DiffIsMinimal(path: Path, before: Option<Json>, after: Option<Json>)
    ensures PrefixFree(Diff(path, before, after))
    ensures Genuine(Diff(path, before, after), path, before, after)
    decreases before.Some?, if before.Some? then before.value else Null
  {
    if before != after && BothObjects(before, after) {
      FieldDiffsAreMinimal(path, before.value, after.value, FieldNames(before.value, after.value));
    }
  }

  lemma {:induction false} FieldDiffsAreMinimal(path: Path, before: Json, after: Json, names: seq<Name>)
    requires before.Object? && after.Object?
    requires forall i, j :: 0 <= i < j < |names| ==> names[i] != names[j]
    ensures var changes := FieldDiffs(path, before, after, names);
            && PrefixFree(changes)
            && Genuine(changes, path, Some(before), Some(after))
            && forall i :: 0 <= i < |changes| ==>
                 |changes[i].path| > |path| && changes[i].path[|path|] in names
    decreases true, before, |names|
  {
    if names != [] {
      var name := names[0];
      var first := Diff(path + [name], Field(before, name), Field(after, name));
      var second := FieldDiffs(path, before, after, names[1..]);
      DiffIsMinimal(path + [name], Field(before, name), Field(after, name));
      FieldDiffsAreMinimal(path, before, after, names[1..]);
      forall i | 0 <= i < |first|
        ensures path <= first[i].path && |first[i].path| > |path| && first[i].path[|path|] == name
        ensures Get(Some(before), first[i].path[|path|..]) == first[i].before
        ensures Get(Some(after), first[i].path[|path|..]) == first[i].after
      {
        assert path + [name] <= first[i].path;
        var tail := first[i].path[|path|..];
        assert tail[0] == name && tail[1..] == first[i].path[|path| + 1..];
      }
      forall i, j | 0 <= i < |first| && 0 <= j < |second|
        ensures !(first[i].path <= second[j].path) && !(second[j].path <= first[i].path)
      {
        assert first[i].path[|path|] == name && second[j].path[|path|] in names[1..];
      }
    }
  }

  // ----- the order of the list

  /** The paths part at the place `k`, where `p` has the smaller name. */
  predicate Parts(p: Path, q: Path, k: nat) {
    k < |p| && k < |q| && p[..k] == q[..k] && Before(p[k], q[k])
  }

  ghost predicate Precedes(p: Path, q: Path) {
    exists k :: Parts(p, q, k)
  }

  ghost predicate InOrder(changes: seq<Change>) {
    forall i, j :: 0 <= i < j < |changes| ==> Precedes(changes[i].path, changes[j].path)
  }

  ghost predicate Ascending(names: seq<Name>) {
    forall i, j :: 0 <= i < j < |names| ==> Before(names[i], names[j])
  }

  lemma {:induction false} SortedAscends(names: set<Name>)
    ensures Ascending(Sorted(names))
  {
    if names != {} {
      SortedAscends(names - {LeastName(names)});
    }
  }

  /** The recorded fields are listed by their paths, name by name in character order. */
  lemma {:induction false} DiffIsOrdered(path: Path, before: Option<Json>, after: Option<Json>)
    ensures InOrder(Diff(path, before, after))
    decreases before.Some?, if before.Some? then before.value else Null
  {
    if before != after && BothObjects(before, after) {
      var names := FieldNames(before.value, after.value);
      SortedAscends(before.value.fields.Keys + after.value.fields.Keys);
      FieldDiffsAreOrdered(path, before.value, after.value, names);
    }
  }

  lemma {:induction false} FieldDiffsAreOrdered(path: Path, before: Json, after: Json, names: seq<Name>)
    requires before.Object? && after.Object? && Ascending(names)
    ensures InOrder(FieldDiffs(path, before, after, names))
    decreases true, before, |names|
  {
    if names != [] {
      var name, rest := names[0], names[1..];
      var first := Diff(path + [name], Field(before, name), Field(after, name));
      var second := FieldDiffs(path, before, after, rest);
      DiffIsOrdered(path + [name], Field(before, name), Field(after, name));
      FieldDiffsAreOrdered(path, before, after, rest);
      DiffIsMinimal(path + [name], Field(before, name), Field(after, name));
      assert forall i, j :: 0 <= i < j < |rest| ==> rest[i] == names[i + 1] && rest[j] == names[j + 1];
      AscendingDiffers(rest);
      FieldDiffsAreMinimal(path, before, after, rest);
      forall i, j | 0 <= i < |first| && 0 <= j < |second|
        ensures Precedes(first[i].path, second[j].path)
      {
        FieldsPart(path, name, names, first[i].path, second[j].path);
      }
      OrderedAppend(first, second);
    }
  }

  lemma OrderedAppend(first: seq<Change>, second: seq<Change>)
    requires InOrder(first) && InOrder(second)
    requires forall i, j :: 0 <= i < |first| && 0 <= j < |second| ==> Precedes(first[i].path, second[j].path)
    ensures InOrder(first + second)
  {
    var all, n := first + second, |first|;
    forall i, j | 0 <= i < j < |all| ensures Precedes(all[i].path, all[j].path) {
      if j < n {
        assert all[i] == first[i] && all[j] == first[j];
      } else if i >= n {
        assert all[i] == second[i - n] && all[j] == second[j - n];
      } else {
        assert all[i] == first[i] && all[j] == second[j - n];
      }
    }
  }

  lemma AscendingDiffers(names: seq<Name>)
    requires Ascending(names)
    ensures forall i, j :: 0 <= i < j < |names| ==> names[i] != names[j]
  {
    forall i, j | 0 <= i < j < |names| ensures names[i] != names[j] {
      BeforeIsStrict(names[i], names[j], names[i]);
    }
  }

  lemma FieldsPart(path: Path, name: Name, names: seq<Name>, p: Path, q: Path)
    requires names != [] && name == names[0] && Ascending(names)
    requires path + [name] <= p && path <= q && |q| > |path| && q[|path|] in names[1..]
    ensures Parts(p, q, |path|)
  {
    var k :| 0 <= k < |names[1..]| && names[1..][k] == q[|path|];
    assert Before(names[0], names[k + 1]);
    assert p[|path|] == (path + [name])[|path|];
  }
}
