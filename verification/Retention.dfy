/**
 The snapshot store of one experiment: numbering a new snapshot, keeping the newest valid ones, and
 choosing the snapshot to continue from.
 */
module Retention {
  import opened Names
  import opened Options
  import opened Collections

  type Path = string

  /** The largest sequence number a manifest may carry. */
  const MAX_SEQUENCE: int := 9223372036854775807

  /**
   A folder of the snapshot store. `owned` says that its name is a canonical UUID; `header` is the
   sequence number of a readable header that names this experiment and folder; `listed` is the
   number any readable manifest shows; `valid` says that the whole snapshot passes validation.
   */
  datatype Folder = Folder(owned: bool, header: Option<int>, listed: Option<int>, valid: bool)

  type Store = map<Path, Folder>

  /** Full validation covers the name and the header, whose number is the listed one and in range. */
  ghost predicate Consistent(store: Store) {
    forall p :: p in store && store[p].valid ==>
      && store[p].owned && store[p].header.Some? && store[p].header == store[p].listed
      && 0 < store[p].header.value <= MAX_SEQUENCE
  }

  function ValidPaths(store: Store): set<Path> {
    set p | p in store && store[p].valid
  }

  function SequenceOf(store: Store, p: Path): int
    requires p in store
  {
    if store[p].listed.Some? then store[p].listed.value else 0
  }

  // ----- the order of candidates

  datatype Candidate = Candidate(sequence: int, path: Path)

  /** Candidates compare by sequence number, then by path. */
  predicate Older(a: Candidate, b: Candidate) {
    a.sequence < b.sequence || (a.sequence == b.sequence && Before(a.path, b.path))
  }

  ghost predicate NewestFirst(candidates: seq<Candidate>) {
    forall i, j :: 0 <= i < j < |candidates| ==> Older(candidates[j], candidates[i])
  }

  function CandidateAt(store: Store, p: Path): Candidate
    requires p in store
  {
    Candidate(SequenceOf(store, p), p)
  }

  lemma OlderIsTotal(a: Candidate, b: Candidate)
    requires a.path != b.path
    ensures Older(a, b) || Older(b, a)
  {
    BeforeIsTotal(a.path, b.path);
  }

  lemma OlderIsStrict(a: Candidate, b: Candidate, c: Candidate)
    ensures !Older(a, a)
    ensures Older(a, b) && Older(b, c) ==> Older(a, c)
  {
    BeforeIsStrict(a.path, b.path, c.path);
  }

  method InsertNewestFirst(sorted: seq<Candidate>, c: Candidate) returns (r: seq<Candidate>)
    requires NewestFirst(sorted) && forall i :: 0 <= i < |sorted| ==> sorted[i].path != c.path
    ensures NewestFirst(r) && multiset(r) == multiset(sorted) + multiset{c}
  {
    var i := 0;
    while i < |sorted| && Older(c, sorted[i])
      invariant 0 <= i <= |sorted|
      invariant forall k :: 0 <= k < i ==> Older(c, sorted[k])
    {
      i := i + 1;
    }
    forall k | i <= k < |sorted| ensures Older(sorted[k], c) {
      OlderIsTotal(c, sorted[i]);
      OlderIsStrict(sorted[k], sorted[i], c);
    }
    r := sorted[..i] + [c] + sorted[i..];
    assert sorted == sorted[..i] + sorted[i..];
  }

  /** The folders in `paths`, newest first, as sorting in reverse leaves them. */
  method Sorted(store: Store, paths: set<Path>) returns (candidates: seq<Candidate>)
    requires paths <= store.Keys
    ensures NewestFirst(candidates)
    ensures forall c :: c in candidates <==> c.path in paths && c == CandidateAt(store, c.path)
  {
    candidates := [];
    var rest := paths;
    while rest != {}
      invariant rest <= paths && NewestFirst(candidates)
      invariant forall c :: c in candidates <==> c.path in paths - rest && c == CandidateAt(store, c.path)
      decreases rest
    {
      var p :| p in rest;
      var c := CandidateAt(store, p);
      var before := candidates;
      candidates := InsertNewestFirst(candidates, c);
      forall x ensures x in candidates <==> x in before || x == c {
        assert x in multiset(candidates) <==> x in multiset(before) + multiset{c};
      }
      rest := rest - {p};
    }
  }

  // ----- numbering

  /** One more than the largest number in range; numbers at the limit are not counted. */
  method NextSequence(store: Store) returns (sequence: int)
    ensures 0 < sequence <= MAX_SEQUENCE
    ensures forall p :: p in store && store[p].listed.Some? && store[p].listed.value < MAX_SEQUENCE ==>
              store[p].listed.value < sequence
    ensures sequence == 1 || exists p :: p in store && store[p].listed == Some(sequence - 1)
  {
    var largest := 0;
    var rest := store.Keys;
    while rest != {}
      invariant rest <= store.Keys && 0 <= largest < MAX_SEQUENCE
      invariant forall p :: p in store.Keys - rest ==>
                  store[p].listed.Some? ==> store[p].listed.value < MAX_SEQUENCE ==> store[p].listed.value <= largest
      invariant largest == 0 || exists p :: p in store && store[p].listed == Some(largest)
      decreases rest
    {
      var p :| p in rest;
      if store[p].listed.Some? && 0 < store[p].listed.value < MAX_SEQUENCE && store[p].listed.value > largest {
        largest := store[p].listed.value;
      }
      rest := rest - {p};
    }
    sequence := largest + 1;
  }

  // ----- retention

  /**
   What is left after a publication: only owned folders went, the published snapshot stayed, the
   number of valid ones is what was asked for, and nothing valid that went is newer than another
   one that stayed.
   */
  ghost predicate RetainsNewest(store: Store, published: Path, keep: nat, after: Store) {
    && (forall p :: p in after ==> p in store && after[p] == store[p])
    && (forall p :: p in store && p !in after ==> store[p].owned)
    && (forall p :: p in after && after[p].owned ==> after[p].valid)
    && published in ValidPaths(after)
    && |ValidPaths(after)| == (if keep <= |ValidPaths(store)| then keep else |ValidPaths(store)|)
    && (forall p, q :: p in ValidPaths(store) && p !in after && q in ValidPaths(after) && q != published ==>
          Older(CandidateAt(store, p), CandidateAt(store, q)))
  }

  method RetainSnapshots(store: Store, published: Path, keep: nat) returns (after: Store)
    requires Consistent(store) && published in ValidPaths(store) && keep >= 1
    ensures RetainsNewest(store, published, keep, after)
  {
    var candidates := Sorted(store, set p | p in store && store[p].owned && store[p].header.Some?);
    var retained := {published};
    var i := 0;
    while i < |candidates| && |retained| < keep
      invariant 0 <= i <= |candidates|
      invariant published in retained && retained <= ValidPaths(store) && |retained| <= keep
      invariant forall k :: 0 <= k < i && candidates[k].path in ValidPaths(store) ==> candidates[k].path in retained
      invariant forall q :: q in retained && q != published ==> exists k :: 0 <= k < i && candidates[k].path == q
    {
      var path := candidates[i].path;
      if path != published && store[path].valid {
        assert path !in retained by {
          if path in retained {
            var k :| 0 <= k < i && candidates[k].path == path;
            OlderIsStrict(candidates[i], candidates[k], candidates[i]);
          }
        }
        retained := retained + {path};
      }
      i := i + 1;
    }
    after := map p | p in store && (!store[p].owned || p in retained) :: store[p];
    assert ValidPaths(after) == retained;
    if |retained| < keep {
      forall p | p in ValidPaths(store) ensures p in retained {
        assert CandidateAt(store, p) in candidates;
      }
      assert retained == ValidPaths(store);
    } else {
      SubsetSize(retained, ValidPaths(store));
    }
    forall p, q | p in ValidPaths(store) && p !in after && q in ValidPaths(after) && q != published
      ensures Older(CandidateAt(store, p), CandidateAt(store, q))
    {
      assert CandidateAt(store, p) in candidates;
      KeptAreNewer(store, candidates, i, p, q);
    }
  }

  lemma KeptAreNewer(store: Store, candidates: seq<Candidate>, i: nat, p: Path, q: Path)
    requires NewestFirst(candidates) && i <= |candidates| && p in store && q in store
    requires forall c :: c in candidates ==> c.path in store && c == CandidateAt(store, c.path)
    requires CandidateAt(store, p) in candidates && forall k :: 0 <= k < i ==> candidates[k].path != p
    requires exists k :: 0 <= k < i && candidates[k].path == q
    ensures Older(CandidateAt(store, p), CandidateAt(store, q))
  {
    var j :| 0 <= j < |candidates| && candidates[j] == CandidateAt(store, p);
    var k :| 0 <= k < i && candidates[k].path == q;
    assert candidates[k] in candidates;
  }

  // ----- choosing a snapshot to continue

  ghost predicate IsLatestValid(store: Store, latest: Option<Path>) {
    match latest
    case None => ValidPaths(store) == {}
    case Some(p) =>
      && p in ValidPaths(store)
      && forall q :: q in ValidPaths(store) && q != p ==> Older(CandidateAt(store, q), CandidateAt(store, p))
  }

  method LatestValid(store: Store) returns (latest: Option<Path>)
    requires Consistent(store)
    ensures IsLatestValid(store, latest)
  {
    var candidates := Sorted(store, set p | p in store && store[p].listed.Some?);
    var i := 0;
    while i < |candidates|
      invariant 0 <= i <= |candidates|
      invariant forall k :: 0 <= k < i ==> candidates[k].path !in ValidPaths(store)
    {
      if store[candidates[i].path].valid {
        latest := Some(candidates[i].path);
        forall q | q in ValidPaths(store) && q != candidates[i].path
          ensures Older(CandidateAt(store, q), CandidateAt(store, candidates[i].path))
        {
          assert CandidateAt(store, q) in candidates;
        }
        return;
      }
      i := i + 1;
    }
    assert forall q :: q in store && store[q].listed.Some? ==> CandidateAt(store, q) in candidates;
    latest := None;
  }

  /** The store with a newly published snapshot. */
  function Published(store: Store, name: Path, sequence: int): Store {
    store[name := Folder(true, Some(sequence), Some(sequence), true)]
  }

  /** A valid snapshot at the very limit that the new one cannot be numbered after. */
  ghost predicate Overtaken(store: Store, name: Path, sequence: int) {
    exists q :: q in ValidPaths(store) && q != name && SequenceOf(store, q) == MAX_SEQUENCE
                && Older(Candidate(sequence, name), CandidateAt(store, q))
  }

  /**
   After publishing and retaining, the snapshot chosen to continue from is the published one exactly
   when it is the only one kept or no earlier valid one sits at the end of the number range.
   */
  lemma PublishedIsLatest(
    store: Store, name: Path, sequence: int, keep: nat, after: Store, latest: Option<Path>)
    requires Consistent(store) && name !in store && keep >= 1
    requires 0 < sequence <= MAX_SEQUENCE
    requires forall p :: p in store && store[p].listed.Some? && store[p].listed.value < MAX_SEQUENCE ==>
               store[p].listed.value < sequence
    requires RetainsNewest(Published(store, name, sequence), name, keep, after)
    requires IsLatestValid(after, latest)
    ensures latest == Some(name) <==> keep == 1 || !Overtaken(store, name, sequence)
  {
    var full := Published(store, name, sequence);
    assert ValidPaths(full) == ValidPaths(store) + {name};
    assert name in ValidPaths(after);
    if keep == 1 {
      OnlyOne(ValidPaths(after), name, latest.value);
    } else if Overtaken(store, name, sequence) {
      var q :| q in ValidPaths(store) && SequenceOf(store, q) == MAX_SEQUENCE
               && Older(Candidate(sequence, name), CandidateAt(store, q));
      OvertakerStays(full, name, keep, after, q);
      var r :| r in ValidPaths(after) && r != name && !Older(CandidateAt(full, r), CandidateAt(full, name));
      assert CandidateAt(after, r) == CandidateAt(full, r) && CandidateAt(after, name) == CandidateAt(full, name);
    } else {
      LatestOvertakes(store, name, sequence, after, latest.value);
    }
  }

  /** Only a snapshot at the limit can be chosen in place of the published one. */
  lemma LatestOvertakes(store: Store, name: Path, sequence: int, after: Store, chosen: Path)
    requires Consistent(store) && name !in store && 0 < sequence <= MAX_SEQUENCE
    requires forall p :: p in store && store[p].listed.Some? && store[p].listed.value < MAX_SEQUENCE ==>
               store[p].listed.value < sequence
    requires forall p :: p in after ==> p in Published(store, name, sequence)
                                        && after[p] == Published(store, name, sequence)[p]
    requires name in ValidPaths(after) && IsLatestValid(after, Some(chosen))
    ensures chosen == name || Overtaken(store, name, sequence)
  {
    if chosen != name {
      assert Older(CandidateAt(after, name), CandidateAt(after, chosen));
      assert chosen in ValidPaths(store) && SequenceOf(store, chosen) == MAX_SEQUENCE;
    }
  }

  lemma OnlyOne<T>(s: set<T>, a: T, b: T)
    requires |s| == 1 && a in s && b in s
    ensures a == b
  {
    SubsetSize({a, b}, s);
  }

  /** With two or more kept, something newer than the published snapshot is among them. */
  lemma OvertakerStays(full: Store, name: Path, keep: nat, after: Store, q: Path)
    requires RetainsNewest(full, name, keep, after) && keep >= 2
    requires q in ValidPaths(full) && q != name && Older(CandidateAt(full, name), CandidateAt(full, q))
    ensures exists r :: r in ValidPaths(after) && r != name && !Older(CandidateAt(full, r), CandidateAt(full, name))
  {
    OlderIsStrict(CandidateAt(full, name), CandidateAt(full, q), CandidateAt(full, name));
    if q in after {
      assert q in ValidPaths(after);
    } else {
      SubsetSize({name, q}, ValidPaths(full));
      assert |ValidPaths(after) - {name}| >= 1;
      var r :| r in ValidPaths(after) - {name};
      OlderIsStrict(CandidateAt(full, q), CandidateAt(full, r), CandidateAt(full, name));
      OlderIsStrict(CandidateAt(full, name), CandidateAt(full, q), CandidateAt(full, r));
      OlderIsStrict(CandidateAt(full, name), CandidateAt(full, r), CandidateAt(full, name));
    }
  }

  /** One overtaken store: its snapshot at the limit is chosen, not the one numbered after it. */
  lemma OvertakenStore(first: Path, name: Path)
    requires first != name
    ensures
      var store := map[first := Folder(true, Some(MAX_SEQUENCE), Some(MAX_SEQUENCE), true)];
      var after := Published(store, name, 1);
      && Consistent(store) && Overtaken(store, name, 1)
      && RetainsNewest(after, name, 2, after)
      && IsLatestValid(after, Some(first)) && !IsLatestValid(after, Some(name))
  {
    var store := map[first := Folder(true, Some(MAX_SEQUENCE), Some(MAX_SEQUENCE), true)];
    var after := Published(store, name, 1);
    assert ValidPaths(after) == {first, name};
    assert Older(CandidateAt(after, name), CandidateAt(after, first));
    assert first in ValidPaths(store) && SequenceOf(store, first) == MAX_SEQUENCE;
  }
}
