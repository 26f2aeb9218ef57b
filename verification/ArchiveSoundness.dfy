/** What an accepted archive stream consists of. */
module ArchiveSoundness {
  import opened Options
  import opened Ustar
  import opened ArchiveTree
  import opened ArchiveReader

  /** A header block, what it says, and the data behind it. */
  datatype Entry = Entry(block: seq<Byte>, header: Header, data: seq<Byte>)

  function EntryBytes(e: Entry): seq<Byte> {
    e.block + e.data + Zeros(Padding(|e.data|))
  }

  function Bytes(entries: seq<Entry>): seq<Byte> {
    if entries == [] then [] else EntryBytes(entries[0]) + Bytes(entries[1..])
  }

  /** The data of the first `k` entries. */
  function TotalSize(entries: seq<Entry>, k: nat): nat
    requires k <= |entries|
  {
    if k == 0 then 0 else TotalSize(entries, k - 1) + |entries[k - 1].data|
  }

  ghost predicate WellFormed(rules: Rules, e: Entry) {
    && |e.block| == BLOCK && Decode(e.block) == Some(e.header)
    && e.block[257..265] == [117, 115, 116, 97, 114, 0, 48, 48]
    && e.header.kind in {48, 0, 53}
    && e.header.size == |e.data| && (e.header.kind == DIRECTORY ==> e.data == [])
    && CleanName(rules, e.header.name)
    && (e.header.name == MANIFEST ==> |e.data| <= rules.maxManifest)
  }

  /** The first entry of a stream that starts with a readable member. */
  function FirstEntry(rules: Rules, p: Progress, rest: seq<Byte>): Entry
    requires |rest| >= BLOCK && OneMember(rules, p, rest).Success?
  {
    var h := Decode(rest[..BLOCK]).value;
    Entry(rest[..BLOCK], h, rest[BLOCK..BLOCK + h.size])
  }

  /** What one member adds to the progress. */
  predicate Adds(rules: Rules, p: Progress, e: Entry, q: Progress) {
    var name := e.header.name;
    && rules.fold(name) !in p.names && q.names == p.names + {rules.fold(name)}
    && |q.names| <= rules.maxMembers
    && q.total == p.total + |e.data| <= rules.maxUnpacked
    && p.tree.dirs <= q.tree.dirs
    && (if e.header.kind == DIRECTORY then name in q.tree.dirs && q.tree.files == p.tree.files
        else name !in p.tree.files && q.tree.files == p.tree.files[name := File(e.data, Restricted(e.header.mode))])
  }

  lemma FirstIsWellFormed(rules: Rules, p: Progress, rest: seq<Byte>)
    requires |rest| >= BLOCK && OneMember(rules, p, rest).Success?
    ensures WellFormed(rules, FirstEntry(rules, p, rest))
  {
    var h := Decode(rest[..BLOCK]).value;
    assert Admitted(rules, p, rest[..BLOCK], h).Success?;
    SafeIsClean(rules, h.name);
  }

  lemma FirstAdds(rules: Rules, p: Progress, rest: seq<Byte>)
    requires |rest| >= BLOCK && OneMember(rules, p, rest).Success?
    ensures Adds(rules, p, FirstEntry(rules, p, rest), OneMember(rules, p, rest).value.0)
  {
    var h := Decode(rest[..BLOCK]).value;
    var q := Admitted(rules, p, rest[..BLOCK], h).value;
    MemberAdds(rules, p, rest, h, q);
  }

  lemma MemberAdds(rules: Rules, p: Progress, rest: seq<Byte>, h: Header, q: Progress)
    requires |rest| >= BLOCK && Admitted(rules, p, rest[..BLOCK], h) == Success(q)
    requires Placed(q, h, rest[BLOCK..]).Success?
    ensures BLOCK + h.size <= |rest|
    ensures Adds(rules, p, Entry(rest[..BLOCK], h, rest[BLOCK..BLOCK + h.size]), Placed(q, h, rest[BLOCK..]).value)
  {
    AdmittedAdds(rules, p, rest[..BLOCK], h);
    PlacedSound(q, h, rest[BLOCK..]);
    PlacedAdds(rules, p, Entry(rest[..BLOCK], h, rest[BLOCK..BLOCK + h.size]), q, rest[BLOCK..]);
  }

  lemma AdmittedAdds(rules: Rules, p: Progress, block: seq<Byte>, h: Header)
    requires |block| == BLOCK && Admitted(rules, p, block, h).Success?
    ensures
      var q := Admitted(rules, p, block, h).value;
      && rules.fold(h.name) !in p.names && q.names == p.names + {rules.fold(h.name)}
      && |q.names| <= rules.maxMembers && q.total == p.total + h.size <= rules.maxUnpacked && q.tree == p.tree
  {
  }

  lemma PlacedAdds(rules: Rules, p: Progress, e: Entry, q: Progress, rest: seq<Byte>)
    requires Sized(e.header) && e.header.size <= |rest| && e.data == rest[..e.header.size]
    requires rules.fold(e.header.name) !in p.names && q.names == p.names + {rules.fold(e.header.name)}
    requires |q.names| <= rules.maxMembers && q.total == p.total + |e.data| <= rules.maxUnpacked && q.tree == p.tree
    requires Placed(q, e.header, rest).Success?
    ensures Adds(rules, p, e, Placed(q, e.header, rest).value)
  {
    PlacedSound(q, e.header, rest);
  }

  lemma FirstExtent(rules: Rules, p: Progress, rest: seq<Byte>)
    requires |rest| >= BLOCK && OneMember(rules, p, rest).Success?
    ensures
      var e, n := FirstEntry(rules, p, rest), OneMember(rules, p, rest).value.1;
      && Sized(e.header) && n == BLOCK + Extent(e.header) <= |rest|
      && e.block == rest[..BLOCK] && e.data == rest[BLOCK..BLOCK + e.header.size]
      && AllZero(rest[BLOCK..][e.header.size..Extent(e.header)])
  {
    var h := Decode(rest[..BLOCK]).value;
    PlacedSound(Admitted(rules, p, rest[..BLOCK], h).value, h, rest[BLOCK..]);
  }

  lemma MemberBytes(h: Header, rest: seq<Byte>)
    requires Sized(h) && |rest| >= BLOCK + Extent(h) && AllZero(rest[BLOCK..][h.size..Extent(h)])
    ensures
      var e := Entry(rest[..BLOCK], h, rest[BLOCK..BLOCK + h.size]);
      var n := BLOCK + Extent(h);
      |EntryBytes(e)| == n && rest == EntryBytes(e) + rest[n..]
  {
    var n := BLOCK + Extent(h);
    assert rest[BLOCK..][h.size..Extent(h)] == rest[BLOCK + h.size..n];
    assert rest[BLOCK + h.size..n] == Zeros(Padding(h.size));
    assert rest == rest[..BLOCK] + rest[BLOCK..BLOCK + h.size] + rest[BLOCK + h.size..n] + rest[n..];
  }

  lemma PlacedSound(q: Progress, h: Header, rest: seq<Byte>)
    requires Sized(h) && Placed(q, h, rest).Success?
    ensures h.size <= |rest| && Extent(h) <= |rest| && AllZero(rest[h.size..Extent(h)])
    ensures
      var r := Placed(q, h, rest).value;
      && r.names == q.names && r.total == q.total && q.tree.dirs <= r.tree.dirs
      && (if h.kind == DIRECTORY then h.name in r.tree.dirs && r.tree.files == q.tree.files
          else h.name !in q.tree.files
               && r.tree.files == q.tree.files[h.name := File(rest[..h.size], Restricted(h.mode))])
  {
  }

  /** The entries of an accepted stream. */
  ghost function EntriesOf(rules: Rules, p: Progress, rest: seq<Byte>): seq<Entry>
    requires ReadMembers(rules, p, rest).Success?
    decreases |rest|
  {
    if AllZero(rest[..BLOCK]) then []
    else
      var next := OneMember(rules, p, rest).value;
      [FirstEntry(rules, p, rest)] + EntriesOf(rules, next.0, rest[next.1..])
  }

  /** The stream is its entries, two zero blocks and at most one record of zero bytes. */
  ghost predicate LaidOut(stream: seq<Byte>, entries: seq<Entry>) {
    && 2 * BLOCK <= |stream| - |Bytes(entries)| <= 2 * BLOCK + RECORD
    && stream == Bytes(entries) + Zeros(|stream| - |Bytes(entries)|)
  }

  lemma {:induction false} StreamLayout(rules: Rules, p: Progress, rest: seq<Byte>)
    requires ReadMembers(rules, p, rest).Success?
    ensures LaidOut(rest, EntriesOf(rules, p, rest))
    decreases |rest|
  {
    if AllZero(rest[..BLOCK]) {
      EndLayout(rest);
    } else {
      var next := OneMember(rules, p, rest).value;
      var entries := EntriesOf(rules, next.0, rest[next.1..]);
      StreamLayout(rules, next.0, rest[next.1..]);
      FirstLayout(rules, p, rest, entries);
    }
  }

  lemma FirstLayout(rules: Rules, p: Progress, rest: seq<Byte>, entries: seq<Entry>)
    requires |rest| >= BLOCK && OneMember(rules, p, rest).Success?
    requires LaidOut(rest[OneMember(rules, p, rest).value.1..], entries)
    ensures LaidOut(rest, [FirstEntry(rules, p, rest)] + entries)
  {
    var e, n := FirstEntry(rules, p, rest), OneMember(rules, p, rest).value.1;
    FirstExtent(rules, p, rest);
    MemberLayout(e, rest, n, entries);
  }

  lemma MemberLayout(e: Entry, rest: seq<Byte>, n: nat, entries: seq<Entry>)
    requires |e.data| == e.header.size && Sized(e.header) && BLOCK <= n == BLOCK + Extent(e.header) <= |rest|
    requires e.block == rest[..BLOCK] && e.data == rest[BLOCK..BLOCK + e.header.size]
    requires AllZero(rest[BLOCK..][e.header.size..Extent(e.header)])
    requires LaidOut(rest[n..], entries)
    ensures LaidOut(rest, [e] + entries)
  {
    MemberBytes(e.header, rest);
    assert rest == EntryBytes(e) + rest[n..];
    PrependLayout(e, entries, rest[n..]);
  }

  lemma EndLayout(rest: seq<Byte>)
    requires |rest| >= BLOCK && AllZero(rest[..BLOCK]) && Terminated(rest[BLOCK..]).None?
    ensures LaidOut(rest, [])
  {
    var tail := rest[BLOCK..];
    assert tail == tail[..BLOCK] + tail[BLOCK..];
    assert AllZero(tail);
    assert rest == rest[..BLOCK] + tail;
    assert rest == Zeros(|rest|);
  }

  lemma PrependLayout(e: Entry, entries: seq<Entry>, tail: seq<Byte>)
    requires LaidOut(tail, entries)
    ensures LaidOut(EntryBytes(e) + tail, [e] + entries)
  {
    var zeros := Zeros(|tail| - |Bytes(entries)|);
    assert ([e] + entries)[1..] == entries;
    assert EntryBytes(e) + (Bytes(entries) + zeros) == (EntryBytes(e) + Bytes(entries)) + zeros;
  }

  // ----- what the entries add up to

  /** The progress before each entry and after the last one. */
  ghost function StatesOf(rules: Rules, p: Progress, rest: seq<Byte>): seq<Progress>
    requires ReadMembers(rules, p, rest).Success?
    decreases |rest|
  {
    if AllZero(rest[..BLOCK]) then [p]
    else
      var next := OneMember(rules, p, rest).value;
      [p] + StatesOf(rules, next.0, rest[next.1..])
  }

  ghost predicate Steps(rules: Rules, states: seq<Progress>, entries: seq<Entry>) {
    && |states| == |entries| + 1
    && forall i :: 0 <= i < |entries| ==> Adds(rules, states[i], entries[i], states[i + 1])
  }

  lemma PrependSteps(rules: Rules, p: Progress, e: Entry, states: seq<Progress>, entries: seq<Entry>)
    requires Steps(rules, states, entries) && Adds(rules, p, e, states[0])
    ensures Steps(rules, [p] + states, [e] + entries)
  {
    var s, es := [p] + states, [e] + entries;
    forall i | 0 <= i < |es| ensures Adds(rules, s[i], es[i], s[i + 1]) {
      if i > 0 {
        assert s[i] == states[i - 1] && es[i] == entries[i - 1] && s[i + 1] == states[i];
      }
    }
  }

  lemma {:induction false} EntriesWellFormed(rules: Rules, p: Progress, rest: seq<Byte>)
    requires ReadMembers(rules, p, rest).Success?
    ensures forall e :: e in EntriesOf(rules, p, rest) ==> WellFormed(rules, e)
    decreases |rest|
  {
    if !AllZero(rest[..BLOCK]) {
      var next := OneMember(rules, p, rest).value;
      FirstIsWellFormed(rules, p, rest);
      EntriesWellFormed(rules, next.0, rest[next.1..]);
    }
  }

  lemma {:induction false} ReadingSteps(rules: Rules, p: Progress, rest: seq<Byte>)
    requires ReadMembers(rules, p, rest).Success?
    ensures
      var states := StatesOf(rules, p, rest);
      && Steps(rules, states, EntriesOf(rules, p, rest))
      && states[0] == p && states[|states| - 1] == ReadMembers(rules, p, rest).value
    decreases |rest|
  {
    if !AllZero(rest[..BLOCK]) {
      var next := OneMember(rules, p, rest).value;
      FirstAdds(rules, p, rest);
      ReadingSteps(rules, next.0, rest[next.1..]);
      PrependSteps(rules, p, FirstEntry(rules, p, rest),
                   StatesOf(rules, next.0, rest[next.1..]), EntriesOf(rules, next.0, rest[next.1..]));
    }
  }

  lemma {:induction false} NamesGrow(rules: Rules, states: seq<Progress>, entries: seq<Entry>, i: nat, k: nat)
    requires Steps(rules, states, entries) && i <= k <= |entries|
    ensures states[i].names <= states[k].names && |states[k].names| == |states[i].names| + (k - i)
    decreases k
  {
    if i < k {
      NamesGrow(rules, states, entries, i, k - 1);
      assert Adds(rules, states[k - 1], entries[k - 1], states[k]);
    }
  }

  /** No two entries have the same name, not even in different case. */
  lemma EntriesDiffer(rules: Rules, states: seq<Progress>, entries: seq<Entry>, i: nat, j: nat)
    requires Steps(rules, states, entries) && i < j < |entries|
    ensures rules.fold(entries[i].header.name) != rules.fold(entries[j].header.name)
  {
    NamesGrow(rules, states, entries, i + 1, j);
    assert Adds(rules, states[i], entries[i], states[i + 1]);
    assert Adds(rules, states[j], entries[j], states[j + 1]);
  }

  function FoldedNames(rules: Rules, entries: seq<Entry>): set<Name> {
    set e | e in entries :: rules.fold(e.header.name)
  }

  lemma {:induction false} NamesAreFolded(rules: Rules, states: seq<Progress>, entries: seq<Entry>, k: nat)
    requires Steps(rules, states, entries) && k <= |entries| && states[0].names == {}
    ensures states[k].names == FoldedNames(rules, entries[..k])
  {
    if k == 0 {
      assert entries[..0] == [];
    } else {
      NamesAreFolded(rules, states, entries, k - 1);
      assert Adds(rules, states[k - 1], entries[k - 1], states[k]);
      assert entries[..k] == entries[..k - 1] + [entries[k - 1]];
      FoldedNamesGrow(rules, entries[..k - 1], entries[k - 1]);
    }
  }

  lemma FoldedNamesGrow(rules: Rules, entries: seq<Entry>, e: Entry)
    ensures FoldedNames(rules, entries + [e]) == FoldedNames(rules, entries) + {rules.fold(e.header.name)}
  {
    forall f ensures f in FoldedNames(rules, entries + [e])
                 <==> f in FoldedNames(rules, entries) + {rules.fold(e.header.name)} {
      assert forall x :: x in entries + [e] <==> x in entries || x == e;
    }
  }

  lemma {:induction false} TotalsAdd(rules: Rules, states: seq<Progress>, entries: seq<Entry>, k: nat)
    requires Steps(rules, states, entries) && k <= |entries| && states[0].total == 0
    ensures states[k].total == TotalSize(entries, k)
  {
    if k > 0 {
      TotalsAdd(rules, states, entries, k - 1);
      var p, e, q := states[k - 1], entries[k - 1], states[k];
      assert Adds(rules, p, e, q);
      AddsTotal(rules, p, e, q);
    }
  }

  lemma AddsTotal(rules: Rules, p: Progress, e: Entry, q: Progress)
    requires Adds(rules, p, e, q)
    ensures q.total == p.total + |e.data|
  {
  }

  /** The entry is in the tree as it was in the stream. */
  predicate Extracted(e: Entry, tree: Tree) {
    if e.header.kind == DIRECTORY then e.header.name in tree.dirs
    else e.header.name in tree.files && tree.files[e.header.name] == File(e.data, Restricted(e.header.mode))
  }

  lemma {:induction false} EntryExtracted(rules: Rules, states: seq<Progress>, entries: seq<Entry>, i: nat, k: nat)
    requires Steps(rules, states, entries) && i < k <= |entries|
    ensures Extracted(entries[i], states[k].tree)
    decreases k
  {
    assert Adds(rules, states[k - 1], entries[k - 1], states[k]);
    if i < k - 1 {
      EntryExtracted(rules, states, entries, i, k - 1);
    }
  }

  // ----- the extracted tree

  lemma AncestorsNest(name: Name, above: Name)
    requires above in Ancestors(name)
    ensures Ancestors(above) <= Ancestors(name)
  {
    forall a | a in Ancestors(above) ensures a in Ancestors(name) {
      var k :| 0 <= k < |above| && above[k] == SLASH && a == above[..k];
      assert name[k] == SLASH && a == name[..k];
    }
  }

  lemma DirectoryRooted(tree: Tree, name: Name)
    requires Rooted(tree) && MakeDirectory(tree, name).Some?
    ensures Rooted(MakeDirectory(tree, name).value)
  {
    forall a | a in Ancestors(name) ensures Ancestors(a) <= Ancestors(name) {
      AncestorsNest(name, a);
    }
  }

  lemma FileRooted(tree: Tree, name: Name, file: File)
    requires Rooted(tree) && CanCreate(tree, name)
    ensures Rooted(WithFile(tree, name, file))
  {
    forall a | a in Ancestors(name) ensures Ancestors(a) <= Ancestors(name) && a != name {
      AncestorsNest(name, a);
    }
  }

  lemma PlacedRooted(q: Progress, h: Header, rest: seq<Byte>)
    requires Sized(h) && Placed(q, h, rest).Success? && Rooted(q.tree)
    ensures Rooted(Placed(q, h, rest).value.tree)
  {
    if h.kind == DIRECTORY {
      DirectoryRooted(q.tree, h.name);
    } else {
      FileRooted(q.tree, h.name, File(rest[..h.size], Restricted(h.mode)));
    }
  }

  lemma FirstRooted(rules: Rules, p: Progress, rest: seq<Byte>)
    requires |rest| >= BLOCK && OneMember(rules, p, rest).Success? && Rooted(p.tree)
    ensures Rooted(OneMember(rules, p, rest).value.0.tree)
  {
    var h := Decode(rest[..BLOCK]).value;
    MemberRooted(rules, p, rest, h);
  }

  lemma MemberRooted(rules: Rules, p: Progress, rest: seq<Byte>, h: Header)
    requires |rest| >= BLOCK && Member(rules, p, rest, h).Success? && Rooted(p.tree)
    ensures Rooted(Member(rules, p, rest, h).value.0.tree)
  {
    PlacedRooted(Admitted(rules, p, rest[..BLOCK], h).value, h, rest[BLOCK..]);
  }

  lemma {:induction false} ReadRooted(rules: Rules, p: Progress, rest: seq<Byte>)
    requires ReadMembers(rules, p, rest).Success? && Rooted(p.tree)
    ensures Rooted(ReadMembers(rules, p, rest).value.tree)
    decreases |rest|
  {
    if !AllZero(rest[..BLOCK]) {
      var next := OneMember(rules, p, rest).value;
      FirstRooted(rules, p, rest);
      ReadRooted(rules, next.0, rest[next.1..]);
    }
  }

  /**
   The tree of an accepted stream: every name is clean, directories and files fit together, every
   file but the manifest has the size and digest that the manifest says, and the contents are accepted.
   */
  lemma AcceptedTree(rules: Rules, stream: seq<Byte>)
    requires Unpacked(rules, stream).Success?
    ensures
      var tree, manifest := Unpacked(rules, stream).value.0, Unpacked(rules, stream).value.1;
      && Rooted(tree) && MANIFEST in tree.files && rules.readManifest(tree.files[MANIFEST].data) == Some(manifest)
      && (forall n :: n in Names(tree) ==> CleanName(rules, n))
      && (forall n :: n in tree.files && n != MANIFEST ==>
            && n in manifest.files
            && manifest.files[n] == FileInfo(|tree.files[n].data|, rules.digest(tree.files[n].data)))
      && rules.accepts(manifest, tree.dirs, map n | n in tree.files && n != MANIFEST :: tree.files[n].data)
  {
    ReadRooted(rules, START, stream);
    ListedTree(rules, Unpacked(rules, stream).value.0, Unpacked(rules, stream).value.1);
  }

  lemma ListedTree(rules: Rules, tree: Tree, manifest: Manifest)
    requires PayloadChecked(rules, tree, manifest)
    ensures forall n :: n in Names(tree) ==> CleanName(rules, n)
    ensures forall n :: n in tree.files && n != MANIFEST ==>
              && n in manifest.files
              && manifest.files[n] == FileInfo(|tree.files[n].data|, rules.digest(tree.files[n].data))
    ensures rules.accepts(manifest, tree.dirs, Contents(tree))
  {
    forall n | n in Names(tree) ensures CleanName(rules, n) {
      SafeIsClean(rules, n);
    }
    forall n | n in tree.files && n != MANIFEST ensures n in Listed(rules, tree) {}
  }

  // ----- the theorem

  /** The entries of a stream and the tree and manifest that reading it yields. */
  ghost predicate Accounted(rules: Rules, entries: seq<Entry>, tree: Tree, manifest: Manifest) {
    && (forall e :: e in entries ==> WellFormed(rules, e))
    && (forall i, j :: 0 <= i < j < |entries| ==>
          rules.fold(entries[i].header.name) != rules.fold(entries[j].header.name))
    && |entries| <= rules.maxMembers && TotalSize(entries, |entries|) <= rules.maxUnpacked
    && (forall e :: e in entries ==> Extracted(e, tree))
    && Names(tree) == Expected(manifest) == set e | e in entries :: e.header.name
  }

  /**
   Any accepted stream is fully consumed as entries, two zero blocks and at most 10240 zero bytes;
   its names are safe and differ even without regard to case, its limits hold, and its entries are
   exactly the manifest's inventory and the manifest.
   */
  lemma AcceptedStream(rules: Rules, stream: seq<Byte>)
    requires Unpacked(rules, stream).Success?
    ensures
      var entries, r := EntriesOf(rules, START, stream), Unpacked(rules, stream).value;
      LaidOut(stream, entries) && Accounted(rules, entries, r.0, r.1)
  {
    StreamLayout(rules, START, stream);
    EntriesWellFormed(rules, START, stream);
    ReadingSteps(rules, START, stream);
    var states, r := StatesOf(rules, START, stream), Unpacked(rules, stream).value;
    ManifestNames(rules, r.0, r.1);
    EntriesAccounted(rules, states, EntriesOf(rules, START, stream), r.0, r.1);
  }

  lemma EntriesAccounted(
    rules: Rules, states: seq<Progress>, entries: seq<Entry>, tree: Tree, manifest: Manifest)
    requires Steps(rules, states, entries) && forall e :: e in entries ==> WellFormed(rules, e)
    requires states[0] == START && states[|entries|].tree == tree
    requires Distinct(rules, Names(tree)) && Expected(manifest) == Names(tree)
    requires FoldAll(rules, Names(tree)) == states[|entries|].names
    ensures Accounted(rules, entries, tree, manifest)
  {
    var n := |entries|;
    assert entries[..n] == entries;
    NamesGrow(rules, states, entries, 0, n);
    NamesAreFolded(rules, states, entries, n);
    TotalsAdd(rules, states, entries, n);
    LimitsHold(rules, states, entries);
    forall i, j | 0 <= i < j < n
      ensures rules.fold(entries[i].header.name) != rules.fold(entries[j].header.name)
    {
      EntriesDiffer(rules, states, entries, i, j);
    }
    EntriesAreExtracted(rules, states, entries);
    NamesAreExact(rules, tree, entries);
  }

  lemma LimitsHold(rules: Rules, states: seq<Progress>, entries: seq<Entry>)
    requires Steps(rules, states, entries) && states[0] == START
    ensures |states[|entries|].names| <= rules.maxMembers && states[|entries|].total <= rules.maxUnpacked
  {
    if entries != [] {
      assert Adds(rules, states[|entries| - 1], entries[|entries| - 1], states[|entries|]);
    }
  }

  lemma EntriesAreExtracted(rules: Rules, states: seq<Progress>, entries: seq<Entry>)
    requires Steps(rules, states, entries)
    ensures forall e :: e in entries ==> Extracted(e, states[|entries|].tree)
  {
    forall e | e in entries ensures Extracted(e, states[|entries|].tree) {
      var i :| 0 <= i < |entries| && entries[i] == e;
      EntryExtracted(rules, states, entries, i, |entries|);
    }
  }

  lemma ManifestNames(rules: Rules, tree: Tree, manifest: Manifest)
    requires Matches(rules, tree, manifest) && MANIFEST in tree.files
    ensures Expected(manifest) == Names(tree)
  {
    forall n ensures n in manifest.directories <==> n in tree.dirs {
      assert n in multiset(manifest.directories) <==> n in multiset(tree.dirs);
    }
  }

  /** Names that agree when folded agree, because the extracted tree has no two that collide. */
  lemma NamesAreExact(rules: Rules, tree: Tree, entries: seq<Entry>)
    requires Distinct(rules, Names(tree)) && FoldAll(rules, Names(tree)) == FoldedNames(rules, entries)
    requires forall e :: e in entries ==> Extracted(e, tree)
    ensures Names(tree) == set e | e in entries :: e.header.name
  {
    forall n | n in Names(tree) ensures exists e :: e in entries && e.header.name == n {
      assert rules.fold(n) in FoldAll(rules, Names(tree));
      var e :| e in entries && rules.fold(e.header.name) == rules.fold(n);
      assert e.header.name in Names(tree);
    }
  }
}
