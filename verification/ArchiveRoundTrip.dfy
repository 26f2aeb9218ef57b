/** What the reader makes of a written archive. */
module ArchiveRoundTrip {
  import opened Options
  import opened Collections
  import opened Ustar
  import opened ArchiveTree
  import opened ArchiveReader
  import opened ArchiveWriter
  import ArchiveSoundness

  /** The parts from place `k` on. */
  function From(parts: seq<seq<Byte>>, k: nat): seq<Byte>
    requires k <= |parts|
    decreases |parts| - k
  {
    if k == |parts| then [] else parts[k] + From(parts, k + 1)
  }

  lemma {:induction false} GlueThenFrom(parts: seq<seq<Byte>>, k: nat)
    requires k <= |parts|
    ensures Glue(parts[..k]) + From(parts, k) == From(parts, 0)
  {
    if k > 0 {
      GlueThenFrom(parts, k - 1);
      assert parts[..k][..k - 1] == parts[..k - 1];
      Regroup(Glue(parts[..k - 1]), parts[k - 1], From(parts, k));
    }
  }

  /** Every member once. */
  ghost predicate Enumerates(order: seq<Name>, tree: Tree) {
    && (forall n :: n in order <==> n in Names(tree))
    && (forall i, j :: 0 <= i < j < |order| ==> order[i] != order[j])
  }

  function Before(order: seq<Name>, k: nat): set<Name>
    requires k <= |order|
  {
    set n | n in order[..k]
  }

  /** The tree that extracting the first `k` members gives. */
  function TreeAt(tree: Tree, order: seq<Name>, k: nat): Tree
    requires k <= |order|
  {
    if k == 0 then Tree({}, map[])
    else
      var t, n := TreeAt(tree, order, k - 1), order[k - 1];
      if n in tree.files then WithFile(t, n, File(tree.files[n].data, Restricted(tree.files[n].mode)))
      else Tree(t.dirs + Ancestors(n) + {n}, t.files)
  }

  function SizeBefore(tree: Tree, order: seq<Name>, k: nat): nat
    requires k <= |order|
  {
    if k == 0 then 0 else SizeBefore(tree, order, k - 1) + SizeOf(tree, order[k - 1])
  }

  function ProgressAt(rules: Rules, tree: Tree, order: seq<Name>, k: nat): Progress
    requires k <= |order|
  {
    Progress(FoldAll(rules, Before(order, k)), SizeBefore(tree, order, k), TreeAt(tree, order, k))
  }

  lemma BeforeGrows(tree: Tree, order: seq<Name>, k: nat)
    requires Enumerates(order, tree) && k < |order|
    ensures Before(order, k + 1) == Before(order, k) + {order[k]}
    ensures order[k] in Names(tree) && order[k] !in Before(order, k)
  {
    assert order[k] in order;
    assert order[..k + 1] == order[..k] + [order[k]];
  }

  lemma {:induction false} SizeBeforeIsPart(tree: Tree, order: seq<Name>, k: nat)
    requires Enumerates(order, tree) && k <= |order|
    ensures Before(order, k) <= Names(tree)
    ensures SizeBefore(tree, order, k) + Size(tree, Names(tree) - Before(order, k)) == Size(tree, Names(tree))
  {
    var all := Names(tree);
    if k == 0 {
      assert all - Before(order, 0) == all;
    } else {
      SizeBeforeIsPart(tree, order, k - 1);
      BeforeGrows(tree, order, k - 1);
      SizeWithout(tree, all - Before(order, k - 1), order[k - 1]);
      assert all - Before(order, k) == all - Before(order, k - 1) - {order[k - 1]};
    }
  }

  /** What has been extracted is part of the packed tree, with the same contents. */
  lemma {:induction false} TreeAtIsPart(tree: Tree, order: seq<Name>, k: nat)
    requires Rooted(tree) && Enumerates(order, tree) && k <= |order|
    ensures
      var t := TreeAt(tree, order, k);
      && t.dirs <= tree.dirs && Before(order, k) * tree.dirs <= t.dirs
      && t.files.Keys == Before(order, k) * tree.files.Keys
      && forall n :: n in t.files ==> t.files[n] == File(tree.files[n].data, Restricted(tree.files[n].mode))
  {
    if k > 0 {
      TreeAtIsPart(tree, order, k - 1);
      assert order[k - 1] in order;
      assert order[..k] == order[..k - 1] + [order[k - 1]];
    }
  }

  /** The tree on the receiving side. */
  function Received(tree: Tree): Tree {
    Tree(tree.dirs, map n | n in tree.files :: File(tree.files[n].data, Restricted(tree.files[n].mode)))
  }

  lemma TreeAtEnd(tree: Tree, order: seq<Name>)
    requires Rooted(tree) && Enumerates(order, tree)
    ensures TreeAt(tree, order, |order|) == Received(tree)
    ensures Before(order, |order|) == Names(tree)
  {
    TreeAtIsPart(tree, order, |order|);
    assert order[..|order|] == order;
  }

  lemma {:induction false} FoldAllSize(rules: Rules, names: set<Name>)
    ensures |FoldAll(rules, names)| <= |names|
  {
    if names != {} {
      var n :| n in names;
      FoldAllSize(rules, names - {n});
      assert FoldAll(rules, names) == FoldAll(rules, names - {n}) + {rules.fold(n)};
    }
  }

  /** What the archiver has established before it packs. */
  ghost predicate Packable(rules: Rules, tree: Tree, origin: Origin, order: seq<Name>) {
    && Rooted(tree) && Enumerates(order, tree)
    && AllWritable(tree, origin, order, |order|) && InventoryFits(rules, tree)
    && (MANIFEST in tree.files ==> |tree.files[MANIFEST].data| <= rules.maxManifest)
  }

  function KindOf(tree: Tree, name: Name): Byte {
    if name in tree.dirs then DIRECTORY else REGULAR
  }

  /** The header that the reader takes from a written member. */
  function HeaderRead(tree: Tree, origin: Origin, name: Name): Header {
    Header(if Stretched(name, name in tree.dirs) then name + [SLASH] else name,
           StatOf(tree, origin, name).mode, SizeOf(tree, name), KindOf(tree, name))
  }

  lemma HeaderDecodes(rules: Rules, tree: Tree, origin: Origin, name: Name)
    requires Writable(tree, origin, name) && Safe(rules, name)
    ensures
      var block := HeaderOf(tree, origin, name);
      && |block| == BLOCK && HasMagic(block) && !AllZero(block)
      && Decode(block) == Some(HeaderRead(tree, origin, name))
  {
    SafeEnds(rules, name);
    WrittenName(name, name in tree.dirs);
    FieldsWithoutNul(name, name in tree.dirs);
    var fields := NameFields(Stored(name, name in tree.dirs)).value;
    HeaderRoundTrip(fields.0, fields.1, name in tree.dirs, StatOf(tree, origin, name));
    var block := HeaderOf(tree, origin, name);
    assert block[257..265][0] == block[257];
  }

  lemma TrailingSlashIsUnsafe(rules: Rules, name: Name)
    ensures !Safe(rules, name + [SLASH])
  {
    if Safe(rules, name + [SLASH]) {
      SafeEnds(rules, name + [SLASH]);
      assert false;
    }
  }

  lemma NextName(rules: Rules, tree: Tree, order: seq<Name>, k: nat)
    requires Enumerates(order, tree) && Distinct(rules, Names(tree)) && k < |order|
    ensures Before(order, k + 1) == Before(order, k) + {order[k]} <= Names(tree)
    ensures rules.fold(order[k]) !in FoldAll(rules, Before(order, k))
    ensures FoldAll(rules, Before(order, k + 1)) == FoldAll(rules, Before(order, k)) + {rules.fold(order[k])}
  {
    var n := order[k];
    BeforeGrows(tree, order, k);
    forall m | m in Before(order, k) ensures rules.fold(m) != rules.fold(n) {
      assert m in order && m != n;
    }
  }

  lemma NextFits(rules: Rules, tree: Tree, order: seq<Name>, k: nat)
    requires Enumerates(order, tree) && InventoryFits(rules, tree) && k < |order|
    ensures |FoldAll(rules, Before(order, k + 1))| <= rules.maxMembers
    ensures SizeBefore(tree, order, k + 1) <= rules.maxUnpacked
  {
    SizeBeforeIsPart(tree, order, k + 1);
    FoldAllSize(rules, Before(order, k + 1));
    SubsetSize(Before(order, k + 1), Names(tree));
  }

  lemma AdmittedIfFresh(rules: Rules, p: Progress, block: seq<Byte>, h: Header)
    requires |block| == BLOCK && HasMagic(block) && h.kind in {REGULAR, DIRECTORY} && Sized(h)
    requires Safe(rules, h.name) && rules.fold(h.name) !in p.names
    requires |p.names + {rules.fold(h.name)}| <= rules.maxMembers && p.total + h.size <= rules.maxUnpacked
    requires h.name == MANIFEST ==> h.size <= rules.maxManifest
    ensures Admitted(rules, p, block, h)
         == Success(p.(names := p.names + {rules.fold(h.name)}, total := p.total + h.size))
  {
  }

  lemma NextAdmitted(rules: Rules, tree: Tree, origin: Origin, order: seq<Name>, k: nat, block: seq<Byte>)
    requires Packable(rules, tree, origin, order) && k < |order| && |block| == BLOCK && HasMagic(block)
    requires !Stretched(order[k], order[k] in tree.dirs)
    ensures
      var p := ProgressAt(rules, tree, order, k);
      Admitted(rules, p, block, HeaderRead(tree, origin, order[k]))
      == Success(ProgressAt(rules, tree, order, k + 1).(tree := p.tree))
  {
    var n, p := order[k], ProgressAt(rules, tree, order, k);
    assert n in order && n in Names(tree);
    NextName(rules, tree, order, k);
    NextFits(rules, tree, order, k);
    var h, q := HeaderRead(tree, origin, n), ProgressAt(rules, tree, order, k + 1);
    assert h.name == n && h.size == SizeOf(tree, n);
    assert q.names == p.names + {rules.fold(n)};
    assert q.total == p.total + SizeOf(tree, n);
    AdmittedIfFresh(rules, p, block, h);
  }

  lemma StretchedRefused(rules: Rules, tree: Tree, origin: Origin, p: Progress, name: Name, block: seq<Byte>)
    requires |block| == BLOCK && Stretched(name, name in tree.dirs)
    ensures Admitted(rules, p, block, HeaderRead(tree, origin, name)) == Failure(UnsafeMember)
  {
    TrailingSlashIsUnsafe(rules, name);
  }

  lemma PlacedDirectory(q: Progress, h: Header, rest: seq<Byte>)
    requires h.kind == DIRECTORY && h.size == 0 && h.name !in q.tree.files && Ancestors(h.name) !! q.tree.files.Keys
    ensures Placed(q, h, rest)
         == Success(q.(tree := q.tree.(dirs := q.tree.dirs + Ancestors(h.name) + {h.name})))
  {
  }

  lemma PlacedFile(q: Progress, h: Header, data: seq<Byte>, rest: seq<Byte>)
    requires h.kind == REGULAR && h.size == |data| && CanCreate(q.tree, h.name)
    ensures Placed(q, h, data + Zeros(Padding(|data|)) + rest)
         == Success(q.(tree := WithFile(q.tree, h.name, File(data, Restricted(h.mode)))))
  {
    var padding := Zeros(Padding(|data|));
    var all := data + padding + rest;
    assert all[..|data|] == data;
    assert all[|data|..|data| + |padding|] == padding;
  }

  lemma NextPlaced(tree: Tree, origin: Origin, order: seq<Name>, k: nat, q: Progress, rest: seq<Byte>)
    requires Rooted(tree) && Enumerates(order, tree) && k < |order| && q.tree == TreeAt(tree, order, k)
    requires !Stretched(order[k], order[k] in tree.dirs)
    ensures
      var n, h := order[k], HeaderRead(tree, origin, order[k]);
      && Sized(h) && Extent(h) == |DataOf(tree, n)| + Padding(|DataOf(tree, n)|)
      && Placed(q, h, DataOf(tree, n) + Zeros(Padding(|DataOf(tree, n)|)) + rest)
      == Success(q.(tree := TreeAt(tree, order, k + 1)))
  {
    var n, h := order[k], HeaderRead(tree, origin, order[k]);
    assert n in order && n in Names(tree) && n !in Before(order, k);
    TreeAtIsPart(tree, order, k);
    if n in tree.files {
      PlacedFile(q, h, DataOf(tree, n), rest);
    } else {
      PlacedDirectory(q, h, DataOf(tree, n) + Zeros(Padding(|DataOf(tree, n)|)) + rest);
    }
  }

  lemma Behind(block: seq<Byte>, data: seq<Byte>, padding: seq<Byte>, rest: seq<Byte>)
    ensures
      var stream := block + data + padding + rest;
      && stream[..|block|] == block && stream[|block|..] == data + padding + rest
      && stream[|block + data + padding|..] == rest
  {
    assert block + data + padding + rest == block + (data + padding + rest);
  }

  lemma ReadsAs(rules: Rules, p: Progress, stream: seq<Byte>, h: Header, q: Progress, r: Progress, width: nat)
    requires |stream| >= BLOCK && Decode(stream[..BLOCK]) == Some(h) && Sized(h) && width == BLOCK + Extent(h)
    requires Admitted(rules, p, stream[..BLOCK], h) == Success(q) && Placed(q, h, stream[BLOCK..]) == Success(r)
    ensures OneMember(rules, p, stream) == Success((r, width))
  {
    MemberAs(rules, p, stream, h, q, r);
  }

  lemma MemberAs(rules: Rules, p: Progress, stream: seq<Byte>, h: Header, q: Progress, r: Progress)
    requires |stream| >= BLOCK && Sized(h)
    requires Admitted(rules, p, stream[..BLOCK], h) == Success(q) && Placed(q, h, stream[BLOCK..]) == Success(r)
    ensures Member(rules, p, stream, h) == Success((r, BLOCK + Extent(h)))
  {
  }

  /** The reading of one written member. */
  ghost predicate ReadsNext(
    rules: Rules, tree: Tree, origin: Origin, order: seq<Name>, k: nat, stream: seq<Byte>, rest: seq<Byte>)
    requires k < |order| && Writable(tree, origin, order[k])
  {
    var n, width := order[k], |Written(tree, origin, order[k])|;
    && BLOCK <= width <= |stream| && !AllZero(stream[..BLOCK]) && stream[width..] == rest
    && OneMember(rules, ProgressAt(rules, tree, order, k), stream)
       == if Stretched(n, n in tree.dirs) then Failure(UnsafeMember)
          else Success((ProgressAt(rules, tree, order, k + 1), width))
  }

  lemma RefusedAs(rules: Rules, p: Progress, stream: seq<Byte>, h: Header, e: Error)
    requires |stream| >= BLOCK && Decode(stream[..BLOCK]) == Some(h)
    requires Admitted(rules, p, stream[..BLOCK], h) == Failure(e)
    ensures OneMember(rules, p, stream) == Failure(e)
  {
  }

  lemma WrittenWidth(tree: Tree, origin: Origin, name: Name)
    requires Writable(tree, origin, name) && |HeaderOf(tree, origin, name)| == BLOCK
    ensures |Written(tree, origin, name)| == BLOCK + |DataOf(tree, name)| + Padding(|DataOf(tree, name)|)
  {
  }

  /** Reading a written member takes the reader one place further. */
  lemma NextRead(rules: Rules, tree: Tree, origin: Origin, order: seq<Name>, k: nat, rest: seq<Byte>)
    requires Packable(rules, tree, origin, order) && k < |order|
    ensures ReadsNext(rules, tree, origin, order, k, Written(tree, origin, order[k]) + rest, rest)
  {
    var n, p := order[k], ProgressAt(rules, tree, order, k);
    assert n in order && n in Names(tree);
    HeaderDecodes(rules, tree, origin, n);
    WrittenWidth(tree, origin, n);
    var block, data, h := HeaderOf(tree, origin, n), DataOf(tree, n), HeaderRead(tree, origin, n);
    var stream, width := Written(tree, origin, n) + rest, |Written(tree, origin, n)|;
    Behind(block, data, Zeros(Padding(|data|)), rest);
    assert stream[..BLOCK] == block && stream[width..] == rest;
    if Stretched(n, n in tree.dirs) {
      StretchedRefused(rules, tree, origin, p, n, block);
      RefusedAs(rules, p, stream, h, UnsafeMember);
    } else {
      var q := ProgressAt(rules, tree, order, k + 1);
      NextAdmitted(rules, tree, origin, order, k, block);
      NextPlaced(tree, origin, order, k, q.(tree := p.tree), rest);
      ReadsAs(rules, p, stream, h, q.(tree := p.tree), q, width);
    }
  }

  ghost predicate AnyStretched(tree: Tree, order: seq<Name>, k: nat) {
    exists j :: k <= j < |order| && Stretched(order[j], order[j] in tree.dirs)
  }

  lemma EndOfArchive(rules: Rules, p: Progress, tail: seq<Byte>)
    requires 2 * BLOCK <= |tail| <= 2 * BLOCK + RECORD && AllZero(tail)
    ensures ReadMembers(rules, p, [] + tail) == Success(p)
  {
    assert [] + tail == tail;
  }

  lemma {:induction false} ReadBody(
    rules: Rules, tree: Tree, origin: Origin, order: seq<Name>, k: nat, tail: seq<Byte>)
    requires Packable(rules, tree, origin, order) && k <= |order|
    requires 2 * BLOCK <= |tail| <= 2 * BLOCK + RECORD && AllZero(tail)
    ensures ReadMembers(rules, ProgressAt(rules, tree, order, k), From(Members(tree, origin, order), k) + tail)
         == if AnyStretched(tree, order, k) then Failure(UnsafeMember)
            else Success(ProgressAt(rules, tree, order, |order|))
    decreases |order| - k
  {
    if k == |order| {
      EndOfArchive(rules, ProgressAt(rules, tree, order, k), tail);
    } else {
      var parts := Members(tree, origin, order);
      var rest := From(parts, k + 1) + tail;
      Regroup(parts[k], From(parts, k + 1), tail);
      NextRead(rules, tree, origin, order, k, rest);
      OneStep(rules, tree, origin, order, k, rest);
      StretchedFrom(tree, order, k);
      if !Stretched(order[k], order[k] in tree.dirs) {
        ReadBody(rules, tree, origin, order, k + 1, tail);
      }
    }
  }

  lemma StretchedFrom(tree: Tree, order: seq<Name>, k: nat)
    requires k < |order|
    ensures AnyStretched(tree, order, k)
       <==> Stretched(order[k], order[k] in tree.dirs) || AnyStretched(tree, order, k + 1)
  {
  }

  lemma OneStep(rules: Rules, tree: Tree, origin: Origin, order: seq<Name>, k: nat, rest: seq<Byte>)
    requires k < |order| && Writable(tree, origin, order[k])
    requires ReadsNext(rules, tree, origin, order, k, Written(tree, origin, order[k]) + rest, rest)
    ensures ReadMembers(rules, ProgressAt(rules, tree, order, k), Written(tree, origin, order[k]) + rest)
         == if Stretched(order[k], order[k] in tree.dirs) then Failure(UnsafeMember)
            else ReadMembers(rules, ProgressAt(rules, tree, order, k + 1), rest)
  {
  }

  // ----- the received tree passes the same check

  lemma {:induction false} SameSize(a: Tree, b: Tree, names: set<Name>)
    requires forall n :: SizeOf(a, n) == SizeOf(b, n)
    ensures Size(a, names) == Size(b, names)
  {
    if names != {} {
      var n :| n in names;
      SizeWithout(a, names, n);
      SizeWithout(b, names, n);
      SameSize(a, b, names - {n});
    }
  }

  lemma ReceivedChecked(rules: Rules, tree: Tree, manifest: Manifest)
    requires PayloadChecked(rules, tree, manifest)
    ensures PayloadChecked(rules, Received(tree), manifest) && Names(Received(tree)) == Names(tree)
  {
    ReceivedFits(rules, tree);
    ReceivedMatches(rules, tree, manifest);
  }

  lemma ReceivedMatches(rules: Rules, tree: Tree, manifest: Manifest)
    requires Matches(rules, tree, manifest)
    ensures Matches(rules, Received(tree), manifest)
  {
    assert Listed(rules, Received(tree)) == Listed(rules, tree);
    assert Contents(Received(tree)) == Contents(tree);
  }

  lemma ReceivedFits(rules: Rules, tree: Tree)
    requires InventoryFits(rules, tree)
    ensures InventoryFits(rules, Received(tree)) && Names(Received(tree)) == Names(tree)
  {
    assert Received(tree).files.Keys == tree.files.Keys;
    SameSize(tree, Received(tree), Names(tree));
  }

  // ----- the theorems

  /**
   Unpacking a packed payload gives the same directories, files, sizes and contents and the same
   manifest, unless the stream is longer than the decompressor allows or the payload has a
   directory whose own name takes 100 bytes or more and whose path does not fit the name field.
   */
  lemma ArchiveRoundTrip(rules: Rules, tree: Tree, origin: Origin, order: seq<Name>, manifest: Manifest)
    requires Packable(rules, tree, origin, order) && PayloadChecked(rules, tree, manifest)
    requires MANIFEST in tree.files && rules.readManifest(tree.files[MANIFEST].data) == Some(manifest)
    ensures
      var stream := Packed(tree, origin, order);
      Unpacked(rules, stream)
      == if |stream| > StreamLimit(rules) then Failure(StreamTooLarge)
         else if AnyStretched(tree, order, 0) then Failure(UnsafeMember)
         else Success((Received(tree), manifest))
  {
    var stream, end := Packed(tree, origin, order), ProgressAt(rules, tree, order, |order|);
    PackedReads(rules, tree, origin, order);
    if |stream| > StreamLimit(rules) {
    } else if AnyStretched(tree, order, 0) {
      UnpacksToFailure(rules, stream, UnsafeMember);
    } else {
      ReceivedPasses(rules, tree, order, manifest);
      UnpacksToSuccess(rules, stream, end, manifest);
    }
  }

  lemma PackedReads(rules: Rules, tree: Tree, origin: Origin, order: seq<Name>)
    requires Packable(rules, tree, origin, order)
    ensures ReadMembers(rules, START, Packed(tree, origin, order))
         == if AnyStretched(tree, order, 0) then Failure(UnsafeMember)
            else Success(ProgressAt(rules, tree, order, |order|))
  {
    var parts := Members(tree, origin, order);
    FrontIsGlue(parts);
    StartIsEmpty(rules, tree, order);
    ReadBody(rules, tree, origin, order, 0, Zeros(Trailer(|Glue(parts)|)));
  }

  lemma FrontIsGlue(parts: seq<seq<Byte>>)
    ensures From(parts, 0) == Glue(parts)
  {
    GlueThenFrom(parts, |parts|);
    assert parts[..|parts|] == parts && Glue(parts) + [] == Glue(parts);
  }

  lemma StartIsEmpty(rules: Rules, tree: Tree, order: seq<Name>)
    ensures ProgressAt(rules, tree, order, 0) == START
  {
  }

  lemma UnpacksToFailure(rules: Rules, stream: seq<Byte>, e: Error)
    requires |stream| <= StreamLimit(rules) && ReadMembers(rules, START, stream) == Failure(e)
    ensures Unpacked(rules, stream) == Failure(e)
  {
  }

  lemma UnpacksToSuccess(rules: Rules, stream: seq<Byte>, p: Progress, manifest: Manifest)
    requires |stream| <= StreamLimit(rules) && ReadMembers(rules, START, stream) == Success(p)
    requires MANIFEST in p.tree.files && rules.readManifest(p.tree.files[MANIFEST].data) == Some(manifest)
    requires PayloadChecked(rules, p.tree, manifest) && FoldAll(rules, Expected(manifest)) == p.names
    ensures Unpacked(rules, stream) == Success((p.tree, manifest))
  {
  }

  lemma ReceivedPasses(rules: Rules, tree: Tree, order: seq<Name>, manifest: Manifest)
    requires Rooted(tree) && Enumerates(order, tree) && PayloadChecked(rules, tree, manifest)
    requires MANIFEST in tree.files
    ensures
      var end := ProgressAt(rules, tree, order, |order|);
      && end.tree == Received(tree) && PayloadChecked(rules, end.tree, manifest)
      && FoldAll(rules, Expected(manifest)) == end.names
  {
    TreeAtEnd(tree, order);
    ReceivedChecked(rules, tree, manifest);
    ArchiveSoundness.ManifestNames(rules, tree, manifest);
  }
}
