/** Payloads that show what the reader refuses, and that the theorems about archives have instances. */
module ArchiveExamples {
  import opened Options
  import opened Ustar
  import opened ArchiveTree
  import opened ArchiveReader
  import opened ArchiveWriter
  import opened ArchiveRoundTrip
  import opened ArchiveBounds

  const TEMPLATE: Name := [101, 120, 112, 101, 114, 105, 109, 101, 110, 116, 46, 121, 97, 109, 108]
  const MODULES: Name := [109, 111, 100, 117, 108, 101, 115]

  /** Limits around a single payload, with the plainest of everything else. */
  function PlainRules(maxMembers: nat, maxUnpacked: nat, manifest: Manifest): Rules {
    Rules(maxMembers, maxUnpacked, maxUnpacked, (part: Name) => false, (name: Name) => name,
          (data: seq<Byte>) => "", (data: seq<Byte>) => Some(manifest),
          (m: Manifest, dirs: set<Name>, contents: map<Name, seq<Byte>>) => true)
  }

  const ROOT := Origin((name: Name) => Owner(493, 0, 0, 0, [], []))

  // ----- safe names

  predicate PlainByte(b: Byte) {
    46 <= b < 122 && b != SLASH && b != 58 && b != 60 && b != 62 && b != 63 && b != 92
  }

  predicate Plain(part: Name) {
    part != [] && part[|part| - 1] != DOT && forall i :: 0 <= i < |part| ==> PlainByte(part[i])
  }

  lemma PlainIsSafe(rules: Rules, part: Name)
    requires Plain(part) && !rules.reserved(part)
    ensures Safe(rules, part)
  {
    assert FirstSlash(part) == |part|;
    assert Components(part) == [part];
  }

  lemma ChildIsSafe(rules: Rules, part: Name, rest: Name)
    requires Plain(part) && !rules.reserved(part) && Safe(rules, rest)
    ensures Safe(rules, part + [SLASH] + rest)
  {
    ChildComponents(part, rest);
    var name := part + [SLASH] + rest;
    forall p | p in Components(name) ensures SafePart(rules, p) {
      assert p == part || p in Components(rest);
    }
    forall i | 0 <= i < |name| ensures !IsForbidden(name[i]) {
      assert name[i] == if i < |part| then part[i] else if i == |part| then SLASH else rest[i - |part| - 1];
    }
  }

  lemma ChildComponents(part: Name, rest: Name)
    requires SLASH !in part
    ensures Components(part + [SLASH] + rest) == [part] + Components(rest)
  {
    var name := part + [SLASH] + rest;
    assert name[|part|] == SLASH && forall j :: 0 <= j < |part| ==> name[j] == part[j];
    assert FirstSlash(name) == |part|;
    assert name[..|part|] == part && name[|part| + 1..] == rest;
  }

  lemma ChildAncestors(part: Name, rest: Name)
    requires SLASH !in part
    ensures Ancestors(part + [SLASH] + rest) == {part} + set a | a in Ancestors(rest) :: part + [SLASH] + a
  {
    var name, below := part + [SLASH] + rest, set a | a in Ancestors(rest) :: part + [SLASH] + a;
    forall x | x in Ancestors(name) ensures x in {part} + below {
      AncestorOfChild(part, rest, x);
    }
    forall x | x in below ensures x in Ancestors(name) {
      var j :| 0 <= j < |rest| && rest[j] == SLASH && x == part + [SLASH] + rest[..j];
      assert name[|part| + 1 + j] == SLASH && x == name[..|part| + 1 + j];
    }
    assert name[|part|] == SLASH && part == name[..|part|];
  }

  lemma AncestorOfChild(part: Name, rest: Name, x: Name)
    requires SLASH !in part && x in Ancestors(part + [SLASH] + rest)
    ensures x == part || x in set a | a in Ancestors(rest) :: part + [SLASH] + a
  {
    var name := part + [SLASH] + rest;
    var k :| 0 <= k < |name| && name[k] == SLASH && x == name[..k];
    if k > |part| {
      var j := k - |part| - 1;
      assert rest[j] == SLASH && x == part + [SLASH] + rest[..j];
      assert rest[..j] in Ancestors(rest);
    } else {
      assert k == |part| && x == part;
    }
  }

  lemma PlainHasNoAncestors(part: Name)
    requires SLASH !in part
    ensures Ancestors(part) == {}
  {
  }

  lemma SmallNumbers()
    ensures Power(8, 7) > 4096 && Power(8, 11) > 100000
  {
    SixDigits();
    assert Power(8, 7) == 2097152;
    assert Power(8, 8) >= Power(8, 7);
    assert Power(8, 9) >= Power(8, 8);
    assert Power(8, 10) >= Power(8, 9);
  }

  // ----- a payload without directories

  /** Two files with plain names and no directory. */
  ghost predicate IsFlat(tree: Tree, order: seq<Name>) {
    && |order| == 2 && order[0] != order[1] && Plain(order[0]) && Plain(order[1])
    && |order[0]| <= NAME_WIDTH && |order[1]| <= NAME_WIDTH
    && tree.dirs == {} && tree.files.Keys == {order[0], order[1]}
  }

  lemma FlatIsRooted(tree: Tree, order: seq<Name>)
    requires IsFlat(tree, order)
    ensures Rooted(tree) && Enumerates(order, tree) && Names(tree) == {order[0], order[1]}
  {
    PlainHasNoAncestors(order[0]);
    PlainHasNoAncestors(order[1]);
  }

  lemma FlatIsWritable(tree: Tree, name: Name)
    requires |name| <= NAME_WIDTH && name !in tree.dirs && SizeOf(tree, name) <= 100000
    ensures Writable(tree, ROOT, name)
  {
    SmallNumbers();
  }

  lemma BothWritable(tree: Tree, order: seq<Name>)
    requires IsFlat(tree, order) && SizeOf(tree, order[0]) <= 100000 && SizeOf(tree, order[1]) <= 100000
    ensures AllWritable(tree, ROOT, order, 2)
  {
    FlatIsWritable(tree, order[0]);
    FlatIsWritable(tree, order[1]);
  }

  /** Two files and no directory meet what packing demands. */
  lemma FlatIsPackable(rules: Rules, tree: Tree, order: seq<Name>)
    requires IsFlat(tree, order) && !rules.reserved(order[0]) && !rules.reserved(order[1])
    requires rules.fold(order[0]) != rules.fold(order[1]) && rules.maxMembers >= 2
    requires SizeOf(tree, order[0]) + SizeOf(tree, order[1]) <= rules.maxUnpacked == rules.maxManifest <= 100000
    ensures Packable(rules, tree, ROOT, order)
  {
    FlatIsRooted(tree, order);
    FlatFits(rules, tree, order[0], order[1]);
    BothWritable(tree, order);
    if MANIFEST in tree.files {
      assert SizeOf(tree, MANIFEST) <= rules.maxManifest;
    }
  }

  /** A payload of two members is refused when its stream is longer than the limit. */
  lemma TwoAreRefused(rules: Rules, tree: Tree, order: seq<Name>, blocks: nat)
    requires Packable(rules, tree, ROOT, order) && |order| == 2
    requires blocks == 2 + DataBlocks(SizeOf(tree, order[0])) + DataBlocks(SizeOf(tree, order[1]))
    requires StreamSize(blocks) > StreamLimit(rules)
    ensures Unpacked(rules, Packed(tree, ROOT, order)) == Failure(StreamTooLarge)
  {
    PackedLength(rules, tree, ROOT, order);
    TwoBlocks(tree, order);
    assert |Packed(tree, ROOT, order)| == StreamSize(blocks);
    TooLong(rules, Packed(tree, ROOT, order));
  }

  lemma FlatFits(rules: Rules, tree: Tree, n0: Name, n1: Name)
    requires Plain(n0) && Plain(n1) && !rules.reserved(n0) && !rules.reserved(n1) && rules.fold(n0) != rules.fold(n1)
    requires Names(tree) == {n0, n1} && rules.maxMembers >= 2
    requires SizeOf(tree, n0) + SizeOf(tree, n1) <= rules.maxUnpacked
    ensures InventoryFits(rules, tree)
  {
    PlainIsSafe(rules, n0);
    PlainIsSafe(rules, n1);
    TwoSizes(tree, n0, n1);
  }

  lemma TwoSizes(tree: Tree, n0: Name, n1: Name)
    requires n0 != n1
    ensures Size(tree, {n0, n1}) == SizeOf(tree, n0) + SizeOf(tree, n1)
  {
    SizeWithout(tree, {n0, n1}, n0);
    assert {n0, n1} - {n0} == {n1};
    SizeWithout(tree, {n1}, n1);
    assert {n1} - {n1} == {};
  }

  lemma TwoBlocks(tree: Tree, order: seq<Name>)
    requires |order| == 2
    ensures Blocks(Sizes(tree, order, |order|))
         == 2 + DataBlocks(SizeOf(tree, order[0])) + DataBlocks(SizeOf(tree, order[1]))
  {
    var a, b := SizeOf(tree, order[0]), SizeOf(tree, order[1]);
    assert Sizes(tree, order, 0) == [];
    assert Sizes(tree, order, 1) == [] + [a];
    assert Sizes(tree, order, 2) == [a] + [b];
    assert ([a] + [b])[..1] == [a] && [a][..0] == [];
    assert Blocks([a]) == 1 + DataBlocks(a);
  }

  lemma PayloadNames()
    ensures Plain(MANIFEST) && Plain(TEMPLATE) && MANIFEST != TEMPLATE && |MANIFEST| == 13 && |TEMPLATE| == 15
  {
  }

  function FlatTree(n0: Name, n1: Name): Tree {
    Tree({}, map[n0 := File(Zeros(7681), 420), n1 := File([0], 420)])
  }

  /**
   The bound on the decompressed stream does refuse a packable payload: a manifest and a template of
   together 7682 bytes and no room to spare. It has no directory, though, and an accepted payload has one.
   */
  lemma FlatPayloadIsRefused(order: seq<Name>)
    requires order == [MANIFEST, TEMPLATE]
    ensures
      var rules, tree := PlainRules(2, 7682, Manifest([], map[])), FlatTree(order[0], order[1]);
      && Packable(rules, tree, ROOT, order)
      && Unpacked(rules, Packed(tree, ROOT, order)) == Failure(StreamTooLarge)
  {
    PayloadNames();
    FlatIsTooLong(PlainRules(2, 7682, Manifest([], map[])), order);
  }

  lemma FlatIsTooLong(rules: Rules, order: seq<Name>)
    requires |order| == 2 && IsFlat(FlatTree(order[0], order[1]), order)
    requires !rules.reserved(order[0]) && !rules.reserved(order[1]) && rules.fold(order[0]) != rules.fold(order[1])
    requires rules.maxMembers == 2 && rules.maxUnpacked == rules.maxManifest == 7682
    ensures
      var tree := FlatTree(order[0], order[1]);
      Packable(rules, tree, ROOT, order) && Unpacked(rules, Packed(tree, ROOT, order)) == Failure(StreamTooLarge)
  {
    var tree := FlatTree(order[0], order[1]);
    assert SizeOf(tree, order[0]) == 7681 && SizeOf(tree, order[1]) == 1;
    FlatIsPackable(rules, tree, order);
    TwentyOneBlocks(rules);
    TwoAreRefused(rules, tree, order, 19);
  }

  lemma TwentyOneBlocks(rules: Rules)
    requires rules.maxMembers == 2 && rules.maxUnpacked == 7682
    ensures 2 + DataBlocks(7681) + DataBlocks(1) == 19 && StreamSize(19) == 20480 > StreamLimit(rules)
  {
  }

  lemma TooLong(rules: Rules, stream: seq<Byte>)
    requires |stream| > StreamLimit(rules)
    ensures Unpacked(rules, stream) == Failure(StreamTooLarge)
  {
  }

  // ----- a payload with a stretched directory

  function Child(part: Name, rest: Name): Name {
    part + [SLASH] + rest
  }

  /** A module folder with one directory in it: `dirs` is the chain, `files` lie at the top. */
  ghost predicate IsModule(tree: Tree, dirs: seq<Name>, files: seq<Name>, a: Name, b: Name, c: Name, own: Name) {
    && Plain(a) && Plain(b) && Plain(c) && Plain(own) && a !in files
    && |files| == 2 && Plain(files[0]) && Plain(files[1]) && files[0] != files[1]
    && |files[0]| <= NAME_WIDTH && |files[1]| <= NAME_WIDTH
    && dirs == [a, Child(a, b), Child(a, Child(b, c)), Child(a, Child(b, Child(c, own)))]
    && |dirs[2]| < NAME_WIDTH && |own| >= NAME_WIDTH && |dirs[3]| <= PREFIX_WIDTH
    && tree.dirs == {dirs[0], dirs[1], dirs[2], dirs[3]} && tree.files.Keys == {files[0], files[1]}
    && forall n :: n in tree.files ==> |tree.files[n].data| <= 1
  }

  lemma ChainAncestors(a: Name, b: Name, c: Name, own: Name)
    requires Plain(a) && Plain(b) && Plain(c) && Plain(own)
    ensures Ancestors(a) == {}
    ensures Ancestors(Child(a, b)) == {a}
    ensures Ancestors(Child(a, Child(b, c))) == {a, Child(a, b)}
    ensures Ancestors(Child(a, Child(b, Child(c, own)))) == {a, Child(a, b), Child(a, Child(b, c))}
  {
    PlainHasNoAncestors(a);
    PlainHasNoAncestors(b);
    PlainHasNoAncestors(c);
    PlainHasNoAncestors(own);
    ChildAncestors(c, own);
    ChildAncestors(b, c);
    ChildAncestors(b, Child(c, own));
    ChildAncestors(a, b);
    ChildAncestors(a, Child(b, c));
    ChildAncestors(a, Child(b, Child(c, own)));
  }

  lemma ModuleIsRooted(tree: Tree, dirs: seq<Name>, files: seq<Name>, a: Name, b: Name, c: Name, own: Name)
    requires IsModule(tree, dirs, files, a, b, c, own)
    ensures Rooted(tree) && Enumerates(dirs + files, tree)
  {
    ChainAncestors(a, b, c, own);
    PlainHasNoAncestors(files[0]);
    PlainHasNoAncestors(files[1]);
    assert dirs[1][|a|] == SLASH && dirs[2][|a|] == SLASH && dirs[3][|a|] == SLASH;
    assert |dirs[0]| < |dirs[1]| < |dirs[2]| < |dirs[3]|;
  }

  lemma ChainIsSafe(rules: Rules, a: Name, b: Name, c: Name, own: Name)
    requires Plain(a) && Plain(b) && Plain(c) && Plain(own)
    requires !rules.reserved(a) && !rules.reserved(b) && !rules.reserved(c) && !rules.reserved(own)
    ensures Safe(rules, a) && Safe(rules, Child(a, b)) && Safe(rules, Child(a, Child(b, c)))
    ensures Safe(rules, Child(a, Child(b, Child(c, own))))
  {
    PlainIsSafe(rules, a);
    PlainIsSafe(rules, b);
    PlainIsSafe(rules, c);
    PlainIsSafe(rules, own);
    ChildIsSafe(rules, a, b);
    ChildIsSafe(rules, b, c);
    ChildIsSafe(rules, a, Child(b, c));
    ChildIsSafe(rules, c, own);
    ChildIsSafe(rules, b, Child(c, own));
    ChildIsSafe(rules, a, Child(b, Child(c, own)));
  }

  lemma {:induction false} SmallSizes(tree: Tree, names: set<Name>)
    requires forall n :: n in tree.files ==> |tree.files[n].data| <= 1
    ensures Size(tree, names) <= |names|
  {
    if names != {} {
      var n :| n in names;
      SizeWithout(tree, names, n);
      SmallSizes(tree, names - {n});
    }
  }

  lemma StretchedWidth(a: Name, own: Name)
    requires SLASH !in own
    ensures LastWidth(Child(a, own)) == |own|
  {
    var name := Child(a, own);
    assert name[|a|] == SLASH && forall j :: |a| < j < |name| ==> name[j] == own[j - |a| - 1];
  }

  lemma ModuleIsWritable(tree: Tree, dirs: seq<Name>, files: seq<Name>, a: Name, b: Name, c: Name, own: Name, n: Name)
    requires IsModule(tree, dirs, files, a, b, c, own) && Rooted(tree) && n in dirs + files
    ensures Writable(tree, ROOT, n) && (Stretched(n, n in tree.dirs) <==> n == dirs[3])
  {
    SmallNumbers();
    if n == dirs[3] {
      StretchedWidth(Child(a, Child(b, c)), own);
      assert dirs[3] == Child(Child(a, Child(b, c)), own);
      StretchedIsWritten(n);
    }
  }

  lemma OrderCounts(tree: Tree, order: seq<Name>)
    requires Enumerates(order, tree)
    ensures |Names(tree)| == |order|
  {
    OrderLength(tree, order, |order|);
    assert order[..|order|] == order;
    assert Before(order, |order|) == Names(tree);
  }

  lemma ModuleIsSafe(rules: Rules, tree: Tree, dirs: seq<Name>, files: seq<Name>, a: Name, b: Name, c: Name, own: Name)
    requires IsModule(tree, dirs, files, a, b, c, own) && forall part: Name :: !rules.reserved(part)
    ensures forall n :: n in Names(tree) ==> Safe(rules, n)
  {
    ChainIsSafe(rules, a, b, c, own);
    PlainIsSafe(rules, files[0]);
    PlainIsSafe(rules, files[1]);
  }

  lemma ModuleFits(rules: Rules, tree: Tree, dirs: seq<Name>, files: seq<Name>, a: Name, b: Name, c: Name, own: Name)
    requires IsModule(tree, dirs, files, a, b, c, own) && Enumerates(dirs + files, tree)
    requires forall part: Name :: !rules.reserved(part)
    requires Distinct(rules, Names(tree)) && rules.maxMembers >= 6 && rules.maxUnpacked >= 6
    ensures InventoryFits(rules, tree)
  {
    ModuleIsSafe(rules, tree, dirs, files, a, b, c, own);
    OrderCounts(tree, dirs + files);
    SmallSizes(tree, Names(tree));
  }

  lemma ModuleIsPackable(
    rules: Rules, tree: Tree, dirs: seq<Name>, files: seq<Name>, a: Name, b: Name, c: Name, own: Name)
    requires IsModule(tree, dirs, files, a, b, c, own) && (forall part: Name :: !rules.reserved(part))
    requires Distinct(rules, Names(tree)) && rules.maxMembers >= 6 && rules.maxUnpacked >= 6 && rules.maxManifest >= 1
    ensures Packable(rules, tree, ROOT, dirs + files) && AnyStretched(tree, dirs + files, 0)
  {
    var order := dirs + files;
    ModuleIsRooted(tree, dirs, files, a, b, c, own);
    ModuleFits(rules, tree, dirs, files, a, b, c, own);
    forall i | 0 <= i < |order| ensures Writable(tree, ROOT, order[i]) {
      ModuleIsWritable(tree, dirs, files, a, b, c, own, order[i]);
    }
    ModuleIsWritable(tree, dirs, files, a, b, c, own, order[3]);
    assert Stretched(order[3], order[3] in tree.dirs);
  }

  function ModuleTree(dirs: seq<Name>, files: seq<Name>): Tree
    requires |dirs| == 4 && |files| == 2
  {
    var small := File([0], 420);
    Tree({dirs[0], dirs[1], dirs[2], dirs[3]}, map[files[0] := small, files[1] := small])
  }

  /** A payload that packs, passes its own check, and is refused when it is unpacked. */
  lemma StretchedPayloadIsRefused(dirs: seq<Name>, files: seq<Name>, a: Name, b: Name, c: Name, own: Name)
    requires |dirs| == 4 && |files| == 2 && files[0] == MANIFEST
    requires IsModule(ModuleTree(dirs, files), dirs, files, a, b, c, own)
    ensures
      var tree, order := ModuleTree(dirs, files), dirs + files;
      var manifest := Manifest(dirs, map[files[1] := FileInfo(1, "")]);
      var rules := PlainRules(6, 6, manifest);
      && Packable(rules, tree, ROOT, order) && PayloadChecked(rules, tree, manifest)
      && Unpacked(rules, Packed(tree, ROOT, order)) == Failure(UnsafeMember)
  {
    var tree, order := ModuleTree(dirs, files), dirs + files;
    var manifest := Manifest(dirs, map[files[1] := FileInfo(1, "")]);
    var rules := PlainRules(6, 6, manifest);
    ModuleIsPackable(rules, tree, dirs, files, a, b, c, own);
    ModuleMatches(tree, dirs, files, manifest, a, b, c, own);
    PayloadComesBack(rules, tree, ROOT, order, manifest);
  }

  lemma ModuleMatches(
    tree: Tree, dirs: seq<Name>, files: seq<Name>, manifest: Manifest, a: Name, b: Name, c: Name, own: Name)
    requires |dirs| == 4 && |files| == 2 && files[0] == MANIFEST && tree == ModuleTree(dirs, files)
    requires IsModule(tree, dirs, files, a, b, c, own)
    requires manifest == Manifest(dirs, map[files[1] := FileInfo(1, "")])
    ensures Matches(PlainRules(6, 6, manifest), tree, manifest)
  {
    assert |dirs[0]| < |dirs[1]| < |dirs[2]| < |dirs[3]|;
    assert dirs == [dirs[0], dirs[1], dirs[2], dirs[3]];
    assert multiset(dirs) == multiset{dirs[0], dirs[1], dirs[2], dirs[3]};
    assert Listed(PlainRules(6, 6, manifest), tree) == manifest.files;
  }

  /** And there is one: a module `m` of version `1` with a directory named by a hundred letters. */
  lemma StretchedPayloadExists(own: Name)
    requires own == seq(100, i => 100)
    ensures
      var dirs := [MODULES, Child(MODULES, [109]), Child(MODULES, Child([109], [49])),
                   Child(MODULES, Child([109], Child([49], own)))];
      IsModule(ModuleTree(dirs, [MANIFEST, TEMPLATE]), dirs, [MANIFEST, TEMPLATE], MODULES, [109], [49], own)
  {
    PayloadNames();
    assert Plain(MODULES) && MODULES[0] == 109 && MODULES != MANIFEST && MODULES != TEMPLATE;
  }
}
