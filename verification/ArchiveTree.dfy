/**
 Archive payloads as trees of directories and files, the names they may use, and the check of a
 payload against its manifest.
 */
module ArchiveTree {
  import opened Options
  import opened Collections
  import opened Ustar

  /** Permission bits. */
  type Mode = m: int | 0 <= m < 4096

  datatype File = File(data: seq<Byte>, mode: Mode)

  /** Relative paths of all directories and files; the root itself is not a member. */
  datatype Tree = Tree(dirs: set<Name>, files: map<Name, File>)

  datatype FileInfo = FileInfo(size: nat, digest: string)

  datatype Manifest = Manifest(directories: seq<Name>, files: map<Name, FileInfo>)

  /**
   The limits of the archiver and what it calls: reserved path parts, case folding, the digest, the
   manifest parser, and the check of the template, modules and resources.
   */
  datatype Rules = Rules(
    maxMembers: nat, maxUnpacked: nat, maxManifest: nat,
    reserved: Name -> bool, fold: Name -> Name, digest: seq<Byte> -> string,
    readManifest: seq<Byte> -> Option<Manifest>,
    accepts: (Manifest, set<Name>, map<Name, seq<Byte>>) -> bool)

  const MANIFEST: Name := [109, 97, 110, 105, 102, 101, 115, 116, 46, 106, 115, 111, 110]

  datatype Error =
    | TruncatedHeader | InvalidTerminator | TrailingData | InvalidHeader
    | UnsafeMember | DuplicateMember | TooManyMembers | ForbiddenType | InvalidSize
    | TooLarge | ManifestTooLarge | TruncatedMember | InvalidPadding | PathConflict
    | StreamTooLarge | ManifestMissing | PayloadDiffers | EntriesDiffer

  // ----- names

  function FirstSlash(name: Name): (k: nat)
    ensures k <= |name| && (k < |name| ==> name[k] == SLASH)
    ensures forall j :: 0 <= j < k ==> name[j] != SLASH
  {
    if name == [] || name[0] == SLASH then 0 else 1 + FirstSlash(name[1..])
  }

  function Components(name: Name): seq<Name>
    decreases |name|
  {
    var k := FirstSlash(name);
    if k == |name| then [name] else [name[..k]] + Components(name[k + 1..])
  }

  const DOT: Byte := 46

  /** Backslash and the characters that some file systems forbid. */
  predicate IsForbidden(b: Byte) {
    b < 32 || b == 127
    || b == 92 || b == 58 || b == 42 || b == 63 || b == 34 || b == 60 || b == 62 || b == 124
  }

  predicate SafePart(rules: Rules, part: Name) {
    && part != [] && part != [DOT] && part != [DOT, DOT]
    && part[|part| - 1] != DOT && part[|part| - 1] != SPACE && !rules.reserved(part)
  }

  predicate Safe(rules: Rules, name: Name) {
    && (forall part :: part in Components(name) ==> SafePart(rules, part))
    && (forall i :: 0 <= i < |name| ==> !IsForbidden(name[i]))
  }

  /** The byte-level consequences that the header fields rely on. */
  lemma {:induction false} SafeEnds(rules: Rules, name: Name)
    requires forall part :: part in Components(name) ==> SafePart(rules, part)
    ensures name != [] && name[0] != SLASH && name[|name| - 1] != SLASH
    decreases |name|
  {
    var k := FirstSlash(name);
    if k == |name| {
      assert name in Components(name);
    } else {
      assert name[..k] == Components(name)[0] && name[..k] in Components(name);
      forall part | part in Components(name[k + 1..]) ensures SafePart(rules, part) {
        assert part in Components(name);
      }
      SafeEnds(rules, name[k + 1..]);
      assert name[|name| - 1] == name[k + 1..][|name| - k - 2];
    }
  }

  /** The bytes from `i` to `j` are one part of a path. */
  ghost predicate IsPart(name: Name, i: int, j: int) {
    && 0 <= i <= j <= |name| && (i == 0 || name[i - 1] == 47) && (j == |name| || name[j] == 47)
    && forall k :: i <= k < j ==> name[k] != 47
  }

  /** What a path part must not be: empty, one dot, two dots, or with a dot or a blank at its end. */
  predicate CleanPart(part: Name) {
    && |part| > 0 && part != [46] && part != [46, 46]
    && part[|part| - 1] != 46 && part[|part| - 1] != 32
  }

  /** Controls, and the characters \ : * ? " < > | in that order, do not occur. */
  predicate CleanBytes(name: Name) {
    forall k :: 0 <= k < |name| ==> 32 <= name[k] != 127 && name[k] !in {92, 58, 42, 63, 34, 60, 62, 124}
  }

  ghost predicate CleanName(rules: Rules, name: Name) {
    && CleanBytes(name)
    && forall i, j :: IsPart(name, i, j) ==> CleanPart(name[i..j]) && !rules.reserved(name[i..j])
  }

  /** Behind the first slash the parts are those of the rest. */
  lemma PartBehind(name: Name, k: nat, i: int, j: int)
    requires k < |name| && name[k] == 47 && k < i <= j <= |name|
    ensures name[k + 1..][i - k - 1..j - k - 1] == name[i..j]
    ensures IsPart(name, i, j) <==> IsPart(name[k + 1..], i - k - 1, j - k - 1)
  {
    var rest := name[k + 1..];
    assert rest[i - k - 1..j - k - 1] == name[i..j];
    assert IsPart(name, i, j) <==> (i == 0 || name[i - 1] == 47) && (j == |name| || name[j] == 47) && 47 !in name[i..j];
    assert IsPart(rest, i - k - 1, j - k - 1)
      <==> (i == k + 1 || name[i - 1] == 47) && (j == |name| || name[j] == 47) && 47 !in name[i..j];
  }

  /** A part ends before the first slash or begins behind it. */
  lemma FirstPart(name: Name, k: nat, i: int, j: int)
    requires k == FirstSlash(name) && IsPart(name, i, j)
    ensures if i <= k then i == 0 && j == k else k < |name|
  {
  }

  lemma InComponents(name: Name, k: nat, part: Name)
    requires k == FirstSlash(name)
    ensures part in Components(name) <==> part == name[..k] || (k < |name| && part in Components(name[k + 1..]))
  {
    if k == |name| {
      assert name[..k] == name && Components(name) == [name];
    } else {
      ComponentsBehind(name, k);
      Joined(name[..k], Components(name[k + 1..]), part);
    }
  }

  lemma ComponentsBehind(name: Name, k: nat)
    requires k == FirstSlash(name) < |name|
    ensures Components(name) == [name[..k]] + Components(name[k + 1..])
  {
  }

  lemma Joined(first: Name, rest: seq<Name>, part: Name)
    ensures part in [first] + rest <==> part == first || part in rest
  {
  }

  lemma {:induction false} PartsAreComponents(name: Name, i: int, j: int)
    requires IsPart(name, i, j)
    ensures name[i..j] in Components(name)
    decreases |name|
  {
    var k := FirstSlash(name);
    FirstPart(name, k, i, j);
    if i > k {
      PartBehind(name, k, i, j);
      PartsAreComponents(name[k + 1..], i - k - 1, j - k - 1);
    }
    InComponents(name, k, name[i..j]);
  }

  lemma {:induction false} ComponentsAreParts(name: Name, part: Name) returns (i: int, j: int)
    requires part in Components(name)
    ensures IsPart(name, i, j) && part == name[i..j]
    decreases |name|
  {
    var k := FirstSlash(name);
    InComponents(name, k, part);
    if part == name[..k] {
      i, j := 0, k;
    } else {
      i, j := ComponentsAreParts(name[k + 1..], part);
      i, j := k + 1 + i, k + 1 + j;
      PartBehind(name, k, i, j);
    }
  }

  /** The name check passes exactly the names that are clean in their bytes and parts. */
  lemma SafeIsClean(rules: Rules, name: Name)
    ensures Safe(rules, name) <==> CleanName(rules, name)
  {
    if Safe(rules, name) {
      forall i, j | IsPart(name, i, j) ensures CleanPart(name[i..j]) && !rules.reserved(name[i..j]) {
        PartsAreComponents(name, i, j);
      }
    }
    if CleanName(rules, name) {
      forall part | part in Components(name) ensures SafePart(rules, part) {
        var i, j := ComponentsAreParts(name, part);
      }
    }
  }

  function Ancestors(name: Name): set<Name> {
    set k | 0 <= k < |name| && name[k] == SLASH :: name[..k]
  }

  // ----- the file system

  function MakeDirectory(tree: Tree, name: Name): Option<Tree> {
    if name in tree.files || !(Ancestors(name) !! tree.files.Keys) then None
    else Some(tree.(dirs := tree.dirs + Ancestors(name) + {name}))
  }

  predicate CanCreate(tree: Tree, name: Name) {
    name !in tree.files && name !in tree.dirs && Ancestors(name) !! tree.files.Keys
  }

  function WithFile(tree: Tree, name: Name, file: File): Tree {
    Tree(tree.dirs + Ancestors(name), tree.files[name := file])
  }

  /** Only the execute permissions survive, and the owner may read and write. */
  function Restricted(mode: int): Mode {
    384 + 64 * ((mode / 64) % 2) + 8 * ((mode / 8) % 2) + mode % 2
  }

  predicate Bit(mode: int, weight: nat)
    requires weight > 0
  {
    (mode / weight) % 2 == 1
  }

  /** Exactly the three execute bits are taken over, and reading and writing by the owner is set. */
  lemma RestrictedBits(mode: int)
    ensures
      var r := Restricted(mode);
      && (Bit(r, 64) <==> Bit(mode, 64)) && (Bit(r, 8) <==> Bit(mode, 8)) && (Bit(r, 1) <==> Bit(mode, 1))
      && Bit(r, 256) && Bit(r, 128)
      && !Bit(r, 32) && !Bit(r, 16) && !Bit(r, 4) && !Bit(r, 2)
      && !Bit(r, 2048) && !Bit(r, 1024) && !Bit(r, 512)
  {
  }

  // ----- the inventory and the manifest

  function Names(tree: Tree): set<Name> {
    tree.dirs + tree.files.Keys
  }

  /** A tree as a file system has it: no name is both, and everything above a member is a directory. */
  ghost predicate Rooted(tree: Tree) {
    tree.dirs !! tree.files.Keys && forall n :: n in Names(tree) ==> Ancestors(n) <= tree.dirs
  }

  function SizeOf(tree: Tree, name: Name): nat {
    if name in tree.files then |tree.files[name].data| else 0
  }

  /** The bytes of the named files, in whatever order they are counted. */
  ghost function Size(tree: Tree, names: set<Name>): nat {
    if names == {} then 0
    else
      var n :| n in names;
      SizeOf(tree, n) + Size(tree, names - {n})
  }

  lemma {:induction false} SizeWithout(tree: Tree, names: set<Name>, x: Name)
    requires x in names
    ensures Size(tree, names) == SizeOf(tree, x) + Size(tree, names - {x})
  {
    var n :| n in names && Size(tree, names) == SizeOf(tree, n) + Size(tree, names - {n});
    if n != x {
      SizeWithout(tree, names - {n}, x);
      SizeWithout(tree, names - {x}, n);
      assert names - {n} - {x} == names - {x} - {n};
    }
  }

  ghost predicate Distinct(rules: Rules, names: set<Name>) {
    forall a, b :: a in names && b in names && rules.fold(a) == rules.fold(b) ==> a == b
  }

  /** What taking the inventory of a tree demands of it. */
  ghost predicate InventoryFits(rules: Rules, tree: Tree) {
    && (forall n :: n in Names(tree) ==> Safe(rules, n))
    && Distinct(rules, Names(tree)) && |Names(tree)| <= rules.maxMembers
    && Size(tree, Names(tree)) <= rules.maxUnpacked
  }

  /** The folded names of the members seen so far. */
  predicate Folded(rules: Rules, done: set<Name>, names: set<Name>) {
    && (forall n :: n in done ==> rules.fold(n) in names)
    && (forall f :: f in names ==> exists n :: n in done && rules.fold(n) == f)
  }

  lemma FoldedGrows(rules: Rules, done: set<Name>, names: set<Name>, n: Name)
    requires Folded(rules, done, names) && Distinct(rules, done) && n !in done && rules.fold(n) !in names
    ensures Distinct(rules, done + {n}) && Folded(rules, done + {n}, names + {rules.fold(n)})
  {
    forall f | f in names + {rules.fold(n)} ensures exists m :: m in done + {n} && rules.fold(m) == f {
      if f in names {
        var m :| m in done && rules.fold(m) == f;
        assert m in done + {n};
      } else {
        assert n in done + {n};
      }
    }
  }

  /** The members seen so far, with nothing amiss yet. */
  ghost predicate Counted(rules: Rules, done: set<Name>, names: set<Name>) {
    && (forall n :: n in done ==> Safe(rules, n))
    && Folded(rules, done, names) && Distinct(rules, done) && |names| == |done|
  }

  lemma CountOneMore(rules: Rules, done: set<Name>, names: set<Name>, n: Name)
    requires Counted(rules, done, names) && n !in done && Safe(rules, n) && rules.fold(n) !in names
    ensures Counted(rules, done + {n}, names + {rules.fold(n)})
  {
    FoldedGrows(rules, done, names, n);
    assert |names + {rules.fold(n)}| == |names| + 1 && |done + {n}| == |done| + 1;
  }

  lemma CannotCount(rules: Rules, tree: Tree, done: set<Name>, names: set<Name>, n: Name)
    requires Counted(rules, done, names) && done <= Names(tree) && n in Names(tree) && n !in done
    requires !Safe(rules, n) || rules.fold(n) in names || |done| + 1 > rules.maxMembers
    ensures !InventoryFits(rules, tree)
  {
    SubsetSize(done + {n}, Names(tree));
    if rules.fold(n) in names {
      var m :| m in done && rules.fold(m) == rules.fold(n);
    }
  }

  /** Counts and checks the members one by one. */
  method TakeInventory(rules: Rules, tree: Tree) returns (fits: bool)
    ensures fits <==> InventoryFits(rules, tree)
  {
    var names: set<Name> := {};
    var total: nat := 0;
    ghost var done: set<Name> := {};
    var pending := Names(tree);
    while pending != {}
      invariant pending + done == Names(tree) && pending !! done
      invariant Counted(rules, done, names) && |done| <= rules.maxMembers
      invariant total + Size(tree, pending) == Size(tree, Names(tree)) && total <= rules.maxUnpacked
      decreases pending
    {
      var n :| n in pending;
      SizeWithout(tree, pending, n);
      if !Safe(rules, n) || rules.fold(n) in names || |names| + 1 > rules.maxMembers {
        CannotCount(rules, tree, done, names, n);
        return false;
      }
      CountOneMore(rules, done, names, n);
      MoveOver(pending, done, n);
      names := names + {rules.fold(n)};
      done := done + {n};
      total := total + SizeOf(tree, n);
      if total > rules.maxUnpacked {
        return false;
      }
      pending := pending - {n};
    }
    assert done == Names(tree);
    fits := true;
  }

  function Listed(rules: Rules, tree: Tree): map<Name, FileInfo> {
    map n | n in tree.files && n != MANIFEST :: FileInfo(|tree.files[n].data|, rules.digest(tree.files[n].data))
  }

  function Contents(tree: Tree): map<Name, seq<Byte>> {
    map n | n in tree.files && n != MANIFEST :: tree.files[n].data
  }

  predicate Matches(rules: Rules, tree: Tree, manifest: Manifest) {
    && multiset(manifest.directories) == multiset(tree.dirs) && manifest.files == Listed(rules, tree)
    && rules.accepts(manifest, tree.dirs, Contents(tree))
  }

  ghost predicate PayloadChecked(rules: Rules, tree: Tree, manifest: Manifest) {
    InventoryFits(rules, tree) && Matches(rules, tree, manifest)
  }

  method CheckPayload(rules: Rules, tree: Tree, manifest: Manifest) returns (allowed: Option<set<Name>>)
    ensures allowed.Some? <==> PayloadChecked(rules, tree, manifest)
    ensures allowed.Some? ==> allowed.value == (set n | n in manifest.directories) + manifest.files.Keys
  {
    var fits := TakeInventory(rules, tree);
    if fits && Matches(rules, tree, manifest) {
      allowed := Some((set n | n in manifest.directories) + manifest.files.Keys);
    } else {
      allowed := None;
    }
  }
}
