/** Writing an archive: names and numbers in headers, data blocks, padding and the closing record. */
module ArchiveWriter {
  import opened Collections
  import opened Options
  import opened Ustar
  import opened ArchiveTree
  import opened ArchiveReader

  /** What the file system says about a member besides its kind and data. */
  datatype Owner = Owner(mode: Mode, uid: nat, gid: nat, mtime: nat, uname: seq<Byte>, gname: seq<Byte>)

  datatype Origin = Origin(ofMember: Name -> Owner)

  function StatOf(tree: Tree, origin: Origin, name: Name): Stat {
    var owner := origin.ofMember(name);
    var mode := if name in tree.files then tree.files[name].mode else owner.mode;
    Stat(mode, SizeOf(tree, name), owner.uid, owner.gid, owner.mtime, owner.uname, owner.gname)
  }

  function DataOf(tree: Tree, name: Name): seq<Byte> {
    if name in tree.files then tree.files[name].data else []
  }

  // ----- names in headers

  /** The length of the last path component. */
  function LastWidth(name: Name): (w: nat)
    ensures w <= |name| && (w < |name| ==> name[|name| - w - 1] == SLASH)
    ensures forall j :: |name| - w <= j < |name| ==> name[j] != SLASH
  {
    if name == [] || name[|name| - 1] == SLASH then 0 else 1 + LastWidth(name[..|name| - 1])
  }

  /**
   A directory whose own name has 100 bytes or more: with the slash behind it no split leaves
   anything but an empty name field.
   */
  predicate Stretched(name: Name, directory: bool) {
    directory && |name| >= NAME_WIDTH && LastWidth(name) >= NAME_WIDTH
  }

  lemma SplitOfDirectory(name: Name, k: nat)
    requires name != [] && name[0] != SLASH && name[|name| - 1] != SLASH
    requires |name| >= NAME_WIDTH && FirstSplit(name + [SLASH], 0) == Some(k)
    ensures 0 < k <= |name| && (k == |name| <==> LastWidth(name) >= NAME_WIDTH)
    ensures k < |name| ==> k + 1 < |name|
  {
    var stored, w := name + [SLASH], LastWidth(name);
    if w < NAME_WIDTH && k == |name| {
      assert SplitsAt(stored, |name| - w - 1);
    }
  }

  lemma {:induction false} SlashesStripped(name: Name)
    requires name != [] && name[|name| - 1] != SLASH
    ensures WithoutSlashes(name + [SLASH]) == name
  {
    assert (name + [SLASH])[..|name|] == name;
  }

  /** The reader gets the name back, except that a stretched directory keeps a slash. */
  lemma WrittenName(name: Name, directory: bool)
    requires name != [] && name[0] != SLASH && name[|name| - 1] != SLASH
    requires NameFields(Stored(name, directory)).Some?
    ensures
      var fields := NameFields(Stored(name, directory)).value;
      && |fields.0| <= NAME_WIDTH && |fields.1| <= PREFIX_WIDTH
      && FullName(fields.0, fields.1, if directory then DIRECTORY else REGULAR)
      == if Stretched(name, directory) then name + [SLASH] else name
  {
    var stored := Stored(name, directory);
    if |stored| <= NAME_WIDTH {
      if directory { SlashesStripped(name); }
    } else if directory {
      var k := FirstSplit(stored, 0).value;
      SplitOfDirectory(name, k);
      JoinedDirectory(name, k);
    } else {
      JoinedFile(name, FirstSplit(stored, 0).value);
    }
  }

  lemma JoinedFile(name: Name, k: nat)
    requires 0 < k < |name| && name[k] == SLASH
    ensures FullName(name[k + 1..], name[..k], REGULAR) == name
  {
    assert name == name[..k] + [SLASH] + name[k + 1..];
  }

  lemma JoinedDirectory(name: Name, k: nat)
    requires 0 < k <= |name| && (name + [SLASH])[k] == SLASH
    requires k < |name| ==> k + 1 < |name| && name[|name| - 1] != SLASH
    ensures
      var stored := name + [SLASH];
      FullName(stored[k + 1..], stored[..k], DIRECTORY) == if k == |name| then name + [SLASH] else name
  {
    var stored := name + [SLASH];
    if k == |name| {
      assert stored[k + 1..] == [] && stored[..k] == name;
      assert name + [SLASH] + [] == name + [SLASH];
    } else {
      assert stored[k + 1..] == name[k + 1..] + [SLASH] && stored[..k] == name[..k];
      SlashesStripped(name[k + 1..]);
      assert name == name[..k] + [SLASH] + name[k + 1..];
    }
  }

  /** Such directories are written without complaint: the whole path becomes the prefix. */
  lemma StretchedIsWritten(name: Name)
    requires |name| <= PREFIX_WIDTH && LastWidth(name) >= NAME_WIDTH
    ensures NameFields(Stored(name, true)) == Some(([], name)) && Stretched(name, true)
  {
    var stored := name + [SLASH];
    OnlySplit(name, stored);
    Halves(name, stored);
    FieldsOfSplit(stored, |name|);
  }

  lemma Halves(name: Name, stored: Name)
    requires stored == name + [SLASH]
    ensures |stored| == |name| + 1 && stored[|name| + 1..] == [] && stored[..|name|] == name
  {
  }

  lemma FieldsOfSplit(stored: Name, k: nat)
    requires |stored| > NAME_WIDTH && FirstSplit(stored, 0) == Some(k)
    ensures NameFields(stored) == Some((stored[k + 1..], stored[..k]))
  {
  }

  lemma OnlySplit(name: Name, stored: Name)
    requires |name| <= PREFIX_WIDTH && LastWidth(name) >= NAME_WIDTH && stored == name + [SLASH]
    ensures FirstSplit(stored, 0) == Some(|name|)
  {
    assert SplitsAt(stored, |name|);
    assert forall k :: 0 <= k < |name| ==> stored[k] == name[k];
    assert forall k :: 0 <= k < |name| ==> !SplitsAt(stored, k);
  }

  lemma FieldsWithoutNul(name: Name, directory: bool)
    requires NameFields(Stored(name, directory)).Some? && 0 !in name
    ensures
      var fields := NameFields(Stored(name, directory)).value;
      0 !in fields.0 && 0 !in fields.1
  {
  }

  // ----- the writer

  predicate Writable(tree: Tree, origin: Origin, name: Name) {
    NameFields(Stored(name, name in tree.dirs)).Some? && StatFits(StatOf(tree, origin, name))
  }

  function HeaderOf(tree: Tree, origin: Origin, name: Name): seq<Byte>
    requires Writable(tree, origin, name)
  {
    var fields := NameFields(Stored(name, name in tree.dirs)).value;
    Encode(fields.0, fields.1, name in tree.dirs, StatOf(tree, origin, name))
  }

  function Written(tree: Tree, origin: Origin, name: Name): seq<Byte>
    requires Writable(tree, origin, name)
  {
    HeaderOf(tree, origin, name) + DataOf(tree, name) + Zeros(Padding(|DataOf(tree, name)|))
  }

  predicate AllWritable(tree: Tree, origin: Origin, order: seq<Name>, k: nat)
    requires k <= |order|
  {
    forall i :: 0 <= i < k ==> Writable(tree, origin, order[i])
  }

  function Members(tree: Tree, origin: Origin, order: seq<Name>): (r: seq<seq<Byte>>)
    requires AllWritable(tree, origin, order, |order|)
    ensures |r| == |order| && forall i :: 0 <= i < |r| ==> r[i] == Written(tree, origin, order[i])
  {
    seq(|order|, i requires 0 <= i < |order| && AllWritable(tree, origin, order, |order|) =>
      Written(tree, origin, order[i]))
  }

  /** Two zero blocks and zeros up to a whole record. */
  function Trailer(written: nat): nat {
    var end := written + 2 * BLOCK;
    2 * BLOCK + (RECORD - end % RECORD) % RECORD
  }

  function Packed(tree: Tree, origin: Origin, order: seq<Name>): seq<Byte>
    requires AllWritable(tree, origin, order, |order|)
  {
    var body := Glue(Members(tree, origin, order));
    body + Zeros(Trailer(|body|))
  }

  datatype PackError = TooManyMembers | NameTooLong | NumberTooLarge

  method WriteMember(tree: Tree, origin: Origin, name: Name) returns (r: Result<seq<Byte>, PackError>)
    ensures r.Success? <==> Writable(tree, origin, name)
    ensures r.Success? ==> r.value == Written(tree, origin, name)
  {
    var directory := name in tree.dirs;
    var fields := NameFields(Stored(name, directory));
    if fields.None? {
      return Failure(NameTooLong);
    }
    var stat := StatOf(tree, origin, name);
    if !StatFits(stat) {
      return Failure(NumberTooLarge);
    }
    var data := DataOf(tree, name);
    r := Success(Encode(fields.value.0, fields.value.1, directory, stat) + data + Zeros(Padding(|data|)));
  }

  /** Adds the members one by one and closes the archive. */
  method Pack(rules: Rules, tree: Tree, origin: Origin, order: seq<Name>)
    returns (r: Result<seq<Byte>, PackError>)
    ensures r.Success? <==> |order| <= rules.maxMembers && AllWritable(tree, origin, order, |order|)
    ensures r.Success? ==> r.value == Packed(tree, origin, order)
  {
    if |order| > rules.maxMembers {
      return Failure(PackError.TooManyMembers);
    }
    var stream: seq<Byte> := [];
    ghost var members: seq<seq<Byte>> := [];
    var i: nat := 0;
    while i < |order|
      invariant i <= |order| && AreMembers(members, tree, origin, order, i) && stream == Glue(members)
    {
      var member := WriteMember(tree, origin, order[i]);
      if member.Failure? {
        return Failure(member.error);
      }
      OneMoreMember(members, tree, origin, order, i, member.value);
      members := members + [member.value];
      stream := stream + member.value;
      i := i + 1;
    }
    PackedMembers(members, tree, origin, order);
    stream := Close(stream);
    r := Success(stream);
  }

  ghost predicate AreMembers(members: seq<seq<Byte>>, tree: Tree, origin: Origin, order: seq<Name>, k: nat)
    requires k <= |order|
  {
    && |members| == k && AllWritable(tree, origin, order, k)
    && forall j :: 0 <= j < k ==> members[j] == Written(tree, origin, order[j])
  }

  lemma OneMoreMember(
    members: seq<seq<Byte>>, tree: Tree, origin: Origin, order: seq<Name>, k: nat, member: seq<Byte>)
    requires k < |order| && AreMembers(members, tree, origin, order, k)
    requires Writable(tree, origin, order[k]) && member == Written(tree, origin, order[k])
    ensures AreMembers(members + [member], tree, origin, order, k + 1)
    ensures Glue(members + [member]) == Glue(members) + member
  {
    assert (members + [member])[..k] == members;
  }

  lemma PackedMembers(members: seq<seq<Byte>>, tree: Tree, origin: Origin, order: seq<Name>)
    requires AreMembers(members, tree, origin, order, |order|)
    ensures Packed(tree, origin, order) == Glue(members) + Zeros(Trailer(|Glue(members)|))
  {
    assert members == Members(tree, origin, order);
  }

  /** Two zero blocks, and zero bytes up to the end of a record. */
  method Close(body: seq<Byte>) returns (stream: seq<Byte>)
    ensures stream == body + Zeros(Trailer(|body|))
  {
    stream := body + Zeros(2 * BLOCK);
    var remainder := |stream| % RECORD;
    var filling := if remainder > 0 then RECORD - remainder else 0;
    assert Zeros(2 * BLOCK) + Zeros(filling) == Zeros(Trailer(|body|));
    Regroup(body, Zeros(2 * BLOCK), Zeros(filling));
    stream := stream + Zeros(filling);
  }
}
