/** Whether the bound on the decompressed stream admits every archive that the limits allow. */
module ArchiveBounds {
  import opened Options
  import opened Ustar
  import opened ArchiveTree
  import opened ArchiveReader
  import opened ArchiveWriter
  import opened ArchiveRoundTrip

  /** Data blocks of a member; directories have none. */
  function DataBlocks(size: nat): nat {
    (size + BLOCK - 1) / BLOCK
  }

  /** Header and data blocks of all members. */
  function Blocks(sizes: seq<nat>): nat {
    if sizes == [] then 0 else Blocks(sizes[..|sizes| - 1]) + 1 + DataBlocks(sizes[|sizes| - 1])
  }

  function Bytes(sizes: seq<nat>): nat {
    if sizes == [] then 0 else Bytes(sizes[..|sizes| - 1]) + sizes[|sizes| - 1]
  }

  /** The stream with that many blocks, its terminator and the filled record. */
  function StreamSize(blocks: nat): nat {
    RECORD * ((blocks + 2 + 19) / 20)
  }

  function Limit(members: nat, bytes: nat): nat {
    bytes + members * 1024 + RECORD
  }

  // ----- the length of a packed archive

  lemma PaddedBlocks(size: nat)
    ensures size + Padding(size) == BLOCK * DataBlocks(size)
  {
  }

  lemma FilledRecord(blocks: nat)
    ensures BLOCK * blocks + Trailer(BLOCK * blocks) == StreamSize(blocks)
  {
  }

  function Sizes(tree: Tree, order: seq<Name>, k: nat): (r: seq<nat>)
    requires k <= |order|
    ensures |r| == k
  {
    if k == 0 then [] else Sizes(tree, order, k - 1) + [SizeOf(tree, order[k - 1])]
  }

  lemma {:induction false} GlueLength(tree: Tree, parts: seq<seq<Byte>>, order: seq<Name>, k: nat)
    requires k <= |parts| == |order|
    requires forall i :: 0 <= i < |parts| ==> |parts[i]| == BLOCK + BLOCK * DataBlocks(SizeOf(tree, order[i]))
    ensures |Glue(parts[..k])| == BLOCK * Blocks(Sizes(tree, order, k))
  {
    if k > 0 {
      GlueLength(tree, parts, order, k - 1);
      assert parts[..k][..k - 1] == parts[..k - 1];
      assert Sizes(tree, order, k)[..k - 1] == Sizes(tree, order, k - 1);
    }
  }

  lemma MemberLength(rules: Rules, tree: Tree, origin: Origin, name: Name)
    requires Writable(tree, origin, name) && Safe(rules, name)
    ensures |Written(tree, origin, name)| == BLOCK + BLOCK * DataBlocks(SizeOf(tree, name))
  {
    HeaderDecodes(rules, tree, origin, name);
    WrittenWidth(tree, origin, name);
    PaddedBlocks(SizeOf(tree, name));
  }

  lemma PartLengths(rules: Rules, tree: Tree, origin: Origin, order: seq<Name>, parts: seq<seq<Byte>>)
    requires Packable(rules, tree, origin, order) && |parts| == |order|
    requires forall i :: 0 <= i < |order| ==> parts[i] == Written(tree, origin, order[i])
    ensures forall i :: 0 <= i < |parts| ==> |parts[i]| == BLOCK + BLOCK * DataBlocks(SizeOf(tree, order[i]))
  {
    forall i | 0 <= i < |parts| ensures |parts[i]| == BLOCK + BLOCK * DataBlocks(SizeOf(tree, order[i])) {
      assert order[i] in order && order[i] in Names(tree);
      MemberLength(rules, tree, origin, order[i]);
    }
  }

  lemma StreamLength(tree: Tree, parts: seq<seq<Byte>>, order: seq<Name>, stream: seq<Byte>)
    requires |parts| == |order| && stream == Glue(parts) + Zeros(Trailer(|Glue(parts)|))
    requires forall i :: 0 <= i < |parts| ==> |parts[i]| == BLOCK + BLOCK * DataBlocks(SizeOf(tree, order[i]))
    ensures |stream| == StreamSize(Blocks(Sizes(tree, order, |order|)))
  {
    GlueLength(tree, parts, order, |order|);
    assert parts[..|order|] == parts;
    FilledRecord(Blocks(Sizes(tree, order, |order|)));
  }

  lemma PackedLength(rules: Rules, tree: Tree, origin: Origin, order: seq<Name>)
    requires Packable(rules, tree, origin, order)
    ensures |Packed(tree, origin, order)| == StreamSize(Blocks(Sizes(tree, order, |order|)))
  {
    var parts := Members(tree, origin, order);
    PartLengths(rules, tree, origin, order, parts);
    StreamLength(tree, parts, order, Packed(tree, origin, order));
  }

  // ----- the largest archive within the limits

  /** The most blocks that so many members and bytes can take. */
  function MostBlocks(members: nat, bytes: nat): nat {
    if bytes <= members then members + bytes else 2 * members + (bytes - members) / BLOCK
  }

  lemma MoreMembers(m: nat, u: nat, s: nat)
    ensures MostBlocks(m, u) + 1 + DataBlocks(s) <= MostBlocks(m + 1, u + s)
  {
  }

  lemma {:induction false} BlocksBounded(sizes: seq<nat>)
    ensures Blocks(sizes) <= MostBlocks(|sizes|, Bytes(sizes))
  {
    if sizes != [] {
      var n := |sizes| - 1;
      BlocksBounded(sizes[..n]);
      MoreMembers(n, Bytes(sizes[..n]), sizes[n]);
    }
  }

  lemma MostBlocksGrow(m: nat, u: nat, members: nat, bytes: nat)
    requires m <= members && u <= bytes
    ensures MostBlocks(m, u) <= MostBlocks(members, bytes)
  {
  }

  lemma StreamGrows(a: nat, b: nat)
    requires a <= b
    ensures StreamSize(a) <= StreamSize(b)
  {
  }

  /** Members that reach the maximum: one byte each, and the rest of the bytes in the last one. */
  function Fullest(members: nat, bytes: nat): (r: seq<nat>)
    ensures |r| == members
  {
    if members == 0 then []
    else if bytes <= members - 1 then Fullest(members - 1, bytes) + [0]
    else Fullest(members - 1, members - 1) + [bytes - (members - 1)]
  }

  lemma {:induction false} FullestReaches(members: nat, bytes: nat)
    requires members > 0
    ensures Bytes(Fullest(members, bytes)) == bytes
    ensures Blocks(Fullest(members, bytes)) == MostBlocks(members, bytes)
  {
    var n := members - 1;
    if bytes <= n {
      assert Fullest(members, bytes)[..n] == Fullest(n, bytes);
      if n > 0 { FullestReaches(n, bytes); }
    } else {
      assert Fullest(members, bytes)[..n] == Fullest(n, n);
      if n > 0 { FullestReaches(n, n); }
    }
  }

  /**
   The bound admits every archive within the limits exactly when it admits the fullest one.
   */
  lemma LimitAdmitsAllIff(members: nat, bytes: nat)
    requires members > 0
    ensures (forall sizes: seq<nat> :: |sizes| <= members && Bytes(sizes) <= bytes ==>
               StreamSize(Blocks(sizes)) <= Limit(members, bytes))
        <==> StreamSize(MostBlocks(members, bytes)) <= Limit(members, bytes)
  {
    FullestReaches(members, bytes);
    forall sizes: seq<nat> | |sizes| <= members && Bytes(sizes) <= bytes
      ensures StreamSize(Blocks(sizes)) <= StreamSize(MostBlocks(members, bytes))
    {
      BlocksBounded(sizes);
      MostBlocksGrow(|sizes|, Bytes(sizes), members, bytes);
      StreamGrows(Blocks(sizes), MostBlocks(members, bytes));
    }
    assert |Fullest(members, bytes)| <= members;
  }

  /** It does when there is a directory or an empty file, 512 member slots, or a slot or 512 bytes left over. */
  lemma SlackSuffices(sizes: seq<nat>, members: nat, bytes: nat)
    requires |sizes| <= members && Bytes(sizes) <= bytes
    requires 0 in sizes || members >= 512 || |sizes| < members || Bytes(sizes) + 512 <= bytes
    ensures StreamSize(Blocks(sizes)) <= Limit(members, bytes)
  {
    BlocksAndBytes(sizes);
  }

  lemma {:induction false} BlocksAndBytes(sizes: seq<nat>)
    ensures BLOCK * Blocks(sizes) + (if 0 in sizes then 511 else 0) <= 1023 * |sizes| + Bytes(sizes)
  {
    if sizes != [] {
      BlocksAndBytes(sizes[..|sizes| - 1]);
    }
  }

  // ----- back to archives

  lemma {:induction false} SizesAddUp(tree: Tree, order: seq<Name>, k: nat)
    requires k <= |order|
    ensures Bytes(Sizes(tree, order, k)) == SizeBefore(tree, order, k)
  {
    if k > 0 {
      SizesAddUp(tree, order, k - 1);
      assert Sizes(tree, order, k)[..k - 1] == Sizes(tree, order, k - 1);
    }
  }

  /**
   A packed payload that has a directory, as every one with a module has, comes back through the
   decompressor. So does any other when the member limit is at least 512, or one member or 512 bytes
   are left unused.
   */
  lemma PackedStreamFits(rules: Rules, tree: Tree, origin: Origin, order: seq<Name>)
    requires Packable(rules, tree, origin, order)
    requires tree.dirs != {} || rules.maxMembers >= 512 || |order| < rules.maxMembers
             || Size(tree, Names(tree)) + 512 <= rules.maxUnpacked
    ensures |Packed(tree, origin, order)| <= StreamLimit(rules)
  {
    PackedLength(rules, tree, origin, order);
    AllSizes(tree, order);
    OrderLength(tree, order, |order|);
    TreeAtEnd(tree, order);
    if tree.dirs != {} {
      DirectoryIsEmptyMember(tree, order);
    }
    SlackSuffices(Sizes(tree, order, |order|), rules.maxMembers, rules.maxUnpacked);
  }

  lemma {:induction false} OrderLength(tree: Tree, order: seq<Name>, k: nat)
    requires Enumerates(order, tree) && k <= |order|
    ensures |Before(order, k)| == k
  {
    if k > 0 {
      OrderLength(tree, order, k - 1);
      BeforeGrows(tree, order, k - 1);
    }
  }

  lemma {:induction false} SizeAt(tree: Tree, order: seq<Name>, k: nat, i: nat)
    requires i < k <= |order|
    ensures Sizes(tree, order, k)[i] == SizeOf(tree, order[i])
    decreases k
  {
    if i < k - 1 {
      SizeAt(tree, order, k - 1, i);
    }
  }

  lemma DirectoryIsEmptyMember(tree: Tree, order: seq<Name>)
    requires Rooted(tree) && Enumerates(order, tree) && tree.dirs != {}
    ensures 0 in Sizes(tree, order, |order|)
  {
    var d :| d in tree.dirs;
    assert d in Names(tree) && d in order;
    var i :| 0 <= i < |order| && order[i] == d;
    SizeAt(tree, order, |order|, i);
  }

  /**
   Every payload with a directory comes back unchanged, unless one of its directories has a name of
   its own of 100 bytes or more on a path that does not fit the name field.
   */
  lemma PayloadComesBack(rules: Rules, tree: Tree, origin: Origin, order: seq<Name>, manifest: Manifest)
    requires Packable(rules, tree, origin, order) && PayloadChecked(rules, tree, manifest)
    requires MANIFEST in tree.files && rules.readManifest(tree.files[MANIFEST].data) == Some(manifest)
    requires tree.dirs != {}
    ensures Unpacked(rules, Packed(tree, origin, order))
         == if AnyStretched(tree, order, 0) then Failure(UnsafeMember) else Success((Received(tree), manifest))
  {
    PackedStreamFits(rules, tree, origin, order);
    ArchiveRoundTrip.ArchiveRoundTrip(rules, tree, origin, order, manifest);
  }

  lemma AllSizes(tree: Tree, order: seq<Name>)
    requires Enumerates(order, tree)
    ensures Bytes(Sizes(tree, order, |order|)) == Size(tree, Names(tree))
  {
    var n := |order|;
    SizesAddUp(tree, order, n);
    SizeBeforeIsPart(tree, order, n);
    assert order[..n] == order;
    assert Names(tree) - Before(order, n) == {};
  }
}
