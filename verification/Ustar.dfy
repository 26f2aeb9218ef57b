/**
 One header block of the ustar Interchange Format (pax utility, IEEE Std 1003.1): how the archive
 writer fills it and what the archive reader takes from it.
 */
module Ustar {
  import opened Options

  type Byte = b: int | 0 <= b < 256
  type Name = seq<Byte>

  const BLOCK: nat := 512
  const NAME_WIDTH: nat := 100
  const PREFIX_WIDTH: nat := 155
  const SLASH: Byte := 47
  const SPACE: Byte := 32
  const REGULAR: Byte := 48
  const OLD_REGULAR: Byte := 0
  const DIRECTORY: Byte := 53
  const GNU_TYPES: set<Byte> := {75, 76, 83}
  const MAGIC: seq<Byte> := [117, 115, 116, 97, 114, 0, 48, 48]

  function Zeros(n: nat): (r: seq<Byte>)
    ensures |r| == n && forall i :: 0 <= i < n ==> r[i] == 0
  {
    seq(n, i => 0)
  }

  // ----- number fields

  function Power(base: nat, exponent: nat): (r: nat)
    ensures base > 0 ==> r > 0
  {
    if exponent == 0 then 1 else base * Power(base, exponent - 1)
  }

  /** The number in octal digits, with leading zeros. */
  function Octal(n: nat, width: nat): (digits: seq<Byte>)
    ensures |digits| == width && forall i :: 0 <= i < width ==> 48 <= digits[i] < 56
  {
    if width == 0 then [] else Octal(n / 8, width - 1) + [48 + n % 8]
  }

  function ParseOctal(digits: seq<Byte>): Option<nat> {
    if digits == [] then Some(0)
    else
      var last := digits[|digits| - 1];
      var front := ParseOctal(digits[..|digits| - 1]);
      if front.Some? && 48 <= last < 56 then Some(8 * front.value + (last - 48)) else None
  }

  lemma Divided(n: nat, p: nat)
    requires n < 8 * p
    ensures n / 8 < p && n == 8 * (n / 8) + n % 8
  {
  }

  lemma {:induction false} OctalRoundTrip(n: nat, width: nat)
    requires n < Power(8, width)
    ensures ParseOctal(Octal(n, width)) == Some(n)
  {
    if width > 0 {
      Divided(n, Power(8, width - 1));
      OctalRoundTrip(n / 8, width - 1);
      assert Octal(n, width)[..width - 1] == Octal(n / 8, width - 1);
    }
  }

  predicate IsBlank(b: Byte) {
    b == SPACE || 9 <= b <= 13
  }

  function Stripped(s: seq<Byte>): seq<Byte>
    decreases |s|
  {
    if s != [] && IsBlank(s[0]) then Stripped(s[1..])
    else if s != [] && IsBlank(s[|s| - 1]) then Stripped(s[..|s| - 1])
    else s
  }

  /** What comes before the first NUL. */
  function Text(field: seq<Byte>): seq<Byte> {
    if field == [] || field[0] == 0 then [] else [field[0]] + Text(field[1..])
  }

  lemma {:induction false} TextOfPadded(s: seq<Byte>, tail: seq<Byte>)
    requires 0 !in s && (tail != [] ==> tail[0] == 0)
    ensures Text(s + tail) == s
  {
    if s == [] {
      assert s + tail == tail;
    } else {
      assert (s + tail)[1..] == s[1..] + tail;
      TextOfPadded(s[1..], tail);
    }
  }

  function Base256(bytes: seq<Byte>): nat {
    if bytes == [] then 0 else 256 * Base256(bytes[..|bytes| - 1]) + bytes[|bytes| - 1]
  }

  /** A number field: octal text, or base 256 behind a marker byte. */
  function Number(field: seq<Byte>): Option<int>
    requires field != []
  {
    if field[0] == 128 then Some(Base256(field[1..]))
    else if field[0] == 255 then Some(Base256(field[1..]) - Power(256, |field| - 1))
    else
      match ParseOctal(Stripped(Text(field)))
      case Some(n) => Some(n as int)
      case None => None
  }

  lemma NumberOfOctal(n: nat, width: nat, tail: seq<Byte>)
    requires n < Power(8, width) && width > 0 && tail != [] && tail[0] == 0
    ensures Number(Octal(n, width) + tail) == Some(n)
  {
    TextOfPadded(Octal(n, width), tail);
    OctalRoundTrip(n, width);
  }

  // ----- blocks made of fields

  function Glue(parts: seq<seq<Byte>>): seq<Byte> {
    if parts == [] then [] else Glue(parts[..|parts| - 1]) + parts[|parts| - 1]
  }

  function Offset(parts: seq<seq<Byte>>, i: nat): nat
    requires i <= |parts|
  {
    if i == 0 then 0 else Offset(parts, i - 1) + |parts[i - 1]|
  }

  lemma {:induction false} OffsetOfPrefix(parts: seq<seq<Byte>>, n: nat, i: nat)
    requires i <= n <= |parts|
    ensures Offset(parts[..n], i) == Offset(parts, i)
  {
    if i > 0 {
      OffsetOfPrefix(parts, n, i - 1);
    }
  }

  lemma {:induction false} GlueSlice(parts: seq<seq<Byte>>, i: nat)
    requires i < |parts|
    ensures |Glue(parts)| == Offset(parts, |parts|)
    ensures Offset(parts, i) <= Offset(parts, i + 1) <= |Glue(parts)|
    ensures Glue(parts)[Offset(parts, i)..Offset(parts, i + 1)] == parts[i]
    decreases |parts|
  {
    var front := parts[..|parts| - 1];
    OffsetOfPrefix(parts, |front|, |front|);
    OffsetOfPrefix(parts, |front|, i);
    assert Glue(parts) == Glue(front) + parts[|front|];
    if front == [] {
    } else if i == |front| {
      GlueSlice(front, 0);
      assert Offset(parts, i) == |Glue(front)|;
    } else {
      GlueSlice(front, i);
      OffsetOfPrefix(parts, |front|, i + 1);
      assert Glue(parts)[Offset(parts, i)..Offset(parts, i + 1)] == Glue(front)[Offset(parts, i)..Offset(parts, i + 1)];
    }
  }

  // ----- the checksum

  function Sum(s: seq<Byte>): nat {
    if s == [] then 0 else Sum(s[..|s| - 1]) + s[|s| - 1]
  }

  function SignedSum(s: seq<Byte>): int {
    if s == [] then 0
    else SignedSum(s[..|s| - 1]) + (if s[|s| - 1] < 128 then 0 else -256) + s[|s| - 1]
  }

  lemma {:induction false} SumBound(s: seq<Byte>)
    ensures Sum(s) <= 255 * |s|
  {
    if s != [] {
      SumBound(s[..|s| - 1]);
    }
  }

  /** The sum of a block with its checksum field read as blanks. */
  function Checksum(block: seq<Byte>): nat
    requires |block| == BLOCK
  {
    256 + Sum(block[..148]) + Sum(block[156..])
  }

  predicate ChecksumFits(block: seq<Byte>)
    requires |block| == BLOCK
  {
    var stored := Number(block[148..156]);
    stored == Some(Checksum(block)) || stored == Some(256 + SignedSum(block[..148]) + SignedSum(block[156..]))
  }

  // ----- reading a header

  /** What the reader uses of a header; `kind` is the type flag. */
  datatype Header = Header(name: Name, mode: int, size: int, kind: Byte)

  function WithoutSlashes(name: Name): Name
    decreases |name|
  {
    if name != [] && name[|name| - 1] == SLASH then WithoutSlashes(name[..|name| - 1]) else name
  }

  /** A directory may be marked by its name alone; a prefix is joined to the name by a slash. */
  function FullName(name: Name, prefix: Name, kind: Byte): Name {
    var own := if kind == DIRECTORY then WithoutSlashes(name) else name;
    if prefix != [] && kind !in GNU_TYPES then prefix + [SLASH] + own else own
  }

  /** Where the number fields end: mode, owner, group, size, time, and the device numbers. */
  const NUMBER_ENDS: set<nat> := {108, 116, 124, 136, 148, 337, 345}

  function NumberAt(block: seq<Byte>, end: nat): Option<int>
    requires |block| == BLOCK && 108 <= end <= BLOCK
  {
    Number(block[end - (if end == 136 || end == 148 then 12 else 8)..end])
  }

  predicate NumbersAreValid(block: seq<Byte>)
    requires |block| == BLOCK
  {
    forall end :: end in NUMBER_ENDS ==> NumberAt(block, end).Some?
  }

  function Decode(block: seq<Byte>): Option<Header>
    requires |block| == BLOCK
  {
    if !ChecksumFits(block) || !NumbersAreValid(block) then None
    else
      var name := Text(block[..100]);
      var flag := block[156];
      var kind := if flag == OLD_REGULAR && name != [] && name[|name| - 1] == SLASH then DIRECTORY else flag;
      Some(Header(FullName(name, Text(block[345..500]), kind),
                  NumberAt(block, 108).value, NumberAt(block, 136).value, kind))
  }

  predicate HasMagic(block: seq<Byte>)
    requires |block| == BLOCK
  {
    block[257..265] == MAGIC
  }

  // ----- writing a header

  /** What the writer stores besides the name; the rest is owner, time and names of the owner. */
  datatype Stat = Stat(mode: nat, size: nat, uid: nat, gid: nat, mtime: nat, uname: seq<Byte>, gname: seq<Byte>)

  predicate StatFits(stat: Stat) {
    && stat.mode < Power(8, 7) && stat.uid < Power(8, 7) && stat.gid < Power(8, 7)
    && stat.size < Power(8, 11) && stat.mtime < Power(8, 11)
    && |stat.uname| <= 32 && |stat.gname| <= 32
  }

  predicate SplitsAt(name: Name, k: nat) {
    k < |name| && name[k] == SLASH && k <= PREFIX_WIDTH && |name| - k - 1 <= NAME_WIDTH
  }

  /** The first slash, from `k` on, at which both halves fit. */
  function FirstSplit(name: Name, k: nat): (r: Option<nat>)
    requires k <= |name|
    ensures r.Some? ==> k <= r.value && SplitsAt(name, r.value)
    ensures r.Some? ==> forall j :: k <= j < r.value ==> !SplitsAt(name, j)
    ensures r.None? ==> forall j :: k <= j ==> !SplitsAt(name, j)
    decreases |name| - k
  {
    if k == |name| then None else if SplitsAt(name, k) then Some(k) else FirstSplit(name, k + 1)
  }

  /** The name and prefix fields; a directory's name is stored with a slash behind it. */
  function NameFields(stored: Name): Option<(Name, Name)> {
    if |stored| <= NAME_WIDTH then Some((stored, []))
    else
      match FirstSplit(stored, 0)
      case Some(k) => Some((stored[k + 1..], stored[..k]))
      case None => None
  }

  function Stored(name: Name, directory: bool): Name {
    if directory then name + [SLASH] else name
  }

  function Padded(s: seq<Byte>, width: nat): (r: seq<Byte>)
    requires |s| <= width
    ensures |r| == width
  {
    s + Zeros(width - |s|)
  }

  /** The fields of a header, from the name to the unused end. */
  function Field(name: Name, prefix: Name, directory: bool, stat: Stat, checksum: seq<Byte>, i: nat): seq<Byte>
    requires |name| <= NAME_WIDTH && |prefix| <= PREFIX_WIDTH && StatFits(stat)
  {
    if i == 0 then Padded(name, 100)
    else if i == 1 then Octal(stat.mode, 7) + [0]
    else if i == 2 then Octal(stat.uid, 7) + [0]
    else if i == 3 then Octal(stat.gid, 7) + [0]
    else if i == 4 then Octal(stat.size, 11) + [0]
    else if i == 5 then Octal(stat.mtime, 11) + [0]
    else if i == 6 then checksum
    else if i == 7 then [if directory then DIRECTORY else REGULAR]
    else if i == 8 then Zeros(100)
    else if i == 9 then MAGIC
    else if i == 10 then Padded(stat.uname, 32)
    else if i == 11 then Padded(stat.gname, 32)
    else if i <= 13 then Zeros(8)
    else if i == 14 then Padded(prefix, 155)
    else Zeros(12)
  }

  function Parts(name: Name, prefix: Name, directory: bool, stat: Stat, checksum: seq<Byte>): (r: seq<seq<Byte>>)
    requires |name| <= NAME_WIDTH && |prefix| <= PREFIX_WIDTH && StatFits(stat)
    ensures |r| == 16
  {
    seq(16, i requires 0 <= i < 16 && |name| <= NAME_WIDTH && |prefix| <= PREFIX_WIDTH && StatFits(stat) =>
      Field(name, prefix, directory, stat, checksum, i))
  }

  const BLANKS: seq<Byte> := [32, 32, 32, 32, 32, 32, 32, 32]

  function Encode(name: Name, prefix: Name, directory: bool, stat: Stat): seq<Byte>
    requires |name| <= NAME_WIDTH && |prefix| <= PREFIX_WIDTH && StatFits(stat)
  {
    var draft := Glue(Parts(name, prefix, directory, stat, BLANKS));
    BlockWidth(name, prefix, directory, stat, BLANKS);
    Glue(Parts(name, prefix, directory, stat, Octal(Checksum(draft), 6) + [0, SPACE]))
  }

  /** Where each field lies. */
  lemma BlockOffsets(name: Name, prefix: Name, directory: bool, stat: Stat, checksum: seq<Byte>)
    requires |name| <= NAME_WIDTH && |prefix| <= PREFIX_WIDTH && StatFits(stat) && |checksum| == 8
    ensures
      var p := Parts(name, prefix, directory, stat, checksum);
      && Offset(p, 1) == 100 && Offset(p, 2) == 108 && Offset(p, 3) == 116 && Offset(p, 4) == 124
      && Offset(p, 5) == 136 && Offset(p, 6) == 148 && Offset(p, 7) == 156 && Offset(p, 8) == 157
      && Offset(p, 9) == 257 && Offset(p, 10) == 265 && Offset(p, 11) == 297 && Offset(p, 12) == 329
      && Offset(p, 13) == 337 && Offset(p, 14) == 345 && Offset(p, 15) == 500 && Offset(p, 16) == 512
  {
    var p := Parts(name, prefix, directory, stat, checksum);
    assert Offset(p, 0) == 0;
    assert Offset(p, 1) == 100;
    assert Offset(p, 2) == 108;
    assert Offset(p, 3) == 116;
    assert Offset(p, 4) == 124;
    assert Offset(p, 5) == 136;
    assert Offset(p, 6) == 148;
    assert Offset(p, 7) == 156;
    assert Offset(p, 8) == 157;
    assert Offset(p, 9) == 257;
    assert Offset(p, 10) == 265;
    assert Offset(p, 11) == 297;
    assert Offset(p, 12) == 329;
    assert Offset(p, 13) == 337;
    assert Offset(p, 14) == 345;
    assert Offset(p, 15) == 500;
  }

  lemma BlockWidth(name: Name, prefix: Name, directory: bool, stat: Stat, checksum: seq<Byte>)
    requires |name| <= NAME_WIDTH && |prefix| <= PREFIX_WIDTH && StatFits(stat) && |checksum| == 8
    ensures |Glue(Parts(name, prefix, directory, stat, checksum))| == BLOCK
  {
    BlockOffsets(name, prefix, directory, stat, checksum);
    GlueSlice(Parts(name, prefix, directory, stat, checksum), 0);
  }

  lemma {:induction false} SameHead(p: seq<seq<Byte>>, q: seq<seq<Byte>>, i: nat)
    requires i <= |p| == |q| && forall j :: 0 <= j < i ==> p[j] == q[j]
    ensures Offset(p, i) == Offset(q, i) <= |Glue(p)| && Offset(q, i) <= |Glue(q)|
    ensures Glue(p)[..Offset(p, i)] == Glue(q)[..Offset(q, i)]
    decreases |p|
  {
    if |p| > 0 {
      var n := |p| - 1;
      GlueWidth(p);
      GlueWidth(q);
      if i <= n {
        SameHead(p[..n], q[..n], i);
        OffsetOfPrefix(p, n, i);
        OffsetOfPrefix(q, n, i);
      } else {
        SameHead(p[..n], q[..n], n);
        OffsetOfPrefix(p, n, n);
        OffsetOfPrefix(q, n, n);
        GlueWidth(p[..n]);
        GlueWidth(q[..n]);
        assert Glue(p[..n]) == Glue(p[..n])[..Offset(p, n)];
        assert Glue(q[..n]) == Glue(q[..n])[..Offset(q, n)];
        assert Glue(p) == Glue(q);
      }
    }
  }

  lemma {:induction false} GlueWidth(p: seq<seq<Byte>>)
    ensures |Glue(p)| == Offset(p, |p|)
  {
    if p != [] {
      GlueSlice(p, 0);
    }
  }

  lemma {:induction false} SameTail(p: seq<seq<Byte>>, q: seq<seq<Byte>>, i: nat)
    requires i <= |p| == |q| && forall j :: i <= j < |p| ==> p[j] == q[j]
    ensures Offset(p, i) <= |Glue(p)| && Offset(q, i) <= |Glue(q)|
    ensures Glue(p)[Offset(p, i)..] == Glue(q)[Offset(q, i)..]
    decreases |p|
  {
    GlueWidth(p);
    GlueWidth(q);
    if i < |p| {
      var n := |p| - 1;
      SameTail(p[..n], q[..n], i);
      OffsetOfPrefix(p, n, i);
      OffsetOfPrefix(q, n, i);
      assert Glue(p)[Offset(p, i)..] == Glue(p[..n])[Offset(p, i)..] + p[n];
      assert Glue(q)[Offset(q, i)..] == Glue(q[..n])[Offset(q, i)..] + q[n];
    }
  }

  /** The checksum does not depend on the checksum field, and six octal digits hold it. */
  lemma ChecksumIgnoresItself(name: Name, prefix: Name, directory: bool, stat: Stat, a: seq<Byte>, b: seq<Byte>)
    requires |name| <= NAME_WIDTH && |prefix| <= PREFIX_WIDTH && StatFits(stat) && |a| == |b| == 8
    ensures
      var p, q := Parts(name, prefix, directory, stat, a), Parts(name, prefix, directory, stat, b);
      && |Glue(p)| == |Glue(q)| == BLOCK && Checksum(Glue(p)) == Checksum(Glue(q)) < Power(8, 6)
  {
    var p, q := Parts(name, prefix, directory, stat, a), Parts(name, prefix, directory, stat, b);
    BlockWidth(name, prefix, directory, stat, a);
    BlockWidth(name, prefix, directory, stat, b);
    BlockOffsets(name, prefix, directory, stat, a);
    BlockOffsets(name, prefix, directory, stat, b);
    SameHead(p, q, 6);
    SameTail(p, q, 7);
    SumBound(Glue(p)[..148]);
    SumBound(Glue(p)[156..]);
    SixDigits();
  }

  lemma SixDigits()
    ensures Power(8, 6) == 262144
  {
    assert Power(8, 1) == 8;
    assert Power(8, 2) == 64;
    assert Power(8, 3) == 512;
    assert Power(8, 4) == 4096;
    assert Power(8, 5) == 32768;
  }

  /** The block is exactly its fields. */
  lemma BlockFields(name: Name, prefix: Name, directory: bool, stat: Stat, checksum: seq<Byte>)
    requires |name| <= NAME_WIDTH && |prefix| <= PREFIX_WIDTH && StatFits(stat) && |checksum| == 8
    ensures
      var p := Parts(name, prefix, directory, stat, checksum);
      var block := Glue(p);
      && |block| == BLOCK
      && block[..100] == p[0] && block[100..108] == p[1] && block[108..116] == p[2] && block[116..124] == p[3]
      && block[124..136] == p[4] && block[136..148] == p[5] && block[148..156] == p[6] && block[156..157] == p[7]
      && block[257..265] == p[9] && block[329..337] == p[12] && block[337..345] == p[13]
      && block[345..500] == p[14]
  {
    var p := Parts(name, prefix, directory, stat, checksum);
    BlockOffsets(name, prefix, directory, stat, checksum);
    BlockWidth(name, prefix, directory, stat, checksum);
    GlueSlice(p, 0);
    GlueSlice(p, 1);
    GlueSlice(p, 2);
    GlueSlice(p, 3);
    GlueSlice(p, 4);
    GlueSlice(p, 5);
    GlueSlice(p, 6);
    GlueSlice(p, 7);
    GlueSlice(p, 9);
    GlueSlice(p, 12);
    GlueSlice(p, 13);
    GlueSlice(p, 14);
    assert Glue(p)[0..100] == Glue(p)[..100];
  }

  /** The number fields read as they were written. */
  lemma NumbersRead(name: Name, prefix: Name, directory: bool, stat: Stat, checksum: seq<Byte>)
    requires |name| <= NAME_WIDTH && |prefix| <= PREFIX_WIDTH && StatFits(stat) && |checksum| == 8
    ensures
      var block := Glue(Parts(name, prefix, directory, stat, checksum));
      && |block| == BLOCK && NumbersAreValid(block)
      && NumberAt(block, 108) == Some(stat.mode) && NumberAt(block, 136) == Some(stat.size)
  {
    BlockFields(name, prefix, directory, stat, checksum);
    NumbersOfBlock(Glue(Parts(name, prefix, directory, stat, checksum)), stat);
  }

  lemma NumbersOfBlock(block: seq<Byte>, stat: Stat)
    requires |block| == BLOCK && StatFits(stat)
    requires block[100..108] == Octal(stat.mode, 7) + [0] && block[108..116] == Octal(stat.uid, 7) + [0]
    requires block[116..124] == Octal(stat.gid, 7) + [0] && block[124..136] == Octal(stat.size, 11) + [0]
    requires block[136..148] == Octal(stat.mtime, 11) + [0]
    requires block[329..337] == Zeros(8) && block[337..345] == Zeros(8)
    ensures NumbersAreValid(block)
    ensures NumberAt(block, 108) == Some(stat.mode) && NumberAt(block, 136) == Some(stat.size)
  {
    OctalsRead(stat);
    ZeroReads();
  }

  lemma ZeroReads()
    ensures Number(Zeros(8)) == Some(0)
  {
  }

  lemma OctalsRead(stat: Stat)
    requires StatFits(stat)
    ensures Number(Octal(stat.mode, 7) + [0]) == Some(stat.mode) && Number(Octal(stat.uid, 7) + [0]) == Some(stat.uid)
    ensures Number(Octal(stat.gid, 7) + [0]) == Some(stat.gid) && Number(Octal(stat.size, 11) + [0]) == Some(stat.size)
    ensures Number(Octal(stat.mtime, 11) + [0]) == Some(stat.mtime)
  {
    NumberOfOctal(stat.mode, 7, [0]);
    NumberOfOctal(stat.uid, 7, [0]);
    NumberOfOctal(stat.gid, 7, [0]);
    NumberOfOctal(stat.size, 11, [0]);
    NumberOfOctal(stat.mtime, 11, [0]);
  }

  /** The stored checksum is the block's own. */
  lemma ChecksumRead(name: Name, prefix: Name, directory: bool, stat: Stat)
    requires |name| <= NAME_WIDTH && |prefix| <= PREFIX_WIDTH && StatFits(stat)
    ensures |Encode(name, prefix, directory, stat)| == BLOCK && ChecksumFits(Encode(name, prefix, directory, stat))
  {
    BlockWidth(name, prefix, directory, stat, BLANKS);
    var sum := Checksum(Glue(Parts(name, prefix, directory, stat, BLANKS)));
    var checksum := Octal(sum, 6) + [0, SPACE];
    ChecksumIgnoresItself(name, prefix, directory, stat, BLANKS, checksum);
    BlockFields(name, prefix, directory, stat, checksum);
    NumberOfOctal(sum, 6, [0, SPACE]);
  }

  /** The reader gets back what the writer stored. */
  lemma HeaderRoundTrip(name: Name, prefix: Name, directory: bool, stat: Stat)
    requires |name| <= NAME_WIDTH && |prefix| <= PREFIX_WIDTH && StatFits(stat)
    requires 0 !in name && 0 !in prefix
    ensures
      var block := Encode(name, prefix, directory, stat);
      var kind := if directory then DIRECTORY else REGULAR;
      && |block| == BLOCK && HasMagic(block)
      && Decode(block) == Some(Header(FullName(name, prefix, kind), stat.mode, stat.size, kind))
  {
    ChecksumRead(name, prefix, directory, stat);
    BlockWidth(name, prefix, directory, stat, BLANKS);
    var checksum := Octal(Checksum(Glue(Parts(name, prefix, directory, stat, BLANKS))), 6) + [0, SPACE];
    BlockFields(name, prefix, directory, stat, checksum);
    NumbersRead(name, prefix, directory, stat, checksum);
    TextOfPadded(name, Zeros(100 - |name|));
    TextOfPadded(prefix, Zeros(155 - |prefix|));
    var block := Encode(name, prefix, directory, stat);
    assert block[156] == block[156..157][0];
  }
}
