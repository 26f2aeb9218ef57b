/** Which header blocks are read, which numbers they may hold, and that no byte of one can be changed. */
module HeaderChecks {
  import opened Options
  import opened Ustar

  /** How many bytes count as negative in the signed sum. */
  function High(s: seq<Byte>): nat {
    if s == [] then 0 else High(s[..|s| - 1]) + if s[|s| - 1] < 128 then 0 else 1
  }

  lemma {:induction false} SignedIsSum(s: seq<Byte>)
    ensures SignedSum(s) == Sum(s) - 256 * High(s)
  {
    if s != [] {
      SignedIsSum(s[..|s| - 1]);
    }
  }

  lemma {:induction false} SumChanges(s: seq<Byte>, i: nat, b: Byte)
    requires i < |s|
    ensures Sum(s[i := b]) == Sum(s) - s[i] + b
    decreases |s|
  {
    var n, t := |s| - 1, s[i := b];
    if i == n {
      assert t[..n] == s[..n];
    } else {
      SumChanges(s[..n], i, b);
      assert t[..n] == s[..n][i := b];
    }
  }

  /** The sum of all bytes of a block, those of the checksum field taken as blanks. */
  function Total(block: seq<Byte>): nat
    requires |block| == 512
  {
    Sum(block[..148]) + 8 * 32 + Sum(block[156..])
  }

  /** The seven number fields hold numbers, whether they are used or not. */
  predicate HasNumbers(block: seq<Byte>)
    requires |block| == 512
  {
    && Number(block[100..108]).Some? && Number(block[108..116]).Some? && Number(block[116..124]).Some?
    && Number(block[124..136]).Some? && Number(block[136..148]).Some?
    && Number(block[329..337]).Some? && Number(block[337..345]).Some?
  }

  lemma NumbersAreFields(block: seq<Byte>)
    requires |block| == 512
    ensures NumbersAreValid(block) <==> HasNumbers(block)
  {
    assert {108, 116, 124, 136, 148, 337, 345} == NUMBER_ENDS;
    assert NumberAt(block, 108) == Number(block[100..108]);
    assert NumberAt(block, 116) == Number(block[108..116]) && NumberAt(block, 124) == Number(block[116..124]);
    assert NumberAt(block, 136) == Number(block[124..136]) && NumberAt(block, 148) == Number(block[136..148]);
    assert NumberAt(block, 337) == Number(block[329..337]) && NumberAt(block, 345) == Number(block[337..345]);
  }

  /** A block is read exactly when its numbers can be and its bytes, unsigned or signed, have the stored sum. */
  lemma ReadableExactly(block: seq<Byte>)
    requires |block| == 512
    ensures Decode(block).Some? <==>
              && HasNumbers(block)
              && (var stored, high := Number(block[148..156]), High(block[..148]) + High(block[156..]);
                  stored == Some(Total(block)) || stored == Some(Total(block) - 256 * high))
  {
    NumbersAreFields(block);
    SignedIsSum(block[..148]);
    SignedIsSum(block[156..]);
  }

  /** Type and name of a header that is read: an old one is a directory by its slash, a prefix comes first. */
  lemma ReadNameAndKind(block: seq<Byte>)
    requires |block| == 512 && Decode(block).Some?
    ensures
      var h, name, prefix := Decode(block).value, Text(block[..100]), Text(block[345..500]);
      && (h.kind == 53 <==> block[156] == 53 || (block[156] == 0 && name != [] && name[|name| - 1] == 47))
      && (h.kind != 53 ==> h.kind == block[156])
      && (prefix == [] && h.kind != 53 ==> h.name == name)
      && (prefix != [] && h.kind in {0, 48} ==> h.name == prefix + [47] + name)
      && (prefix != [] && h.kind in {75, 76, 83} ==> h.name == name)
  {
  }

  // ----- numbers as other writers store them

  predicate Blank(s: seq<Byte>) {
    forall i :: 0 <= i < |s| ==> s[i] == 32 || 9 <= s[i] <= 13
  }

  lemma {:induction false} StrippedOfBlank(s: seq<Byte>)
    requires Blank(s)
    ensures Stripped(s) == []
    decreases |s|
  {
    if s != [] {
      StrippedOfBlank(s[1..]);
    }
  }

  lemma {:induction false} StrippedOfPadded(before: seq<Byte>, text: seq<Byte>, after: seq<Byte>)
    requires Blank(before) && Blank(after) && text != [] && !IsBlank(text[0]) && !IsBlank(text[|text| - 1])
    ensures Stripped(before + text + after) == text
    decreases |before| + |after|
  {
    var s := before + text + after;
    if before != [] {
      assert s[1..] == before[1..] + text + after;
      StrippedOfPadded(before[1..], text, after);
    } else if after != [] {
      assert s[..|s| - 1] == before + text + after[..|after| - 1];
      StrippedOfPadded(before, text, after[..|after| - 1]);
    } else {
      assert s == text;
    }
  }

  predicate Plain(s: seq<Byte>) {
    forall i :: 0 <= i < |s| ==> 0 < s[i] < 128
  }

  lemma PlainNumber(text: seq<Byte>, tail: seq<Byte>)
    requires Plain(text) && text != [] && (tail != [] ==> tail[0] == 0)
    ensures Number(text + tail)
         == (match ParseOctal(Stripped(text)) case Some(n) => Some(n as int) case None => None)
  {
    assert (text + tail)[0] == text[0];
    TextOfPadded(text, tail);
  }

  /** An octal number may stand between blanks; what follows a NUL does not matter. */
  lemma PaddedOctalReads(before: seq<Byte>, n: nat, width: nat, after: seq<Byte>, tail: seq<Byte>)
    requires n < Power(8, width) && width > 0 && Blank(before) && Blank(after) && (tail != [] ==> tail[0] == 0)
    ensures Number(before + Octal(n, width) + after + tail) == Some(n)
  {
    assert Plain(before) && Plain(Octal(n, width)) && Plain(after);
    PlainNumber(before + Octal(n, width) + after, tail);
    StrippedOfPadded(before, Octal(n, width), after);
    OctalRoundTrip(n, width);
  }

  /** A field of blanks, or without any text, is zero. */
  lemma EmptyNumberIsZero(blanks: seq<Byte>, tail: seq<Byte>)
    requires Blank(blanks) && (tail != [] ==> tail[0] == 0) && blanks + tail != []
    ensures Number(blanks + tail) == Some(0)
  {
    TextOfPadded(blanks, tail);
    StrippedOfBlank(blanks);
    assert (blanks + tail)[0] == if blanks != [] then blanks[0] else tail[0];
  }

  /** Behind a marker byte a number is big-endian, in two's complement when the marker is 255. */
  lemma WideNumber(marker: Byte, bytes: seq<Byte>, last: Byte)
    requires marker in {128, 255}
    ensures Number([marker]) == Some(if marker == 128 then 0 else -1)
    ensures Number([marker] + bytes).Some?
    ensures Number([marker] + bytes + [last]) == Some(256 * Number([marker] + bytes).value + last)
  {
    assert ([marker] + bytes)[1..] == bytes;
    assert ([marker] + bytes + [last])[1..] == bytes + [last];
    assert (bytes + [last])[..|bytes|] == bytes;
    assert [marker][1..] == [];
  }

  lemma TotalChanges(block: seq<Byte>, i: nat, b: Byte)
    requires |block| == 512 && (i < 148 || 156 <= i < 512)
    ensures Total(block[i := b]) == Total(block) - block[i] + b
    ensures block[i := b][148..156] == block[148..156]
  {
    var changed := block[i := b];
    if i < 148 {
      SumChanges(block[..148], i, b);
      assert changed[..148] == block[..148][i := b] && changed[156..] == block[156..];
    } else {
      SumChanges(block[156..], i - 156, b);
      assert changed[..148] == block[..148] && changed[156..] == block[156..][i - 156 := b];
    }
  }

  /** A block whose checksum is right is refused once any other byte of it is changed. */
  lemma ChangedByteIsRefused(block: seq<Byte>, i: nat, b: Byte)
    requires |block| == 512 && Number(block[148..156]) == Some(Total(block))
    requires (i < 148 || 156 <= i < 512) && b != block[i]
    ensures Decode(block[i := b]).None?
  {
    TotalChanges(block, i, b);
    ReadableExactly(block[i := b]);
  }

  /** So a written header survives no change of a byte outside its checksum. */
  lemma WrittenHeaderIsGuarded(name: Name, prefix: Name, directory: bool, stat: Stat, i: nat, b: Byte)
    requires |name| <= NAME_WIDTH && |prefix| <= PREFIX_WIDTH && StatFits(stat)
    requires i < 148 || 156 <= i < 512
    ensures
      var block := Encode(name, prefix, directory, stat);
      |block| == 512 && (b != block[i] ==> Decode(block[i := b]).None?)
  {
    StoredIsTotal(name, prefix, directory, stat);
    var block := Encode(name, prefix, directory, stat);
    if b != block[i] {
      ChangedByteIsRefused(block, i, b);
    }
  }

  lemma StoredIsTotal(name: Name, prefix: Name, directory: bool, stat: Stat)
    requires |name| <= NAME_WIDTH && |prefix| <= PREFIX_WIDTH && StatFits(stat)
    ensures |Encode(name, prefix, directory, stat)| == 512
    ensures var block := Encode(name, prefix, directory, stat);
            Number(block[148..156]) == Some(Total(block))
  {
    BlockWidth(name, prefix, directory, stat, BLANKS);
    var sum := Checksum(Glue(Parts(name, prefix, directory, stat, BLANKS)));
    var checksum := Octal(sum, 6) + [0, SPACE];
    ChecksumIgnoresItself(name, prefix, directory, stat, BLANKS, checksum);
    BlockFields(name, prefix, directory, stat, checksum);
    NumberOfOctal(sum, 6, [0, SPACE]);
  }
}
