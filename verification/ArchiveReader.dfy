/**
 Reading an archive: the bounded stream, its header and data blocks, the terminator, and the
 comparison of what was read with the manifest.
 */
module ArchiveReader {
  import opened Options
  import opened Ustar
  import opened ArchiveTree

  const RECORD: nat := 10240
  const CHUNK: nat := 1048576

  function StreamLimit(rules: Rules): nat {
    rules.maxUnpacked + rules.maxMembers * 1024 + RECORD
  }

  /** What the reading loop carries along. */
  datatype Progress = Progress(names: set<Name>, total: nat, tree: Tree)

  const START := Progress({}, 0, Tree({}, map[]))

  function Padding(size: nat): nat {
    (BLOCK - size % BLOCK) % BLOCK
  }

  predicate AllZero(s: seq<Byte>) {
    forall i :: 0 <= i < |s| ==> s[i] == 0
  }

  // ----- the reader as a function of the stream

  predicate Sized(h: Header) {
    0 <= h.size && (h.kind == DIRECTORY ==> h.size == 0)
  }

  /** The bytes that the data of a member takes, with its padding. */
  function Extent(h: Header): nat
    requires Sized(h)
  {
    h.size + Padding(h.size)
  }

  /** The checks on a header before its data is read, in the order in which they are made. */
  function Admitted(rules: Rules, p: Progress, block: seq<Byte>, h: Header): (r: Result<Progress, Error>)
    requires |block| == BLOCK
    ensures r.Success? ==> Sized(h)
  {
    if !Safe(rules, h.name) then Failure(UnsafeMember)
    else if rules.fold(h.name) in p.names then Failure(DuplicateMember)
    else if |p.names + {rules.fold(h.name)}| > rules.maxMembers then Failure(TooManyMembers)
    else if !HasMagic(block) || h.kind !in {REGULAR, OLD_REGULAR, DIRECTORY} then Failure(ForbiddenType)
    else if h.size < 0 || (h.kind == DIRECTORY && h.size != 0) then Failure(InvalidSize)
    else if p.total + h.size > rules.maxUnpacked then Failure(TooLarge)
    else if h.name == MANIFEST && h.size > rules.maxManifest then Failure(ManifestTooLarge)
    else Success(p.(names := p.names + {rules.fold(h.name)}, total := p.total + h.size))
  }

  /** The data blocks behind an admitted header. */
  function Placed(q: Progress, h: Header, rest: seq<Byte>): (r: Result<Progress, Error>)
    requires Sized(h)
    ensures r.Success? ==> Extent(h) <= |rest|
  {
    if h.kind == DIRECTORY then
      match MakeDirectory(q.tree, h.name)
      case None => Failure(PathConflict)
      case Some(tree) => Success(q.(tree := tree))
    else if !CanCreate(q.tree, h.name) then Failure(PathConflict)
    else if |rest| < h.size then Failure(TruncatedMember)
    else if |rest| < Extent(h) || !AllZero(rest[h.size..Extent(h)]) then Failure(InvalidPadding)
    else Success(q.(tree := WithFile(q.tree, h.name, File(rest[..h.size], Restricted(h.mode)))))
  }

  function Terminated(rest: seq<Byte>): Option<Error> {
    if |rest| < BLOCK || !AllZero(rest[..BLOCK]) then Some(InvalidTerminator)
    else if |rest| - BLOCK > RECORD || !AllZero(rest[BLOCK..]) then Some(TrailingData)
    else None
  }

  /** A member whose header has been decoded, and the bytes it takes. */
  function Member(rules: Rules, p: Progress, rest: seq<Byte>, h: Header): (r: Result<(Progress, nat), Error>)
    requires |rest| >= BLOCK
    ensures r.Success? ==> BLOCK <= r.value.1 <= |rest|
  {
    match Admitted(rules, p, rest[..BLOCK], h)
    case Failure(e) => Failure(e)
    case Success(q) =>
      match Placed(q, h, rest[BLOCK..])
      case Failure(e) => Failure(e)
      case Success(placed) => Success((placed, BLOCK + Extent(h)))
  }

  function OneMember(rules: Rules, p: Progress, rest: seq<Byte>): (r: Result<(Progress, nat), Error>)
    requires |rest| >= BLOCK
    ensures r.Success? ==> BLOCK <= r.value.1 <= |rest|
  {
    match Decode(rest[..BLOCK])
    case None => Failure(InvalidHeader)
    case Some(h) => Member(rules, p, rest, h)
  }

  function ReadMembers(rules: Rules, p: Progress, rest: seq<Byte>): Result<Progress, Error>
    decreases |rest|
  {
    if |rest| < BLOCK then Failure(TruncatedHeader)
    else if AllZero(rest[..BLOCK]) then
      match Terminated(rest[BLOCK..])
      case Some(e) => Failure(e)
      case None => Success(p)
    else
      match OneMember(rules, p, rest)
      case Failure(e) => Failure(e)
      case Success(next) => ReadMembers(rules, next.0, rest[next.1..])
  }

  /** The whole reader: a tree and its manifest, or the reason for refusing the stream. */
  ghost function Unpacked(rules: Rules, stream: seq<Byte>): Result<(Tree, Manifest), Error> {
    if |stream| > StreamLimit(rules) then Failure(StreamTooLarge)
    else
      match ReadMembers(rules, START, stream)
      case Failure(e) => Failure(e)
      case Success(p) =>
        if MANIFEST !in p.tree.files then Failure(ManifestMissing)
        else
          match rules.readManifest(p.tree.files[MANIFEST].data)
          case None => Failure(ManifestMissing)
          case Some(manifest) =>
            if !PayloadChecked(rules, p.tree, manifest) then Failure(PayloadDiffers)
            else if FoldAll(rules, Expected(manifest)) != p.names then Failure(EntriesDiffer)
            else Success((p.tree, manifest))
  }

  function Expected(manifest: Manifest): set<Name> {
    (set n | n in manifest.directories) + manifest.files.Keys + {MANIFEST}
  }

  function FoldAll(rules: Rules, names: set<Name>): set<Name> {
    set n | n in names :: rules.fold(n)
  }

  /** A member is refused as unsafe exactly when its name is not clean. */
  lemma UnsafeIffNotClean(rules: Rules, p: Progress, block: seq<Byte>, h: Header)
    requires |block| == BLOCK
    ensures Admitted(rules, p, block, h) == Failure(UnsafeMember) <==> !CleanName(rules, h.name)
  {
    SafeIsClean(rules, h.name);
  }

  /** The stream may be as long as the settings allow, with a kilobyte for each member and one record. */
  lemma TooLargeIff(rules: Rules, stream: seq<Byte>)
    ensures Unpacked(rules, stream) == Failure(StreamTooLarge)
       <==> |stream| > rules.maxUnpacked + 1024 * rules.maxMembers + 10240
  {
    if |stream| <= StreamLimit(rules) {
      NotTooLarge(rules, START, stream);
    }
  }

  lemma {:induction false} NotTooLarge(rules: Rules, p: Progress, rest: seq<Byte>)
    ensures ReadMembers(rules, p, rest) != Failure(StreamTooLarge)
    decreases |rest|
  {
    if |rest| >= BLOCK && !AllZero(rest[..BLOCK]) && OneMember(rules, p, rest).Success? {
      var next := OneMember(rules, p, rest).value;
      NotTooLarge(rules, next.0, rest[next.1..]);
    }
  }

  // ----- the reader as it runs

  /** Bounds the decompressed stream while it arrives chunk by chunk. */
  method Decompress(rules: Rules, content: seq<Byte>) returns (r: Result<seq<Byte>, Error>)
    ensures r == if |content| > rules.maxUnpacked + 1024 * rules.maxMembers + 10240 then Failure(StreamTooLarge)
                 else Success(content)
  {
    var unpacked: seq<Byte> := [];
    while |unpacked| < |content|
      invariant |unpacked| <= |content| && unpacked == content[..|unpacked|]
      invariant |unpacked| <= StreamLimit(rules)
    {
      var n := if |content| - |unpacked| < CHUNK then |content| - |unpacked| else CHUNK;
      var data := content[|unpacked|..|unpacked| + n];
      if |unpacked| + |data| > StreamLimit(rules) {
        return Failure(StreamTooLarge);
      }
      unpacked := unpacked + data;
    }
    assert content[..|content|] == content;
    r := Success(unpacked);
  }

  /** Copies the data of a file in chunks. */
  method ReadData(rest: seq<Byte>, size: nat) returns (r: Option<seq<Byte>>)
    ensures r == if |rest| < size then None else Some(rest[..size])
  {
    var data: seq<Byte> := [];
    var remaining: nat := size;
    while remaining > 0
      invariant |data| + remaining == size && |data| <= |rest| && data == rest[..|data|]
    {
      var wanted := if remaining < CHUNK then remaining else CHUNK;
      var available := if |rest| - |data| < wanted then |rest| - |data| else wanted;
      if available == 0 {
        return None;
      }
      data := data + rest[|data|..|data| + available];
      remaining := remaining - available;
    }
    assert data == rest[..size];
    r := Some(data);
  }

  /** Reads what follows the terminator until the stream ends. */
  method ReadTrailer(rest: seq<Byte>) returns (ok: bool)
    ensures ok <==> |rest| <= RECORD && AllZero(rest)
  {
    var at: nat := 0;
    while at < |rest|
      invariant at <= |rest| && at <= RECORD && AllZero(rest[..at])
    {
      var n := if |rest| - at < CHUNK then |rest| - at else CHUNK;
      var block := rest[at..at + n];
      assert rest[..at + n] == rest[..at] + block;
      if !AllZero(block) || at + n > RECORD {
        return false;
      }
      at := at + n;
    }
    assert rest[..at] == rest;
    ok := true;
  }

  method PlaceMember(q: Progress, h: Header, rest: seq<Byte>) returns (r: Result<Progress, Error>)
    requires Sized(h)
    ensures r == Placed(q, h, rest)
  {
    if h.kind == DIRECTORY {
      var made := MakeDirectory(q.tree, h.name);
      return if made.None? then Failure(PathConflict) else Success(q.(tree := made.value));
    }
    if !CanCreate(q.tree, h.name) {
      return Failure(PathConflict);
    }
    var content := ReadData(rest, h.size);
    if content.None? {
      return Failure(TruncatedMember);
    }
    var padding := Padding(h.size);
    if |rest| < h.size + padding || !AllZero(rest[h.size..h.size + padding]) {
      return Failure(InvalidPadding);
    }
    r := Success(q.(tree := WithFile(q.tree, h.name, File(content.value, Restricted(h.mode)))));
  }

  method ReadMember(rules: Rules, p: Progress, rest: seq<Byte>) returns (r: Result<(Progress, nat), Error>)
    requires |rest| >= BLOCK
    ensures r == OneMember(rules, p, rest)
  {
    var decoded := Decode(rest[..BLOCK]);
    if decoded.None? {
      return Failure(InvalidHeader);
    }
    r := ReadBehind(rules, p, rest, decoded.value);
  }

  method ReadBehind(rules: Rules, p: Progress, rest: seq<Byte>, h: Header) returns (r: Result<(Progress, nat), Error>)
    requires |rest| >= BLOCK
    ensures r == Member(rules, p, rest, h)
  {
    var admitted := Admitted(rules, p, rest[..BLOCK], h);
    if admitted.Failure? {
      return Failure(admitted.error);
    }
    var placed := PlaceMember(admitted.value, h, rest[BLOCK..]);
    r := if placed.Failure? then Failure(placed.error) else Success((placed.value, BLOCK + Extent(h)));
  }

  method Unpack(rules: Rules, archive: seq<Byte>) returns (r: Result<(Tree, Manifest), Error>)
    ensures r == Unpacked(rules, archive)
  {
    var stream := Decompress(rules, archive);
    if stream.Failure? {
      return Failure(stream.error);
    }
    var rest := stream.value;
    var p := START;
    while true
      invariant ReadMembers(rules, START, archive) == ReadMembers(rules, p, rest)
      decreases |rest|
    {
      if |rest| < BLOCK {
        return Failure(TruncatedHeader);
      }
      if AllZero(rest[..BLOCK]) {
        rest := rest[BLOCK..];
        break;
      }
      var member := ReadMember(rules, p, rest);
      if member.Failure? {
        return Failure(member.error);
      }
      p := member.value.0;
      rest := rest[member.value.1..];
    }
    if |rest| < BLOCK || !AllZero(rest[..BLOCK]) {
      return Failure(InvalidTerminator);
    }
    var clean := ReadTrailer(rest[BLOCK..]);
    if !clean {
      return Failure(TrailingData);
    }
    if MANIFEST !in p.tree.files {
      return Failure(ManifestMissing);
    }
    var manifest := rules.readManifest(p.tree.files[MANIFEST].data);
    if manifest.None? {
      return Failure(ManifestMissing);
    }
    var allowed := CheckPayload(rules, p.tree, manifest.value);
    if allowed.None? {
      return Failure(PayloadDiffers);
    }
    assert allowed.value + {MANIFEST} == Expected(manifest.value);
    if FoldAll(rules, allowed.value + {MANIFEST}) != p.names {
      return Failure(EntriesDiffer);
    }
    r := Success((p.tree, manifest.value));
  }
}
