/** The PNG canonicaliser (image-canonical.ts:84-276; RFC 2083 section 3.2). */
module Png {
  import opened Options
  import opened Bytes
  import opened Images
  import Crc
  import Adam7

  const SIGNATURE: Buffer := [0x89, 0x50, 0x4e, 0x47, 0x0d, 0x0a, 0x1a, 0x0a]
  const IHDR: Buffer := [0x49, 0x48, 0x44, 0x52]
  const PLTE: Buffer := [0x50, 0x4c, 0x54, 0x45]
  const IDAT: Buffer := [0x49, 0x44, 0x41, 0x54]
  const IEND: Buffer := [0x49, 0x45, 0x4e, 0x44]
  const TRNS: Buffer := [0x74, 0x52, 0x4e, 0x53]
  const SRGB: Buffer := [0x73, 0x52, 0x47, 0x42]
  const GAMA: Buffer := [0x67, 0x41, 0x4d, 0x41]

  /** `inflateSync` and `deflateSync`: the library is a parameter, with the law that inflating a deflated buffer gives
      it back and reads the whole stream. `inflate` gives nothing for a broken stream or one longer than the limit. */
  datatype Inflated = Inflated(raw: Buffer, consumed: nat)

  datatype Zlib = Zlib(deflate: Buffer -> Buffer, inflate: (Buffer, nat) -> Option<Inflated>)

  ghost predicate Lawful(z: Zlib) {
    && (forall raw, limit: nat {:trigger z.inflate(z.deflate(raw), limit)} ::
          |raw| <= limit ==> z.inflate(z.deflate(raw), limit) == Some(Inflated(raw, |z.deflate(raw)|)))
    && (forall raw {:trigger z.deflate(raw)} :: |raw| <= MAX_PNG_RAW_BYTES ==> |z.deflate(raw)| <= 0x7fff_ffff)
  }

  // ---------- Chunks ----------

  datatype Chunk = Chunk(kind: Buffer, data: Buffer)

  predicate IsLetter(c: Byte) {
    0x41 <= c <= 0x5a || 0x61 <= c <= 0x7a
  }

  predicate FourLetters(kind: Buffer) {
    |kind| == 4 && IsLetter(kind[0]) && IsLetter(kind[1]) && IsLetter(kind[2]) && IsLetter(kind[3])
  }

  predicate ChunkOk(c: Chunk) {
    FourLetters(c.kind) && |c.data| <= 0x7fff_ffff
  }

  function Checksum(kind: Buffer, data: Buffer): (r: Buffer)
    ensures |r| == 4
  {
    Crc.BigEndian(Crc.Crc32(kind + data))
  }

  function ChunkBytes(c: Chunk): (r: Buffer)
    requires ChunkOk(c)
    ensures |r| == 12 + |c.data|
  {
    PutU32BE(|c.data|) + c.kind + c.data + Checksum(c.kind, c.data)
  }

  function ChunksBytes(cs: seq<Chunk>): Buffer
    requires forall c <- cs :: ChunkOk(c)
  {
    if cs == [] then [] else assert ChunkOk(cs[0]); ChunkBytes(cs[0]) + ChunksBytes(cs[1..])
  }

  datatype Read = Found(chunk: Chunk) | Broken(code: CheckCode)

  /** The chunk at `at`, with its length, type and checksum checked. */
  function ReadChunk(b: Buffer, at: nat): (r: Read)
    requires at <= |b|
    ensures r.Found? ==> ChunkOk(r.chunk) && at + 12 + |r.chunk.data| <= |b|
  {
    hide Checksum;
    if at + 12 > |b| then Broken(TRUNCATED)
    else
      var length := U32BE(b, at);
      if length > 0x7fff_ffff || at + 12 + length > |b| then Broken(TRUNCATED)
      else
        var kind, data := b[at + 4..at + 8], b[at + 8..at + 8 + length];
        if !FourLetters(kind) then Broken(BAD_STRUCTURE)
        else if Checksum(kind, data) != b[at + 8 + length..at + 12 + length] then Broken(BAD_CRC)
        else Found(Chunk(kind, data))
  }

  // ---------- The chunk walk ----------

  datatype State = State(
    ihdr: Option<Buffer>, plte: Option<Buffer>, seenPlte: bool, trns: Option<Buffer>, colorSpace: seq<Chunk>,
    idat: seq<Buffer>, idatClosed: bool)

  const START := State(None, None, false, None, [], [], false)

  datatype Outcome = Next(st: State) | End(st: State) | Stop(code: CheckCode)

  predicate ValidColorSpace(c: Chunk) {
    (c.kind == SRGB && |c.data| == 1 && c.data[0] <= 3) || (c.kind == GAMA && |c.data| == 4 && U32BE(c.data, 0) > 0)
  }

  function PaletteLimit(depth: Byte): nat {
    if depth == 0 then 1 else if depth == 1 then 2 else if depth == 2 then 4 else if depth == 3 then 8 else if depth == 4 then 16
    else if depth == 5 then 32 else if depth == 6 then 64 else if depth == 7 then 128 else 256
  }

  predicate ValidPalette(header: Buffer, data: Buffer)
    requires |header| == 13
  {
    |data| > 0 && |data| % 3 == 0 && |data| <= 768 && (header[9] == 3 ==> |data| / 3 <= PaletteLimit(header[8]))
  }

  function Take(st: State, c: Chunk): Outcome
    requires ChunkOk(c) && (st.ihdr.Some? ==> |st.ihdr.value| == 13)
  {
    if st.ihdr.None? && c.kind != IHDR then Stop(BAD_STRUCTURE)
    else
      var closed := st.idatClosed || (st.idat != [] && c.kind != IDAT);
      var s := st.(idatClosed := closed);
      if c.kind == IHDR then
        if st.ihdr.Some? || |c.data| != 13 then Stop(BAD_HEADER) else Next(s.(ihdr := Some(c.data)))
      else if c.kind == PLTE then
        var header := st.ihdr.value;
        if st.seenPlte || st.idat != [] then Stop(BAD_STRUCTURE)
        else if header[9] == 3 && !ValidPalette(header, c.data) then Stop(BAD_STRUCTURE)
        else Next(s.(seenPlte := true, plte := if header[9] == 3 then Some(c.data) else st.plte))
      else if c.kind == IDAT then
        if closed then Stop(BAD_STRUCTURE) else Next(s.(idat := st.idat + [c.data]))
      else if c.kind == IEND then
        if c.data != [] || st.idat == [] then Stop(BAD_STRUCTURE) else End(s)
      else if c.kind[0] <= 0x5a then Stop(UNKNOWN_CRITICAL)
      else if st.idat != [] then Next(s)
      else if !st.seenPlte && ValidColorSpace(c) && forall k <- st.colorSpace :: k.kind != c.kind then
        Next(s.(colorSpace := st.colorSpace + [c]))
      else if c.kind == TRNS && st.trns.None? && (st.ihdr.value[9] != 3 || st.seenPlte) then Next(s.(trns := Some(c.data)))
      else Next(s)
  }

  datatype Walk = Walked(st: State, at: nat) | Failed(code: CheckCode)

  /** What every chunk of a walk keeps true. */
  predicate Valid(st: State) {
    && (st.ihdr.Some? ==> |st.ihdr.value| == 13)
    && (st.plte.Some? ==> st.ihdr.Some? && st.seenPlte && st.ihdr.value[9] == 3 && ValidPalette(st.ihdr.value, st.plte.value))
    && (st.plte.Some? ==> |st.plte.value| <= 768)
    && (st.trns.Some? ==> st.ihdr.Some? && |st.trns.value| <= 0x7fff_ffff)
    && (forall c <- st.colorSpace :: ChunkOk(c) && ValidColorSpace(c))
    && (forall i, j :: 0 <= i < j < |st.colorSpace| ==> st.colorSpace[i].kind != st.colorSpace[j].kind)
    && (st.colorSpace != [] || st.idat != [] ==> st.ihdr.Some?)
  }

  lemma TakeValid(st: State, c: Chunk)
    requires Valid(st) && ChunkOk(c)
    ensures Take(st, c).Next? ==> Valid(Take(st, c).st)
    ensures Take(st, c).End? ==> Valid(Take(st, c).st) && Take(st, c).st.ihdr.Some?
  {
    hide FourLetters, PaletteLimit, ValidColorSpace;
  }

  function Parse(b: Buffer, at: nat, st: State): (r: Walk)
    requires at <= |b| && Valid(st)
    ensures r.Walked? ==> Valid(r.st) && r.st.ihdr.Some? && r.at <= |b|
    decreases |b| - at
  {
    match ReadChunk(b, at)
    case Broken(code) => Failed(code)
    case Found(c) =>
      TakeValid(st, c);
      match Take(st, c)
      case Stop(code) => Failed(code)
      case End(next) => Walked(next, at + 12 + |c.data|)
      case Next(next) => Parse(b, at + 12 + |c.data|, next)
  }

  // ---------- Reassembly ----------

  function Channels(colorType: Byte): nat {
    if colorType == 2 then 3 else if colorType == 4 then 2 else if colorType == 6 then 4 else 1
  }

  predicate LegalDepth(colorType: Byte, depth: Byte) {
    || (colorType == 0 && (depth == 1 || depth == 2 || depth == 4 || depth == 8 || depth == 16))
    || (colorType == 3 && (depth == 1 || depth == 2 || depth == 4 || depth == 8))
    || ((colorType == 2 || colorType == 4 || colorType == 6) && (depth == 8 || depth == 16))
  }

  /** Every 16-bit sample fits the bit depth. */
  predicate SamplesOk(data: Buffer, depth: Byte) {
    |data| % 2 == 0 && forall i :: 0 <= i < |data| / 2 ==>
      U16BE(data, 2 * i) <= (if depth < 8 then PaletteLimit(depth) - 1 else if depth == 8 then 0xff else 0xffff)
  }

  predicate TransparencyOk(header: Buffer, plte: Option<Buffer>, trns: Option<Buffer>)
    requires |header| == 13
  {
    && trns.Some?
    && var t := trns.value;
       || (header[9] == 3 && plte.Some? && 1 <= |t| <= |plte.value| / 3)
       || (header[9] == 0 && |t| == 2 && SamplesOk(t, header[8]))
       || (header[9] == 2 && |t| == 6 && SamplesOk(t, header[8]))
  }

  /** The first byte of every row is a filter type. */
  predicate FiltersOk(raw: Buffer, rows: seq<nat>, at: nat)
    requires at + Adam7.Sum(rows) <= |raw| && forall i :: 0 <= i < |rows| ==> rows[i] >= 1
  {
    if rows == [] then true
    else
      Adam7.SumAppend(rows[..1], rows[1..]);
      assert rows[..1] + rows[1..] == rows;
      assert Adam7.Sum(rows[..1]) == rows[0] by { assert rows[..1][..0] == []; }
      raw[at] <= 4 && FiltersOk(raw, rows[1..], at + rows[0])
  }

  /** What a viewer draws from: header, palette, transparency and filtered scanlines. */
  datatype Picture = Picture(header: Buffer, palette: Option<Buffer>, transparency: Option<Buffer>, colorSpace: seq<Chunk>, scanlines: Buffer)

  datatype Decoding = Drawn(picture: Picture) | Undrawable(code: CheckCode)

  function HeaderRows(header: Buffer): seq<nat>
    requires |header| == 13
  {
    Adam7.Rows(U32BE(header, 0), U32BE(header, 4), Channels(header[9]) * Int(header, 8), header[12] == 1)
  }

  function Concat(parts: seq<Buffer>): Buffer {
    if parts == [] then [] else parts[0] + Concat(parts[1..])
  }

  /** The header checks, in the source's order. */
  function HeaderError(header: Buffer, palette: bool): Option<CheckCode>
    requires |header| == 13
  {
    if !DimensionsOk(U32BE(header, 0), U32BE(header, 4)) then Some(BAD_DIMENSIONS)
    else if !LegalDepth(header[9], header[8]) then Some(BAD_HEADER)
    else if header[10] != 0 || header[11] != 0 || (header[12] != 0 && header[12] != 1) then Some(BAD_HEADER)
    else if header[9] == 3 && !palette then Some(BAD_STRUCTURE)
    else if Adam7.Sum(HeaderRows(header)) > MAX_PNG_RAW_BYTES then Some(TOO_LARGE_TO_VERIFY)
    else None
  }

  /** The filtered scanlines: the whole zlib stream, of exactly the right size, with legal filter bytes. */
  function Scanlines(z: Zlib, header: Buffer, idat: seq<Buffer>): (r: Option<Buffer>)
    requires |header| == 13
    ensures r.Some? ==> |r.value| == Adam7.Sum(HeaderRows(header)) && RawOk(header, r.value)
  {
    var compressed := Concat(idat);
    match z.inflate(compressed, Adam7.Sum(HeaderRows(header)) + 1)
    case None => None
    case Some(Inflated(raw, consumed)) => if consumed == |compressed| && RawOk(header, raw) then Some(raw) else None
  }

  predicate RawOk(header: Buffer, raw: Buffer)
    requires |header| == 13
  {
    Adam7.RowsHoldTheImage(U32BE(header, 0), U32BE(header, 4), Channels(header[9]) * Int(header, 8), header[12] == 1);
    |raw| == Adam7.Sum(HeaderRows(header)) && FiltersOk(raw, HeaderRows(header), 0)
  }

  function Decode(z: Zlib, st: State): (r: Decoding)
    requires Valid(st) && st.ihdr.Some?
    ensures r.Drawn? ==> |r.picture.header| == 13 && |r.picture.scanlines| <= MAX_PNG_RAW_BYTES
  {
    var header := st.ihdr.value;
    match HeaderError(header, st.plte.Some?)
    case Some(code) => Undrawable(code)
    case None =>
      match Scanlines(z, header, st.idat)
      case None => Undrawable(BAD_IMAGE_DATA)
      case Some(raw) =>
        Drawn(Picture(header, st.plte, if TransparencyOk(header, st.plte, st.trns) then st.trns else None, st.colorSpace, raw))
  }

  function Kept(z: Zlib, p: Picture): seq<Chunk> {
    [Chunk(IHDR, p.header)] + p.colorSpace + PaletteChunks(p) + TransparencyChunks(p)
    + [Chunk(IDAT, z.deflate(p.scanlines)), Chunk(IEND, [])]
  }

  lemma KeptOk(z: Zlib, st: State)
    requires Lawful(z) && Valid(st) && st.ihdr.Some? && Decode(z, st).Drawn?
    ensures forall c <- Kept(z, Decode(z, st).picture) :: ChunkOk(c)
  {
    hide Adam7.Rows, Adam7.Sum, FiltersOk, DimensionsOk, LegalDepth, TransparencyOk, Checksum;
  }

  function CanonicalPng(z: Zlib, b: Buffer): CanonicalImage
    requires Lawful(z)
  {
    if |b| < 8 || b[..8] != SIGNATURE then Refused(BAD_SIGNATURE)
    else
      match Parse(b, 8, START)
      case Failed(code) => Refused(code)
      case Walked(st, at) =>
        if at != |b| then Refused(TRAILING_BYTES)
        else
          match Decode(z, st)
          case Undrawable(code) => Refused(code)
          case Drawn(p) =>
            KeptOk(z, st);
            Accepted(SIGNATURE + ChunksBytes(Kept(z, p)), U32BE(p.header, 0), U32BE(p.header, 4))
  }

  /** What an accepted file draws. */
  ghost function PictureOf(z: Zlib, b: Buffer): Picture
    requires Lawful(z) && CanonicalPng(z, b).Accepted?
  {
    Decode(z, Parse(b, 8, START).st).picture
  }

  // ---------- The source's loops ----------

  method Canonicalize(z: Zlib, b: Buffer) returns (r: CanonicalImage)
    requires Lawful(z)
    ensures r == CanonicalPng(z, b)
  {
    hide ReadChunk, Take;
    if |b| < 8 || b[..8] != SIGNATURE {
      return Refused(BAD_SIGNATURE);
    }
    var st := START;
    var at: nat := 8;
    var ended := false;
    while !ended
      invariant at <= |b| && Valid(st)
      invariant Parse(b, 8, START) == if ended then Walked(st, at) else Parse(b, at, st)
      decreases if ended then 0 else 1, |b| - at
    {
      var read := ReadChunk(b, at);
      if read.Broken? {
        return Refused(read.code);
      }
      TakeValid(st, read.chunk);
      match Take(st, read.chunk) {
        case Stop(code) =>
          return Refused(code);
        case End(next) =>
          st, at, ended := next, at + 12 + |read.chunk.data|, true;
        case Next(next) =>
          st, at := next, at + 12 + |read.chunk.data|;
      }
    }
    if at != |b| {
      return Refused(TRAILING_BYTES);
    }
    r := Assemble(z, st);
  }

  method Assemble(z: Zlib, st: State) returns (r: CanonicalImage)
    requires Lawful(z) && Valid(st) && st.ihdr.Some?
    ensures Decode(z, st).Undrawable? ==> r == Refused(Decode(z, st).code)
    ensures Decode(z, st).Drawn? ==>
              var p := Decode(z, st).picture;
              (forall c <- Kept(z, p) :: ChunkOk(c))
              && r == Accepted(SIGNATURE + ChunksBytes(Kept(z, p)), U32BE(p.header, 0), U32BE(p.header, 4))
  {
    hide TransparencyOk, Kept, ChunksBytes;
    var header := st.ihdr.value;
    var width, height := U32BE(header, 0), U32BE(header, 4);
    if !DimensionsOk(width, height) {
      return Refused(BAD_DIMENSIONS);
    }
    if !LegalDepth(header[9], header[8]) || header[10] != 0 || header[11] != 0 || (header[12] != 0 && header[12] != 1) {
      return Refused(BAD_HEADER);
    }
    if header[9] == 3 && st.plte.None? {
      return Refused(BAD_STRUCTURE);
    }
    var rows := Adam7.PngRows(width, height, Channels(header[9]) * Int(header, 8), header[12] == 1);
    var size := Total(rows);
    if size > MAX_PNG_RAW_BYTES {
      return Refused(TOO_LARGE_TO_VERIFY);
    }
    var raw := Inflate(z, header, rows, Concat(st.idat));
    assert raw == Scanlines(z, header, st.idat);
    if raw.None? {
      return Refused(BAD_IMAGE_DATA);
    }
    var picture := Picture(header, st.plte, if TransparencyOk(header, st.plte, st.trns) then st.trns else None, st.colorSpace, raw.value);
    KeptOk(z, st);
    r := Accepted(SIGNATURE + ChunksBytes(Kept(z, picture)), width, height);
  }

  method Inflate(z: Zlib, header: Buffer, rows: seq<nat>, compressed: Buffer) returns (r: Option<Buffer>)
    requires |header| == 13 && rows == HeaderRows(header)
    ensures r == match z.inflate(compressed, Adam7.Sum(rows) + 1)
                 case None => None
                 case Some(Inflated(raw, consumed)) => if consumed == |compressed| && RawOk(header, raw) then Some(raw) else None
  {
    var size := Total(rows);
    var inflated := z.inflate(compressed, size + 1);
    if inflated.None? || inflated.value.consumed != |compressed| || |inflated.value.raw| != size {
      return None;
    }
    Adam7.RowsHoldTheImage(U32BE(header, 0), U32BE(header, 4), Channels(header[9]) * Int(header, 8), header[12] == 1);
    var ok := CheckFilters(inflated.value.raw, rows);
    r := if ok then Some(inflated.value.raw) else None;
  }

  method Total(rows: seq<nat>) returns (sum: nat)
    ensures sum == Adam7.Sum(rows)
  {
    sum := 0;
    var i := 0;
    while i < |rows|
      invariant 0 <= i <= |rows| && sum == Adam7.Sum(rows[..i])
    {
      assert rows[..i + 1][..i] == rows[..i];
      sum := sum + rows[i];
      i := i + 1;
    }
    assert rows[..i] == rows;
  }

  method CheckFilters(raw: Buffer, rows: seq<nat>) returns (ok: bool)
    requires Adam7.Sum(rows) == |raw| && forall i :: 0 <= i < |rows| ==> rows[i] >= 1
    ensures ok == FiltersOk(raw, rows, 0)
  {
    var at: nat, i: nat := 0, 0;
    while i < |rows|
      invariant 0 <= i <= |rows| && at + Adam7.Sum(rows[i..]) == |raw|
      invariant FiltersOk(raw, rows[i..], at) == FiltersOk(raw, rows, 0)
    {
      SumFirst(rows[i..]);
      assert rows[i..][1..] == rows[i + 1..];
      if raw[at] > 4 {
        return false;
      }
      at := at + rows[i];
      i := i + 1;
    }
    ok := true;
  }

  lemma SumFirst(rows: seq<nat>)
    requires rows != []
    ensures Adam7.Sum(rows) == rows[0] + Adam7.Sum(rows[1..])
  {
    Adam7.SumAppend(rows[..1], rows[1..]);
    assert rows[..1] + rows[1..] == rows && rows[..1][..0] == [];
    assert Adam7.Sum(rows[..1]) == rows[0];
  }

  // ---------- The output parses back to itself ----------

  lemma ReadWritten(o: Buffer, at: nat, c: Chunk)
    requires ChunkOk(c) && at + 12 + |c.data| <= |o| && o[at..at + 12 + |c.data|] == ChunkBytes(c)
    ensures ReadChunk(o, at) == Found(c)
  {
    hide Checksum;
    var n := |c.data|;
    var length, sum := PutU32BE(n), Checksum(c.kind, c.data);
    var w := o[at..at + 12 + n];
    FourParts(length, c.kind, c.data, sum);
    SubRange(o, at, 12 + n, 0, 4);
    SubRange(o, at, 12 + n, 4, 8);
    SubRange(o, at, 12 + n, 8, 8 + n);
    SubRange(o, at, 12 + n, 8 + n, 12 + n);
    assert o[at] == w[0..4][0] && o[at + 1] == w[0..4][1] && o[at + 2] == w[0..4][2] && o[at + 3] == w[0..4][3];
    assert U32BE(o, at) == U32BE(length, 0);
  }

  /** From `st`, every chunk of `cs` is taken and the walk goes on, in state `last` after them. */
  predicate Reaches(st: State, cs: seq<Chunk>, last: State)
    requires Valid(st)
    decreases |cs|
  {
    if cs == [] then st == last
    else ChunkOk(cs[0]) && Take(st, cs[0]).Next? && (TakeValid(st, cs[0]); Reaches(Take(st, cs[0]).st, cs[1..], last))
  }

  lemma {:induction false} ReachesValid(st: State, cs: seq<Chunk>, last: State)
    requires Valid(st) && Reaches(st, cs, last)
    ensures Valid(last)
    decreases |cs|
  {
    if cs != [] {
      TakeValid(st, cs[0]);
      ReachesValid(Take(st, cs[0]).st, cs[1..], last);
    }
  }

  lemma {:induction false} ReachesAppend(st: State, a: seq<Chunk>, mid: State, b: seq<Chunk>, last: State)
    requires Valid(st) && Reaches(st, a, mid) && Valid(mid) && Reaches(mid, b, last)
    ensures Reaches(st, a + b, last)
    decreases |a|
  {
    hide Take;
    if a == [] {
      assert a + b == b;
    } else {
      TakeValid(st, a[0]);
      assert (a + b)[0] == a[0] && (a + b)[1..] == a[1..] + b;
      ReachesAppend(Take(st, a[0]).st, a[1..], mid, b, last);
    }
  }

  lemma {:induction false} WalkWritten(o: Buffer, at: nat, st: State, cs: seq<Chunk>, last: State)
    requires Valid(st) && Reaches(st, cs, last) && forall c <- cs :: ChunkOk(c)
    requires at + |ChunksBytes(cs)| <= |o| && o[at..at + |ChunksBytes(cs)|] == ChunksBytes(cs)
    ensures Valid(last) && Parse(o, at, st) == Parse(o, at + |ChunksBytes(cs)|, last)
    decreases |cs|
  {
    hide Take, ReadChunk, ChunkBytes, Parse;
    if cs != [] {
      var c, rest := cs[0], cs[1..];
      assert c in cs && ChunkOk(c);
      TakeValid(st, c);
      TwoParts(o, at, ChunkBytes(c), ChunksBytes(rest));
      ReadWritten(o, at, c);
      ParseTaken(o, at, st, c);
      WalkWritten(o, at + 12 + |c.data|, Take(st, c).st, rest, last);
    }
  }

  lemma ParseTaken(o: Buffer, at: nat, st: State, c: Chunk)
    requires Valid(st) && ChunkOk(c) && at + 12 + |c.data| <= |o| && ReadChunk(o, at) == Found(c) && Take(st, c).Next?
    ensures Valid(Take(st, c).st) && Parse(o, at, st) == Parse(o, at + 12 + |c.data|, Take(st, c).st)
  {
    hide Take, ReadChunk, Valid;
    TakeValid(st, c);
  }

  lemma TwoParts(o: Buffer, at: nat, a: Buffer, b: Buffer)
    requires at + |a| + |b| <= |o| && o[at..at + |a| + |b|] == a + b
    ensures o[at..at + |a|] == a && o[at + |a|..at + |a| + |b|] == b
  {
    assert o[at..at + |a|] == o[at..at + |a| + |b|][..|a|];
    assert o[at + |a|..at + |a| + |b|] == o[at..at + |a| + |b|][|a|..];
  }

  lemma {:induction false} ChunksAppend(a: seq<Chunk>, b: seq<Chunk>)
    requires (forall c <- a :: ChunkOk(c)) && forall c <- b :: ChunkOk(c)
    ensures forall c <- a + b :: ChunkOk(c)
    ensures ChunksBytes(a + b) == ChunksBytes(a) + ChunksBytes(b)
    decreases |a|
  {
    hide ChunkBytes, ChunkOk;
    if a == [] {
      assert a + b == b;
    } else {
      assert (a + b)[0] == a[0] && (a + b)[1..] == a[1..] + b;
      ChunksAppend(a[1..], b);
    }
  }

  /** The colour-space chunks are taken one after the other. */
  lemma {:induction false} ColorSpaceReached(st: State, cs: seq<Chunk>, n: nat)
    requires Valid(st) && st.ihdr.Some? && !st.seenPlte && st.idat == [] && !st.idatClosed
    requires n <= |cs| && st.colorSpace == cs[..n]
    requires forall c <- cs :: ChunkOk(c) && ValidColorSpace(c)
    requires forall i, j :: 0 <= i < j < |cs| ==> cs[i].kind != cs[j].kind
    ensures Reaches(st, cs[n..], st.(colorSpace := cs))
    decreases |cs| - n
  {
    if n < |cs| {
      var c := cs[n];
      assert ChunkOk(c) && ValidColorSpace(c);
      assert forall k <- st.colorSpace :: k.kind != c.kind;
      ColorSpaceTaken(st, c);
      TakeValid(st, c);
      assert cs[..n] + [c] == cs[..n + 1];
      ColorSpaceReached(st.(colorSpace := cs[..n + 1]), cs, n + 1);
      assert cs[n..][0] == c && cs[n..][1..] == cs[n + 1..];
    } else {
      assert cs[..n] == cs && cs[n..] == [];
    }
  }

  lemma ColorSpaceTaken(st: State, c: Chunk)
    requires Valid(st) && st.ihdr.Some? && !st.seenPlte && st.idat == [] && !st.idatClosed
    requires ChunkOk(c) && ValidColorSpace(c) && forall k <- st.colorSpace :: k.kind != c.kind
    ensures Take(st, c) == Next(st.(colorSpace := st.colorSpace + [c]))
  {
    assert c.kind[0] == 0x73 || c.kind[0] == 0x67;
  }

  /** The state after the kept chunks of `p`, before the end chunk. */
  function Final(z: Zlib, p: Picture): State {
    State(Some(p.header), p.palette, p.palette.Some?, p.transparency, p.colorSpace, [z.deflate(p.scanlines)], false)
  }

  /** Header and colour space. */
  lemma FrontReached(z: Zlib, p: Picture)
    requires PartsFit(p) && forall c <- Kept(z, p) :: ChunkOk(c)
    ensures var next := START.(ihdr := Some(p.header), colorSpace := p.colorSpace);
            Valid(next) && Reaches(START, [Chunk(IHDR, p.header)] + p.colorSpace, next)
  {
    var cs := p.colorSpace;
    var header := Chunk(IHDR, p.header);
    var s1 := START.(ihdr := Some(p.header));
    assert header in Kept(z, p);
    assert forall c <- cs :: c in Kept(z, p);
    One(START, header, s1);
    ColorSpaceReached(s1, cs, 0);
    assert cs[0..] == cs;
    ReachesAppend(START, [header], s1, cs, s1.(colorSpace := cs));
    ReachesValid(s1, cs, s1.(colorSpace := cs));
  }

  function PaletteChunks(p: Picture): seq<Chunk> {
    if p.palette.Some? then [Chunk(PLTE, p.palette.value)] else []
  }

  function TransparencyChunks(p: Picture): seq<Chunk> {
    if p.transparency.Some? then [Chunk(TRNS, p.transparency.value)] else []
  }

  /** All chunks but the end chunk. */
  lemma KeptReached(z: Zlib, p: Picture)
    requires PartsFit(p) && forall c <- Kept(z, p) :: ChunkOk(c)
    ensures Valid(Final(z, p)) && Reaches(START, Kept(z, p)[..|Kept(z, p)| - 1], Final(z, p))
  {
    hide Take;
    var front := [Chunk(IHDR, p.header)] + p.colorSpace;
    var s2 := START.(ihdr := Some(p.header), colorSpace := p.colorSpace);
    FrontReached(z, p);
    var s3 := s2.(plte := p.palette, seenPlte := p.palette.Some?);
    PaletteReached(s2, p);
    ReachesAppend(START, front, s2, PaletteChunks(p), s3);
    var s4 := s3.(trns := p.transparency);
    assert p.transparency.Some? ==> Chunk(TRNS, p.transparency.value) in Kept(z, p);
    TransparencyReached(s3, p);
    ReachesAppend(START, front + PaletteChunks(p), s3, TransparencyChunks(p), s4);
    var data := Chunk(IDAT, z.deflate(p.scanlines));
    assert data in Kept(z, p);
    DataTaken(s4, data);
    One(s4, data, Final(z, p));
    ReachesAppend(START, front + PaletteChunks(p) + TransparencyChunks(p), s4, [data], Final(z, p));
    assert Kept(z, p)[..|Kept(z, p)| - 1] == front + PaletteChunks(p) + TransparencyChunks(p) + [data];
  }

  lemma DataTaken(st: State, c: Chunk)
    requires Valid(st) && ChunkOk(c) && c.kind == IDAT && st.ihdr.Some? && st.idat == [] && !st.idatClosed
    ensures Take(st, c) == Next(st.(idat := [c.data]))
  {
    assert IDAT[1] != IHDR[1] && IDAT[0] != PLTE[0];
  }

  /** The parts of a picture fit together. */
  predicate PartsFit(p: Picture) {
    && |p.header| == 13
    && (p.palette.Some? ==> p.header[9] == 3 && ValidPalette(p.header, p.palette.value))
    && (p.transparency.Some? && p.header[9] == 3 ==> p.palette.Some?)
    && (forall c <- p.colorSpace :: ChunkOk(c) && ValidColorSpace(c))
    && (forall i, j :: 0 <= i < j < |p.colorSpace| ==> p.colorSpace[i].kind != p.colorSpace[j].kind)
  }

  lemma DecodedParts(z: Zlib, st: State)
    requires Valid(st) && st.ihdr.Some? && Decode(z, st).Drawn?
    ensures PartsFit(Decode(z, st).picture)
  {
    hide HeaderRows, FiltersOk, SamplesOk, LegalDepth, DimensionsOk, ValidPalette;
  }

  lemma One(st: State, c: Chunk, next: State)
    requires Valid(st) && ChunkOk(c) && Take(st, c) == Next(next)
    ensures Valid(next) && Reaches(st, [c], next)
  {
    TakeValid(st, c);
    assert |[c][1..]| == 0;
  }

  lemma PaletteReached(st: State, p: Picture)
    requires Valid(st) && st.ihdr == Some(p.header) && !st.seenPlte && st.plte.None? && st.idat == [] && !st.idatClosed
    requires p.palette.Some? ==> p.header[9] == 3 && ValidPalette(p.header, p.palette.value)
    ensures var next := st.(plte := p.palette, seenPlte := p.palette.Some?);
            Valid(next) && Reaches(st, PaletteChunks(p), next)
  {
    if p.palette.Some? {
      One(st, Chunk(PLTE, p.palette.value), st.(plte := p.palette, seenPlte := true));
    }
  }

  lemma TransparencyReached(st: State, p: Picture)
    requires Valid(st) && st.ihdr == Some(p.header) && st.trns.None? && st.idat == [] && !st.idatClosed
    requires p.transparency.Some? ==> |p.transparency.value| <= 0x7fff_ffff && (p.header[9] == 3 ==> st.seenPlte)
    ensures var next := st.(trns := p.transparency);
            Valid(next) && Reaches(st, TransparencyChunks(p), next)
  {
    if p.transparency.Some? {
      assert TRNS[0] == 0x74 && SRGB[0] != TRNS[0] && GAMA[0] != TRNS[0] && IHDR[0] != TRNS[0] && PLTE[0] != TRNS[0] && IDAT[0] != TRNS[0];
      One(st, Chunk(TRNS, p.transparency.value), st.(trns := p.transparency));
    }
  }

  lemma ScanlinesAgain(z: Zlib, header: Buffer, raw: Buffer)
    requires Lawful(z) && |header| == 13 && RawOk(header, raw)
    ensures Scanlines(z, header, [z.deflate(raw)]) == Some(raw)
  {
    hide RawOk, HeaderRows;
    var d := z.deflate(raw);
    OnePart(d);
    RawSize(header, raw);
    var limit: nat := Adam7.Sum(HeaderRows(header)) + 1;
    assert z.inflate(d, limit) == Some(Inflated(raw, |d|));
    assert Concat([d]) == d;
    assert z.inflate(Concat([d]), limit) == Some(Inflated(raw, |d|));
  }

  lemma OnePart(d: Buffer)
    ensures Concat([d]) == d
  {
    var parts: seq<Buffer> := [d];
    assert Concat(parts) == d + Concat(parts[1..]) && |parts[1..]| == 0;
  }

  lemma RawSize(header: Buffer, raw: Buffer)
    requires |header| == 13 && RawOk(header, raw)
    ensures |raw| == Adam7.Sum(HeaderRows(header))
  {
  }

  /** Decoding the rewritten chunks gives the same picture. */
  lemma DecodeFinal(z: Zlib, st: State)
    requires Lawful(z) && Valid(st) && st.ihdr.Some? && Decode(z, st).Drawn?
    requires Valid(Final(z, Decode(z, st).picture).(idatClosed := true))
    ensures var p := Decode(z, st).picture; Decode(z, Final(z, p).(idatClosed := true)) == Drawn(p)
  {
    hide HeaderError, Scanlines, RawOk, HeaderRows, TransparencyOk;
    var p := Decode(z, st).picture;
    ScanlinesAgain(z, p.header, p.scanlines);
    SameTransparency(p.header, st.plte, st.trns);
  }

  lemma SameTransparency(header: Buffer, plte: Option<Buffer>, trns: Option<Buffer>)
    requires |header| == 13
    ensures !TransparencyOk(header, plte, None)
  {
  }

  lemma EndTaken(st: State)
    requires Valid(st) && st.ihdr.Some? && st.idat != []
    ensures Take(st, Chunk(IEND, [])) == End(st.(idatClosed := true))
  {
    assert IEND[0] == IHDR[0] && IEND[1] != IHDR[1] && IEND[0] != PLTE[0] && IEND[1] != IDAT[1];
  }

  /** Canonicalisation is a projection: an accepted image is written so that it is accepted again, byte for byte the same,
      with the same size, and draws the same picture. */
  lemma CanonicalPngProjection(z: Zlib, b: Buffer)
    requires Lawful(z) && CanonicalPng(z, b).Accepted?
    ensures CanonicalPng(z, CanonicalPng(z, b).bytes) == CanonicalPng(z, b)
    ensures PictureOf(z, CanonicalPng(z, b).bytes) == PictureOf(z, b)
    ensures DimensionsOk(CanonicalPng(z, b).width, CanonicalPng(z, b).height)
  {
    hide Take, Decode, ReadChunk, ChunkBytes, ChunkOk, Reaches;
    var st := Parse(b, 8, START).st;
    var p := Decode(z, st).picture;
    var o := CanonicalPng(z, b).bytes;
    DecodedDimensions(z, st);
    KeptOk(z, st);
    DecodedParts(z, st);
    KeptReached(z, p);
    FinalWalk(z, p, o);
    DecodeFinal(z, st);
  }

  lemma DecodedDimensions(z: Zlib, st: State)
    requires Valid(st) && st.ihdr.Some? && Decode(z, st).Drawn?
    ensures var p := Decode(z, st).picture; DimensionsOk(U32BE(p.header, 0), U32BE(p.header, 4))
  {
  }

  lemma FinalWalk(z: Zlib, p: Picture, o: Buffer)
    requires |p.header| == 13 && Valid(Final(z, p)) && forall c <- Kept(z, p) :: ChunkOk(c)
    requires Reaches(START, Kept(z, p)[..|Kept(z, p)| - 1], Final(z, p))
    requires o == SIGNATURE + ChunksBytes(Kept(z, p))
    ensures |o| >= 8 && o[..8] == SIGNATURE
    ensures Valid(Final(z, p).(idatClosed := true)) && Parse(o, 8, START) == Walked(Final(z, p).(idatClosed := true), |o|)
  {
    hide Take, ReadChunk, ChunkBytes, ChunkOk, Reaches;
    var front, end := Kept(z, p)[..|Kept(z, p)| - 1], Chunk(IEND, []);
    assert Kept(z, p) == front + [end];
    assert end in Kept(z, p);
    ChunksAppend(front, [end]);
    assert ChunksBytes([end]) == ChunkBytes(end) by {
      assert |[end][1..]| == 0;
    }
    EndWalk(o, front, end, Final(z, p));
  }

  lemma EndWalk(o: Buffer, front: seq<Chunk>, end: Chunk, last: State)
    requires (forall c <- front :: ChunkOk(c)) && ChunkOk(end) && end == Chunk(IEND, [])
    requires Valid(last) && last.ihdr.Some? && last.idat != [] && Reaches(START, front, last)
    requires o == SIGNATURE + (ChunksBytes(front) + ChunkBytes(end))
    ensures |o| >= 8 && o[..8] == SIGNATURE
    ensures Valid(last.(idatClosed := true)) && Parse(o, 8, START) == Walked(last.(idatClosed := true), |o|)
  {
    hide Take, ReadChunk, ChunkBytes, ChunkOk, Reaches, Valid, Parse, ChunksBytes;
    var body, tail := ChunksBytes(front), ChunkBytes(end);
    var n := |body|;
    FourParts(SIGNATURE, body, tail, []);
    assert o == SIGNATURE + body + tail + [];
    EndLength(end);
    StartValid();
    WalkWritten(o, 8, START, front, last);
    ReadWritten(o, 8 + n, end);
    EndTaken(last);
    EndParsed(o, 8 + n, last, end);
  }

  lemma EndLength(end: Chunk)
    requires ChunkOk(end) && end == Chunk(IEND, [])
    ensures |ChunkBytes(end)| == 12
  {
  }

  lemma StartValid()
    ensures Valid(START)
  {
  }

  lemma EndParsed(o: Buffer, at: nat, last: State, end: Chunk)
    requires at <= |o| && Valid(last) && ChunkOk(end) && ReadChunk(o, at) == Found(end) && end.data == []
    requires Take(last, end) == End(last.(idatClosed := true))
    ensures Valid(last.(idatClosed := true)) && Parse(o, at, last) == Walked(last.(idatClosed := true), at + 12)
  {
    hide Take, ReadChunk, ChunkOk, Valid;
    TakeValid(last, end);
  }
}
