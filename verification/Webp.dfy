/** The WebP canonicaliser (image-canonical.ts:430-536; RFC 9649 sections 2.3 to 2.7). */
module Webp {
  import opened Options
  import opened Bytes
  import opened Images

  const RIFF: Buffer := [0x52, 0x49, 0x46, 0x46]
  const WEBP: Buffer := [0x57, 0x45, 0x42, 0x50]
  const LOSSY: Buffer := [0x56, 0x50, 0x38, 0x20]
  const LOSSLESS: Buffer := [0x56, 0x50, 0x38, 0x4c]
  const EXTENDED: Buffer := [0x56, 0x50, 0x38, 0x58]
  const ALPH: Buffer := [0x41, 0x4c, 0x50, 0x48]
  const ANIM: Buffer := [0x41, 0x4e, 0x49, 0x4d]
  const ANMF: Buffer := [0x41, 0x4e, 0x4d, 0x46]

  datatype Riff = Riff(fourcc: Buffer, payload: Buffer)

  predicate RiffOk(c: Riff) {
    |c.fourcc| == 4 && |c.payload| < 0x1_0000_0000
  }

  function Pad(n: nat): (r: Buffer)
    ensures |r| == n % 2
  {
    if n % 2 == 1 then [0] else []
  }

  function RiffBytes(c: Riff): (r: Buffer)
    requires RiffOk(c)
    ensures |r| == 8 + |c.payload| + |c.payload| % 2
  {
    c.fourcc + PutU32LE(|c.payload|) + c.payload + Pad(|c.payload|)
  }

  function RiffsBytes(cs: seq<Riff>): Buffer
    requires forall c <- cs :: RiffOk(c)
  {
    if cs == [] then [] else assert RiffOk(cs[0]); RiffBytes(cs[0]) + RiffsBytes(cs[1..])
  }

  function RiffWebp(cs: seq<Riff>): Buffer
    requires (forall c <- cs :: RiffOk(c)) && 4 + |RiffsBytes(cs)| < 0x1_0000_0000
  {
    RIFF + PutU32LE(4 + |RiffsBytes(cs)|) + WEBP + RiffsBytes(cs)
  }

  // ---------- Parsing ----------

  /** The chunks from `at` to the end, when they tile it exactly. */
  function ParseChunks(b: Buffer, at: nat): (r: Option<seq<Riff>>)
    ensures r.Some? ==> forall c <- r.value :: RiffOk(c)
    decreases |b| - at
  {
    if at >= |b| then if at == |b| then Some([]) else None
    else if at + 8 > |b| then None
    else
      var size := U32LE(b, at + 4);
      if at + 8 + size > |b| then None
      else
        match ParseChunks(b, at + 8 + size + size % 2)
        case None => None
        case Some(rest) => Some([Riff(b[at..at + 4], b[at + 8..at + 8 + size])] + rest)
  }

  datatype Size = Size(width: nat, height: nat) | NoSize(code: CheckCode)

  function LossySize(p: Buffer): Size {
    if |p| < 10 then NoSize(TRUNCATED)
    else if Int(p, 0) % 2 != 0 then NoSize(BAD_HEADER)
    else if p[3] != 0x9d || p[4] != 0x01 || p[5] != 0x2a then NoSize(BAD_SIGNATURE)
    else if U24LE(p, 0) / 32 > |p| - 10 then NoSize(TRUNCATED)
    else Checked(U16LE(p, 6) % 0x4000, U16LE(p, 8) % 0x4000)
  }

  function LosslessSize(p: Buffer): Size {
    if |p| < 5 then NoSize(TRUNCATED)
    else if p[0] != 0x2f then NoSize(BAD_SIGNATURE)
    else if U32LE(p, 1) / 0x2000_0000 != 0 then NoSize(BAD_HEADER)
    else Checked(U32LE(p, 1) % 0x4000 + 1, U32LE(p, 1) / 0x4000 % 0x4000 + 1)
  }

  function Checked(width: nat, height: nat): Size {
    if DimensionsOk(width, height) then Size(width, height) else NoSize(BAD_DIMENSIONS)
  }

  predicate IsBitstream(c: Riff) {
    c.fourcc == LOSSY || c.fourcc == LOSSLESS
  }

  function BitstreamSize(c: Riff): Size {
    if c.fourcc == LOSSY then LossySize(c.payload) else LosslessSize(c.payload)
  }

  predicate IsAlpha(c: Riff) {
    c.fourcc == ALPH
  }

  predicate IsAnimation(c: Riff) {
    c.fourcc == ANIM || c.fourcc == ANMF
  }

  predicate IsImage(c: Riff) {
    IsBitstream(c) || c.fourcc == EXTENDED
  }

  function Count(cs: seq<Riff>, f: Riff -> bool): nat {
    if cs == [] then 0 else (if f(cs[0]) then 1 else 0) + Count(cs[1..], f)
  }

  /** The index of the first chunk with `f`, or the number of chunks. */
  function First(cs: seq<Riff>, f: Riff -> bool): (i: nat)
    ensures i <= |cs| && (i < |cs| ==> f(cs[i])) && (Count(cs, f) > 0 ==> i < |cs|)
  {
    if cs == [] || f(cs[0]) then 0 else 1 + First(cs[1..], f)
  }

  /** Canvas-only extended header: the alpha flag, reserved zeros, and the size. */
  function CanonicalExtended(width: nat, height: nat): (r: Buffer)
    requires 1 <= width <= 0x100_0000 && 1 <= height <= 0x100_0000
    ensures |r| == 10
  {
    [0x10, 0, 0, 0] + PutU24LE(width - 1) + PutU24LE(height - 1)
  }

  datatype Plan = Keep(chunks: seq<Riff>, width: nat, height: nat) | Reject(code: CheckCode)

  /** Which chunks stay, given all of them. */
  function Select(cs: seq<Riff>): Plan {
    if cs == [] then Reject(BAD_STRUCTURE)
    else
      var first, rest := cs[0], cs[1..];
      if IsBitstream(first) then
        if Count(rest, IsImage) > 0 then Reject(BAD_STRUCTURE)
        else
          match BitstreamSize(first)
          case NoSize(code) => Reject(code)
          case Size(width, height) => Keep([first], width, height)
      else if first.fourcc != EXTENDED then Reject(BAD_STRUCTURE)
      else SelectExtended(first.payload, rest)
  }

  function SelectExtended(head: Buffer, rest: seq<Riff>): Plan {
    if |head| != 10 then Reject(BAD_HEADER)
    else if Int(head, 0) / 2 % 2 != 0 || Count(rest, IsAnimation) > 0 then Reject(UNSUPPORTED_VARIANT)
    else
      var width, height := 1 + U24LE(head, 4), 1 + U24LE(head, 7);
      if !DimensionsOk(width, height) then Reject(BAD_DIMENSIONS)
      else if Count(rest, IsBitstream) != 1 then Reject(BAD_STRUCTURE)
      else
        var at, alpha := First(rest, IsBitstream), Count(rest, IsAlpha);
        var bitstream := rest[at];
        if alpha > 1 || (alpha == 1 && bitstream.fourcc != LOSSY) then Reject(BAD_STRUCTURE)
        else if alpha == 1 && First(rest, IsAlpha) > at then Reject(BAD_STRUCTURE)
        else
          match BitstreamSize(bitstream)
          case NoSize(code) => Reject(code)
          case Size(w, h) =>
            if w != width || h != height then Reject(BAD_DIMENSIONS)
            else if alpha == 0 then Keep([bitstream], w, h)
            else
              var plane := rest[First(rest, IsAlpha)];
              if plane.payload == [] then Reject(TRUNCATED)
              else Keep([Riff(EXTENDED, CanonicalExtended(width, height)), plane, bitstream], w, h)
  }

  function CanonicalWebp(b: Buffer): CanonicalImage {
    if |b| < 12 || b[..4] != RIFF || b[8..12] != WEBP then Refused(BAD_SIGNATURE)
    else if U32LE(b, 4) + 8 < |b| then Refused(TRAILING_BYTES)
    else if U32LE(b, 4) + 8 > |b| then Refused(TRUNCATED)
    else
      match ParseChunks(b, 12)
      case None => Refused(TRUNCATED)
      case Some(cs) =>
        match Select(cs)
        case Reject(code) => Refused(code)
        case Keep(kept, width, height) =>
          KeptFits(b, 12, cs);
          Accepted(RiffWebp(kept), width, height)
  }

  /** The source's loop over the chunks. */
  method Canonicalize(b: Buffer) returns (r: CanonicalImage)
    ensures r == CanonicalWebp(b)
  {
    hide Select, Prefixed, RiffWebp, RiffsBytes, U32LE;
    if |b| < 12 || b[..4] != RIFF || b[8..12] != WEBP {
      return Refused(BAD_SIGNATURE);
    }
    if U32LE(b, 4) + 8 < |b| {
      return Refused(TRAILING_BYTES);
    }
    if U32LE(b, 4) + 8 > |b| {
      return Refused(TRUNCATED);
    }
    var chunks: seq<Riff> := [];
    var at := 12;
    PrefixedNone(ParseChunks(b, 12));
    while at < |b|
      invariant ParseChunks(b, 12) == Prefixed(chunks, ParseChunks(b, at))
      decreases |b| - at
    {
      PrefixedStop(chunks);
      if at + 8 > |b| {
        return Refused(TRUNCATED);
      }
      var size := U32LE(b, at + 4);
      if at + 8 + size > |b| {
        return Refused(TRUNCATED);
      }
      var next := Riff(b[at..at + 4], b[at + 8..at + 8 + size]);
      PrefixedStep(chunks, next, ParseChunks(b, at + 8 + size + size % 2));
      chunks := chunks + [next];
      at := at + 8 + size + size % 2;
    }
    if at != |b| {
      PrefixedStop(chunks);
      return Refused(TRUNCATED);
    }
    PrefixedEnd(chunks);
    match Select(chunks) {
      case Reject(code) =>
        return Refused(code);
      case Keep(kept, width, height) =>
        KeptFits(b, 12, chunks);
        return Accepted(RiffWebp(kept), width, height);
    }
  }

  ghost function Prefixed(front: seq<Riff>, rest: Option<seq<Riff>>): Option<seq<Riff>> {
    match rest
    case None => None
    case Some(cs) => Some(front + cs)
  }

  lemma PrefixedNone(rest: Option<seq<Riff>>)
    ensures Prefixed([], rest) == rest
  {
    if rest.Some? {
      assert [] + rest.value == rest.value;
    }
  }

  lemma PrefixedEnd(front: seq<Riff>)
    ensures Prefixed(front, Some([])) == Some(front)
  {
    assert front + [] == front;
  }

  lemma PrefixedStop(front: seq<Riff>)
    ensures Prefixed(front, None).None?
  {
  }

  lemma PrefixedStep(front: seq<Riff>, next: Riff, rest: Option<seq<Riff>>)
    ensures Prefixed(front, match rest case None => None case Some(cs) => Some([next] + cs)) == Prefixed(front + [next], rest)
  {
    if rest.Some? {
      assert front + ([next] + rest.value) == front + [next] + rest.value;
    }
  }

  // ---------- The output is no longer than the input ----------

  lemma {:induction false} ChunksTile(b: Buffer, at: nat)
    requires at <= |b| && ParseChunks(b, at).Some?
    ensures at + |RiffsBytes(ParseChunks(b, at).value)| == |b|
    decreases |b| - at
  {
    if at < |b| {
      var size := U32LE(b, at + 4);
      ChunksTile(b, at + 8 + size + size % 2);
      var cs := ParseChunks(b, at).value;
      assert cs[1..] == ParseChunks(b, at + 8 + size + size % 2).value;
    }
  }

  lemma {:induction false} MemberSize(cs: seq<Riff>, i: nat)
    requires (forall c <- cs :: RiffOk(c)) && i < |cs|
    ensures |RiffBytes(cs[i])| <= |RiffsBytes(cs)|
  {
    if i > 0 {
      MemberSize(cs[1..], i - 1);
    }
  }

  lemma {:induction false} TwoMembersSize(cs: seq<Riff>, i: nat, j: nat)
    requires (forall c <- cs :: RiffOk(c)) && i < j < |cs|
    ensures |RiffBytes(cs[i])| + |RiffBytes(cs[j])| <= |RiffsBytes(cs)|
  {
    if i > 0 {
      TwoMembersSize(cs[1..], i - 1, j - 1);
    } else {
      MemberSize(cs[1..], j - 1);
    }
  }

  lemma OneSize(c: Riff)
    requires RiffOk(c)
    ensures RiffsBytes([c]) == RiffBytes(c)
  {
    assert |[c][1..]| == 0;
  }

  lemma ThreeSize(a: Riff, b: Riff, c: Riff)
    requires RiffOk(a) && RiffOk(b) && RiffOk(c)
    ensures RiffsBytes([a, b, c]) == RiffBytes(a) + (RiffBytes(b) + RiffBytes(c))
  {
    assert [a, b, c][1..] == [b, c] && [b, c][1..] == [c];
    OneSize(c);
  }

  /** The kept chunks come from the input: one of them, or a rebuilt header and two of them in order. */
  lemma SelectShape(cs: seq<Riff>) returns (i: nat, j: nat)
    requires Select(cs).Keep?
    ensures j < |cs| && (i == j || 0 < i < j)
    ensures i == j ==> Select(cs).chunks == [cs[j]]
    ensures i < j ==> |cs[0].payload| == 10 && |Select(cs).chunks| == 3
                      && |Select(cs).chunks[0].payload| == 10 && Select(cs).chunks[0].fourcc == EXTENDED
                      && Select(cs).chunks == [Select(cs).chunks[0], cs[i], cs[j]]
  {
    if IsBitstream(cs[0]) {
      i, j := 0, 0;
    } else {
      var rest := cs[1..];
      j := 1 + First(rest, IsBitstream);
      i := j;
      if Count(rest, IsAlpha) != 0 {
        i := 1 + First(rest, IsAlpha);
        AlphaNotBitstream(cs[i]);
      }
    }
  }

  lemma KeptFits(b: Buffer, at: nat, cs: seq<Riff>)
    requires at <= |b| && |b| - at < 0x1_0000_0000 - 4 && ParseChunks(b, at) == Some(cs) && Select(cs).Keep?
    ensures forall c <- Select(cs).chunks :: RiffOk(c)
    ensures |RiffsBytes(Select(cs).chunks)| <= |b| - at
  {
    hide Select, ParseChunks, RiffBytes;
    ChunksTile(b, at);
    var i, j := SelectShape(cs);
    var kept := Select(cs).chunks;
    if i == j {
      OneSize(cs[j]);
      MemberSize(cs, j);
    } else {
      assert cs[1..][i - 1] == cs[i] && cs[1..][j - 1] == cs[j];
      TwoMembersSize(cs[1..], i - 1, j - 1);
      ThreeSize(kept[0], cs[i], cs[j]);
    }
  }

  lemma AlphaNotBitstream(c: Riff)
    requires IsAlpha(c)
    ensures !IsBitstream(c) && c.fourcc != EXTENDED && c.fourcc != ANIM && c.fourcc != ANMF
  {
    assert ALPH[0] != LOSSY[0] && ALPH[1] != ANIM[1];
  }

  // ---------- The output parses back to itself ----------

  lemma {:induction false} ChunksWritten(o: Buffer, at: nat, cs: seq<Riff>)
    requires (forall c <- cs :: RiffOk(c)) && at <= |o| && o[at..] == RiffsBytes(cs)
    ensures ParseChunks(o, at) == Some(cs)
    decreases |cs|
  {
    hide RiffBytes, ParseChunks;
    if cs == [] {
      ParseEnd(o, at);
    } else {
      var c, rest := cs[0], cs[1..];
      assert RiffOk(c) && cs == [c] + rest;
      var size, total := |RiffBytes(c)|, |o| - at;
      TailParts(o, at, RiffBytes(c), RiffsBytes(rest));
      ReadRiff(o, at, c);
      ChunksWritten(o, at + size, rest);
      ParseStep(o, at, c, rest);
    }
  }

  lemma TailParts(o: Buffer, at: nat, a: Buffer, b: Buffer)
    requires at <= |o| && o[at..] == a + b
    ensures at + |a| <= |o| && o[at..at + |a|] == a && o[at + |a|..] == b
  {
    assert o[at..at + |a|] == o[at..][..|a|] == a;
    assert o[at + |a|..] == o[at..][|a|..] == b;
  }

  lemma ParseEnd(o: Buffer, at: nat)
    requires at == |o|
    ensures ParseChunks(o, at) == Some([])
  {
  }

  lemma ParseStep(o: Buffer, at: nat, c: Riff, rest: seq<Riff>)
    requires RiffOk(c)
    requires at + 8 + |c.payload| <= |o| && o[at..at + 4] == c.fourcc && U32LE(o, at + 4) == |c.payload|
    requires o[at + 8..at + 8 + |c.payload|] == c.payload
    requires ParseChunks(o, at + 8 + |c.payload| + |c.payload| % 2) == Some(rest)
    ensures ParseChunks(o, at) == Some([c] + rest)
  {
  }

  lemma ReadRiff(o: Buffer, at: nat, c: Riff)
    requires RiffOk(c) && at + |RiffBytes(c)| <= |o| && o[at..at + |RiffBytes(c)|] == RiffBytes(c)
    ensures o[at..at + 4] == c.fourcc && U32LE(o, at + 4) == |c.payload| && o[at + 8..at + 8 + |c.payload|] == c.payload
  {
    var n := |c.payload|;
    var size := PutU32LE(n);
    var total := |RiffBytes(c)|;
    FourParts(c.fourcc, size, c.payload, Pad(n));
    SubRange(o, at, total, 0, 4);
    SubRange(o, at, total, 4, 8);
    SubRange(o, at, total, 8, 8 + n);
    var w := o[at + 4..at + 8];
    assert o[at + 4] == w[0] && o[at + 5] == w[1] && o[at + 6] == w[2] && o[at + 7] == w[3];
    assert w == size;
    assert U32LE(o, at + 4) == U32LE(size, 0);
  }

  lemma ReadFile(cs: seq<Riff>)
    requires (forall c <- cs :: RiffOk(c)) && 4 + |RiffsBytes(cs)| < 0x1_0000_0000
    ensures var o := RiffWebp(cs);
            |o| >= 12 && o[..4] == RIFF && o[8..12] == WEBP && U32LE(o, 4) + 8 == |o| && ParseChunks(o, 12) == Some(cs)
  {
    var o := RiffWebp(cs);
    var size := PutU32LE(4 + |RiffsBytes(cs)|);
    FourParts(RIFF, size, WEBP, RiffsBytes(cs));
    assert o[..4] == o[0..4];
    var w := o[4..8];
    assert o[4] == w[0] && o[5] == w[1] && o[6] == w[2] && o[7] == w[3];
    assert U32LE(o, 4) == U32LE(size, 0);
    assert o[12..] == o[12..12 + |RiffsBytes(cs)|];
    ChunksWritten(o, 12, cs);
  }

  lemma CountOne(c: Riff, f: Riff -> bool)
    ensures Count([c], f) == (if f(c) then 1 else 0)
    ensures First([c], f) == (if f(c) then 0 else 1)
  {
    assert |[c][1..]| == 0;
  }

  lemma CountTwo(c: Riff, d: Riff, f: Riff -> bool)
    ensures Count([c, d], f) == (if f(c) then 1 else 0) + (if f(d) then 1 else 0)
    ensures First([c, d], f) == (if f(c) then 0 else if f(d) then 1 else 2)
  {
    assert [c, d][1..] == [d];
    CountOne(d, f);
  }

  lemma ExtendedSize(width: nat, height: nat)
    requires 1 <= width <= 0x100_0000 && 1 <= height <= 0x100_0000
    ensures var e := CanonicalExtended(width, height); e[0] == 0x10 && 1 + U24LE(e, 4) == width && 1 + U24LE(e, 7) == height
  {
    var e, w, h := CanonicalExtended(width, height), PutU24LE(width - 1), PutU24LE(height - 1);
    assert e[4] == w[0] && e[5] == w[1] && e[6] == w[2] && e[7] == h[0] && e[8] == h[1] && e[9] == h[2];
    assert U24LE(e, 4) == U24LE(w, 0) && U24LE(e, 7) == U24LE(h, 0);
  }

  /** Selecting twice selects the same. */
  lemma SelectTwice(cs: seq<Riff>)
    requires Select(cs).Keep?
    ensures Select(Select(cs).chunks) == Select(cs)
    ensures DimensionsOk(Select(cs).width, Select(cs).height)
  {
    var first, rest := cs[0], cs[1..];
    if IsBitstream(first) {
      OneBitstream(first);
    } else {
      var i, j := First(rest, IsAlpha), First(rest, IsBitstream);
      if Count(rest, IsAlpha) == 0 {
        OneBitstream(rest[j]);
      } else {
        WithAlpha(1 + U24LE(first.payload, 4), 1 + U24LE(first.payload, 7), rest[i], rest[j]);
      }
    }
  }

  lemma OneBitstream(c: Riff)
    requires IsBitstream(c) && BitstreamSize(c).Size?
    ensures Select([c]) == Keep([c], BitstreamSize(c).width, BitstreamSize(c).height)
  {
    assert |[c][1..]| == 0;
  }

  lemma WithAlpha(width: nat, height: nat, plane: Riff, bitstream: Riff)
    requires DimensionsOk(width, height) && BitstreamSize(bitstream) == Size(width, height)
    requires IsAlpha(plane) && plane.payload != [] && bitstream.fourcc == LOSSY
    ensures var kept := [Riff(EXTENDED, CanonicalExtended(width, height)), plane, bitstream];
            Select(kept) == Keep(kept, width, height)
  {
    hide BitstreamSize, CanonicalExtended;
    var head := Riff(EXTENDED, CanonicalExtended(width, height));
    var kept := [head, plane, bitstream];
    var rest := [plane, bitstream];
    assert kept[1..] == rest;
    AlphaNotBitstream(plane);
    ExtendedSize(width, height);
    CountTwo(plane, bitstream, IsBitstream);
    CountTwo(plane, bitstream, IsAlpha);
    CountTwo(plane, bitstream, IsAnimation);
    assert EXTENDED[3] != LOSSY[3] && EXTENDED[3] != LOSSLESS[3] && LOSSY[0] != ANIM[0] && LOSSY[0] != ALPH[0] && LOSSY[0] != ANMF[0];
    assert SelectExtended(head.payload, rest) == Keep(kept, width, height);
  }

  /** Canonicalisation is a projection: an accepted image is written so that it is accepted again, unchanged, same size;
      and the output is never longer than the input. */
  lemma CanonicalWebpProjection(b: Buffer)
    requires CanonicalWebp(b).Accepted?
    ensures CanonicalWebp(CanonicalWebp(b).bytes) == CanonicalWebp(b)
    ensures DimensionsOk(CanonicalWebp(b).width, CanonicalWebp(b).height)
    ensures |CanonicalWebp(b).bytes| <= |b|
  {
    hide Select;
    var cs := ParseChunks(b, 12).value;
    KeptFits(b, 12, cs);
    ReadFile(Select(cs).chunks);
    SelectTwice(cs);
  }
}
