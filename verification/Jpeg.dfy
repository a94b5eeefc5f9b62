/** The JPEG canonicaliser (image-canonical.ts:280-428; ITU-T T.81 Annex B). */
module Jpeg {
  import opened Options
  import opened Bytes
  import opened Images

  const EOI: Byte := 0xd9
  const SOS: Byte := 0xda
  const DQT: Byte := 0xdb
  const DHT: Byte := 0xc4
  const DRI: Byte := 0xdd
  const APP0: Byte := 0xe0
  const APP14: Byte := 0xee
  const COM: Byte := 0xfe

  const JFIF_TAG: Buffer := [0x4a, 0x46, 0x49, 0x46, 0x00]
  const ADOBE_TAG: Buffer := [0x41, 0x64, 0x6f, 0x62, 0x65]
  const CANONICAL_JFIF: Buffer := [0x4a, 0x46, 0x49, 0x46, 0x00, 0x01, 0x01, 0x00, 0x00, 0x01, 0x00, 0x01, 0x00, 0x00]

  predicate IsFrame(marker: Byte) {
    marker == 0xc0 || marker == 0xc1 || marker == 0xc2
  }

  predicate IsApp(marker: Byte) {
    0xe0 <= marker <= 0xef
  }

  function CanonicalAdobe(transform: Byte): Buffer {
    ADOBE_TAG + [0x00, 0x64, 0x00, 0x00, 0x00, 0x00, if transform < 2 then transform else 2]
  }

  function Segment(marker: Byte, payload: Buffer): (r: Buffer)
    requires |payload| + 2 < 0x1_0000
    ensures |r| == |payload| + 4
  {
    [0xff, marker] + PutU16BE(|payload| + 2) + payload
  }

  // ---------- Table segments ----------

  datatype Tables = Quantization | Huffman

  function Sum16(b: Buffer, at: nat, n: nat): nat
    requires at + n <= |b|
  {
    if n == 0 then 0 else Sum16(b, at, n - 1) + Int(b, at + n - 1)
  }

  /** The length of the table whose header is at `at`, when the header is legal. */
  function TableLength(kind: Tables, b: Buffer, at: nat): (r: Option<nat>)
    requires at < |b|
    ensures r.Some? ==> r.value > 0
  {
    var high, low := Int(b, at) / 16, Int(b, at) % 16;
    if high > 1 || low > 3 then None
    else match kind
      case Quantization => Some(1 + 64 * (high + 1))
      case Huffman =>
        if at + 17 > |b| || Sum16(b, at + 1, 16) > 256 then None else Some(17 + Sum16(b, at + 1, 16))
  }

  /** The tables from `at` on end exactly where the payload ends. */
  predicate TablesFit(kind: Tables, b: Buffer, at: nat)
    decreases |b| - at
  {
    if at >= |b| then at == |b|
    else TableLength(kind, b, at).Some? && TablesFit(kind, b, at + TableLength(kind, b, at).value)
  }

  predicate ValidTables(kind: Tables, b: Buffer) {
    b != [] && TablesFit(kind, b, 0)
  }

  method ValidateDqt(payload: Buffer) returns (ok: bool)
    ensures ok == ValidTables(Quantization, payload)
  {
    var at := 0;
    while at < |payload|
      invariant TablesFit(Quantization, payload, at) == TablesFit(Quantization, payload, 0)
      decreases |payload| - at
    {
      var pq, tq := Int(payload, at) / 16, Int(payload, at) % 16;
      if pq > 1 || tq > 3 {
        return false;
      }
      at := at + 1 + 64 * (pq + 1);
    }
    ok := at == |payload| && |payload| != 0;
  }

  method ValidateDht(payload: Buffer) returns (ok: bool)
    ensures ok == ValidTables(Huffman, payload)
  {
    var at := 0;
    while at < |payload|
      invariant TablesFit(Huffman, payload, at) == TablesFit(Huffman, payload, 0)
      decreases |payload| - at
    {
      var tc, th := Int(payload, at) / 16, Int(payload, at) % 16;
      if tc > 1 || th > 3 || at + 17 > |payload| {
        return false;
      }
      var count := 0;
      var i := 1;
      while i <= 16
        invariant 1 <= i <= 17
        invariant count == Sum16(payload, at + 1, i - 1)
      {
        count := count + Int(payload, at + i);
        i := i + 1;
      }
      if count > 256 {
        return false;
      }
      at := at + 17 + count;
    }
    ok := at == |payload| && |payload| != 0;
  }

  /** One whole table on its own. */
  predicate IsTable(kind: Tables, t: Buffer) {
    t != [] && TableLength(kind, t, 0) == Some(|t|)
  }

  function Concat(parts: seq<Buffer>): Buffer {
    if parts == [] then [] else parts[0] + Concat(parts[1..])
  }

  lemma {:induction false} Sum16Shift(a: Buffer, i: nat, b: Buffer, j: nat, n: nat)
    requires i + n <= |a| && j + n <= |b| && a[i..i + n] == b[j..j + n]
    ensures Sum16(a, i, n) == Sum16(b, j, n)
  {
    if n > 0 {
      assert a[i..i + n][n - 1] == b[j..j + n][n - 1];
      assert a[i..i + n][..n - 1] == a[i..i + n - 1] && b[j..j + n][..n - 1] == b[j..j + n - 1];
      Sum16Shift(a, i, b, j, n - 1);
    }
  }

  /** A table's length depends only on its own bytes. */
  lemma TableAlone(kind: Tables, b: Buffer, at: nat, length: nat)
    requires at < |b| && 0 < length && at + length <= |b|
    ensures TableLength(kind, b, at) == Some(length) <==> IsTable(kind, b[at..at + length])
  {
    var t := b[at..at + length];
    assert t[0] == b[at];
    if kind == Huffman && length >= 17 {
      SubRange(b, at, length, 1, 17);
      Sum16Shift(b, at + 1, t, 1, 16);
    }
  }

  /** The exact-length check accepts a payload just when it is one or more whole tables and nothing else. */
  lemma ValidTablesAreTables(kind: Tables, b: Buffer)
    ensures ValidTables(kind, b) <==> b != [] && exists parts :: Concat(parts) == b && forall t <- parts :: IsTable(kind, t)
  {
    if ValidTables(kind, b) {
      var parts := SplitTables(kind, b, 0);
      assert Concat(parts) == b[0..] == b;
    }
    if b != [] && exists parts :: Concat(parts) == b && forall t <- parts :: IsTable(kind, t) {
      var parts :| Concat(parts) == b && forall t <- parts :: IsTable(kind, t);
      JoinTables(kind, b, 0, parts);
    }
  }

  lemma {:induction false} SplitTables(kind: Tables, b: Buffer, at: nat) returns (parts: seq<Buffer>)
    requires at <= |b| && TablesFit(kind, b, at)
    ensures Concat(parts) == b[at..] && forall t <- parts :: IsTable(kind, t)
    decreases |b| - at
  {
    if at == |b| {
      parts := [];
    } else {
      var length := TableLength(kind, b, at).value;
      FitBounds(kind, b, at + length);
      TableAlone(kind, b, at, length);
      var rest := SplitTables(kind, b, at + length);
      parts := [b[at..at + length]] + rest;
      assert parts[1..] == rest;
    }
  }

  lemma FitBounds(kind: Tables, b: Buffer, at: nat)
    requires TablesFit(kind, b, at)
    ensures at <= |b|
  {
  }

  lemma {:induction false} JoinTables(kind: Tables, b: Buffer, at: nat, parts: seq<Buffer>)
    requires at <= |b| && Concat(parts) == b[at..] && forall t <- parts :: IsTable(kind, t)
    ensures TablesFit(kind, b, at)
    decreases |parts|
  {
    if parts != [] {
      var t := parts[0];
      assert t in parts;
      assert b[at..][..|t|] == t;
      assert b[at..at + |t|] == t;
      TableAlone(kind, b, at, |t|);
      assert b[at + |t|..] == b[at..][|t|..] == Concat(parts[1..]);
      JoinTables(kind, b, at + |t|, parts[1..]);
    }
  }

  // ---------- The segment walk ----------

  datatype Dims = Dims(width: nat, height: nat)

  datatype State = State(out: Buffer, frame: Option<Dims>, tables: nat, scans: nat, jfif: bool, adobe: bool)

  const START := State([0xff, 0xd8], None, 0, 0, false, false)

  datatype Outcome = Next(st: State) | Stop(code: CheckCode)

  /** One marker segment: kept, replaced by a fixed one, dropped, or refused. */
  function Take(st: State, marker: Byte, payload: Buffer): Outcome
    requires |payload| + 2 < 0x1_0000
  {
    if IsApp(marker) then
      if marker == APP0 && !st.jfif && st.frame.None? && |payload| >= 5 && payload[..5] == JFIF_TAG then
        Next(st.(out := st.out + Segment(APP0, CANONICAL_JFIF), jfif := true))
      else if marker == APP14 && !st.adobe && |payload| == 12 && payload[..5] == ADOBE_TAG then
        Next(st.(out := st.out + Segment(APP14, CanonicalAdobe(payload[11])), adobe := true))
      else Next(st)
    else if marker == COM then Next(st)
    else if marker == DQT then
      if ValidTables(Quantization, payload) then Next(st.(out := st.out + Segment(marker, payload), tables := st.tables + 1))
      else Stop(BAD_STRUCTURE)
    else if marker == DHT then
      if ValidTables(Huffman, payload) then Next(st.(out := st.out + Segment(marker, payload))) else Stop(BAD_STRUCTURE)
    else if marker == DRI then
      if |payload| == 2 then Next(st.(out := st.out + Segment(marker, payload))) else Stop(BAD_STRUCTURE)
    else if IsFrame(marker) then
      if st.frame.Some? || |payload| < 6 then Stop(BAD_STRUCTURE)
      else if (payload[0] != 8 && payload[0] != 12) || payload[5] < 1 || payload[5] > 4 || |payload| != 6 + 3 * Int(payload, 5) then
        Stop(BAD_HEADER)
      else
        var dims := Dims(U16BE(payload, 3), U16BE(payload, 1));
        if DimensionsOk(dims.width, dims.height) then
          Next(st.(out := st.out + Segment(marker, payload), frame := Some(dims)))
        else Stop(BAD_DIMENSIONS)
    else if marker == SOS then
      if st.frame.None? || st.tables == 0 || payload == [] || payload[0] < 1 || payload[0] > 4 || |payload| != 4 + 2 * Int(payload, 0) then
        Stop(BAD_STRUCTURE)
      else Next(st.(out := st.out + Segment(marker, payload), scans := st.scans + 1))
    else Stop(UNSUPPORTED_VARIANT)
  }

  /** The first index at or after `at` that holds no fill byte. */
  function SkipFill(b: Buffer, at: nat): (r: nat)
    requires at <= |b|
    ensures at <= r <= |b| && (r < |b| ==> b[r] != 0xff)
    decreases |b| - at
  {
    if at < |b| && b[at] == 0xff then SkipFill(b, at + 1) else at
  }

  predicate Restart(b: Byte) {
    0xd0 <= b <= 0xd7
  }

  /** Where the entropy-coded data that starts at `at` ends: before a 0xFF that starts a marker. */
  function EntropyEnd(b: Buffer, at: nat): (r: Option<nat>)
    requires at <= |b|
    ensures r.Some? ==> at <= r.value && r.value + 1 < |b| && b[r.value] == 0xff
    decreases |b| - at
  {
    if at + 1 >= |b| then None
    else if b[at] == 0xff then
      if b[at + 1] == 0x00 || Restart(b[at + 1]) then EntropyEnd(b, at + 2)
      else if b[at + 1] == 0xff then EntropyEnd(b, at + 1)
      else Some(at)
    else EntropyEnd(b, at + 1)
  }

  function Parse(b: Buffer, at: nat, st: State): CanonicalImage
    requires at <= |b|
    decreases |b| - at
  {
    if at + 2 > |b| then Refused(TRUNCATED)
    else if b[at] != 0xff then Refused(BAD_STRUCTURE)
    else
      var m := SkipFill(b, at);
      if m >= |b| then Refused(TRUNCATED)
      else if b[m] == EOI then
        if st.frame.None? || st.scans == 0 then Refused(BAD_STRUCTURE)
        else if m + 1 != |b| then Refused(TRAILING_BYTES)
        else Accepted(st.out + [0xff, EOI], st.frame.value.width, st.frame.value.height)
      else if b[m] == 0x00 || b[m] == 0x01 || 0xd0 <= b[m] <= 0xd8 then Refused(BAD_STRUCTURE)
      else if m + 3 > |b| then Refused(TRUNCATED)
      else
        var length := U16BE(b, m + 1);
        if length < 2 || m + 1 + length > |b| then Refused(TRUNCATED)
        else
          var end := m + 1 + length;
          match Take(st, b[m], b[m + 3..end])
          case Stop(code) => Refused(code)
          case Next(next) =>
            if b[m] != SOS then Parse(b, end, next)
            else
              match EntropyEnd(b, end)
              case None => Refused(TRUNCATED)
              case Some(stop) => Parse(b, stop, next.(out := next.out + b[end..stop]))
  }

  function CanonicalJpeg(b: Buffer): CanonicalImage {
    if |b| < 4 || b[0] != 0xff || b[1] != 0xd8 then Refused(BAD_SIGNATURE) else Parse(b, 2, START)
  }

  /** The source's loop, with the result of the segment walk. */
  method Canonicalize(b: Buffer) returns (r: CanonicalImage)
    ensures r == CanonicalJpeg(b)
  {
    hide Take, ValidTables, EntropyEnd, SkipFill;
    if |b| < 4 || b[0] != 0xff || b[1] != 0xd8 {
      return Refused(BAD_SIGNATURE);
    }
    var st := START;
    var at := 2;
    while true
      invariant at <= |b|
      invariant Parse(b, at, st) == CanonicalJpeg(b)
      decreases |b| - at
    {
      if at + 2 > |b| {
        return Refused(TRUNCATED);
      }
      if b[at] != 0xff {
        return Refused(BAD_STRUCTURE);
      }
      at := FillEnd(b, at);
      if at >= |b| {
        return Refused(TRUNCATED);
      }
      var marker := b[at];
      at := at + 1;
      if marker == EOI {
        if st.frame.None? || st.scans == 0 {
          return Refused(BAD_STRUCTURE);
        }
        if at != |b| {
          return Refused(TRAILING_BYTES);
        }
        return Accepted(st.out + [0xff, EOI], st.frame.value.width, st.frame.value.height);
      }
      if marker == 0x00 || marker == 0x01 || 0xd0 <= marker <= 0xd8 {
        return Refused(BAD_STRUCTURE);
      }
      if at + 2 > |b| {
        return Refused(TRUNCATED);
      }
      var length := U16BE(b, at);
      if length < 2 || at + length > |b| {
        return Refused(TRUNCATED);
      }
      var payload := b[at + 2..at + length];
      at := at + length;
      match Take(st, marker, payload) {
        case Stop(code) =>
          return Refused(code);
        case Next(next) =>
          st := next;
      }
      if marker == SOS {
        var start := at;
        at := ScanEntropy(b, at);
        if at == |b| {
          return Refused(TRUNCATED);
        }
        st := st.(out := st.out + b[start..at]);
      }
    }
  }

  method FillEnd(b: Buffer, start: nat) returns (at: nat)
    requires start <= |b|
    ensures at == SkipFill(b, start)
  {
    at := start;
    while at < |b| && b[at] == 0xff
      invariant start <= at <= |b|
      invariant SkipFill(b, at) == SkipFill(b, start)
      decreases |b| - at
    {
      at := at + 1;
    }
  }

  /** The end of the entropy-coded data, or the end of the buffer when it never ends. */
  method ScanEntropy(b: Buffer, start: nat) returns (at: nat)
    requires start <= |b|
    ensures EntropyEnd(b, start) == (if at == |b| then None else Some(at))
    ensures start <= at <= |b|
  {
    at := start;
    while true
      invariant start <= at <= |b|
      invariant EntropyEnd(b, at) == EntropyEnd(b, start)
      decreases |b| - at
    {
      if at + 1 >= |b| {
        return |b|;
      }
      if b[at] == 0xff {
        var next := b[at + 1];
        if next == 0x00 || Restart(next) {
          at := at + 2;
          continue;
        }
        if next == 0xff {
          at := at + 1;
          continue;
        }
        return;
      }
      at := at + 1;
    }
  }

  // ---------- The output parses back to itself ----------

  /** A 0xFF before `marker` starts a segment or the end: no fill, no stuffing, no restart. */
  predicate StartsMarker(marker: Byte) {
    marker != 0xff && marker != 0x00 && !Restart(marker)
  }

  /** A kept segment is written so that taking it again does exactly the same. */
  lemma TakeTwice(st: State, marker: Byte, payload: Buffer, next: State) returns (kept: Buffer)
    requires |payload| + 2 < 0x1_0000 && Take(st, marker, payload) == Next(next) && next != st
    ensures |kept| + 2 < 0x1_0000 && next.out == st.out + Segment(marker, kept)
    ensures Take(st, marker, kept) == Next(next)
    ensures StartsMarker(marker) && 0xc0 <= marker && marker != EOI && marker != 0xd8
    ensures ValidPiece(Piece(marker, kept, []))
  {
    kept := payload;
    if marker == APP0 {
      kept := CANONICAL_JFIF;
      assert kept[..5] == JFIF_TAG;
    } else if marker == APP14 {
      kept := CanonicalAdobe(payload[11]);
      assert kept[..5] == ADOBE_TAG;
    }
  }

  lemma DroppedIsNoScan(st: State, marker: Byte, payload: Buffer)
    requires |payload| + 2 < 0x1_0000 && Take(st, marker, payload) == Next(st)
    ensures marker != SOS
  {
  }

  lemma {:induction false} EntropyCopied(b: Buffer, at: nat, o: Buffer, to: nat)
    requires at <= |b| && EntropyEnd(b, at).Some?
    requires var n := EntropyEnd(b, at).value - at;
             to + n + 1 < |o| && o[to..to + n] == b[at..at + n] && o[to + n] == 0xff && StartsMarker(o[to + n + 1])
    ensures EntropyEnd(o, to) == Some(to + EntropyEnd(b, at).value - at)
    decreases |b| - at
  {
    var n := EntropyEnd(b, at).value - at;
    if n > 0 {
      assert o[to] == o[to..to + n][0] == b[at..at + n][0] == b[at];
      var step := if b[at] == 0xff && b[at + 1] != 0xff then 2 else 1;
      assert n >= step;
      if n > 1 {
        assert o[to + 1] == o[to..to + n][1] == b[at..at + n][1] == b[at + 1];
      }
      assert o[to + step..to + n] == o[to..to + n][step..] == b[at..at + n][step..] == b[at + step..at + n];
      EntropyCopied(b, at + step, o, to + step);
    }
  }

  /** The bytes of a written segment, read where it was written. */
  lemma ReadSegment(o: Buffer, at: nat, marker: Byte, payload: Buffer)
    requires |payload| + 2 < 0x1_0000 && at + |payload| + 4 <= |o| && o[at..at + |payload| + 4] == Segment(marker, payload)
    requires marker != 0xff
    ensures o[at] == 0xff && o[at + 1] == marker && SkipFill(o, at) == at + 1
    ensures U16BE(o, at + 2) == |payload| + 2 && o[at + 4..at + |payload| + 4] == payload
  {
    var s := Segment(marker, payload);
    var end := at + |payload| + 4;
    assert o[at] == o[at..end][0] == s[0] && o[at + 1] == o[at..end][1] == s[1];
    assert o[at + 2] == o[at..end][2] == s[2] && o[at + 3] == o[at..end][3] == s[3];
    assert SkipFill(o, at) == SkipFill(o, at + 1) == at + 1;
    assert o[at + 4..end] == o[at..end][4..] == s[4..] == payload;
  }

  /** At a written segment the walk takes exactly that segment, and a scan with the data behind it. */
  lemma AtSegment(o: Buffer, at: nat, st: State, marker: Byte, payload: Buffer, next: State, stop: nat)
    requires |payload| + 2 < 0x1_0000 && at + |payload| + 4 <= |o| && o[at..at + |payload| + 4] == Segment(marker, payload)
    requires StartsMarker(marker) && 0xc0 <= marker && marker != EOI && marker != 0xd8
    requires Take(st, marker, payload) == Next(next)
    requires if marker == SOS then EntropyEnd(o, at + |payload| + 4) == Some(stop) else stop == at + |payload| + 4
    ensures Parse(o, at, st) == Parse(o, stop, if marker == SOS then next.(out := next.out + o[at + |payload| + 4..stop]) else next)
  {
    hide Take, EntropyEnd, Segment;
    ReadSegment(o, at, marker, payload);
  }

  /** A kept segment and the entropy-coded data behind it. */
  datatype Piece = Piece(marker: Byte, payload: Buffer, entropy: Buffer)

  function PieceBytes(p: Piece): Buffer
    requires |p.payload| + 2 < 0x1_0000
  {
    Segment(p.marker, p.payload) + p.entropy
  }

  /** Only tables, frame, scan and restart segments keep input bytes; APP0 and APP14 are fixed up to the colour transform. */
  predicate ValidPiece(p: Piece) {
    && |p.payload| + 2 < 0x1_0000
    && (p.marker != SOS ==> p.entropy == [])
    && (|| (p.marker == DQT && ValidTables(Quantization, p.payload))
        || (p.marker == DHT && ValidTables(Huffman, p.payload))
        || (p.marker == DRI && |p.payload| == 2)
        || IsFrame(p.marker)
        || p.marker == SOS
        || (p.marker == APP0 && p.payload == CANONICAL_JFIF)
        || (p.marker == APP14 && p.payload in {CanonicalAdobe(0), CanonicalAdobe(1), CanonicalAdobe(2)}))
  }

  function PiecesBytes(ps: seq<Piece>): Buffer
    requires forall p <- ps :: ValidPiece(p)
  {
    if ps == [] then [] else assert ValidPiece(ps[0]); PieceBytes(ps[0]) + PiecesBytes(ps[1..])
  }

  lemma PrefixAt(a: Buffer, b: Buffer, c: Buffer, o: Buffer)
    requires a + b + c <= o
    ensures |a| + |b| + |c| <= |o|
    ensures o[|a|..|a| + |b|] == b && o[|a| + |b|..|a| + |b| + |c|] == c
  {
    assert (a + b + c)[|a|..|a| + |b|] == b && (a + b + c)[|a| + |b|..] == c;
  }

  /** What a written piece needs: the bytes are in place, and walking on from behind it gives `r`. */
  lemma Prepend(st: State, p: Piece, next: State, rest: seq<Piece>, o: Buffer, r: CanonicalImage) returns (ps: seq<Piece>)
    requires ValidPiece(p) && StartsMarker(p.marker) && 0xc0 <= p.marker && p.marker != EOI && p.marker != 0xd8
    requires Take(st, p.marker, p.payload) == Next(next) && next.out == st.out + Segment(p.marker, p.payload)
    requires forall q <- rest :: ValidPiece(q)
    requires o == next.out + p.entropy + PiecesBytes(rest) + [0xff, EOI]
    requires p.marker == SOS ==> EntropyEnd(o, |next.out|) == Some(|next.out| + |p.entropy|)
    requires r == Parse(o, |next.out| + |p.entropy|, if p.marker == SOS then next.(out := next.out + p.entropy) else next)
    ensures forall q <- ps :: ValidPiece(q)
    ensures o == st.out + PiecesBytes(ps) + [0xff, EOI]
    ensures |st.out| + 1 < |o| && o[|st.out|] == 0xff && StartsMarker(o[|st.out| + 1])
    ensures Parse(o, |st.out|, st) == r
  {
    hide Take, Parse, EntropyEnd, ValidTables, Segment, PieceBytes, PiecesBytes;
    ps := AddPiece(p, rest);
    JoinPiece(st.out, p, rest, next.out + p.entropy, o);
    PrefixAt(st.out, Segment(p.marker, p.payload), p.entropy, o);
    ReadSegment(o, |st.out|, p.marker, p.payload);
    AtSegment(o, |st.out|, st, p.marker, p.payload, next, |next.out| + |p.entropy|);
  }

  /** From every point of an accepted walk: what is written next, and that walking it again gives the same result. */
  lemma {:induction false} WalkAgain(b: Buffer, at: nat, st: State) returns (ps: seq<Piece>)
    requires at <= |b| && Parse(b, at, st).Accepted?
    ensures forall p <- ps :: ValidPiece(p)
    ensures Parse(b, at, st).bytes == st.out + PiecesBytes(ps) + [0xff, EOI]
    ensures var o := Parse(b, at, st).bytes;
            |st.out| + 1 < |o| && o[|st.out|] == 0xff && StartsMarker(o[|st.out| + 1])
            && Parse(o, |st.out|, st) == Parse(b, at, st)
    decreases |b| - at, 0
  {
    hide Take, ValidTables;
    var r := Parse(b, at, st);
    var o := r.bytes;
    var m := SkipFill(b, at);
    if b[m] == EOI {
      ps := [];
      assert SkipFill(o, |st.out|) == SkipFill(o, |st.out| + 1) == |st.out| + 1;
    } else {
      var end := m + 1 + U16BE(b, m + 1);
      var next := Take(st, b[m], b[m + 3..end]).st;
      if next == st {
        DroppedIsNoScan(st, b[m], b[m + 3..end]);
        ps := WalkAgain(b, end, st);
      } else {
        var kept := TakeTwice(st, b[m], b[m + 3..end], next);
        if b[m] == SOS {
          ps := ScanAgain(b, end, st, next, kept, r);
        } else {
          ps := SegmentAgain(b, end, st, b[m], next, kept, r);
        }
      }
    }
  }

  lemma {:induction false} SegmentAgain(b: Buffer, end: nat, st: State, marker: Byte, next: State, kept: Buffer, r: CanonicalImage)
    returns (ps: seq<Piece>)
    requires end <= |b| && r.Accepted? && ValidPiece(Piece(marker, kept, [])) && marker != SOS
    requires StartsMarker(marker) && 0xc0 <= marker && marker != EOI && marker != 0xd8
    requires Take(st, marker, kept) == Next(next) && next.out == st.out + Segment(marker, kept)
    requires r == Parse(b, end, next)
    ensures forall p <- ps :: ValidPiece(p)
    ensures r.bytes == st.out + PiecesBytes(ps) + [0xff, EOI]
    ensures |st.out| + 1 < |r.bytes| && r.bytes[|st.out|] == 0xff && StartsMarker(r.bytes[|st.out| + 1])
    ensures Parse(r.bytes, |st.out|, st) == r
    decreases |b| - end, 1
  {
    hide Take, Parse, EntropyEnd, ValidTables;
    var rest := WalkAgain(b, end, next);
    assert next.out + [] == next.out;
    ps := Prepend(st, Piece(marker, kept, []), next, rest, r.bytes, r);
  }

  lemma {:induction false} ScanAgain(b: Buffer, end: nat, st: State, next: State, kept: Buffer, r: CanonicalImage) returns (ps: seq<Piece>)
    requires end <= |b| && r.Accepted? && ValidPiece(Piece(SOS, kept, []))
    requires Take(st, SOS, kept) == Next(next) && next.out == st.out + Segment(SOS, kept)
    requires EntropyEnd(b, end).Some?
    requires var stop := EntropyEnd(b, end).value; r == Parse(b, stop, next.(out := next.out + b[end..stop]))
    ensures forall p <- ps :: ValidPiece(p)
    ensures r.bytes == st.out + PiecesBytes(ps) + [0xff, EOI]
    ensures |st.out| + 1 < |r.bytes| && r.bytes[|st.out|] == 0xff && StartsMarker(r.bytes[|st.out| + 1])
    ensures Parse(r.bytes, |st.out|, st) == r
    decreases |b| - end, 1
  {
    hide Take, Parse, EntropyEnd, ValidTables;
    var stop := EntropyEnd(b, end).value;
    var entropy := b[end..stop];
    var rest := WalkAgain(b, stop, next.(out := next.out + entropy));
    PrefixAt(next.out, entropy, PiecesBytes(rest) + [0xff, EOI], r.bytes);
    EntropyCopied(b, end, r.bytes, |next.out|);
    ps := Prepend(st, Piece(SOS, kept, entropy), next, rest, r.bytes, r);
  }

  lemma AddPiece(p: Piece, rest: seq<Piece>) returns (ps: seq<Piece>)
    requires ValidPiece(p) && forall q <- rest :: ValidPiece(q)
    ensures ps == [p] + rest && ps[0] == p && forall q <- ps :: ValidPiece(q)
    ensures PiecesBytes(ps) == PieceBytes(p) + PiecesBytes(rest)
  {
    ps := [p] + rest;
    assert ps[1..] == rest;
  }

  lemma JoinPiece(out: Buffer, p: Piece, rest: seq<Piece>, after: Buffer, o: Buffer)
    requires ValidPiece(p) && forall q <- rest :: ValidPiece(q)
    requires after == out + Segment(p.marker, p.payload) + p.entropy
    requires o == after + PiecesBytes(rest) + [0xff, EOI]
    ensures o == out + (PieceBytes(p) + PiecesBytes(rest)) + [0xff, EOI]
    ensures after <= o
  {
  }

  /** Canonicalisation is a projection: an accepted image is written so that it is accepted again, unchanged, same size. */
  lemma CanonicalJpegProjection(b: Buffer)
    requires CanonicalJpeg(b).Accepted?
    ensures CanonicalJpeg(CanonicalJpeg(b).bytes) == CanonicalJpeg(b)
    ensures DimensionsOk(CanonicalJpeg(b).width, CanonicalJpeg(b).height)
  {
    var ps := WalkAgain(b, 2, START);
    var o := CanonicalJpeg(b).bytes;
    assert o == START.out + (PiecesBytes(ps) + [0xff, EOI]);
    WalkDimensions(b, 2, START);
  }

  lemma {:induction false} WalkDimensions(b: Buffer, at: nat, st: State)
    requires at <= |b| && Parse(b, at, st).Accepted?
    requires st.frame.Some? ==> DimensionsOk(st.frame.value.width, st.frame.value.height)
    ensures DimensionsOk(Parse(b, at, st).width, Parse(b, at, st).height)
    decreases |b| - at
  {
    var m := SkipFill(b, at);
    if b[m] != EOI {
      var end := m + 1 + U16BE(b, m + 1);
      var next := Take(st, b[m], b[m + 3..end]).st;
      if b[m] == SOS {
        var stop := EntropyEnd(b, end).value;
        WalkDimensions(b, stop, next.(out := next.out + b[end..stop]));
      } else {
        WalkDimensions(b, end, next);
      }
    }
  }

  /** Everything in the output is SOI, kept pieces and EOI: no comment and no application data of the input. */
  lemma CanonicalJpegPieces(b: Buffer) returns (ps: seq<Piece>)
    requires CanonicalJpeg(b).Accepted?
    ensures forall p <- ps :: ValidPiece(p)
    ensures CanonicalJpeg(b).bytes == [0xff, 0xd8] + PiecesBytes(ps) + [0xff, EOI]
  {
    ps := WalkAgain(b, 2, START);
  }
}
