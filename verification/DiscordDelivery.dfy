/** Splitting a reply into Discord messages (packages/adapter-discord/src/delivery.ts:28-118). */
module DiscordDelivery {
  import opened Options
  import opened Utf16

  const FENCE: Text := [BACKTICK, BACKTICK, BACKTICK]
  const MIN_FENCE_AWARE_LIMIT := 64
  const FENCE_CLOSER_RESERVE := 4

  predicate StartsWithFence(t: Text) {
    |t| >= 3 && t[0] == BACKTICK && t[1] == BACKTICK && t[2] == BACKTICK
  }

  // ---------- Cuts ----------

  /** Newline, else space, in the last two fifths of the window; else a hard cut. */
  function ChooseCut(rest: Text, limit: nat): (cut: nat)
    requires 1 <= limit <= |rest|
    ensures 1 <= cut <= limit
    ensures cut == limit || rest[cut - 1] == NEWLINE || rest[cut - 1] == SPACE
  {
    var boundary := limit * 3 / 5;
    var nl, sp := LastIndex(rest, NEWLINE, limit), LastIndex(rest, SPACE, limit);
    if nl >= boundary then nl + 1 else if sp >= boundary then sp + 1 else limit
  }

  function PlainChunks(rest: Text, maxLen: nat): seq<Text>
    requires maxLen >= 1
  {
    if |rest| <= maxLen then if rest == [] then [] else [rest]
    else [rest[..ChooseCut(rest, maxLen)]] + PlainChunks(rest[ChooseCut(rest, maxLen)..], maxLen)
  }

  method ChunkPlain(text: Text, maxLen: nat) returns (chunks: seq<Text>)
    requires maxLen >= 1
    ensures chunks == PlainChunks(text, maxLen)
  {
    chunks := [];
    var rest := text;
    while |rest| > maxLen
      invariant chunks + PlainChunks(rest, maxLen) == PlainChunks(text, maxLen)
      decreases |rest|
    {
      var cut := ChooseCut(rest, maxLen);
      assert chunks + ([rest[..cut]] + PlainChunks(rest[cut..], maxLen)) == chunks + [rest[..cut]] + PlainChunks(rest[cut..], maxLen);
      chunks := chunks + [rest[..cut]];
      rest := rest[cut..];
    }
    if |rest| > 0 {
      chunks := chunks + [rest];
    } else {
      assert chunks + [] == chunks;
    }
  }

  // ---------- Fence state ----------

  predicate LanguageChar(c: Code) {
    || 0x41 <= c <= 0x5a || 0x61 <= c <= 0x7a || 0x30 <= c <= 0x39
    || c == 0x5f || c == 0x2b || c == 0x2e || c == 0x23 || c == 0x2d
  }

  predicate Language(tag: Text) {
    |tag| <= 32 && forall i :: 0 <= i < |tag| ==> LanguageChar(tag[i])
  }

  function FirstNewline(t: Text): (i: nat)
    ensures i <= |t| && (i < |t| ==> t[i] == NEWLINE)
  {
    if t == [] || t[0] == NEWLINE then 0 else 1 + FirstNewline(t[1..])
  }

  /** The language tag of a fence followed by `after`; empty when the line is not over or is no language. */
  function TagOf(after: Text): (tag: Text)
    ensures Language(tag)
  {
    var n := FirstNewline(after);
    if n < |after| && Language(after[..n]) then after[..n] else []
  }

  function Toggle(open: Option<Text>, after: Text): Option<Text> {
    if open.None? then Some(TagOf(after)) else None
  }

  /** The state after `s`: fences are found from left to right without overlap. */
  function Advance(open: Option<Text>, s: Text): Option<Text>
    decreases |s|
  {
    if |s| < 3 then open
    else if StartsWithFence(s) then Advance(Toggle(open, s[3..]), s[3..])
    else Advance(open, s[1..])
  }

  /** Whether a text that starts inside a fence (or not) ends inside one. */
  function InFence(inside: bool, s: Text): bool
    decreases |s|
  {
    if |s| < 3 then inside
    else if StartsWithFence(s) then InFence(!inside, s[3..])
    else InFence(inside, s[1..])
  }

  /** `indexOf` of a fence, from an index on, or the length. */
  function NextFence(s: Text, from: nat): (i: nat)
    requires from <= |s|
    ensures from <= i <= |s| && (i < |s| ==> i + 3 <= |s|)
    decreases |s| - from
  {
    if from + 3 > |s| then |s| else if StartsWithFence(s[from..]) then from else NextFence(s, from + 1)
  }

  lemma {:induction false} AdvanceToFence(open: Option<Text>, s: Text, from: nat)
    requires from <= |s|
    ensures var i := NextFence(s, from);
            Advance(open, s[from..]) == if i < |s| then Advance(Toggle(open, s[i + 3..]), s[i + 3..]) else open
    decreases |s| - from
  {
    if from + 3 <= |s| {
      if StartsWithFence(s[from..]) {
        assert s[from..][3..] == s[from + 3..];
      } else {
        assert s[from..][1..] == s[from + 1..];
        AdvanceToFence(open, s, from + 1);
      }
    }
  }

  /** The source's search loop computes the fence state. */
  method AdvanceFence(open: Option<Text>, segment: Text) returns (state: Option<Text>)
    ensures state == Advance(open, segment)
  {
    hide Advance, NextFence, TagOf;
    state := open;
    AdvanceToFence(open, segment, 0);
    assert segment[0..] == segment;
    var index := NextFence(segment, 0);
    while index < |segment|
      invariant index <= |segment| && (index < |segment| ==> index + 3 <= |segment|)
      invariant Advance(open, segment) ==
                if index < |segment| then Advance(Toggle(state, segment[index + 3..]), segment[index + 3..]) else state
      decreases |segment| - index
    {
      var after := segment[index + 3..];
      state := if state.None? then Some(TagOf(after)) else None;
      AdvanceToFence(state, segment, index + 3);
      index := NextFence(segment, index + 3);
    }
  }

  // ---------- Fence-aware chunks ----------

  /** One message: a reopening line, the text's own words, a closing fence; `eaten` is the text's closer it stands for. */
  datatype Piece = Piece(prefix: Text, body: Text, closer: Text, eaten: Text)

  function ChunkOf(p: Piece): Text {
    p.prefix + p.body + p.closer
  }

  function Reopening(open: Option<Text>): Text {
    if open.None? then [] else FENCE + open.value + [NEWLINE]
  }

  function FenceCut(rest: Text, limit: nat): (cut: nat)
    requires 1 <= limit < |rest|
    ensures 1 <= cut <= limit
    ensures rest[cut - 1] == BACKTICK && rest[cut] == BACKTICK ==> cut == limit && RunStart(rest, cut) == 0
  {
    var cut := ChooseCut(rest, limit);
    if rest[cut - 1] == BACKTICK && rest[cut] == BACKTICK && RunStart(rest, cut) > 0 then RunStart(rest, cut) else cut
  }

  function Closer(state: Option<Text>, body: Text): Text {
    if state.None? then [] else if body != [] && body[|body| - 1] == NEWLINE then FENCE else [NEWLINE] + FENCE
  }

  predicate OpenOk(open: Option<Text>) {
    open.Some? ==> Language(open.value)
  }

  /** The next message of a text that does not fit in one. */
  function NextPiece(rest: Text, open: Option<Text>, maxLen: nat): (p: Piece)
    requires maxLen >= MIN_FENCE_AWARE_LIMIT && OpenOk(open) && |Reopening(open)| + |rest| > maxLen
    ensures 1 <= |p.body| && |p.body| + |p.eaten| < |rest|
    ensures p.body == rest[..|p.body|]
  {
    hide FenceCut, Advance, Closer;
    var prefix := Reopening(open);
    var cut := FenceCut(rest, maxLen - |prefix| - FENCE_CLOSER_RESERVE);
    var state := Advance(open, rest[..cut]);
    Piece(prefix, rest[..cut], Closer(state, rest[..cut]), if state.Some? && StartsWithFence(rest[cut..]) then FENCE else [])
  }

  /** The words of a piece and the closer it took are the front of the rest. */
  lemma NextPieceParts(rest: Text, open: Option<Text>, maxLen: nat)
    requires maxLen >= MIN_FENCE_AWARE_LIMIT && OpenOk(open) && |Reopening(open)| + |rest| > maxLen
    ensures var p := NextPiece(rest, open, maxLen); p.body + p.eaten + rest[|p.body| + |p.eaten|..] == rest
  {
    hide NextPiece, FenceCut, Advance, Closer, Reopening, Language;
    var p := NextPiece(rest, open, maxLen);
    EatenIsFence(rest, open, maxLen);
    FrontAndTail(rest, |p.body|, p.eaten);
  }

  lemma EatenIsFence(rest: Text, open: Option<Text>, maxLen: nat)
    requires maxLen >= MIN_FENCE_AWARE_LIMIT && OpenOk(open) && |Reopening(open)| + |rest| > maxLen
    ensures var p := NextPiece(rest, open, maxLen);
            p.eaten == [] || (|p.eaten| == 3 && |p.body| + 3 <= |rest| && rest[|p.body|..|p.body| + 3] == p.eaten)
  {
    hide FenceCut, Advance, Closer, Reopening, Language;
    var p := NextPiece(rest, open, maxLen);
    if p.eaten != [] {
      FenceFirst(rest, |p.body|);
    }
  }

  lemma FenceFirst(rest: Text, cut: nat)
    requires cut <= |rest| && StartsWithFence(rest[cut..])
    ensures cut + 3 <= |rest| && rest[cut..cut + 3] == FENCE
  {
  }

  lemma FrontAndTail(rest: Text, cut: nat, eaten: Text)
    requires cut + |eaten| <= |rest| && rest[cut..cut + |eaten|] == eaten
    ensures rest[..cut] + eaten + rest[cut + |eaten|..] == rest
  {
  }

  function NextOpen(open: Option<Text>, p: Piece): Option<Text> {
    if p.eaten != [] then None else Advance(open, p.body)
  }

  lemma {:induction false} AdvanceOk(open: Option<Text>, s: Text)
    requires OpenOk(open)
    ensures OpenOk(Advance(open, s))
    decreases |s|
  {
    if |s| >= 3 {
      if StartsWithFence(s) {
        AdvanceOk(Toggle(open, s[3..]), s[3..]);
      } else {
        AdvanceOk(open, s[1..]);
      }
    }
  }

  function FencePieces(rest: Text, open: Option<Text>, maxLen: nat): (ps: seq<Piece>)
    requires maxLen >= MIN_FENCE_AWARE_LIMIT && OpenOk(open)
    ensures ps != []
    decreases |rest|
  {
    if |Reopening(open)| + |rest| <= maxLen then [Piece(Reopening(open), rest, [], [])]
    else
      var p := NextPiece(rest, open, maxLen);
      var left := rest[|p.body| + |p.eaten|..];
      AdvanceOk(open, p.body);
      if left == [] then [p] else [p] + FencePieces(left, NextOpen(open, p), maxLen)
  }

  function Chunks(ps: seq<Piece>): (cs: seq<Text>)
    ensures |cs| == |ps| && forall i :: 0 <= i < |ps| ==> cs[i] == ChunkOf(ps[i])
  {
    if ps == [] then [] else [ChunkOf(ps[0])] + Chunks(ps[1..])
  }

  /** The text again: closing and reopening fences removed, the closers they stand for put back. */
  function Restore(ps: seq<Piece>): Text {
    if ps == [] then [] else ps[0].body + ps[0].eaten + Restore(ps[1..])
  }

  method ChunkFenceAware(text: Text, maxLen: nat) returns (chunks: seq<Text>)
    requires maxLen >= MIN_FENCE_AWARE_LIMIT
    ensures chunks == Chunks(FencePieces(text, None, maxLen))
  {
    hide NextPiece, NextOpen, Chunks, ChunkOf, Advance, Language;
    chunks := [];
    NoChunks(Chunks(FencePieces(text, None, maxLen)));
    var rest, open: Option<Text> := text, None;
    while true
      invariant OpenOk(open)
      invariant chunks + Chunks(FencePieces(rest, open, maxLen)) == Chunks(FencePieces(text, None, maxLen))
      decreases |rest|
    {
      var prefix := if open.None? then [] else FENCE + open.value + [NEWLINE];
      if |prefix| + |rest| <= maxLen {
        LastChunk(prefix, rest);
        chunks := chunks + [prefix + rest];
        return;
      }
      ghost var p := NextPiece(rest, open, maxLen);
      var out, cut, endState := CutPiece(rest, open, prefix, maxLen);
      AdvanceOk(open, p.body);
      NextOpenOk(open, p);
      ghost var left := rest[cut..];
      PiecesStep(chunks, p, if left == [] then [] else FencePieces(left, endState, maxLen));
      chunks := chunks + [out];
      open := endState;
      rest := rest[cut..];
      if |rest| == 0 {
        return;
      }
    }
  }

  lemma NoChunks(cs: seq<Text>)
    ensures [] + cs == cs
  {
  }

  lemma LastChunk(prefix: Text, rest: Text)
    ensures Chunks([Piece(prefix, rest, [], [])]) == [prefix + rest]
  {
    assert prefix + rest + [] == prefix + rest;
    assert |[Piece(prefix, rest, [], [])][1..]| == 0;
  }

  lemma NextOpenOk(open: Option<Text>, p: Piece)
    requires OpenOk(Advance(open, p.body))
    ensures OpenOk(NextOpen(open, p))
  {
  }

  /** The loop body: cut, close the fence, and let the closer stand for the text's own. */
  method CutPiece(rest: Text, open: Option<Text>, prefix: Text, maxLen: nat) returns (out: Text, cut: nat, endState: Option<Text>)
    requires maxLen >= MIN_FENCE_AWARE_LIMIT && OpenOk(open) && prefix == Reopening(open) && |prefix| + |rest| > maxLen
    ensures var p := NextPiece(rest, open, maxLen);
            out == ChunkOf(p) && cut == |p.body| + |p.eaten| && endState == NextOpen(open, p)
  {
    hide Advance, FenceCut;
    cut := CutLoop(rest, maxLen - |prefix| - FENCE_CLOSER_RESERVE);
    var body := rest[..cut];
    endState := AdvanceFence(open, body);
    ghost var p := NextPiece(rest, open, maxLen);
    assert p.body == body && p.prefix == prefix && p.closer == Closer(endState, body);
    assert p.eaten == if endState.Some? && StartsWithFence(rest[cut..]) then FENCE else [];
    hide NextPiece, Reopening;
    out := prefix + body;
    if endState.Some? {
      out := out + (if body[|body| - 1] == NEWLINE then FENCE else [NEWLINE] + FENCE);
      if StartsWithFence(rest[cut..]) {
        cut := cut + 3;
        endState := None;
      }
    } else {
      assert out + [] == out;
    }
  }

  method CutLoop(rest: Text, limit: nat) returns (cut: nat)
    requires 1 <= limit < |rest|
    ensures cut == FenceCut(rest, limit)
  {
    hide ChooseCut, RunStart;
    cut := ChooseCut(rest, limit);
    if rest[cut - 1] == BACKTICK && rest[cut] == BACKTICK {
      var runStart := RunStartLoop(rest, cut);
      if runStart > 0 {
        cut := runStart;
      }
    }
  }

  lemma PiecesStep(chunks: seq<Text>, p: Piece, rest: seq<Piece>)
    ensures chunks + Chunks([p] + rest) == chunks + [ChunkOf(p)] + Chunks(rest)
    ensures Chunks([]) == [] && [p] + [] == [p] && chunks + [ChunkOf(p)] + [] == chunks + [ChunkOf(p)]
  {
    assert ([p] + rest)[1..] == rest;
    assert chunks + ([ChunkOf(p)] + Chunks(rest)) == chunks + [ChunkOf(p)] + Chunks(rest);
  }

  method RunStartLoop(rest: Text, cut: nat) returns (runStart: nat)
    requires cut <= |rest|
    ensures runStart == RunStart(rest, cut)
  {
    runStart := cut;
    while runStart > 0 && rest[runStart - 1] == BACKTICK
      invariant runStart <= cut && RunStart(rest, runStart) == RunStart(rest, cut)
    {
      runStart := runStart - 1;
    }
  }

  method ChunkText(text: Text, maxLen: nat) returns (chunks: seq<Text>)
    requires maxLen >= 1
    ensures text == [] ==> chunks == []
    ensures 0 < |text| <= maxLen ==> chunks == [text]
    ensures |text| > maxLen && (maxLen < MIN_FENCE_AWARE_LIMIT || NextFence(text, 0) == |text|) ==> chunks == PlainChunks(text, maxLen)
    ensures |text| > maxLen >= MIN_FENCE_AWARE_LIMIT && NextFence(text, 0) < |text| ==> chunks == Chunks(FencePieces(text, None, maxLen))
  {
    if |text| == 0 {
      return [];
    }
    if |text| <= maxLen {
      return [text];
    }
    if maxLen < MIN_FENCE_AWARE_LIMIT || NextFence(text, 0) == |text| {
      chunks := ChunkPlain(text, maxLen);
    } else {
      chunks := ChunkFenceAware(text, maxLen);
    }
  }

  // ---------- Main results ----------

  /** Plain chunks join to the text, none is empty or too long. */
  lemma {:induction false} PlainChunksLossless(rest: Text, maxLen: nat)
    requires maxLen >= 1
    ensures Concat(PlainChunks(rest, maxLen)) == rest
    ensures forall c <- PlainChunks(rest, maxLen) :: 1 <= |c| <= maxLen
    decreases |rest|
  {
    hide ChooseCut, Concat;
    if |rest| > maxLen {
      var cut := ChooseCut(rest, maxLen);
      PlainChunksLossless(rest[cut..], maxLen);
      ConcatAppend([rest[..cut]], PlainChunks(rest[cut..], maxLen));
      ConcatOne(rest[..cut]);
      assert rest[..cut] + rest[cut..] == rest;
    } else if rest != [] {
      ConcatOne(rest);
    } else {
      ConcatNone();
    }
  }

  lemma ConcatNone()
    ensures Concat([]) == []
  {
  }

  lemma ConcatOne(t: Text)
    ensures Concat([t]) == t
  {
    ConcatSnoc([], t);
    assert [] + [t] == [t];
  }

  lemma PieceFits(rest: Text, open: Option<Text>, maxLen: nat)
    requires maxLen >= MIN_FENCE_AWARE_LIMIT && OpenOk(open) && |Reopening(open)| + |rest| > maxLen
    ensures |ChunkOf(NextPiece(rest, open, maxLen))| <= maxLen
  {
    hide FenceCut, Advance;
  }

  /** Every message fits. */
  lemma {:induction false} ChunksFit(rest: Text, open: Option<Text>, maxLen: nat)
    requires maxLen >= MIN_FENCE_AWARE_LIMIT && OpenOk(open)
    ensures forall p <- FencePieces(rest, open, maxLen) :: |ChunkOf(p)| <= maxLen
    decreases |rest|
  {
    hide NextPiece, NextOpen, Reopening;
    if |Reopening(open)| + |rest| > maxLen {
      var p := NextPiece(rest, open, maxLen);
      var left := rest[|p.body| + |p.eaten|..];
      AdvanceOk(open, p.body);
      NextOpenOk(open, p);
      PieceFits(rest, open, maxLen);
      if left != [] {
        ChunksFit(left, NextOpen(open, p), maxLen);
      }
    }
  }

  /** The text is recovered exactly, and only a fence the piece closed itself was taken out. */
  lemma {:induction false} ChunksRestore(rest: Text, open: Option<Text>, maxLen: nat)
    requires maxLen >= MIN_FENCE_AWARE_LIMIT && OpenOk(open)
    ensures Restore(FencePieces(rest, open, maxLen)) == rest
    ensures forall p <- FencePieces(rest, open, maxLen) :: p.eaten == [] || (p.eaten == FENCE && p.closer != [])
    decreases |rest|
  {
    if |Reopening(open)| + |rest| > maxLen {
      var p := NextPiece(rest, open, maxLen);
      var left := rest[|p.body| + |p.eaten|..];
      AdvanceOk(open, p.body);
      NextPieceParts(rest, open, maxLen);
      if left != [] {
        ChunksRestore(left, NextOpen(open, p), maxLen);
        assert ([p] + FencePieces(left, NextOpen(open, p), maxLen))[1..] == FencePieces(left, NextOpen(open, p), maxLen);
      }
    }
  }

  lemma {:induction false} AdvanceIsInFence(open: Option<Text>, s: Text)
    ensures Advance(open, s).Some? == InFence(open.Some?, s)
    decreases |s|
  {
    if |s| >= 3 {
      if StartsWithFence(s) {
        AdvanceIsInFence(Toggle(open, s[3..]), s[3..]);
      } else {
        AdvanceIsInFence(open, s[1..]);
      }
    }
  }

  /** No run of backticks goes across the two. */
  predicate Unsplit(a: Text, b: Text) {
    a == [] || b == [] || a[|a| - 1] != BACKTICK || b[0] != BACKTICK
  }

  /** Fence parity of a text is that of its parts, when no backtick run is split. */
  lemma {:induction false} InFenceSplit(inside: bool, a: Text, b: Text)
    requires Unsplit(a, b)
    ensures InFence(inside, a + b) == InFence(InFence(inside, a), b)
    decreases |a|
  {
    if a == [] {
      assert a + b == b;
    } else if |a| < 3 {
      assert |a + b| >= 3 ==> !StartsWithFence(a + b) || b == [];
      assert (a + b)[1..] == a[1..] + b;
      if |a + b| >= 3 {
        InFenceSplit(inside, a[1..], b);
      } else {
        assert InFence(inside, b) == inside;
      }
    } else if StartsWithFence(a) {
      assert (a + b)[3..] == a[3..] + b;
      InFenceSplit(!inside, a[3..], b);
    } else {
      assert (a + b)[1..] == a[1..] + b;
      InFenceSplit(inside, a[1..], b);
    }
  }

  predicate TickFree(s: Text) {
    forall i :: 0 <= i < |s| ==> s[i] != BACKTICK
  }

  lemma {:induction false} TickFreeKeeps(inside: bool, s: Text)
    requires TickFree(s)
    ensures InFence(inside, s) == inside
    decreases |s|
  {
    if |s| >= 3 {
      TickFreeKeeps(inside, s[1..]);
    }
  }

  lemma ReopeningOpens(open: Option<Text>)
    requires OpenOk(open)
    ensures InFence(false, Reopening(open)) == open.Some?
    ensures Reopening(open) != [] ==> Reopening(open)[|Reopening(open)| - 1] == NEWLINE
  {
    if open.Some? {
      var r := Reopening(open);
      assert r[3..] == open.value + [NEWLINE];
      assert StartsWithFence(r);
      TickFreeKeeps(true, r[3..]);
    }
  }

  lemma CloserCloses(state: Option<Text>, body: Text)
    ensures Unsplit(body, Closer(state, body)) && !InFence(state.Some?, Closer(state, body))
  {
    if state.Some? {
      var c := Closer(state, body);
      if c == FENCE {
        assert !InFence(true, FENCE) by {
          assert FENCE[3..] == [];
        }
      } else {
        assert c[1..] == FENCE && !StartsWithFence(c);
        assert InFence(true, c) == InFence(true, c[1..]) == InFence(false, FENCE[3..]);
        assert FENCE[3..] == [];
      }
    }
  }

  /** A message that a piece closes, or that ends outside a fence, renders balanced. */
  lemma PieceBalanced(rest: Text, open: Option<Text>, maxLen: nat)
    requires maxLen >= MIN_FENCE_AWARE_LIMIT && OpenOk(open) && |Reopening(open)| + |rest| > maxLen
    ensures !InFence(false, ChunkOf(NextPiece(rest, open, maxLen)))
  {
    var p := NextPiece(rest, open, maxLen);
    var state := Advance(open, p.body);
    AdvanceIsInFence(open, p.body);
    ReopeningOpens(open);
    InFenceSplit(false, p.prefix, p.body);
    CloserCloses(state, p.body);
    assert Unsplit(p.prefix + p.body, p.closer);
    InFenceSplit(false, p.prefix + p.body, p.closer);
  }

  predicate AllButLastClosed(ps: seq<Piece>) {
    |ps| <= 1 || (!InFence(false, ChunkOf(ps[0])) && AllButLastClosed(ps[1..]))
  }

  lemma {:induction false} AllButLastAt(ps: seq<Piece>, i: nat)
    requires AllButLastClosed(ps) && i < |ps| - 1
    ensures !InFence(false, ChunkOf(ps[i]))
    decreases |ps|
  {
    hide InFence, ChunkOf;
    if i > 0 {
      AllButLastAt(ps[1..], i - 1);
    }
  }

  /** Every message but the last renders balanced. */
  lemma {:induction false} AllButLastBalanced(rest: Text, open: Option<Text>, maxLen: nat)
    requires maxLen >= MIN_FENCE_AWARE_LIMIT && OpenOk(open)
    ensures AllButLastClosed(FencePieces(rest, open, maxLen))
    decreases |rest|
  {
    hide NextPiece, NextOpen, InFence, ChunkOf, Reopening;
    if |Reopening(open)| + |rest| > maxLen {
      var p := NextPiece(rest, open, maxLen);
      var left := rest[|p.body| + |p.eaten|..];
      AdvanceOk(open, p.body);
      NextOpenOk(open, p);
      PieceBalanced(rest, open, maxLen);
      if left != [] {
        AllButLastBalanced(left, NextOpen(open, p), maxLen);
        assert ([p] + FencePieces(left, NextOpen(open, p), maxLen))[1..] == FencePieces(left, NextOpen(open, p), maxLen);
      }
    }
  }

  predicate OtherWithin(t: Text, i: nat, n: nat)
    requires i + n < |t|
  {
    exists k :: i <= k <= i + n && t[k] != BACKTICK
  }

  /** No run of backticks is longer than `n`. */
  predicate RunsAtMost(t: Text, n: nat) {
    forall i: nat :: i + n < |t| ==> OtherWithin(t, i, n)
  }

  lemma RunsAtMostSuffix(t: Text, n: nat, from: nat)
    requires RunsAtMost(t, n) && from <= |t|
    ensures RunsAtMost(t[from..], n)
  {
    forall i: nat | i + n < |t[from..]| ensures OtherWithin(t[from..], i, n) {
      assert OtherWithin(t, from + i, n);
      var k :| from + i <= k <= from + i + n && t[k] != BACKTICK;
      assert t[from..][k - from] != BACKTICK;
    }
  }

  lemma NoRunAtStart(t: Text, n: nat, cut: nat)
    requires RunsAtMost(t, n) && n <= cut < |t| && RunStart(t, cut) == 0
    ensures t[cut] != BACKTICK
  {
    assert OtherWithin(t, 0, n);
  }

  /** A cut between two backticks is a hard cut at the limit, in a run that starts the rest. */
  lemma SplitCut(rest: Text, open: Option<Text>, maxLen: nat)
    requires maxLen >= MIN_FENCE_AWARE_LIMIT && OpenOk(open) && |Reopening(open)| + |rest| > maxLen
    ensures var cut := |NextPiece(rest, open, maxLen).body|;
            rest[cut - 1] == BACKTICK && rest[cut] == BACKTICK ==> cut >= maxLen - 40 && RunStart(rest, cut) == 0
  {
    hide NextPiece, FenceCut, RunStart, Reopening;
    ReopeningShort(open);
    PieceCut(rest, open, maxLen);
  }

  lemma ReopeningShort(open: Option<Text>)
    requires OpenOk(open)
    ensures |Reopening(open)| <= 36
  {
  }

  lemma PieceCut(rest: Text, open: Option<Text>, maxLen: nat)
    requires maxLen >= MIN_FENCE_AWARE_LIMIT && OpenOk(open) && |Reopening(open)| + |rest| > maxLen
    requires |Reopening(open)| <= 36
    ensures |NextPiece(rest, open, maxLen).body| == FenceCut(rest, maxLen - |Reopening(open)| - FENCE_CLOSER_RESERVE)
  {
    hide FenceCut, Advance, Closer, StartsWithFence, Reopening, Language;
  }

  /** Without very long runs no cut falls inside a run. */
  lemma CutUnsplit(rest: Text, open: Option<Text>, maxLen: nat)
    requires maxLen >= MIN_FENCE_AWARE_LIMIT && OpenOk(open) && |Reopening(open)| + |rest| > maxLen
    requires RunsAtMost(rest, maxLen - 40)
    ensures var p := NextPiece(rest, open, maxLen); Unsplit(p.body, rest[|p.body|..])
  {
    hide NextPiece, RunsAtMost, Advance, Language, InFence, FenceCut, StartsWithFence, RunStart, Reopening, Unsplit;
    var cut := |NextPiece(rest, open, maxLen).body|;
    SplitCut(rest, open, maxLen);
    if rest[cut - 1] == BACKTICK && rest[cut] == BACKTICK {
      NoRunAtStart(rest, maxLen - 40, cut);
    }
    UnsplitAt(rest, cut);
  }

  lemma UnsplitAt(t: Text, cut: nat)
    requires 0 < cut < |t| && !(t[cut - 1] == BACKTICK && t[cut] == BACKTICK)
    ensures Unsplit(t[..cut], t[cut..])
  {
  }

  /** A piece takes a closer only when it ends inside a fence, and takes it right behind its words. */
  lemma EatenIsCloser(rest: Text, open: Option<Text>, maxLen: nat)
    requires maxLen >= MIN_FENCE_AWARE_LIMIT && OpenOk(open) && |Reopening(open)| + |rest| > maxLen
    ensures var p := NextPiece(rest, open, maxLen);
            p.eaten != [] ==> |p.eaten| == 3 && Advance(open, p.body).Some? && StartsWithFence(rest[|p.body|..])
  {
    hide FenceCut, Advance, Closer;
  }

  /** The rest after a piece continues in the fence state the piece leaves. */
  lemma StateCarries(rest: Text, open: Option<Text>, maxLen: nat)
    requires maxLen >= MIN_FENCE_AWARE_LIMIT && OpenOk(open) && |Reopening(open)| + |rest| > maxLen
    requires RunsAtMost(rest, maxLen - 40)
    ensures var p := NextPiece(rest, open, maxLen);
            InFence(open.Some?, rest) == InFence(NextOpen(open, p).Some?, rest[|p.body| + |p.eaten|..])
  {
    hide NextPiece, Reopening, RunsAtMost, Advance;
    var p := NextPiece(rest, open, maxLen);
    var tail := rest[|p.body|..];
    CutUnsplit(rest, open, maxLen);
    EatenIsCloser(rest, open, maxLen);
    assert p.body + tail == rest;
    InFenceSplit(open.Some?, p.body, tail);
    AdvanceIsInFence(open, p.body);
    if p.eaten != [] {
      assert InFence(true, tail) == InFence(false, tail[3..]);
      assert tail[3..] == rest[|p.body| + 3..];
    } else {
      assert tail == rest[|p.body| + |p.eaten|..];
    }
  }

  /** The last message ends inside a fence exactly when the whole text does. */
  lemma {:induction false} LastStateIsWhole(rest: Text, open: Option<Text>, maxLen: nat)
    requires maxLen >= MIN_FENCE_AWARE_LIMIT && OpenOk(open) && RunsAtMost(rest, maxLen - 40)
    ensures var ps := FencePieces(rest, open, maxLen); InFence(false, ChunkOf(ps[|ps| - 1])) == InFence(open.Some?, rest)
    decreases |rest|
  {
    hide NextPiece, NextOpen, InFence, RunsAtMost, Reopening;
    if |Reopening(open)| + |rest| <= maxLen {
      ReopeningOpens(open);
      InFenceSplit(false, Reopening(open), rest);
      assert Reopening(open) + rest + [] == Reopening(open) + rest;
    } else {
      var p := NextPiece(rest, open, maxLen);
      var left := rest[|p.body| + |p.eaten|..];
      AdvanceOk(open, p.body);
      NextOpenOk(open, p);
      StateCarries(rest, open, maxLen);
      RunsAtMostSuffix(rest, maxLen - 40, |p.body| + |p.eaten|);
      LastStateIsWhole(left, NextOpen(open, p), maxLen);
    }
  }

  /** The fence-aware chunker, for any limit with room for fences and any text. */
  lemma FenceAwareChunks(text: Text, maxLen: nat)
    requires maxLen >= MIN_FENCE_AWARE_LIMIT
    ensures var ps := FencePieces(text, None, maxLen);
            && (forall p <- ps :: |ChunkOf(p)| <= maxLen)
            && Restore(ps) == text
            && (forall i :: 0 <= i < |ps| - 1 ==> !InFence(false, ChunkOf(ps[i])))
            && (RunsAtMost(text, maxLen - 40) ==> InFence(false, ChunkOf(ps[|ps| - 1])) == InFence(false, text))
  {
    ChunksFit(text, None, maxLen);
    ChunksRestore(text, None, maxLen);
    AllButLastBalanced(text, None, maxLen);
    var ps := FencePieces(text, None, maxLen);
    forall i | 0 <= i < |ps| - 1 ensures !InFence(false, ChunkOf(ps[i])) {
      AllButLastAt(ps, i);
    }
    if RunsAtMost(text, maxLen - 40) {
      LastStateIsWhole(text, None, maxLen);
    }
  }
}
