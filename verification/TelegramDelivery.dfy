/** Splitting text and code-change previews into Telegram messages (packages/adapter-telegram/src/delivery.ts:13-169). */
module TelegramDelivery {
  import opened Utf16

  const MESSAGE_LIMIT := 4096
  const PART_PREFIX_RESERVE := 16
  const CHUNK_LIMIT := MESSAGE_LIMIT - PART_PREFIX_RESERVE
  const PREVIEW_WRAPPER_RESERVE := 32
  /** The default of the threshold option. */
  const PART_THRESHOLD := 5

  // ---------- Chunks ----------

  /** Newline, else space, in the last two fifths of the window; else a hard cut. */
  function Boundary(rest: Text, limit: nat): (cut: nat)
    requires 2 <= limit < |rest|
    ensures 1 <= cut <= limit
    ensures cut == limit || rest[cut - 1] == NEWLINE || rest[cut - 1] == SPACE
  {
    var boundary := limit * 3 / 5;
    var nl, sp := LastIndex(rest, NEWLINE, limit), LastIndex(rest, SPACE, limit);
    if nl >= boundary then nl + 1 else if sp >= boundary then sp + 1 else limit
  }

  /** The cut, moved out of a surrogate pair and, when the run does not start the rest, out of a backtick run. */
  function ChooseCut(rest: Text, limit: nat): (cut: nat)
    requires 2 <= limit < |rest|
    ensures 1 <= cut <= limit
    ensures !(HighSurrogate(rest[cut - 1]) && LowSurrogate(rest[cut]))
    ensures rest[cut - 1] == BACKTICK && rest[cut] == BACKTICK ==> cut == limit && RunStart(rest, cut) == 0
  {
    var first := Boundary(rest, limit);
    var cut := if HighSurrogate(rest[first - 1]) && LowSurrogate(rest[first]) then first - 1 else first;
    assert cut >= 1;
    if rest[cut - 1] == BACKTICK && rest[cut] == BACKTICK && RunStart(rest, cut) > 0 then RunStart(rest, cut) else cut
  }

  function Chunks(rest: Text, maxLen: nat): seq<Text>
    requires maxLen >= 2
  {
    if |rest| <= maxLen then if rest == [] then [] else [rest]
    else [rest[..ChooseCut(rest, maxLen)]] + Chunks(rest[ChooseCut(rest, maxLen)..], maxLen)
  }

  method ChunkTelegramText(text: Text, maxLen: nat) returns (chunks: seq<Text>)
    requires maxLen >= 2
    ensures chunks == Chunks(text, maxLen)
  {
    hide ChooseCut;
    chunks := [];
    var rest := text;
    while |rest| > maxLen
      invariant chunks + Chunks(rest, maxLen) == Chunks(text, maxLen)
      decreases |rest|
    {
      var cut := ChooseCutSteps(rest, maxLen);
      assert chunks + ([rest[..cut]] + Chunks(rest[cut..], maxLen)) == chunks + [rest[..cut]] + Chunks(rest[cut..], maxLen);
      chunks := chunks + [rest[..cut]];
      rest := rest[cut..];
    }
    if |rest| > 0 {
      chunks := chunks + [rest];
    } else {
      assert chunks + [] == chunks;
    }
  }

  method ChooseCutSteps(rest: Text, limit: nat) returns (cut: nat)
    requires 2 <= limit < |rest|
    ensures cut == ChooseCut(rest, limit)
  {
    hide Boundary;
    cut := Boundary(rest, limit);
    if HighSurrogate(rest[cut - 1]) && LowSurrogate(rest[cut]) {
      cut := cut - 1;
    }
    if rest[cut - 1] == BACKTICK && rest[cut] == BACKTICK {
      var runStart: nat := cut;
      while runStart > 0 && rest[runStart - 1] == BACKTICK
        invariant runStart <= cut && RunStart(rest, runStart) == RunStart(rest, cut)
      {
        runStart := runStart - 1;
      }
      if runStart > 0 {
        cut := runStart;
      }
    }
    cut := if cut > 1 then cut else 1;
  }

  /** `p` splits no surrogate pair, and no run of at most `maxLen` backticks. */
  predicate GoodCut(text: Text, p: nat, maxLen: nat)
    requires 0 < p < |text|
  {
    && !(HighSurrogate(text[p - 1]) && LowSurrogate(text[p]))
    && (text[p - 1] == BACKTICK && text[p] == BACKTICK ==> p >= maxLen && AllTicks(text, p - maxLen, p + 1))
  }

  predicate AllTicks(text: Text, from: nat, to: nat)
    requires to <= |text|
  {
    forall k :: from <= k < to ==> text[k] == BACKTICK
  }

  /** Where chunk `i` ends in the text. */
  function EndOf(chunks: seq<Text>, i: nat): nat
    requires i <= |chunks|
  {
    if i == 0 then 0 else EndOf(chunks, i - 1) + |chunks[i - 1]|
  }

  lemma {:induction false} EndOfTail(chunks: seq<Text>, i: nat)
    requires 1 <= i <= |chunks|
    ensures EndOf(chunks, i) == |chunks[0]| + EndOf(chunks[1..], i - 1)
  {
    if i > 1 {
      EndOfTail(chunks, i - 1);
    }
  }

  /** Lossless: the chunks joined are the text, and none is empty or too long. */
  lemma {:induction false} ChunksLossless(rest: Text, maxLen: nat)
    requires maxLen >= 2
    ensures Concat(Chunks(rest, maxLen)) == rest
    ensures forall c <- Chunks(rest, maxLen) :: 1 <= |c| <= maxLen
    decreases |rest|
  {
    hide ChooseCut, Concat;
    if |rest| > maxLen {
      var cut := ChooseCut(rest, maxLen);
      ChunksLossless(rest[cut..], maxLen);
      ConcatAppend([rest[..cut]], Chunks(rest[cut..], maxLen));
      ConcatOne(rest[..cut]);
      assert rest[..cut] + rest[cut..] == rest;
    } else if rest != [] {
      ConcatOne(rest);
    } else {
      ConcatNone();
    }
  }

  lemma ConcatNone()
    ensures Concat([]) == []
  {
  }

  lemma ConcatOne(t: Text)
    ensures Concat([t]) == t
  {
    ConcatSnoc([], t);
    assert [] + [t] == [t];
  }

  /** The first cut is good, seen from the whole text. */
  lemma FirstCutGood(text: Text, at: nat, maxLen: nat)
    requires maxLen >= 2 && at <= |text| && |text| - at > maxLen
    ensures GoodCut(text, at + ChooseCut(text[at..], maxLen), maxLen)
  {
    hide ChooseCut;
    var rest := text[at..];
    var cut := ChooseCut(rest, maxLen);
    assert rest[cut - 1] == text[at + cut - 1] && rest[cut] == text[at + cut];
    if rest[cut - 1] == BACKTICK && rest[cut] == BACKTICK {
      forall k | at <= k < at + cut + 1 ensures text[k] == BACKTICK {
        assert rest[k - at] == text[k];
      }
    }
  }

  /** Every boundary between two chunks is a good cut of the text. */
  lemma {:induction false} ChunkCutsGood(text: Text, at: nat, maxLen: nat, i: nat)
    requires maxLen >= 2 && at <= |text|
    requires 1 <= i < |Chunks(text[at..], maxLen)|
    ensures 0 < at + EndOf(Chunks(text[at..], maxLen), i) < |text|
    ensures GoodCut(text, at + EndOf(Chunks(text[at..], maxLen), i), maxLen)
    decreases |text| - at
  {
    hide ChooseCut, GoodCut;
    var rest := text[at..];
    var cs := Chunks(rest, maxLen);
    var cut := ChooseCut(rest, maxLen);
    assert |rest| > maxLen && cs[0] == rest[..cut] && cs[1..] == Chunks(rest[cut..], maxLen);
    assert rest[cut..] == text[at + cut..];
    EndOfTail(cs, i);
    if i == 1 {
      FirstCutGood(text, at, maxLen);
    } else {
      ChunkCutsGood(text, at + cut, maxLen, i - 1);
    }
  }

  // ---------- Numbering ----------

  function Digits(n: nat): (d: Text)
    ensures |d| >= 1
  {
    if n < 10 then [0x30 + n] else Digits(n / 10) + [0x30 + n % 10]
  }

  function Power10(k: nat): nat {
    if k == 0 then 1 else 10 * Power10(k - 1)
  }

  /** A number has at most `k` digits just when it is below 10 to the `k`. */
  lemma {:induction false} DigitsLength(n: nat, k: nat)
    requires k >= 1
    ensures |Digits(n)| <= k <==> n < Power10(k)
    decreases k
  {
    if n < 10 {
      assert Power10(k) >= 10 by {
        Power10AtLeast(k);
      }
    } else if k > 1 {
      DigitsLength(n / 10, k - 1);
    }
  }

  lemma {:induction false} Power10AtLeast(k: nat)
    requires k >= 1
    ensures Power10(k) >= 10
  {
    if k > 1 {
      Power10AtLeast(k - 1);
    }
  }

  /** `(i/n) `. */
  function PartPrefix(index: nat, total: nat): Text {
    [0x28] + Digits(index) + [0x2f] + Digits(total) + [0x29, SPACE]
  }

  function Numbered(chunks: seq<Text>): (out: seq<Text>)
    ensures |out| == |chunks|
  {
    if |chunks| < 2 then chunks else seq(|chunks|, i requires 0 <= i < |chunks| => PartPrefix(i + 1, |chunks|) + chunks[i])
  }

  /** The reserve holds the prefix of the last part just when there are fewer than one million parts. */
  lemma PrefixFitsExactly(total: nat)
    requires total >= 2
    ensures |PartPrefix(total, total)| <= PART_PREFIX_RESERVE <==> total < 1000000
  {
    SixDigits();
    DigitsLength(total, 6);
  }

  lemma SixDigits()
    ensures Power10(6) == 1000000
  {
    assert Power10(3) == 1000;
    assert Power10(6) == 10 * (10 * (10 * Power10(3)));
  }

  /** Numbered parts of a reply with fewer than a million parts fit a message. */
  lemma NumberedFit(text: Text)
    requires |Chunks(text, CHUNK_LIMIT)| < 1000000
    ensures forall m <- Numbered(Chunks(text, CHUNK_LIMIT)) :: |m| <= MESSAGE_LIMIT
  {
    var cs := Chunks(text, CHUNK_LIMIT);
    ChunksLossless(text, CHUNK_LIMIT);
    hide Chunks;
    forall i | 0 <= i < |cs| ensures |Numbered(cs)[i]| <= MESSAGE_LIMIT {
      assert cs[i] in cs;
      NumberedPartFits(cs, i);
    }
  }

  lemma NumberedPartFits(chunks: seq<Text>, i: nat)
    requires i < |chunks| < 1000000 && |chunks[i]| <= CHUNK_LIMIT
    ensures |Numbered(chunks)[i]| <= MESSAGE_LIMIT
  {
    SixDigits();
    DigitsLength(i + 1, 6);
    DigitsLength(|chunks|, 6);
    hide Digits, Power10;
    assert |PartPrefix(i + 1, |chunks|)| <= PART_PREFIX_RESERVE;
  }

  // ---------- Previews ----------

  /** `&`, `<`, `>` and the double quote escaped. */
  function EscapeCode(c: Code): (r: Text)
    ensures 1 <= |r| <= 6
  {
    if c == 0x26 then [0x26, 0x61, 0x6d, 0x70, 0x3b]
    else if c == 0x3c then [0x26, 0x6c, 0x74, 0x3b]
    else if c == 0x3e then [0x26, 0x67, 0x74, 0x3b]
    else if c == 0x22 then [0x26, 0x71, 0x75, 0x6f, 0x74, 0x3b]
    else [c]
  }

  function Escape(t: Text): (r: Text)
    ensures |r| >= |t|
  {
    if t == [] then [] else Escape(t[..|t| - 1]) + EscapeCode(t[|t| - 1])
  }

  lemma {:induction false} EscapeAppend(a: Text, b: Text)
    ensures Escape(a + b) == Escape(a) + Escape(b)
  {
    hide EscapeCode;
    if b == [] {
      assert a + b == a;
    } else {
      assert (a + b)[..|a + b| - 1] == a + b[..|b| - 1];
      EscapeAppend(a, b[..|b| - 1]);
      var last := EscapeCode(b[|b| - 1]);
      assert Escape(a) + (Escape(b[..|b| - 1]) + last) == Escape(a) + Escape(b[..|b| - 1]) + last;
    }
  }

  /** The length of the first line, its newline included. */
  function LineLength(t: Text): (n: nat)
    requires t != []
    ensures 1 <= n <= |t|
  {
    if t[0] == NEWLINE || |t| == 1 then 1 else 1 + LineLength(t[1..])
  }

  function Lines(t: Text): seq<Text> {
    if t == [] then [] else [t[..LineLength(t)]] + Lines(t[LineLength(t)..])
  }

  lemma {:induction false} LinesJoin(t: Text)
    ensures Concat(Lines(t)) == t
    decreases |t|
  {
    hide Concat, LineLength;
    if t == [] {
      ConcatNone();
    } else {
      var n := LineLength(t);
      LinesJoin(t[n..]);
      ConcatAppend([t[..n]], Lines(t[n..]));
      ConcatOne(t[..n]);
      assert t[..n] + t[n..] == t;
    }
  }

  datatype Split = Segments(parts: seq<Text>) | OversizedLine

  // ---------- The fewest segments of whole lines ----------

  /** The lines can be cut, between lines, into at most `k` segments whose escaped form fits the budget. */
  ghost predicate FitsIn(lines: seq<Text>, budget: nat, k: nat)
    decreases |lines|
  {
    lines == [] || (k > 0 && exists n :: 1 <= n <= |lines| && Fitting(lines, n, budget) && FitsIn(lines[n..], budget, k - 1))
  }

  predicate Fitting(lines: seq<Text>, n: nat, budget: nat)
    requires n <= |lines|
  {
    |Escape(Concat(lines[..n]))| <= budget
  }

  lemma ShorterFits(lines: seq<Text>, m: nat, n: nat, budget: nat)
    requires m <= n <= |lines| && Fitting(lines, n, budget)
    ensures Fitting(lines, m, budget)
  {
    hide Escape, Concat;
    assert lines[..n] == lines[..m] + lines[m..n];
    ConcatAppend(lines[..m], lines[m..n]);
    EscapeAppend(Concat(lines[..m]), Concat(lines[m..n]));
  }

  lemma WithoutFirst(lines: seq<Text>, n: nat, budget: nat)
    requires 1 <= n <= |lines| && Fitting(lines, n, budget)
    ensures Fitting(lines[1..], n - 1, budget)
  {
    hide Escape, Concat;
    assert lines[..n] == [lines[0]] + lines[1..][..n - 1];
    ConcatAppend([lines[0]], lines[1..][..n - 1]);
    EscapeAppend(Concat([lines[0]]), Concat(lines[1..][..n - 1]));
  }

  /** Fewer lines need no more segments. */
  lemma {:induction false} FewerLines(lines: seq<Text>, d: nat, budget: nat, k: nat)
    requires d <= |lines| && FitsIn(lines, budget, k)
    ensures FitsIn(lines[d..], budget, k)
    decreases d
  {
    hide Fitting;
    if d == 0 {
      assert lines[d..] == lines;
    } else {
      var n :| 1 <= n <= |lines| && Fitting(lines, n, budget) && FitsIn(lines[n..], budget, k - 1);
      var rest := lines[1..];
      if n == 1 {
        OneMoreSegment(rest, budget, k - 1);
      } else {
        WithoutFirst(lines, n, budget);
        assert rest[n - 1..] == lines[n..];
      }
      assert FitsIn(rest, budget, k);
      FewerLines(rest, d - 1, budget, k);
      assert rest[d - 1..] == lines[d..];
    }
  }

  lemma {:induction false} OneMoreSegment(lines: seq<Text>, budget: nat, k: nat)
    requires FitsIn(lines, budget, k)
    ensures FitsIn(lines, budget, k + 1)
    decreases |lines|
  {
    hide Fitting;
    if lines != [] {
      var n :| 1 <= n <= |lines| && Fitting(lines, n, budget) && FitsIn(lines[n..], budget, k - 1);
      OneMoreSegment(lines[n..], budget, k - 1);
    }
  }

  /** Taking the longest first segment that fits loses nothing. */
  lemma LongestFirst(lines: seq<Text>, n: nat, budget: nat, k: nat)
    requires 1 <= n < |lines| && Fitting(lines, n, budget) && !Fitting(lines, n + 1, budget)
    ensures FitsIn(lines, budget, k) <==> k > 0 && FitsIn(lines[n..], budget, k - 1)
  {
    hide Fitting;
    if FitsIn(lines, budget, k) {
      var m :| 1 <= m <= |lines| && Fitting(lines, m, budget) && FitsIn(lines[m..], budget, k - 1);
      if m > n {
        ShorterFits(lines, n + 1, m, budget);
        assert false;
      }
      FewerLines(lines[m..], n - m, budget, k - 1);
      assert lines[m..][n - m..] == lines[n..];
    }
  }

  lemma LastSegment(lines: seq<Text>, budget: nat, k: nat)
    requires Fitting(lines, |lines|, budget)
    ensures FitsIn(lines, budget, k) <==> lines == [] || k > 0
  {
    hide Fitting;
    if lines != [] && k > 0 {
      assert lines[|lines|..] == [];
      assert FitsIn(lines[|lines|..], budget, k - 1);
    }
  }

  /** The lines from `from` on remain for `k` minus the segments made so far. */
  ghost predicate Remains(lines: seq<Text>, from: nat, made: nat, budget: nat)
    requires from <= |lines|
  {
    forall k: nat :: FitsIn(lines, budget, k) <==> made <= k && FitsIn(lines[from..], budget, k - made)
  }

  lemma NextSegment(lines: seq<Text>, from: nat, to: nat, made: nat, budget: nat)
    requires from < to < |lines| && Remains(lines, from, made, budget)
    requires Fitting(lines[from..], to - from, budget) && !Fitting(lines[from..], to - from + 1, budget)
    ensures Remains(lines, to, made + 1, budget)
  {
    hide FitsIn, Fitting;
    forall k: nat ensures FitsIn(lines, budget, k) <==> made + 1 <= k && FitsIn(lines[to..], budget, k - made - 1) {
      if made <= k {
        LongestFirst(lines[from..], to - from, budget, k - made);
        assert lines[from..][to - from..] == lines[to..];
      }
    }
  }

  lemma AllSegments(lines: seq<Text>, from: nat, made: nat, budget: nat)
    requires from <= |lines| && Remains(lines, from, made, budget) && Fitting(lines[from..], |lines| - from, budget)
    ensures forall k: nat :: FitsIn(lines, budget, k) <==> made + (if from < |lines| then 1 else 0) <= k
  {
    hide FitsIn, Fitting;
    forall k: nat ensures FitsIn(lines, budget, k) <==> made + (if from < |lines| then 1 else 0) <= k {
      if made <= k {
        LastSegment(lines[from..], budget, k - made);
      }
    }
  }

  /** Where the collected text stands: the lines from `from` up to `i`, within the budget. */
  ghost predicate Collected(lines: seq<Text>, from: nat, i: nat, current: Text, budget: nat) {
    from <= i <= |lines| && current == Concat(lines[from..i]) && |Escape(current)| <= budget && (current == [] <==> from == i)
  }

  lemma CollectedFits(lines: seq<Text>, from: nat, i: nat, current: Text, budget: nat)
    requires Collected(lines, from, i, current, budget)
    ensures Fitting(lines[from..], i - from, budget)
    ensures i < |lines| ==> (Fitting(lines[from..], i - from + 1, budget) <==> |Escape(current)| + |Escape(lines[i])| <= budget)
  {
    hide Escape, Concat;
    assert lines[from..][..i - from] == lines[from..i];
    if i < |lines| {
      assert lines[from..][..i - from + 1] == lines[from..i] + [lines[i]];
      ConcatSnoc(lines[from..i], lines[i]);
      EscapeAppend(Concat(lines[from..i]), lines[i]);
    }
  }

  /** One more line joins the collected ones. */
  lemma CollectMore(lines: seq<Text>, from: nat, i: nat, current: Text, budget: nat)
    requires Collected(lines, from, i, current, budget) && i < |lines| && lines[i] != []
    requires |Escape(current)| + |Escape(lines[i])| <= budget
    ensures Collected(lines, from, i + 1, current + lines[i], budget) && |Escape(current + lines[i])| == |Escape(current)| + |Escape(lines[i])|
  {
    hide Escape, Concat;
    assert lines[from..i + 1] == lines[from..i] + [lines[i]];
    ConcatSnoc(lines[from..i], lines[i]);
    EscapeAppend(current, lines[i]);
  }

  lemma {:induction false} LinesFilled(t: Text)
    ensures forall line <- Lines(t) :: line != []
    decreases |t|
  {
    if t != [] {
      LinesFilled(t[LineLength(t)..]);
    }
  }

  lemma StartCollecting(lines: seq<Text>, i: nat, budget: nat)
    requires i <= |lines|
    ensures Collected(lines, i, i, [], budget)
  {
    assert lines[i..i] == [];
  }

  lemma NothingMade(lines: seq<Text>, budget: nat)
    ensures Remains(lines, 0, 0, budget)
  {
    hide FitsIn;
    assert lines[0..] == lines;
  }

  /** Whole lines are collected while their escaped form fits the budget: in as few segments as possible. */
  method SplitEscaped(diff: Text, budget: nat) returns (r: Split)
    ensures r.Segments? ==> Concat(r.parts) == diff
    ensures r.Segments? ==> forall s <- r.parts :: s != [] && |Escape(s)| <= budget
    ensures r.Segments? ==> forall k: nat :: FitsIn(Lines(diff), budget, k) <==> |r.parts| <= k
    ensures r.OversizedLine? <==> exists line <- Lines(diff) :: |Escape(line)| > budget
  {
    hide Escape, Lines, Concat, FitsIn, Fitting, Remains;
    var lines := Lines(diff);
    LinesJoin(diff);
    LinesFilled(diff);
    var segments: seq<Text> := [];
    var current: Text := [];
    var currentLength := 0;
    ghost var from := 0;
    ConcatNone();
    EscapeNothing();
    NothingMade(lines, budget);
    StartCollecting(lines, 0, budget);
    var i := 0;
    while i < |lines|
      invariant 0 <= i <= |lines|
      invariant Concat(segments) + current == Concat(lines[..i])
      invariant currentLength == |Escape(current)| && Collected(lines, from, i, current, budget)
      invariant Remains(lines, from, |segments|, budget)
      invariant forall s <- segments :: s != [] && |Escape(s)| <= budget
      invariant forall line <- lines[..i] :: |Escape(line)| <= budget
    {
      var line := lines[i];
      var length := |Escape(line)|;
      ConcatSnoc(lines[..i], line);
      assert lines[..i + 1] == lines[..i] + [line];
      assert line in lines;
      if length > budget {
        return OversizedLine;
      }
      CollectedFits(lines, from, i, current, budget);
      if |current| > 0 && currentLength + length > budget {
        ConcatSnoc(segments, current);
        NextSegment(lines, from, i, |segments|, budget);
        segments := segments + [current];
        current := [];
        currentLength := 0;
        from := i;
        StartCollecting(lines, i, budget);
      }
      CollectMore(lines, from, i, current, budget);
      assert Concat(segments) + (current + line) == Concat(segments) + current + line;
      current := current + line;
      currentLength := currentLength + length;
      i := i + 1;
    }
    assert lines[..i] == lines;
    CollectedFits(lines, from, i, current, budget);
    AllSegments(lines, from, |segments|, budget);
    if |current| > 0 {
      ConcatSnoc(segments, current);
      segments := segments + [current];
    } else {
      assert Concat(segments) + [] == Concat(segments);
    }
    r := Segments(segments);
  }

  lemma EscapeNothing()
    ensures Escape([]) == []
  {
  }

  /** `[i/n]` and a newline before several parts, and `<pre>` around the escaped segment. */
  function WrapPart(segment: Text, index: nat, total: nat): Text {
    (if total > 1 then [0x5b] + Digits(index) + [0x2f] + Digits(total) + [0x5d, NEWLINE] else [])
    + [0x3c, 0x70, 0x72, 0x65, 0x3e] + Escape(segment) + [0x3c, 0x2f, 0x70, 0x72, 0x65, 0x3e]
  }

  datatype Plan = TextParts(parts: seq<Text>) | EmptyBudget | OneOversizedLine | TooManyParts

  /** Around its own segment, the escaped trailer after the last one; within the limit below a hundred million parts. */
  ghost predicate PartOk(part: Text, segment: Text, index: nat, total: nat, trailer: Text, limit: nat) {
    && part == WrapPart(segment, index, total) + (if index == total then Escape(trailer) else [])
    && (total < 100000000 ==> |part| <= limit)
  }

  lemma WrapperFits(segment: Text, index: nat, total: nat)
    requires 1 <= index <= total < 100000000
    ensures |WrapPart(segment, index, total)| <= |Escape(segment)| + PREVIEW_WRAPPER_RESERVE
  {
    hide Escape, Digits, Power10;
    EightDigits();
    DigitsLength(index, 8);
    DigitsLength(total, 8);
  }

  lemma EightDigits()
    ensures Power10(8) == 100000000
  {
    SixDigits();
    assert Power10(8) == 10 * (10 * Power10(6));
  }

  /** A text plan delivers the whole diff, every part with its wrapper and trailer within the limit; the diff goes as a
      document exactly when its trailer leaves no room, a line is too long, or it cannot be cut into few enough parts. */
  method PlanPreview(diff: Text, trailer: Text, limit: nat, threshold: nat := PART_THRESHOLD) returns (plan: Plan, ghost segments: seq<Text>)
    ensures plan.TextParts? ==> |segments| == |plan.parts| <= threshold && Concat(segments) == diff
    ensures plan.TextParts? ==> forall i :: 0 <= i < |segments| ==> PartOk(plan.parts[i], segments[i], i + 1, |segments|, trailer, limit)
    ensures plan.EmptyBudget? <==> limit <= PREVIEW_WRAPPER_RESERVE + |Escape(trailer)|
    ensures plan.OneOversizedLine? <==>
              (limit > PREVIEW_WRAPPER_RESERVE + |Escape(trailer)|
               && exists line <- Lines(diff) :: |Escape(line)| > limit - PREVIEW_WRAPPER_RESERVE - |Escape(trailer)|)
    ensures plan.TooManyParts? <==>
              (!plan.EmptyBudget? && !plan.OneOversizedLine?
               && !FitsIn(Lines(diff), limit - PREVIEW_WRAPPER_RESERVE - |Escape(trailer)|, threshold))
  {
    hide Escape, Digits, Lines, FitsIn, WrapPart;
    segments := [];
    var tail := Escape(trailer);
    var budget := limit - PREVIEW_WRAPPER_RESERVE - |tail|;
    if budget <= 0 {
      return EmptyBudget, segments;
    }
    var split := SplitEscaped(diff, budget);
    if split.OversizedLine? {
      return OneOversizedLine, segments;
    }
    var found := split.parts;
    segments := found;
    if |found| > threshold {
      return TooManyParts, segments;
    }
    var parts: seq<Text> := [];
    var i := 0;
    while i < |found|
      invariant 0 <= i <= |found| && |parts| == i
      invariant forall k :: 0 <= k < i ==> PartOk(parts[k], found[k], k + 1, |found|, trailer, limit)
    {
      if |found| < 100000000 {
        WrapperFits(found[i], i + 1, |found|);
      }
      assert found[i] in found;
      var part := WrapPart(found[i], i + 1, |found|);
      part := part + (if i + 1 == |found| then tail else []);
      parts := parts + [part];
      i := i + 1;
    }
    plan := TextParts(parts);
  }
}
