/** Inline translation of one line: code spans, guarded tokens, links (commonmark.ts:225-316, 382-528). */
module Inline {
  import opened Utf16
  import opened Emphasis
  import opened Edits

  /** A quoted piece of rendered text: Quoky copy, or an opaque span. */
  datatype Segment = Segment(text: Text, span: bool)

  // ---------- Units ----------

  /** The code points of copy, one unit each. */
  function CodePoints(t: Text): (us: seq<Unit>)
    ensures forall u <- us :: !u.atom
  {
    if t == [] then []
    else if |t| >= 2 && HighSurrogate(t[0]) && LowSurrogate(t[1]) then [Unit(t[..2], false)] + CodePoints(t[2..])
    else [Unit(t[..1], false)] + CodePoints(t[1..])
  }

  function SegmentUnits(s: Segment): seq<Unit> {
    if s.span then [Unit(s.text, true)] else CodePoints(s.text)
  }

  function UnitsOf(line: seq<Segment>): seq<Unit> {
    if line == [] then [] else UnitsOf(line[..|line| - 1]) + SegmentUnits(line[|line| - 1])
  }

  predicate Is(u: Unit, c: Code) {
    !u.atom && u.text == [c]
  }

  predicate Tick(units: seq<Unit>, i: nat)
    requires i < |units|
  {
    Is(units[i], BACKTICK)
  }

  /** A copy unit outside code spans. */
  predicate Plain(units: seq<Unit>, code: seq<bool>, k: int)
    requires |code| == |units|
  {
    0 <= k < |units| && !units[k].atom && !code[k]
  }

  // ---------- Code spans ----------

  /** Backticks at [open, content) and [close, close + content - open). */
  datatype Span = Span(open: nat, content: nat, close: nat)

  function TicksEnd(units: seq<Unit>, i: nat): (end: nat)
    requires i <= |units|
    ensures i <= end <= |units| && (forall k :: i <= k < end ==> Tick(units, k)) && (end < |units| ==> !Tick(units, end))
    decreases |units| - i
  {
    if i < |units| && Tick(units, i) then TicksEnd(units, i + 1) else i
  }

  /** The next whole run of exactly `length` backticks at or after `j`, or the number of units. */
  function FindClose(units: seq<Unit>, j: nat, length: nat): (close: nat)
    requires j <= |units|
    ensures j <= close <= |units|
    ensures close < |units| ==> close + length <= |units| && TicksEnd(units, close) == close + length
    decreases |units| - j
  {
    if j == |units| then j
    else if !Tick(units, j) then FindClose(units, j + 1, length)
    else if TicksEnd(units, j) - j == length then j
    else FindClose(units, TicksEnd(units, j), length)
  }

  function CodeSpans(units: seq<Unit>, i: nat): seq<Span>
    requires i <= |units|
    decreases |units| - i
  {
    if i == |units| then []
    else if !Tick(units, i) then CodeSpans(units, i + 1)
    else
      var end := TicksEnd(units, i);
      var close := FindClose(units, end, end - i);
      if close == |units| then CodeSpans(units, end)
      else [Span(i, end, close)] + CodeSpans(units, close + (end - i))
  }

  /** One leading and one trailing space are stripped when both are there and the content is not all spaces. */
  predicate Strips(units: seq<Unit>, s: Span)
    requires s.content <= s.close <= |units|
  {
    && s.close - s.content >= 2
    && (exists k :: s.content <= k < s.close && !Is(units[k], SPACE))
    && Is(units[s.content], SPACE) && Is(units[s.close - 1], SPACE)
  }

  predicate SpanOk(units: seq<Unit>, s: Span) {
    && s.open < s.content <= s.close && s.close + (s.content - s.open) <= |units|
    && (forall k :: s.open <= k < s.content ==> Tick(units, k))
    && (forall k :: s.close <= k < s.close + (s.content - s.open) ==> Tick(units, k))
  }

  predicate DroppedBySpan(units: seq<Unit>, s: Span, k: nat)
    requires SpanOk(units, s)
  {
    || s.open <= k < s.content
    || s.close <= k < s.close + (s.content - s.open)
    || (Strips(units, s) && (k == s.content || k == s.close - 1))
  }

  /** The run at `i` closed by the next run of the same length. */
  lemma SpanAt(units: seq<Unit>, i: nat)
    requires i < |units| && Tick(units, i)
    ensures var end := TicksEnd(units, i);
            var close := FindClose(units, end, end - i);
            i < end <= close && (close < |units| ==> SpanOk(units, Span(i, end, close)) && close + (end - i) <= |units|)
  {
    var end := TicksEnd(units, i);
    assert end > i;
    var close := FindClose(units, end, end - i);
    if close < |units| {
      assert TicksEnd(units, close) == close + (end - i);
    }
  }

  /** The spans lie one after another from `i` on. */
  ghost predicate SpansFrom(units: seq<Unit>, i: nat, ss: seq<Span>) {
    && (forall s <- ss :: SpanOk(units, s) && i <= s.open)
    && (forall a, b :: 0 <= a < b < |ss| ==> ss[a].close + (ss[a].content - ss[a].open) <= ss[b].open)
  }

  lemma SpansLower(units: seq<Unit>, i: nat, lower: nat, ss: seq<Span>)
    requires SpansFrom(units, i, ss) && lower <= i
    ensures SpansFrom(units, lower, ss)
  {
  }

  lemma SpansCons(units: seq<Unit>, s: Span, rest: seq<Span>)
    requires SpanOk(units, s) && SpansFrom(units, s.close + (s.content - s.open), rest)
    ensures SpansFrom(units, s.open, [s] + rest)
  {
    var ss := [s] + rest;
    forall a, b | 0 <= a < b < |ss| ensures ss[a].close + (ss[a].content - ss[a].open) <= ss[b].open {
      assert ss[b] == rest[b - 1] && rest[b - 1] in rest;
    }
  }

  lemma {:induction false} CodeSpansOk(units: seq<Unit>, i: nat)
    requires i <= |units|
    ensures SpansFrom(units, i, CodeSpans(units, i))
    decreases |units| - i
  {
    hide SpanOk, FindClose, TicksEnd, SpansFrom;
    if i == |units| {
      NoSpans(units, i);
    } else if !Tick(units, i) {
      CodeSpansOk(units, i + 1);
      SpansLower(units, i + 1, i, CodeSpans(units, i + 1));
    } else {
      SpanAt(units, i);
      var end := TicksEnd(units, i);
      var close := FindClose(units, end, end - i);
      if close == |units| {
        CodeSpansOk(units, end);
        SpansLower(units, end, i, CodeSpans(units, end));
      } else {
        CodeSpansOk(units, close + (end - i));
        SpansCons(units, Span(i, end, close), CodeSpans(units, close + (end - i)));
      }
    }
  }

  lemma NoSpans(units: seq<Unit>, i: nat)
    ensures SpansFrom(units, i, [])
  {
  }

  predicate RemovedBySpans(units: seq<Unit>, spans: seq<Span>, k: nat)
    requires forall s <- spans :: SpanOk(units, s)
  {
    exists s <- spans :: DroppedBySpan(units, s, k)
  }

  predicate InCode(spans: seq<Span>, k: nat) {
    exists s <- spans :: s.content <= k < s.close
  }

  /** The flags are exactly those of the code spans. */
  ghost predicate SpansMarked(units: seq<Unit>, removed: seq<bool>, code: seq<bool>, spans: seq<Span>) {
    && |removed| == |code| == |units|
    && (forall s <- spans :: SpanOk(units, s))
    && (forall k :: 0 <= k < |units| ==> removed[k] == RemovedBySpans(units, spans, k) && code[k] == InCode(spans, k))
  }

  /** The source's loop sets exactly the flags of the code spans. */
  method MarkCodeSpans(units: seq<Unit>, removed: array<bool>, code: array<bool>)
    requires removed != code && removed.Length == code.Length == |units|
    requires forall k :: 0 <= k < |units| ==> !removed[k] && !code[k]
    modifies removed, code
    ensures SpansMarked(units, removed[..], code[..], CodeSpans(units, 0))
  {
    hide *;
    NothingMarked(units, removed[..], code[..]);
    var i := 0;
    ghost var all := CodeSpans(units, i);
    ghost var done: seq<Span> := [];
    while i < |units|
      invariant 0 <= i <= |units|
      invariant done + CodeSpans(units, i) == all
      invariant SpansMarked(units, removed[..], code[..], done)
      decreases |units| - i
    {
      CodeSpansStep(units, i);
      if !Tick(units, i) {
        i := i + 1;
      } else {
        SpanAt(units, i);
        var end := TicksEnd(units, i);
        var close := FindClose(units, end, end - i);
        if close == |units| {
          i := end;
        } else {
          var s := Span(i, end, close);
          SetSpan(units, s, done, removed, code);
          Regroup(done, s, CodeSpans(units, close + (end - i)));
          done := done + [s];
          i := close + (end - i);
        }
      }
    }
    CodeSpansStep(units, i);
    Regroup0(done);
  }

  lemma CodeSpansStep(units: seq<Unit>, i: nat)
    requires i <= |units|
    ensures i == |units| ==> CodeSpans(units, i) == []
    ensures i < |units| && !Tick(units, i) ==> CodeSpans(units, i) == CodeSpans(units, i + 1)
    ensures i < |units| && Tick(units, i) ==>
              var end := TicksEnd(units, i);
              var close := FindClose(units, end, end - i);
              CodeSpans(units, i) ==
                if close == |units| then CodeSpans(units, end) else [Span(i, end, close)] + CodeSpans(units, close + (end - i))
  {
  }

  lemma NothingMarked(units: seq<Unit>, removed: seq<bool>, code: seq<bool>)
    requires |removed| == |code| == |units|
    requires forall k :: 0 <= k < |units| ==> !removed[k] && !code[k]
    ensures SpansMarked(units, removed, code, [])
  {
  }

  method SetSpan(units: seq<Unit>, s: Span, ghost done: seq<Span>, removed: array<bool>, code: array<bool>)
    requires removed != code && SpanOk(units, s) && SpansMarked(units, removed[..], code[..], done)
    modifies removed, code
    ensures SpansMarked(units, removed[..], code[..], done + [s])
  {
    var n := s.content - s.open;
    forall k | s.open <= k < s.content {
      removed[k] := true;
    }
    forall k | s.close <= k < s.close + n {
      removed[k] := true;
    }
    forall k | s.content <= k < s.close {
      code[k] := true;
    }
    if Strips(units, s) {
      removed[s.content] := true;
      removed[s.close - 1] := true;
    }
    forall k | 0 <= k < |units| ensures removed[k] == RemovedBySpans(units, done + [s], k) && code[k] == InCode(done + [s], k) {
      assert old(removed[..])[k] == old(removed[k]) && old(code[..])[k] == old(code[k]);
      assert removed[k] == (old(removed[k]) || DroppedBySpan(units, s, k));
      assert forall d :: d in done + [s] <==> d in done || d == s;
    }
  }

  // ---------- Guarded units ----------

  function TextOf(units: seq<Unit>, code: seq<bool>, from: nat, to: nat): Text
    requires |code| == |units| && from <= to <= |units|
  {
    if from == to then []
    else TextOf(units, code, from, to - 1) + (if Plain(units, code, to - 1) then units[to - 1].text else [])
  }

  predicate Break(units: seq<Unit>, code: seq<bool>, k: nat)
    requires |code| == |units| && k < |units|
  {
    Plain(units, code, k) && IsWhitespace(units[k].text)
  }

  /** Start and end of the whitespace-delimited token around `m`. */
  function TokenStart(units: seq<Unit>, code: seq<bool>, m: nat): (s: nat)
    requires |code| == |units| && m < |units|
    ensures s <= m
  {
    if m == 0 || Break(units, code, m - 1) then m else TokenStart(units, code, m - 1)
  }

  function TokenEnd(units: seq<Unit>, code: seq<bool>, m: nat): (e: nat)
    requires |code| == |units| && m <= |units|
    ensures m <= e <= |units|
    decreases |units| - m
  {
    if m == |units| || Break(units, code, m) then m else TokenEnd(units, code, m + 1)
  }

  /** The unit that closes the parenthesis opened at `from`, or the last unit. */
  function DestinationEnd(units: seq<Unit>, code: seq<bool>, m: nat, depth: int): (end: int)
    requires |code| == |units| && m <= |units|
    ensures -1 <= end < |units| || |units| == 0
    decreases |units| - m
  {
    if m == |units| then |units| - 1
    else if !Plain(units, code, m) then DestinationEnd(units, code, m + 1, depth)
    else if units[m].text == [0x28] then DestinationEnd(units, code, m + 1, depth + 1)
    else if units[m].text == [0x29] then if depth == 1 then m else DestinationEnd(units, code, m + 1, depth - 1)
    else DestinationEnd(units, code, m + 1, depth)
  }

  predicate StartsDestination(units: seq<Unit>, code: seq<bool>, k: nat)
    requires |code| == |units|
  {
    Plain(units, code, k) && units[k].text == [BRACKET] && Plain(units, code, k + 1) && units[k + 1].text == [0x28]
  }

  /** Where the autolink opened before `m` closes, or the number of units. */
  function AutolinkEnd(units: seq<Unit>, m: nat): (end: nat)
    requires m <= |units|
    ensures m <= end <= |units|
    decreases |units| - m
  {
    if m == |units| || units[m].atom || IsWhitespace(units[m].text) || units[m].text == [0x3c] then |units|
    else if units[m].text == [0x3e] then m
    else AutolinkEnd(units, m + 1)
  }

  /** Whether position `k` guards unit `m`: a link destination after `](`, or an autolink from `<`. */
  predicate Guards(units: seq<Unit>, code: seq<bool>, k: nat, m: nat)
    requires |code| == |units|
  {
    k + 1 < |units| &&
    (|| (StartsDestination(units, code, k) && k + 1 <= m <= DestinationEnd(units, code, k + 1, 0))
     || (Plain(units, code, k) && units[k].text == [0x3c] && k + 1 < AutolinkEnd(units, k + 1) < |units|
         && k <= m <= AutolinkEnd(units, k + 1)))
  }

  predicate TokenGuards(units: seq<Unit>, code: seq<bool>, m: nat)
    requires |code| == |units| && m < |units|
  {
    !Break(units, code, m) && TokenShaped(TextOf(units, code, TokenStart(units, code, m), TokenEnd(units, code, m)))
  }

  predicate IsGuarded(units: seq<Unit>, code: seq<bool>, m: nat)
    requires |code| == |units| && m < |units|
  {
    (exists k :: 0 <= k < |units| && Guards(units, code, k, m)) || TokenGuards(units, code, m)
  }

  // Shapes of a token: a URL, a path, an identifier.

  predicate Alnum(c: Code) {
    0x30 <= c <= 0x39 || 0x41 <= c <= 0x5a || 0x61 <= c <= 0x7a
  }

  function Lower(c: Code): Code {
    if 0x41 <= c <= 0x5a then c + 32 else c
  }

  predicate StartsWithFolded(t: Text, word: Text) {
    |t| >= |word| && forall i :: 0 <= i < |word| ==> Lower(t[i]) == word[i]
  }

  predicate UrlShaped(t: Text) {
    || (exists i :: 0 <= i && i + 2 < |t| && t[i] == 0x3a && t[i + 1] == 0x2f && t[i + 2] == 0x2f)
    || StartsWithFolded(t, [0x77, 0x77, 0x77, 0x2e])
    || StartsWithFolded(t, [0x6d, 0x61, 0x69, 0x6c, 0x74, 0x6f, 0x3a])
  }

  /** The end of the letters and digits from `i`. */
  function AlnumEnd(t: Text, i: nat): (e: nat)
    requires i <= |t|
    ensures i <= e <= |t|
    decreases |t| - i
  {
    if i < |t| && Alnum(t[i]) then AlnumEnd(t, i + 1) else i
  }

  /** A slash or backslash, or a dot before one to ten letters and digits and nothing more of them. */
  predicate PathShaped(t: Text) {
    || (exists i :: 0 <= i < |t| && (t[i] == 0x2f || t[i] == 0x5c))
    || (exists i :: 0 <= i < |t| && t[i] == 0x2e && 1 <= AlnumEnd(t, i + 1) - (i + 1) <= 10)
  }

  function TrimStarsLeft(t: Text): Text {
    if t != [] && t[0] == STAR then TrimStarsLeft(t[1..]) else t
  }

  function TrimStarsRight(t: Text): Text {
    if t != [] && t[|t| - 1] == STAR then TrimStarsRight(t[..|t| - 1]) else t
  }

  predicate IdentifierShaped(t: Text) {
    var bare := TrimStarsRight(TrimStarsLeft(t));
    0x5f in bare && forall i :: 0 <= i < |bare| ==> Alnum(bare[i]) || bare[i] == 0x5f || bare[i] == 0x2e || bare[i] == 0x2d
  }

  predicate TokenShaped(t: Text) {
    t != [] && (UrlShaped(t) || PathShaped(t) || IdentifierShaped(t))
  }

  lemma {:induction false} TokenBounds(units: seq<Unit>, code: seq<bool>, start: nat, m: nat, end: nat)
    requires |code| == |units| && start <= m < end <= |units|
    requires start == 0 || Break(units, code, start - 1)
    requires forall j :: start <= j < end ==> !Break(units, code, j)
    requires end == |units| || Break(units, code, end)
    ensures TokenStart(units, code, m) == start && TokenEnd(units, code, m) == end
    decreases end - m
  {
    StartBound(units, code, start, m);
    if m + 1 < end {
      TokenBounds(units, code, start, m + 1, end);
    }
  }

  lemma {:induction false} StartBound(units: seq<Unit>, code: seq<bool>, start: nat, m: nat)
    requires |code| == |units| && start <= m < |units|
    requires start == 0 || Break(units, code, start - 1)
    requires forall j :: start <= j < m ==> !Break(units, code, j)
    ensures TokenStart(units, code, m) == start
    decreases m - start
  {
    if m > start {
      StartBound(units, code, start, m - 1);
    }
  }

  /** The two loops of the source guard exactly the units that are part of a destination, an autolink or a shaped token. */
  method MarkGuarded(units: seq<Unit>, code: seq<bool>) returns (guarded: array<bool>)
    requires |code| == |units|
    ensures fresh(guarded) && guarded.Length == |units|
    ensures forall m :: 0 <= m < |units| ==> guarded[m] == IsGuarded(units, code, m)
  {
    guarded := new bool[|units|](_ => false);
    GuardLinks(units, code, guarded);
    GuardTokens(units, code, guarded);
  }

  ghost predicate GuardedBefore(units: seq<Unit>, code: seq<bool>, k: nat, m: nat)
    requires |code| == |units|
  {
    exists j :: 0 <= j < k && Guards(units, code, j, m)
  }

  method GuardLinks(units: seq<Unit>, code: seq<bool>, guarded: array<bool>)
    requires |code| == |units| == guarded.Length && forall m :: 0 <= m < |units| ==> !guarded[m]
    modifies guarded
    ensures forall m :: 0 <= m < |units| ==> guarded[m] == GuardedBefore(units, code, |units|, m)
  {
    hide Guards;
    var k := 0;
    while k < |units|
      invariant 0 <= k <= |units|
      invariant forall m :: 0 <= m < |units| ==> guarded[m] == GuardedBefore(units, code, k, m)
    {
      GuardFrom(units, code, k, guarded);
      k := k + 1;
    }
  }

  method GuardFrom(units: seq<Unit>, code: seq<bool>, k: nat, guarded: array<bool>)
    requires |code| == |units| == guarded.Length && k < |units|
    modifies guarded
    ensures forall m :: 0 <= m < |units| ==> guarded[m] == (old(guarded[m]) || Guards(units, code, k, m))
  {
    if k + 1 == |units| {
      return;
    }
    if StartsDestination(units, code, k) {
      var end := DestinationEnd(units, code, k + 1, 0);
      forall m | k + 1 <= m <= end {
        guarded[m] := true;
      }
    }
    if Plain(units, code, k) && units[k].text == [0x3c] {
      var end := AutolinkEnd(units, k + 1);
      if k + 1 < end < |units| {
        forall m | k <= m <= end {
          guarded[m] := true;
        }
      }
    }
  }

  method GuardTokens(units: seq<Unit>, code: seq<bool>, guarded: array<bool>)
    requires |code| == |units| == guarded.Length
    modifies guarded
    ensures forall m :: 0 <= m < |units| ==> guarded[m] == (old(guarded[m]) || TokenGuards(units, code, m))
  {
    hide TokenShaped;
    var start, k := 0, 0;
    while k <= |units|
      invariant 0 <= start <= k <= |units| + 1
      invariant k == |units| + 1 ==> start == k
      invariant start == 0 || start == |units| + 1 || Break(units, code, start - 1)
      invariant forall j :: start <= j < k && j < |units| ==> !Break(units, code, j)
      invariant forall m :: 0 <= m < |units| && m < start ==> guarded[m] == (old(guarded[m]) || TokenGuards(units, code, m))
      invariant forall m :: start <= m < |units| ==> guarded[m] == old(guarded[m])
    {
      if k < |units| && !Break(units, code, k) {
        k := k + 1;
        continue;
      }
      var shaped := TokenShaped(TextOf(units, code, start, k));
      forall m | start <= m < k ensures TokenGuards(units, code, m) == shaped {
        TokenBounds(units, code, start, m, k);
      }
      if shaped {
        forall m | start <= m < k {
          guarded[m] := true;
        }
      }
      start := k + 1;
      k := k + 1;
    }
  }

  // ---------- Links ----------

  /** `[` at `open`, `]` at `close`, `)` at `end`; `same`: the text is the URL itself. */
  datatype Link = Link(open: nat, close: nat, end: nat, same: bool)

  /** The `]` that closes the text from `m`, or the number of units. */
  function LabelEnd(units: seq<Unit>, code: seq<bool>, m: nat): (close: nat)
    requires |code| == |units| && m <= |units|
    ensures m <= close <= |units|
    ensures forall j :: m <= j <= close < |units| ==> Plain(units, code, j)
    ensures close < |units| ==> units[close].text == [BRACKET]
    decreases |units| - m
  {
    if m == |units| || !Plain(units, code, m) || units[m].text == [0x5b] then |units|
    else if units[m].text == [BRACKET] then m
    else LabelEnd(units, code, m + 1)
  }

  /** The `)` that ends a destination without whitespace, `<`, `>` or spans, or the number of units. */
  function UrlEnd(units: seq<Unit>, code: seq<bool>, m: nat, depth: int): (end: nat)
    requires |code| == |units| && m <= |units|
    ensures m <= end <= |units|
    ensures forall j :: m <= j <= end < |units| ==> Plain(units, code, j)
    decreases |units| - m
  {
    if m == |units| || !Plain(units, code, m) || IsWhitespace(units[m].text) || units[m].text == [0x3c] || units[m].text == [0x3e] then |units|
    else if units[m].text == [0x28] then UrlEnd(units, code, m + 1, depth + 1)
    else if units[m].text == [0x29] then if depth == 1 then m else UrlEnd(units, code, m + 1, depth - 1)
    else UrlEnd(units, code, m + 1, depth)
  }

  predicate HttpHead(url: Text) {
    var n := if StartsWithFolded(url, [0x68, 0x74, 0x74, 0x70, 0x73, 0x3a, 0x2f, 0x2f]) then 8
             else if StartsWithFolded(url, [0x68, 0x74, 0x74, 0x70, 0x3a, 0x2f, 0x2f]) then 7 else 0;
    n > 0 && n < |url| && !WhitespaceCode(url[n]) && url[n] != 0x3c && url[n] != 0x3e
  }

  /** The link that starts at `k`, if one does. */
  function LinkAt(units: seq<Unit>, code: seq<bool>, k: nat): (links: seq<Link>)
    requires |code| == |units| && k < |units|
    ensures |links| <= 1 && forall l <- links :: LinkOk(units, code, l) && l.open == k
  {
    if !Plain(units, code, k) || units[k].text != [0x5b] || (Plain(units, code, k - 1) && units[k - 1].text == [0x21]) then []
    else
      var close := LabelEnd(units, code, k + 1);
      if close == |units| || close < k + 2 || !Plain(units, code, close + 1) || units[close + 1].text != [0x28] then []
      else
        var end := UrlEnd(units, code, close + 1, 0);
        if end == |units| || end < close + 2 then []
        else
          var url := TextOf(units, code, close + 2, end);
          if !HttpHead(url) then [] else [Link(k, close, end, TextOf(units, code, k + 1, close) == url)]
  }

  /** A link lies on plain units only. */
  predicate LinkOk(units: seq<Unit>, code: seq<bool>, l: Link)
    requires |code| == |units|
  {
    && l.open < l.close && l.close + 1 < l.end < |units| && (forall j :: l.open <= j <= l.end ==> Plain(units, code, j))
    && units[l.close].text == [BRACKET] && units[l.close + 1].text == [0x28]
    && UrlEnd(units, code, l.close + 1, 0) == l.end
  }

  function Links(units: seq<Unit>, code: seq<bool>, k: nat): (links: seq<Link>)
    requires |code| == |units| && k <= |units|
    ensures forall l <- links :: LinkOk(units, code, l)
    decreases |units| - k
  {
    if k == |units| then []
    else
      var here := LinkAt(units, code, k);
      if here == [] then Links(units, code, k + 1)
      else assert here[0] in here; here + Links(units, code, here[0].end + 1)
  }

  predicate DroppedByLink(l: Link, k: nat) {
    if l.same then l.open <= k <= l.close + 1 || k == l.end else k == l.open
  }

  predicate RemovedByLinks(links: seq<Link>, k: nat) {
    exists l <- links :: DroppedByLink(l, k)
  }

  predicate SpacedByLinks(links: seq<Link>, k: nat) {
    exists l <- links :: !l.same && k == l.close
  }

  /** The flags are exactly those of the links, on top of the removals before them. */
  ghost predicate LinksMarked(before: seq<bool>, removed: seq<bool>, spaced: seq<bool>, links: seq<Link>) {
    && |before| == |removed| == |spaced|
    && (forall k :: 0 <= k < |before| ==>
          removed[k] == (before[k] || RemovedByLinks(links, k)) && spaced[k] == SpacedByLinks(links, k))
  }

  method MarkLinks(units: seq<Unit>, removed: array<bool>, spaced: array<bool>, code: seq<bool>)
    requires removed != spaced && removed.Length == spaced.Length == |code| == |units|
    requires forall k :: 0 <= k < |units| ==> !spaced[k]
    modifies removed, spaced
    ensures LinksMarked(old(removed[..]), removed[..], spaced[..], Links(units, code, 0))
  {
    hide *;
    ghost var before := removed[..];
    NoLinksMarked(before, spaced[..]);
    var k := 0;
    ghost var all := Links(units, code, k);
    ghost var done: seq<Link> := [];
    while k < |units|
      invariant 0 <= k <= |units|
      invariant done + Links(units, code, k) == all
      invariant LinksMarked(before, removed[..], spaced[..], done)
      decreases |units| - k
    {
      var here := LinkAt(units, code, k);
      LinksStep(units, code, k);
      if here == [] {
        k := k + 1;
      } else {
        var l := here[0];
        SetLink(l, done, removed, spaced, before);
        Regroup(done, l, Links(units, code, l.end + 1));
        done := done + [l];
        k := l.end + 1;
      }
    }
    LinksStep(units, code, k);
    Regroup0(done);
  }

  lemma LinksStep(units: seq<Unit>, code: seq<bool>, k: nat)
    requires |code| == |units| && k <= |units|
    ensures k == |units| ==> Links(units, code, k) == []
    ensures k < |units| ==>
              var here := LinkAt(units, code, k);
              if here == [] then Links(units, code, k) == Links(units, code, k + 1)
              else
                && here[0].open < here[0].close && here[0].close + 1 < here[0].end < |units|
                && Links(units, code, k) == [here[0]] + Links(units, code, here[0].end + 1)
  {
    hide LinkAt;
    if k < |units| && LinkAt(units, code, k) != [] {
      var here := LinkAt(units, code, k);
      assert here[0] in here && here == [here[0]];
    }
  }

  lemma NoLinksMarked(before: seq<bool>, spaced: seq<bool>)
    requires |before| == |spaced| && forall k :: 0 <= k < |spaced| ==> !spaced[k]
    ensures LinksMarked(before, before, spaced, [])
  {
  }

  method SetLink(l: Link, ghost done: seq<Link>, removed: array<bool>, spaced: array<bool>, ghost before: seq<bool>)
    requires removed != spaced && LinksMarked(before, removed[..], spaced[..], done)
    requires l.open < l.close && l.close + 1 < l.end < removed.Length
    modifies removed, spaced
    ensures LinksMarked(before, removed[..], spaced[..], done + [l])
  {
    if l.same {
      forall m | l.open <= m <= l.close + 1 {
        removed[m] := true;
      }
      removed[l.end] := true;
    } else {
      removed[l.open] := true;
      spaced[l.close] := true;
    }
    forall k | 0 <= k < removed.Length
      ensures removed[k] == (before[k] || RemovedByLinks(done + [l], k)) && spaced[k] == SpacedByLinks(done + [l], k)
    {
      assert old(removed[..])[k] == old(removed[k]) && old(spaced[..])[k] == old(spaced[k]);
      assert removed[k] == (old(removed[k]) || DroppedByLink(l, k));
      assert spaced[k] == (old(spaced[k]) || (!l.same && k == l.close));
      assert forall d :: d in done + [l] <==> d in done || d == l;
    }
  }

  // ---------- One line ----------

  /** The flags after each pass of `translateInline`. */
  datatype Flags = Flags(removed: seq<bool>, code: seq<bool>, guarded: seq<bool>)

  ghost predicate Fits(units: seq<Unit>, f: Flags) {
    |f.removed| == |f.code| == |f.guarded| == |units|
  }

  /** After code spans and guards: a guarded unit is not removed by a code span. */
  ghost function GuardedFlags(units: seq<Unit>): (f: Flags)
    ensures Fits(units, f)
    ensures forall k :: 0 <= k < |units| ==> f.code[k] == InCode(CodeSpans(units, 0), k)
    ensures forall k :: 0 <= k < |units| ==> f.guarded[k] == IsGuarded(units, f.code, k)
    ensures forall k :: 0 <= k < |units| && f.removed[k] ==> !f.guarded[k] && !units[k].atom
  {
    hide IsGuarded, CodeSpans, SpansFrom, InCode, DroppedBySpan, SpanOk;
    var spans := CodeSpans(units, 0);
    SpansOk(units);
    var code := seq(|units|, k requires 0 <= k < |units| => InCode(spans, k));
    var guarded := seq(|units|, k requires 0 <= k < |units| => IsGuarded(units, code, k));
    var removed := seq(|units|, k requires 0 <= k < |units| => RemovedBySpans(units, spans, k) && !guarded[k]);
    assert forall k :: 0 <= k < |units| && removed[k] ==> !units[k].atom by {
      forall k | 0 <= k < |units| && removed[k] ensures !units[k].atom {
        var s :| s in spans && DroppedBySpan(units, s, k);
        DroppedIsCopy(units, s, k);
      }
    }
    Flags(removed, code, guarded)
  }

  lemma SpansOk(units: seq<Unit>)
    ensures forall s <- CodeSpans(units, 0) :: SpanOk(units, s)
  {
    CodeSpansOk(units, 0);
  }

  lemma DroppedIsCopy(units: seq<Unit>, s: Span, k: nat)
    requires SpanOk(units, s) && DroppedBySpan(units, s, k)
    ensures k < |units| && !units[k].atom
  {
    if s.open <= k < s.content || s.close <= k < s.close + (s.content - s.open) {
      assert Tick(units, k);
    }
  }

  /** After emphasis as well. */
  ghost function EmphasisRemoved(units: seq<Unit>, punctuation: Text -> bool): (removed: seq<bool>)
    ensures |removed| == |units|
    ensures forall k :: 0 <= k < |units| && removed[k] ==> !GuardedFlags(units).guarded[k] && !units[k].atom
  {
    hide GuardedFlags, Pairs, Marked, Runs;
    var f := GuardedFlags(units);
    var pairs := Pairs(units, f.removed, f.code, f.guarded, punctuation);
    EmphasisRemovesCopy(units, f, punctuation);
    Marked(f.removed, pairs)
  }

  lemma EmphasisRemovesCopy(units: seq<Unit>, f: Flags, punctuation: Text -> bool)
    requires Fits(units, f)
    requires forall k :: 0 <= k < |units| && f.removed[k] ==> !f.guarded[k] && !units[k].atom
    ensures var removed := Marked(f.removed, Pairs(units, f.removed, f.code, f.guarded, punctuation));
            forall k :: 0 <= k < |units| && removed[k] ==> !f.guarded[k] && !units[k].atom
  {
    hide Pairs, Marked, Runs, Compatible, Uncrossed;
    var pairs := Pairs(units, f.removed, f.code, f.guarded, punctuation);
    EmphasisIsMatched(units, f.removed, f.code, f.guarded, punctuation);
    forall k | 0 <= k < |units| && Marked(f.removed, pairs)[k] ensures !f.guarded[k] && !units[k].atom {
      MarkedExactly(f.removed, pairs, k);
    }
  }

  function LinksOf(units: seq<Unit>, code: seq<bool>): seq<Link>
    requires |code| == |units|
  {
    Links(units, code, 0)
  }

  /** What becomes of each unit of a line. */
  ghost function InlineChoice(units: seq<Unit>, punctuation: Text -> bool, k: nat): (c: Choice)
    requires k < |units|
    ensures Allowed(units[k], c)
  {
    hide GuardedFlags, EmphasisRemoved, Links, DroppedByLink;
    var links := LinksOf(units, GuardedFlags(units).code);
    LinkUnits(units, GuardedFlags(units).code, k);
    if EmphasisRemoved(units, punctuation)[k] || RemovedByLinks(links, k) then Drop
    else if SpacedByLinks(links, k) then Write(SPACE)
    else Keep
  }

  lemma LinkUnits(units: seq<Unit>, code: seq<bool>, k: nat)
    requires |code| == |units| && k < |units|
    ensures RemovedByLinks(LinksOf(units, code), k) ==> !units[k].atom
    ensures SpacedByLinks(LinksOf(units, code), k) ==> Is(units[k], BRACKET)
  {
    hide Links;
    var links := LinksOf(units, code);
    if l :| l in links && (DroppedByLink(l, k) || (!l.same && k == l.close)) {
      assert LinkOk(units, code, l) && Plain(units, code, k);
    }
    if l :| l in links && !l.same && k == l.close {
      assert LinkOk(units, code, l) && Plain(units, code, k);
    }
  }

  ghost function InlineChoices(units: seq<Unit>, punctuation: Text -> bool): (cs: seq<Choice>)
    ensures AllAllowed(units, cs)
  {
    seq(|units|, k requires 0 <= k < |units| => InlineChoice(units, punctuation, k))
  }

  /** The translation of one line of units: it is an edit. */
  ghost function Inlined(units: seq<Unit>, punctuation: Text -> bool): (out: seq<Unit>)
    ensures Edited(units, out)
  {
    Applied(units, InlineChoices(units, punctuation))
  }

  /** The source's passes over one line produce exactly that edit. */
  method TranslateInline(line: seq<Segment>, punctuation: Text -> bool) returns (out: Text)
    ensures out == Flat(Inlined(UnitsOf(line), punctuation))
  {
    hide *;
    var units := UnitsOf(line);
    var removed, code := new bool[|units|](_ => false), new bool[|units|](_ => false);
    MarkCodeSpans(units, removed, code);
    var codeFlags := code[..];
    var guarded := MarkGuarded(units, codeFlags);
    ghost var raw := removed[..];
    Unguard(removed, guarded);
    CodeFlagsAre(units, raw, codeFlags, guarded[..], removed[..]);
    MarkEmphasis(units, removed, codeFlags, guarded[..], punctuation);
    EmphasisFlagsAre(units, removed[..], punctuation);
    ghost var before := removed[..];
    var spaced := new bool[|units|](_ => false);
    MarkLinks(units, removed, spaced, codeFlags);
    out := Emit(units, removed[..], spaced[..]);
    ChoicesAre(units, before, removed[..], spaced[..], punctuation);
  }

  method Unguard(removed: array<bool>, guarded: array<bool>)
    requires removed != guarded && removed.Length == guarded.Length
    modifies removed
    ensures forall k :: 0 <= k < removed.Length ==> removed[k] == (old(removed[k]) && !guarded[k])
  {
    var index := 0;
    while index < guarded.Length
      invariant 0 <= index <= guarded.Length
      invariant forall k :: 0 <= k < index ==> removed[k] == (old(removed[k]) && !guarded[k])
      invariant forall k :: index <= k < removed.Length ==> removed[k] == old(removed[k])
    {
      if guarded[index] {
        removed[index] := false;
      }
      index := index + 1;
    }
  }

  lemma CodeFlagsAre(units: seq<Unit>, raw: seq<bool>, code: seq<bool>, guarded: seq<bool>, removed: seq<bool>)
    requires SpansMarked(units, raw, code, CodeSpans(units, 0)) && |guarded| == |removed| == |units|
    requires forall k :: 0 <= k < |units| ==> guarded[k] == IsGuarded(units, code, k)
    requires forall k :: 0 <= k < |units| ==> removed[k] == (raw[k] && !guarded[k])
    ensures GuardedFlags(units) == Flags(removed, code, guarded)
  {
    hide IsGuarded, InCode, RemovedBySpans, CodeSpans, SpanOk;
    var f := GuardedFlags(units);
    assert f.code == code;
    assert f.guarded == guarded;
    assert f.removed == removed;
  }

  lemma EmphasisFlagsAre(units: seq<Unit>, removed: seq<bool>, punctuation: Text -> bool)
    requires var f := GuardedFlags(units);
             removed == Marked(f.removed, Pairs(units, f.removed, f.code, f.guarded, punctuation))
    ensures removed == EmphasisRemoved(units, punctuation)
  {
    hide GuardedFlags, Marked, Pairs;
  }

  function ChoiceOf(removed: bool, spaced: bool): Choice {
    if removed then Drop else if spaced then Write(SPACE) else Keep
  }

  function Chosen(removed: seq<bool>, spaced: seq<bool>): (cs: seq<Choice>)
    requires |removed| == |spaced|
    ensures |cs| == |removed| && forall k :: 0 <= k < |cs| ==> cs[k] == ChoiceOf(removed[k], spaced[k])
  {
    seq(|removed|, k requires 0 <= k < |removed| => ChoiceOf(removed[k], spaced[k]))
  }

  lemma InlineChoicesAre(units: seq<Unit>, punctuation: Text -> bool, cs: seq<Choice>)
    requires |cs| == |units| && forall k :: 0 <= k < |cs| ==> InlineChoice(units, punctuation, k) == cs[k]
    ensures InlineChoices(units, punctuation) == cs
  {
    hide InlineChoice, Allowed;
  }

  lemma ChoicesAre(units: seq<Unit>, before: seq<bool>, removed: seq<bool>, spaced: seq<bool>, punctuation: Text -> bool)
    requires |removed| == |spaced| == |units| && before == EmphasisRemoved(units, punctuation)
    requires LinksMarked(before, removed, spaced, Links(units, GuardedFlags(units).code, 0))
    ensures Inlined(units, punctuation) == Applied(units, Chosen(removed, spaced))
  {
    hide GuardedFlags, EmphasisRemoved, Links, InlineChoice, InlineChoices, LinksMarked, AllAllowed, Edited, Applied, ChoiceOf, Chosen;
    var cs := Chosen(removed, spaced);
    forall k | 0 <= k < |units| ensures InlineChoice(units, punctuation, k) == cs[k] {
      ChoiceIs(units, before, removed, spaced, punctuation, k);
    }
    InlineChoicesAre(units, punctuation, cs);
  }

  lemma ChoiceIs(units: seq<Unit>, before: seq<bool>, removed: seq<bool>, spaced: seq<bool>, punctuation: Text -> bool, k: nat)
    requires |removed| == |spaced| == |units| && before == EmphasisRemoved(units, punctuation) && k < |units|
    requires LinksMarked(before, removed, spaced, Links(units, GuardedFlags(units).code, 0))
    ensures InlineChoice(units, punctuation, k) == ChoiceOf(removed[k], spaced[k])
  {
    hide GuardedFlags, EmphasisRemoved, Links, RemovedByLinks, SpacedByLinks, Allowed;
  }

  method Emit(units: seq<Unit>, removed: seq<bool>, spaced: seq<bool>) returns (out: Text)
    requires |removed| == |spaced| == |units|
    ensures out == Flat(Applied(units, Chosen(removed, spaced)))
  {
    hide Applied, Flat, Chosen;
    ghost var cs := Chosen(removed, spaced);
    out := [];
    NothingApplied(units, cs);
    var index := 0;
    while index < |units|
      invariant 0 <= index <= |units|
      invariant out == Flat(Applied(units[..index], cs[..index]))
    {
      AppliedTake(units, cs, index);
      if !removed[index] {
        out := out + if spaced[index] then [SPACE] else units[index].text;
      }
      index := index + 1;
    }
    assert units[..index] == units && cs[..index] == cs;
  }

  lemma NothingApplied(units: seq<Unit>, cs: seq<Choice>)
    ensures Flat(Applied(units[..0], cs[..0])) == []
  {
  }

  lemma AppliedTake(units: seq<Unit>, cs: seq<Choice>, n: nat)
    requires n < |units| == |cs|
    ensures Flat(Applied(units[..n + 1], cs[..n + 1]))
            == Flat(Applied(units[..n], cs[..n]))
               + match cs[n] { case Keep => units[n].text case Drop => [] case Write(w) => [w] }
  {
    assert units[..n + 1][..n] == units[..n] && cs[..n + 1][..n] == cs[..n];
    var one := One(units[n], cs[n]);
    FlatAppend(Applied(units[..n], cs[..n]), one);
    if one != [] {
      assert one[..|one| - 1] == [];
    }
  }

  // ---------- A link destination is left alone ----------

  lemma {:induction false} DestinationIsUrl(units: seq<Unit>, code: seq<bool>, m: nat, depth: int)
    requires |code| == |units| && m <= |units| && UrlEnd(units, code, m, depth) < |units|
    ensures DestinationEnd(units, code, m, depth) == UrlEnd(units, code, m, depth)
    decreases |units| - m
  {
    if m < |units| && !(units[m].text == [0x29] && depth == 1) {
      var next := if units[m].text == [0x28] then depth + 1 else if units[m].text == [0x29] then depth - 1 else depth;
      DestinationIsUrl(units, code, m + 1, next);
    }
  }

  /** Links lie one after another from `k` on. */
  ghost predicate LinksFrom(links: seq<Link>, k: nat) {
    (forall l <- links :: k <= l.open < l.close && l.close + 1 < l.end) && forall a, b :: 0 <= a < b < |links| ==> links[a].end < links[b].open
  }

  lemma LinksCons(l: Link, rest: seq<Link>)
    requires l.open < l.close && l.close + 1 < l.end && LinksFrom(rest, l.end + 1)
    ensures LinksFrom([l] + rest, l.open)
  {
    var links := [l] + rest;
    forall a, b | 0 <= a < b < |links| ensures links[a].end < links[b].open {
      assert links[b] == rest[b - 1] && rest[b - 1] in rest;
    }
  }

  lemma LinksLower(links: seq<Link>, k: nat, lower: nat)
    requires LinksFrom(links, k) && lower <= k
    ensures LinksFrom(links, lower)
  {
  }

  lemma {:induction false} LinksInOrder(units: seq<Unit>, code: seq<bool>, k: nat)
    requires |code| == |units| && k <= |units|
    ensures LinksFrom(Links(units, code, k), k)
    decreases |units| - k
  {
    hide LinkAt, LinksFrom, Links;
    LinksStep(units, code, k);
    if k == |units| {
      NoLinksFrom(k);
    } else {
      var here := LinkAt(units, code, k);
      if here == [] {
        LinksInOrder(units, code, k + 1);
        LinksLower(Links(units, code, k + 1), k + 1, k);
      } else {
        assert here[0] in here;
        LinksInOrder(units, code, here[0].end + 1);
        LinksCons(here[0], Links(units, code, here[0].end + 1));
      }
    }
  }

  lemma NoLinksFrom(k: nat)
    ensures LinksFrom([], k)
  {
  }

  lemma DestinationGuarded(units: seq<Unit>, code: seq<bool>, l: Link, k: nat)
    requires |code| == |units| && LinkOk(units, code, l) && l.close + 1 < k < l.end
    ensures IsGuarded(units, code, k)
  {
    DestinationIsUrl(units, code, l.close + 1, 0);
    assert Guards(units, code, l.close, k);
  }

  lemma DestinationOfOneLink(links: seq<Link>, l: Link, k: nat)
    requires LinksFrom(links, 0) && l in links && l.close + 1 < k < l.end
    ensures !RemovedByLinks(links, k) && !SpacedByLinks(links, k)
  {
    var b :| 0 <= b < |links| && links[b] == l;
    forall d | d in links ensures !DroppedByLink(d, k) && !(!d.same && k == d.close) {
      var a :| 0 <= a < |links| && links[a] == d;
      if a < b {
        assert links[a].end < links[b].open;
      } else if b < a {
        assert links[b].end < links[a].open;
      }
    }
  }

  /** Every unit of a link's destination is written as it stands: no code span, emphasis or link takes it. */
  lemma DestinationKept(units: seq<Unit>, punctuation: Text -> bool, l: Link, k: nat)
    requires l in LinksOf(units, GuardedFlags(units).code) && l.close + 1 < k < l.end < |units|
    ensures InlineChoice(units, punctuation, k) == Keep
  {
    var code := GuardedFlags(units).code;
    assert LinkOk(units, code, l);
    DestinationGuarded(units, code, l, k);
    LinksInOrder(units, code, 0);
    hide EmphasisRemoved, Links, GuardedFlags, IsGuarded;
    DestinationOfOneLink(LinksOf(units, code), l, k);
  }
}
