/** Text as JavaScript strings hold it: UTF-16 code units. */
module Utf16 {

  type Code = c: int | 0 <= c < 0x1_0000

  type Text = seq<Code>

  const NEWLINE: Code := 0x0a
  const CARRIAGE: Code := 0x0d
  const TAB: Code := 0x09
  const SPACE: Code := 0x20
  const BACKTICK: Code := 0x60
  const STAR: Code := 0x2a

  predicate HighSurrogate(c: Code) {
    0xd800 <= c <= 0xdbff
  }

  predicate LowSurrogate(c: Code) {
    0xdc00 <= c <= 0xdfff
  }

  /** The white space of `trim` and `\s`. */
  predicate WhitespaceCode(c: Code) {
    || 0x09 <= c <= 0x0d || c == 0x20 || c == 0xa0 || c == 0x1680 || 0x2000 <= c <= 0x200a
    || c == 0x2028 || c == 0x2029 || c == 0x202f || c == 0x205f || c == 0x3000 || c == 0xfeff
  }

  function Concat(parts: seq<Text>): Text {
    if parts == [] then [] else Concat(parts[..|parts| - 1]) + parts[|parts| - 1]
  }

  lemma ConcatSnoc(parts: seq<Text>, last: Text)
    ensures Concat(parts + [last]) == Concat(parts) + last
  {
    assert (parts + [last])[..|parts|] == parts;
  }

  lemma {:induction false} ConcatAppend(a: seq<Text>, b: seq<Text>)
    ensures Concat(a + b) == Concat(a) + Concat(b)
  {
    if b == [] {
      assert a + b == a;
    } else {
      assert (a + b)[..|a + b| - 1] == a + b[..|b| - 1];
      ConcatAppend(a, b[..|b| - 1]);
    }
  }

  /** The last index of `c` below `n`, or -1. */
  function LastIndex(t: Text, c: Code, n: nat): (r: int)
    requires n <= |t|
    ensures -1 <= r < n
    ensures r >= 0 ==> t[r] == c
    ensures forall k :: r < k < n ==> t[k] != c
  {
    if n == 0 then -1 else if t[n - 1] == c then n - 1 else LastIndex(t, c, n - 1)
  }

  /** The start of the run of backticks that ends before `cut`. */
  function RunStart(t: Text, cut: nat): (r: nat)
    requires cut <= |t|
    ensures r <= cut && forall k :: r <= k < cut ==> t[k] == BACKTICK
    ensures r > 0 ==> t[r - 1] != BACKTICK
  {
    if cut > 0 && t[cut - 1] == BACKTICK then RunStart(t, cut - 1) else cut
  }

  // ---------- Scanners ----------

  predicate BlankCode(c: Code) {
    c == SPACE || c == TAB
  }

  predicate LineTerminator(c: Code) {
    c == NEWLINE || c == CARRIAGE || c == 0x2028 || c == 0x2029
  }

  /** The end of the spaces and tabs from `i`. */
  function BlankEnd(t: Text, i: nat): (e: nat)
    requires i <= |t|
    ensures i <= e <= |t| && (forall k :: i <= k < e ==> BlankCode(t[k])) && (e < |t| ==> !BlankCode(t[e]))
    decreases |t| - i
  {
    if i < |t| && BlankCode(t[i]) then BlankEnd(t, i + 1) else i
  }

  /** The start of the spaces and tabs before `i`. */
  function BlankStart(t: Text, i: nat): (s: nat)
    requires i <= |t|
    ensures s <= i && forall k :: s <= k < i ==> BlankCode(t[k])
  {
    if i > 0 && BlankCode(t[i - 1]) then BlankStart(t, i - 1) else i
  }

  /** The end of the run of `c` from `i`. */
  function SameEnd(t: Text, c: Code, i: nat): (e: nat)
    requires i <= |t|
    ensures i <= e <= |t| && forall k :: i <= k < e ==> t[k] == c
    decreases |t| - i
  {
    if i < |t| && t[i] == c then SameEnd(t, c, i + 1) else i
  }

  // ---------- Lines ----------

  /** `split` on newlines. */
  function Split(t: Text): (pieces: seq<Text>)
    ensures |pieces| > 0
    decreases |t|
  {
    var k := LastIndex(t, NEWLINE, |t|);
    if k < 0 then [t] else Split(t[..k]) + [t[k + 1..]]
  }

  /** `join` with newlines. */
  function JoinText(lines: seq<Text>): Text {
    if lines == [] then []
    else if |lines| == 1 then lines[0]
    else JoinText(lines[..|lines| - 1]) + [NEWLINE] + lines[|lines| - 1]
  }

  predicate OneLine(t: Text) {
    NEWLINE !in t
  }

  lemma {:induction false} SplitPieces(t: Text)
    ensures JoinText(Split(t)) == t
    ensures forall p <- Split(t) :: OneLine(p)
    decreases |t|
  {
    var k := LastIndex(t, NEWLINE, |t|);
    if k >= 0 {
      SplitPieces(t[..k]);
      var front, last := Split(t[..k]), t[k + 1..];
      assert (front + [last])[..|front|] == front;
      assert t == t[..k] + [NEWLINE] + last;
    }
  }

  lemma LastNewline(a: Text, b: Text)
    requires OneLine(b)
    ensures var t := a + [NEWLINE] + b; LastIndex(t, NEWLINE, |t|) == |a| && t[..|a|] == a && t[|a| + 1..] == b
  {
    var t := a + [NEWLINE] + b;
    assert t[|a|] == NEWLINE;
    forall k | |a| < k < |t| ensures t[k] != NEWLINE {
      assert t[k] == b[k - |a| - 1] && b[k - |a| - 1] in b;
    }
  }

  lemma SplitLast(a: Text, b: Text)
    requires OneLine(b)
    ensures Split(a + [NEWLINE] + b) == Split(a) + [b]
  {
    LastNewline(a, b);
  }

  lemma SplitOne(t: Text)
    requires OneLine(t)
    ensures Split(t) == [t]
  {
    forall i | 0 <= i < |t| ensures t[i] != NEWLINE {
      assert t[i] in t;
    }
  }

  /** Splitting joined lines gives the lines back. */
  lemma {:induction false} SplitJoin(lines: seq<Text>)
    requires lines != [] && forall l <- lines :: OneLine(l)
    ensures Split(JoinText(lines)) == lines
  {
    hide Split;
    var n := |lines| - 1;
    if n == 0 {
      SplitOne(lines[0]);
    } else {
      SplitJoin(lines[..n]);
      SplitLast(JoinText(lines[..n]), lines[n]);
      assert lines == lines[..n] + [lines[n]];
    }
  }
}
