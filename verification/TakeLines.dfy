/** The take-lines budget of rendered nodes (commonmark.ts:160-183): the leading lines that fit, and how many were left out. */
module TakeLines {
  import opened Utf16
  import opened Edits
  import opened Inline
  import opened CommonMark
  import opened Budgets
  import TelegramDelivery

  /** `item`: a list entry, counted when it is left out; other lines are headings. */
  datatype Entry = Entry(content: seq<Segment>, item: bool)

  /** The closing line that tells how many entries are missing; `hidden` are missing from the start. */
  datatype Omitted = Silent | Told(hidden: nat, before: Text, after: Text)

  datatype Node = Node(
    unit: LengthUnit, maxChars: int, baseChars: int, head: seq<seq<Segment>>, tail: seq<seq<Segment>>, lines: seq<Entry>,
    headOnlyWithLines: bool, dropTrailingHeadings: bool, omitted: Omitted)

  // ---------- What is shown ----------

  function Total(lines: seq<seq<Segment>>, unit: LengthUnit): nat {
    if lines == [] then 0 else Total(lines[..|lines| - 1], unit) + Measure(LineText(lines[|lines| - 1]), unit)
  }

  /** The budget used by the fixed lines and the first `n` others, each with a separator. */
  function Used(node: Node, n: nat): int
    requires n <= |node.lines|
  {
    if n == 0 then node.baseChars + Total(node.head, node.unit) + Total(node.tail, node.unit)
    else Used(node, n - 1) + Measure(LineText(node.lines[n - 1].content), node.unit) + 1
  }

  /** The first `n` lines are the longest prefix within the budget (nothing is taken when the fixed lines alone exceed it). */
  ghost predicate Longest(node: Node, n: nat) {
    && n <= |node.lines|
    && (n > 0 ==> Used(node, n) <= node.maxChars)
    && forall m :: n < m <= |node.lines| ==> Used(node, m) > node.maxChars
  }

  /** The first `m` of the `n` taken lines are shown: all, or up to the last entry. */
  ghost predicate UpTo(node: Node, n: nat, m: nat)
    requires n <= |node.lines|
  {
    if node.dropTrailingHeadings then
      m <= n && (forall k :: m <= k < n ==> !node.lines[k].item) && (m > 0 ==> node.lines[m - 1].item)
    else m == n
  }

  /** The entries among the lines from `from` on. */
  function Items(lines: seq<Entry>, from: nat): nat
    requires from <= |lines|
    decreases |lines| - from
  {
    if from == |lines| then 0 else (if lines[from].item then 1 else 0) + Items(lines, from + 1)
  }

  /** The entries that are not shown, and those hidden from the start. */
  function Missing(node: Node, m: nat): nat
    requires m <= |node.lines|
  {
    (if node.omitted.Told? then node.omitted.hidden else 0) + Items(node.lines, m)
  }

  function Note(node: Node, missing: nat): seq<seq<Segment>> {
    if node.omitted.Told? && missing > 0 then
      [[Segment(node.omitted.before + TelegramDelivery.Digits(missing) + node.omitted.after, false)]]
    else []
  }

  function Contents(lines: seq<Entry>): (r: seq<seq<Segment>>)
    ensures |r| == |lines|
  {
    seq(|lines|, k requires 0 <= k < |lines| => lines[k].content)
  }

  function Join(lines: seq<seq<Segment>>): seq<Segment> {
    if lines == [] then []
    else if |lines| == 1 then lines[0]
    else Join(lines[..|lines| - 1]) + [Segment([NEWLINE], false)] + lines[|lines| - 1]
  }

  /** The lines shown when the first `m` are: heads, lines, the note about everything missing, tails. */
  function ShownLines(node: Node, m: nat): seq<seq<Segment>>
    requires m <= |node.lines|
  {
    (if node.headOnlyWithLines && m == 0 then [] else node.head)
    + Contents(node.lines[..m]) + Note(node, Missing(node, m)) + node.tail
  }

  // ---------- The prefix is determined ----------

  lemma {:induction false} UsedGrows(node: Node, n: nat, m: nat)
    requires n < m <= |node.lines|
    ensures Used(node, n) < Used(node, m)
    decreases m
  {
    if n < m - 1 {
      UsedGrows(node, n, m - 1);
    }
  }

  /** The longest prefix stops at the first line that does not fit. */
  lemma LongestIsFirst(node: Node, n: nat)
    requires n <= |node.lines| && (n > 0 ==> Used(node, n) <= node.maxChars)
    requires n < |node.lines| ==> Used(node, n + 1) > node.maxChars
    ensures Longest(node, n)
  {
    forall m | n < m <= |node.lines| ensures Used(node, m) > node.maxChars {
      if n + 1 < m {
        UsedGrows(node, n + 1, m);
      }
    }
  }

  /** Dropped trailing headings are not entries: what is missing does not change. */
  lemma {:induction false} HeadingsNotMissing(lines: seq<Entry>, m: nat, n: nat)
    requires m <= n <= |lines| && forall k :: m <= k < n ==> !lines[k].item
    ensures Items(lines, m) == Items(lines, n)
    decreases n - m
  {
    if m < n {
      HeadingsNotMissing(lines, m + 1, n);
    }
  }

  // ---------- The source's loops ----------

  /** `out` shows the first `m` of the `n` lines that fit. */
  ghost predicate Renders(node: Node, n: nat, m: nat, out: seq<Segment>) {
    Longest(node, n) && UpTo(node, n, m) && m <= |node.lines| && out == Join(ShownLines(node, m))
  }

  /** The longest prefix that fits is taken, no list ends on a heading where headings are dropped, and the note counts exactly
      the entries that are not shown. */
  method RenderTakeLines(node: Node) returns (out: seq<Segment>)
    ensures exists n: nat, m: nat :: Renders(node, n, m, out)
  {
    hide Longest, Missing, ShownLines, Join;
    var taken, omitted := Take(node);
    ghost var n := |taken|;
    if node.dropTrailingHeadings {
      taken := DropHeadings(taken);
      assert node.lines[..n][..|taken|] == node.lines[..|taken|];
      MissingSame(node, |taken|, n);
    }
    out := ShowLines(node, taken, omitted);
    assert Renders(node, n, |taken|, out);
  }

  lemma MissingSame(node: Node, m: nat, n: nat)
    requires m <= n <= |node.lines| && forall k :: m <= k < n ==> !node.lines[k].item
    ensures Missing(node, m) == Missing(node, n)
  {
    HeadingsNotMissing(node.lines, m, n);
  }

  method DropHeadings(all: seq<Entry>) returns (taken: seq<Entry>)
    ensures taken <= all && (forall k :: |taken| <= k < |all| ==> !all[k].item)
    ensures |taken| > 0 ==> taken[|taken| - 1].item
  {
    taken := all;
    while |taken| > 0 && !taken[|taken| - 1].item
      invariant taken <= all && forall k :: |taken| <= k < |all| ==> !all[k].item
      decreases |taken|
    {
      taken := taken[..|taken| - 1];
    }
  }

  method ShowLines(node: Node, taken: seq<Entry>, omitted: nat) returns (out: seq<Segment>)
    requires taken <= node.lines && omitted == Missing(node, |taken|)
    ensures out == Join(ShownLines(node, |taken|))
  {
    hide Missing, Join;
    assert node.lines[..|taken|] == taken;
    var lines := Contents(taken);
    if node.omitted.Told? && omitted > 0 {
      lines := lines + [[Segment(node.omitted.before + TelegramDelivery.Digits(omitted) + node.omitted.after, false)]];
    } else {
      assert lines + [] == lines;
    }
    var shownHead := if node.headOnlyWithLines && |taken| == 0 then [] else node.head;
    assert shownHead + (Contents(taken) + Note(node, omitted)) == shownHead + Contents(taken) + Note(node, omitted);
    out := JoinLines(shownHead + lines + node.tail);
  }

  /** The lines up to the first that does not fit, and the entries left out with it. */
  method Take(node: Node) returns (taken: seq<Entry>, omitted: nat)
    ensures taken <= node.lines && Longest(node, |taken|) && omitted == Missing(node, |taken|)
  {
    hide Measure, LineText, Longest;
    var head := Sum(node.head, node.unit);
    var tail := Sum(node.tail, node.unit);
    var length := node.baseChars + (head + tail);
    taken, omitted := [], if node.omitted.Told? then node.omitted.hidden else 0;
    var i := 0;
    while i < |node.lines|
      invariant 0 <= i <= |node.lines| && taken == node.lines[..i] && length == Used(node, i)
      invariant i > 0 ==> Used(node, i) <= node.maxChars
      invariant omitted == if node.omitted.Told? then node.omitted.hidden else 0
    {
      var line := node.lines[i];
      var size := Measure(LineText(line.content), node.unit) + 1;
      if length + size > node.maxChars {
        var left := CountItems(node.lines, i);
        omitted := omitted + left;
        LongestIsFirst(node, i);
        return;
      }
      taken := taken + [line];
      length := length + size;
      i := i + 1;
    }
    LongestIsFirst(node, i);
  }

  method Sum(lines: seq<seq<Segment>>, unit: LengthUnit) returns (sum: nat)
    ensures sum == Total(lines, unit)
  {
    hide Measure, LineText;
    sum := 0;
    var i := 0;
    while i < |lines|
      invariant 0 <= i <= |lines| && sum == Total(lines[..i], unit)
    {
      assert lines[..i + 1][..i] == lines[..i];
      sum := sum + Measure(LineText(lines[i]), unit);
      i := i + 1;
    }
    assert lines[..i] == lines;
  }

  method CountItems(lines: seq<Entry>, from: nat) returns (count: nat)
    requires from <= |lines|
    ensures count == Items(lines, from)
  {
    count := 0;
    var i := |lines|;
    while i > from
      invariant from <= i <= |lines| && count == Items(lines, i)
    {
      i := i - 1;
      count := count + if lines[i].item then 1 else 0;
    }
  }

  method JoinLines(lines: seq<seq<Segment>>) returns (out: seq<Segment>)
    ensures out == Join(lines)
  {
    out := [];
    var i := 0;
    while i < |lines|
      invariant 0 <= i <= |lines| && out == Join(lines[..i])
    {
      assert lines[..i + 1][..i] == lines[..i];
      if i > 0 {
        out := out + [Segment([NEWLINE], false)];
      }
      out := out + lines[i];
      i := i + 1;
    }
    assert lines[..i] == lines;
  }

  // ---------- The budget ----------

  lemma NewlineMeasure(unit: LengthUnit)
    ensures LineText([Segment([NEWLINE], false)]) == [NEWLINE] && Measure([NEWLINE], unit) == 1
  {
    var one: seq<Segment> := [Segment([NEWLINE], false)];
    assert |one[..0]| == 0 && [] + one[0].text == [NEWLINE];
    var newline: Text := [NEWLINE];
    assert |newline[1..]| == 0;
    assert Points(newline) == 1 + Points(newline[1..]);
  }

  lemma {:induction false} JoinMeasure(lines: seq<seq<Segment>>, unit: LengthUnit)
    ensures Measure(LineText(Join(lines)), unit) <= Total(lines, unit) + if lines == [] then 0 else |lines| - 1
    decreases |lines|
  {
    hide Measure, LineText;
    if |lines| == 0 {
      NothingMeasure(unit);
    } else if |lines| > 1 {
      var n := |lines| - 1;
      var newline: seq<Segment> := [Segment([NEWLINE], false)];
      JoinMeasure(lines[..n], unit);
      NewlineMeasure(unit);
      LineTextAppend(Join(lines[..n]), newline);
      LineTextAppend(Join(lines[..n]) + newline, lines[n]);
      MeasureAppend(LineText(Join(lines[..n])), LineText(newline), unit);
      MeasureAppend(LineText(Join(lines[..n])) + LineText(newline), LineText(lines[n]), unit);
    }
  }

  lemma NothingMeasure(unit: LengthUnit)
    ensures Measure(LineText([]), unit) == 0
  {
  }

  lemma {:induction false} TotalAppend(a: seq<seq<Segment>>, b: seq<seq<Segment>>, unit: LengthUnit)
    ensures Total(a + b, unit) == Total(a, unit) + Total(b, unit)
    decreases |b|
  {
    hide Measure, LineText;
    if b == [] {
      assert a + b == a;
    } else {
      assert (a + b)[..|a + b| - 1] == a + b[..|b| - 1];
      TotalAppend(a, b[..|b| - 1], unit);
    }
  }

  lemma {:induction false} UsedIs(node: Node, n: nat)
    requires n <= |node.lines|
    ensures Used(node, n) == Used(node, 0) + Total(Contents(node.lines[..n]), node.unit) + n
    decreases n
  {
    hide Measure, LineText;
    if n > 0 {
      UsedIs(node, n - 1);
      assert Contents(node.lines[..n])[..n - 1] == Contents(node.lines[..n - 1]);
    } else {
      assert Contents(node.lines[..0]) == [];
    }
  }

  /** What the base must reserve: the separators between the fixed lines, and the note with its own. */
  function Reserve(node: Node, m: nat): int
    requires m <= |node.lines|
  {
    var note := Note(node, Missing(node, m));
    |node.head| + |node.tail| - 1 + Total(note, node.unit) + |note|
  }

  /** With a base that reserves the separators of the fixed lines and the note, the result meets the budget as soon as the fixed
      lines leave room for themselves. */
  lemma TakeLinesKeepsBudget(node: Node, n: nat, m: nat, out: seq<Segment>)
    requires Renders(node, n, m, out) && Used(node, 0) <= node.maxChars
    requires Reserve(node, m) <= node.baseChars && 0 <= node.baseChars
    ensures Measure(LineText(out), node.unit) <= node.maxChars
  {
    hide Measure, LineText, Join, Missing, Note;
    var shown, note, unit := ShownLines(node, m), Note(node, Missing(node, m)), node.unit;
    var head, lines := if node.headOnlyWithLines && m == 0 then [] else node.head, Contents(node.lines[..m]);
    JoinMeasure(shown, unit);
    TotalAppend(head + lines + note, node.tail, unit);
    TotalAppend(head + lines, note, unit);
    TotalAppend(head, lines, unit);
    UsedIs(node, m);
    if m < n {
      UsedGrows(node, m, n);
    }
  }
}
