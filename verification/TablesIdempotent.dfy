/** Rendering tables twice is rendering them once (packages/adapter-discord/src/markdown-tables.ts:74-130, 176-243). */
module TablesIdempotent {
  import opened Utf16
  import opened Tables

  // ---------- Line facts ----------

  lemma RowShape(line: Text)
    requires IsRow(line)
    ensures !IsBlank(line) && !IsListItem(line) && !IsIndented(line) && !IsOpener(line)
    ensures line[0] == PIPE
  {
    hide BlankStart, Run;
    assert line[0] == PIPE && line[0] in line;
    assert !WhitespaceCode(PIPE);
    assert BlankEnd(line, 0) == 0;
    assert DigitsEnd(line, 0) == 0;
  }

  /** A line written for a table: a bold title or a bullet. */
  predicate Written(line: Text) {
    (|line| >= 4 && line[0] == STAR && line[1] == STAR) || (|line| >= 2 && line[0] == DASH && line[1] == SPACE)
  }

  lemma WrittenShape(line: Text)
    requires Written(line)
    ensures !IsBlank(line) && !IsRow(line) && !IsOpener(line) && !IsIndented(line)
  {
    hide BlankStart, Run;
    assert line[0] in line;
  }

  lemma FenceShape()
    ensures Marked(FENCE_LINE) && IsOpener(FENCE_LINE) && IsCloser(FENCE_LINE) && Run(FENCE_LINE) == FENCE_LINE
    ensures !IsBlank(FENCE_LINE) && !IsRow(FENCE_LINE) && !IsListItem(FENCE_LINE) && !IsIndented(FENCE_LINE)
  {
    assert FENCE_LINE[0] in FENCE_LINE && !WhitespaceCode(BACKTICK);
    assert BlankEnd(FENCE_LINE, 0) == 0;
    assert SameEnd(FENCE_LINE, BACKTICK, 3) == 3;
    assert SameEnd(FENCE_LINE, BACKTICK, 2) == 3;
    assert SameEnd(FENCE_LINE, BACKTICK, 1) == 3;
    assert SameEnd(FENCE_LINE, BACKTICK, 0) == 3;
    assert FENCE_LINE[..3] == FENCE_LINE;
  }

  // ---------- Written lines ----------

  /** Long enough to stay written when its last character is taken off. */
  predicate LongWritten(line: Text) {
    Written(line) && (line[0] == STAR ==> |line| >= 5) && (line[0] == DASH ==> |line| >= 3)
  }

  lemma TitleWritten(labels: seq<Text>)
    ensures forall l <- TitleLine(labels) :: LongWritten(l)
  {
  }

  lemma RowWritten(labels: seq<Text>, cells: seq<Text>)
    ensures forall l <- RowLine(labels, cells) :: LongWritten(l)
  {
  }

  lemma {:induction false} RowsWritten(labels: seq<Text>, rows: seq<Text>)
    ensures forall l <- RowLines(labels, rows) :: LongWritten(l)
  {
    hide RowLine, Cells;
    if rows != [] {
      RowsWritten(labels, rows[..|rows| - 1]);
      RowWritten(labels, Cells(rows[|rows| - 1]));
    }
  }

  /** Every line of a rendered table is a title or a bullet, with or without a carriage return at its end. */
  lemma RenderedWritten(header: Text, rows: seq<Text>, eol: Text)
    requires eol == [] || eol == [CARRIAGE]
    ensures forall l <- Lines(WithEol(RenderTable(header, rows), eol)) :: Written(l)
  {
    hide TitleLine, RowLines, Labels, Cells, Written, LongWritten, Strip;
    var labels := Labels(Cells(header));
    TitleWritten(labels);
    RowsWritten(labels, rows);
    var rendered := RenderTable(header, rows);
    var raws := WithEol(rendered, eol);
    forall l | l in Lines(raws) ensures Written(l) {
      var k :| 0 <= k < |raws| && Lines(raws)[k] == l;
      assert rendered[k] in rendered && raws[k] == rendered[k] + eol;
      StripWritten(rendered[k], eol);
    }
  }

  lemma StripWritten(line: Text, eol: Text)
    requires LongWritten(line)
    requires eol == [] || eol == [CARRIAGE]
    ensures Written(Strip(line + eol))
  {
  }

  // ---------- The two scans ----------

  /** What a state of the scan keeps: a list is open only after a list item or its blank line. */
  predicate Sane(s: State) {
    (s.context.Start? || s.context.Plain? ==> !s.listOpen) && (s.context.List? ==> s.listOpen)
  }

  /** The second scan is at least as reluctant to start a table as the first. */
  predicate Follows(first: State, second: State) {
    && Sane(first) && Sane(second) && first.fence == second.fence
    && (first.context.List? ==> second.context.List?)
    && (first.listOpen ==> second.listOpen)
    && (first.tainted ==> second.tainted)
  }

  lemma KeptFollows(first: State, second: State, line: Text)
    requires Follows(first, second)
    ensures Follows(Kept(first, line), Kept(second, line))
  {
    hide IsListItem, IsBlank, IsIndented, FenceStep, Fenced;
  }

  lemma LinesTail(raws: seq<Text>, n: nat)
    requires n <= |raws|
    ensures Lines(raws[n..]) == Lines(raws)[n..] && Lines(raws[..n]) == Lines(raws)[..n]
  {
  }

  lemma LinesAppend(a: seq<Text>, b: seq<Text>)
    ensures Lines(a + b) == Lines(a) + Lines(b)
  {
  }

  lemma {:induction false} FenceAppend(f: Fence, a: seq<Text>, b: seq<Text>)
    ensures FenceAfter(f, a + b) == FenceAfter(FenceAfter(f, a), b)
    decreases |a|
  {
    hide FenceStep;
    if a == [] {
      assert a + b == b;
    } else {
      assert (a + b)[0] == a[0] && (a + b)[1..] == a[1..] + b;
      FenceAppend(FenceStep(f, a[0]), a[1..], b);
    }
  }

  lemma {:induction false} BrokenStays(lines: seq<Text>)
    ensures FenceAfter(Broken, lines) == Broken
  {
    if lines != [] {
      BrokenStays(lines[1..]);
    }
  }

  /** In balanced text, a line that opens no fence and lies outside every fence has no marker. */
  lemma Unmarked(lines: seq<Text>)
    requires lines != [] && Balanced(Closed, lines) && !IsOpener(lines[0])
    ensures !Marked(lines[0]) && Balanced(Closed, lines[1..])
  {
    hide Marked, IsOpener;
    if Marked(lines[0]) {
      BrokenStays(lines[1..]);
    }
  }

  /** Rows outside every fence leave the fences alone. */
  lemma {:induction false} RowsUnmarked(lines: seq<Text>, n: nat)
    requires n <= |lines| && Balanced(Closed, lines) && forall k :: 0 <= k < n ==> IsRow(lines[k])
    ensures forall k :: 0 <= k < n ==> !Marked(lines[k])
    ensures FenceAfter(Closed, lines[..n]) == Closed && Balanced(Closed, lines[n..])
    decreases n
  {
    hide Marked, IsOpener, IsRow;
    if n > 0 {
      RowsUnmarked(lines, n - 1);
      RowShape(lines[n - 1]);
      var rest := lines[n - 1..];
      assert rest[0] == lines[n - 1] && rest[1..] == lines[n..];
      Unmarked(rest);
      assert lines[..n] == lines[..n - 1] + [lines[n - 1]];
      FenceAppend(Closed, lines[..n - 1], [lines[n - 1]]);
      OneLineFence(lines[n - 1]);
    }
  }

  lemma OneLineFence(line: Text)
    requires !Marked(line)
    ensures FenceAfter(Closed, [line]) == Closed
  {
    hide Marked;
    assert [line][1..] == [];
  }

  /** A candidate lies outside every fence. */
  lemma CandidateClosed(s: State, lines: seq<Text>)
    requires Candidate(s, lines) && Balanced(s.fence, lines)
    ensures s.fence == Closed && !s.tainted
  {
    hide IsRow, IsDelimiter, MayStart, Marked;
    if s.fence.Broken? {
      BrokenStays(lines);
    }
  }

  lemma {:induction false} RowsUntainted(lines: seq<Text>)
    requires forall k :: 0 <= k < |lines| ==> IsRow(lines[k]) && !Marked(lines[k])
    ensures !TaintAfter(Closed, false, lines)
  {
    hide IsRow, Marked;
    if lines != [] {
      RowShape(lines[0]);
      RowsUntainted(lines[1..]);
    }
  }

  /** After a table candidate, the first scan is outside lists and fences: every sane state outside fences follows it. */
  lemma AfterRegionOpen(s: State, lines: seq<Text>, n: nat)
    requires Sane(s) && Candidate(s, lines) && Balanced(s.fence, lines) && n == Rows(lines)
    ensures var after := AfterRegion(s, lines[..n]);
            after.context.Plain? && !after.listOpen && after.fence == Closed && !after.tainted && Sane(after)
    ensures Balanced(Closed, lines[n..])
    ensures forall k :: 0 <= k < n ==> !Marked(lines[k])
  {
    CandidateClosed(s, lines);
    CandidateRows(s, lines);
    hide IsRow, Marked, Convertible, IsDelimiter, Balanced;
    RowsUnmarked(lines, n);
    RowsUntainted(lines[..n]);
  }

  // ---------- The output's first line ----------

  lemma OutKeeps(s: State, raws: seq<Text>)
    requires raws != [] && !Candidate(s, Lines(raws))
    ensures Out(s, raws) == [raws[0]] + Out(Kept(s, Strip(raws[0])), raws[1..])
  {
    hide Candidate, Kept;
  }

  lemma OutRegion(s: State, raws: seq<Text>)
    requires Candidate(s, Lines(raws))
    ensures var n := Rows(Lines(raws));
            && 2 <= n <= |raws|
            && Out(s, raws) == Region(raws[..n]) + Out(AfterRegion(s, Lines(raws)[..n]), raws[n..])
  {
    CandidateRows(s, Lines(raws));
    hide Candidate, Region, AfterRegion;
  }

  /** The kinds of a region's output: its own lines, a fenced copy, or written lines. */
  lemma RegionKinds(raws: seq<Text>)
    requires |raws| >= 2
    ensures Region(raws) == raws
            || Region(raws) == [FENCE_LINE + Eol(raws[0])] + raws + [FENCE_LINE + Eol(raws[|raws| - 1])]
            || forall l <- Lines(Region(raws)) :: Written(l)
  {
    hide Simple, RenderTable;
    RenderedWritten(Lines(raws)[0], Lines(raws)[2..], Eol(raws[0]));
  }

  lemma FenceStripped(eol: Text)
    requires eol == [] || eol == [CARRIAGE]
    ensures Strip(FENCE_LINE + eol) == FENCE_LINE
  {
    assert FENCE_LINE + [] == FENCE_LINE;
  }

  /** A table row at the front of the output is the front of the input. */
  lemma HeadRow(s: State, raws: seq<Text>)
    requires Out(s, raws) != [] && IsRow(Strip(Out(s, raws)[0]))
    ensures raws != [] && Out(s, raws)[0] == raws[0]
  {
    hide IsRow, Candidate, Region, AfterRegion, Kept, Written, Out, Strip, Rows;
    if raws == [] {
      OutNone(s);
    } else if !Candidate(s, Lines(raws)) {
      OutKeeps(s, raws);
    } else {
      var n := Rows(Lines(raws));
      OutRegion(s, raws);
      var region, after := Region(raws[..n]), AfterRegion(s, Lines(raws)[..n]);
      RegionKinds(raws[..n]);
      if region == [] {
        assert [] + Out(after, raws[n..]) == Out(after, raws[n..]);
        NotRowFirst(after, raws[n..]);
      } else if region != raws[..n] {
        WrittenHead(raws[..n]);
      }
    }
  }

  lemma OutNone(s: State)
    ensures Out(s, []) == []
  {
  }

  lemma WrittenHead(raws: seq<Text>)
    requires |raws| >= 2 && Region(raws) != [] && Region(raws) != raws
    ensures !IsRow(Strip(Region(raws)[0]))
  {
    hide IsRow, Written, Region;
    RegionKinds(raws);
    var region := Region(raws);
    if forall l <- Lines(region) :: Written(l) {
      assert Lines(region)[0] in Lines(region);
      WrittenShape(Lines(region)[0]);
    } else {
      EolKinds(raws[0]);
      FenceStripped(Eol(raws[0]));
      FenceShape();
    }
  }

  lemma EolKinds(raw: Text)
    ensures Eol(raw) == [] || Eol(raw) == [CARRIAGE]
  {
  }

  /** Output that starts at a line which is no table row starts with no table row. */
  lemma NotRowFirst(s: State, raws: seq<Text>)
    requires raws != [] ==> !IsRow(Strip(raws[0]))
    ensures Out(s, raws) != [] ==> !IsRow(Strip(Out(s, raws)[0]))
  {
    hide IsRow, Kept, Out, Strip;
    if raws == [] {
      OutNone(s);
    } else {
      assert !Candidate(s, Lines(raws)) by {
        assert Lines(raws)[0] == Strip(raws[0]);
      }
      OutKeeps(s, raws);
    }
  }

  // ---------- Taint ----------

  /** A paragraph that meets a fence further on is kept up to there, so it still does in the output. */
  lemma {:induction false} TaintKept(s: State, raws: seq<Text>)
    requires TaintedAhead(s.fence, Lines(raws))
    ensures TaintedAhead(s.fence, Lines(Out(s, raws)))
    decreases |raws|
  {
    hide Separates, Fenced, FenceStep, Kept, Out, IsRow, MayStart, IsDelimiter;
    var lines := Lines(raws);
    OutKeeps(s, raws);
    KeptFence(s, lines[0]);
    var out := Out(s, raws);
    var next := Kept(s, lines[0]);
    assert Lines(out)[0] == lines[0];
    LinesTail(out, 1);
    LinesTail(raws, 1);
    assert out[1..] == Out(next, raws[1..]);
    if !Fenced(s.fence, lines[0]) {
      TaintKept(next, raws[1..]);
    }
  }

  lemma KeptFence(s: State, line: Text)
    ensures Kept(s, line).fence == FenceStep(s.fence, line)
    ensures Kept(s, line).tainted == NextTaint(s.fence, s.tainted, line)
  {
    hide FenceStep, NextTaint, IsBlank, IsListItem, IsIndented;
  }

  // ---------- Passing over the output of the first scan ----------

  /** What a pass over some lines leaves: the lines unchanged, a sane state outside every fence. */
  ghost predicate Passed(s: State, lines: seq<Text>, tail: seq<Text>, after: State) {
    Out(s, lines + tail) == lines + Out(after, tail) && Sane(after) && after.fence == Closed
  }

  lemma PassOne(s: State, line: Text, rest: seq<Text>, tail: seq<Text>, after: State)
    requires !Candidate(s, Lines([line] + rest + tail))
    requires Out(Kept(s, Strip(line)), rest + tail) == rest + Out(after, tail)
    ensures Out(s, [line] + rest + tail) == [line] + rest + Out(after, tail)
  {
    hide Candidate, Kept, Out, Strip;
    var all := [line] + rest + tail;
    assert all[0] == line && all[1..] == rest + tail;
    OutKeeps(s, all);
  }

  lemma KeptSane(s: State, line: Text)
    requires Sane(s)
    ensures Sane(Kept(s, line))
  {
    hide IsListItem, IsBlank, IsIndented, FenceStep, NextTaint;
  }

  /** A place where no table may start. */
  predicate Barred(s: State, lines: seq<Text>) {
    s.context.List? || s.tainted || TaintedAhead(s.fence, lines)
  }

  lemma BarredRow(s: State, lines: seq<Text>)
    requires lines != [] && s.fence == Closed && IsRow(lines[0]) && !Marked(lines[0]) && Barred(s, lines)
    ensures !Candidate(s, lines) && Kept(s, lines[0]).fence == Closed && Barred(Kept(s, lines[0]), lines[1..])
  {
    hide Marked, IsRow, IsBlank, IsListItem, IsIndented, IsDelimiter;
    RowShape(lines[0]);
  }

  /** Rows at a place where no table may start are kept, and none may start between them. */
  lemma {:induction false} SkipRows(s: State, rows: seq<Text>, tail: seq<Text>) returns (after: State)
    requires Sane(s) && s.fence == Closed && Barred(s, Lines(rows + tail))
    requires forall k :: 0 <= k < |rows| ==> IsRow(Strip(rows[k])) && !Marked(Strip(rows[k]))
    ensures Passed(s, rows, tail, after)
    decreases |rows|
  {
    hide Barred, Candidate, IsRow, Marked, Kept, Out, Sane, Strip;
    if rows == [] {
      after := s;
      assert rows + tail == tail && rows + Out(after, tail) == Out(after, tail);
    } else {
      var all := rows + tail;
      BarredRow(s, Lines(all));
      KeptSane(s, Strip(rows[0]));
      LinesTail(all, 1);
      assert all[1..] == rows[1..] + tail && rows == [rows[0]] + rows[1..];
      after := SkipRows(Kept(s, Strip(rows[0])), rows[1..], tail);
      PassOne(s, rows[0], rows[1..], tail, after);
    }
  }

  lemma WrittenKept(s: State, lines: seq<Text>)
    requires lines != [] && s.fence == Closed && Written(lines[0]) && Balanced(Closed, lines)
    ensures !Candidate(s, lines) && Kept(s, lines[0]).fence == Closed && Balanced(Closed, lines[1..])
  {
    hide Marked, Written, IsBlank, IsListItem, IsIndented, IsRow, IsOpener, Convertible, IsDelimiter;
    WrittenShape(lines[0]);
    Unmarked(lines);
  }

  /** Written lines start no table. */
  lemma {:induction false} SkipWritten(s: State, lines: seq<Text>, tail: seq<Text>) returns (after: State)
    requires Sane(s) && s.fence == Closed && Balanced(Closed, Lines(lines + tail))
    requires forall k :: 0 <= k < |lines| ==> Written(Strip(lines[k]))
    ensures Passed(s, lines, tail, after)
    decreases |lines|
  {
    hide Balanced, Candidate, Written, Kept, Out, Sane, Strip;
    if lines == [] {
      after := s;
      assert lines + tail == tail && lines + Out(after, tail) == Out(after, tail);
    } else {
      var all := lines + tail;
      WrittenKept(s, Lines(all));
      KeptSane(s, Strip(lines[0]));
      LinesTail(all, 1);
      assert all[1..] == lines[1..] + tail && lines == [lines[0]] + lines[1..];
      after := SkipWritten(Kept(s, Strip(lines[0])), lines[1..], tail);
      PassOne(s, lines[0], lines[1..], tail, after);
    }
  }

  lemma FencedRow(s: State, lines: seq<Text>)
    requires lines != [] && s.fence.Open? && IsRow(lines[0]) && !Marked(lines[0])
    ensures !Candidate(s, lines) && Kept(s, lines[0]).fence == Open(s.fence.run, true)
  {
    hide Marked, IsRow, IsBlank, IsListItem, IsIndented, IsDelimiter;
    RowShape(lines[0]);
  }

  /** Rows in a fence are kept. */
  lemma {:induction false} SkipFencedRows(s: State, rows: seq<Text>, tail: seq<Text>) returns (after: State)
    requires Sane(s) && s.fence.Open?
    requires forall k :: 0 <= k < |rows| ==> IsRow(Strip(rows[k])) && !Marked(Strip(rows[k]))
    ensures Out(s, rows + tail) == rows + Out(after, tail) && Sane(after)
    ensures after.fence == Open(s.fence.run, s.fence.hasContent || rows != [])
    decreases |rows|
  {
    hide Candidate, IsRow, Marked, Kept, Out, Sane, Strip;
    if rows == [] {
      after := s;
      assert rows + tail == tail && rows + Out(after, tail) == Out(after, tail);
    } else {
      var all := rows + tail;
      FencedRow(s, Lines(all));
      KeptSane(s, Strip(rows[0]));
      assert all[1..] == rows[1..] + tail && rows == [rows[0]] + rows[1..];
      after := SkipFencedRows(Kept(s, Strip(rows[0])), rows[1..], tail);
      PassOne(s, rows[0], rows[1..], tail, after);
    }
  }

  lemma FenceLineKept(s: State, lines: seq<Text>)
    requires lines != [] && lines[0] == FENCE_LINE
    requires s.fence == Closed || s.fence == Open(FENCE_LINE, true)
    ensures !Candidate(s, lines)
    ensures Kept(s, FENCE_LINE).fence == if s.fence == Closed then Open(FENCE_LINE, false) else Closed
  {
    hide Marked, IsRow, IsBlank, IsListItem, IsIndented, IsDelimiter, IsOpener, IsCloser, Run, Convertible;
    FenceShape();
    KeptFence(s, FENCE_LINE);
  }

  /** A table kept in a fence starts no table. */
  lemma SkipFenced(s: State, open: Text, rows: seq<Text>, close: Text, tail: seq<Text>) returns (after: State)
    requires Sane(s) && s.fence == Closed && rows != [] && Strip(open) == FENCE_LINE && Strip(close) == FENCE_LINE
    requires forall k :: 0 <= k < |rows| ==> IsRow(Strip(rows[k])) && !Marked(Strip(rows[k]))
    ensures Passed(s, [open] + rows + [close], tail, after)
  {
    hide Candidate, IsRow, Marked, Kept, Out, Sane, Strip;
    FenceLineKept(s, Lines([open] + (rows + ([close] + tail))));
    KeptSane(s, FENCE_LINE);
    var inside := SkipFencedRows(Kept(s, FENCE_LINE), rows, [close] + tail);
    FenceLineKept(inside, Lines([close] + tail));
    KeptSane(inside, FENCE_LINE);
    after := Kept(inside, FENCE_LINE);
    assert ([close] + tail)[1..] == tail;
    OutKeeps(inside, [close] + tail);
    OutKeeps(s, [open] + (rows + ([close] + tail)));
    assert ([open] + (rows + ([close] + tail)))[1..] == rows + ([close] + tail);
    assert [open] + rows + [close] + tail == [open] + (rows + ([close] + tail));
    assert [open] + (rows + ([close] + Out(after, tail))) == [open] + rows + [close] + Out(after, tail);
  }

  // ---------- Main results ----------

  /** A candidate of the second scan at a kept line was one of the first scan. */
  lemma KeptStays(first: State, second: State, raws: seq<Text>)
    requires Follows(first, second) && raws != [] && !Candidate(first, Lines(raws))
    ensures !Candidate(second, Lines(Out(first, raws)))
  {
    hide IsRow, IsDelimiter, IsBlank, IsListItem, IsIndented, FenceStep, Region, Strip;
    var out := Out(first, raws);
    var lines, again := Lines(raws), Lines(out);
    OutKeeps(first, raws);
    assert again[0] == lines[0];
    if Candidate(second, again) {
      HeadRow(Kept(first, lines[0]), raws[1..]);
      assert out[1..] == Out(Kept(first, lines[0]), raws[1..]);
      assert again[1] == lines[1];
      if TaintedAhead(first.fence, lines) {
        TaintKept(first, raws);
      }
      assert false;
    }
  }

  /** The rows of a candidate in the output are exactly those of the region it was kept from. */
  lemma RowsAgain(rows: seq<Text>, s: State, rest: seq<Text>)
    requires forall k :: 0 <= k < |rows| ==> IsRow(Strip(rows[k]))
    requires rest != [] ==> !IsRow(Strip(rest[0]))
    ensures Rows(Lines(rows + Out(s, rest))) == |rows|
  {
    hide IsRow, Out, Strip;
    NotRowFirst(s, rest);
    var lines := Lines(rows + Out(s, rest));
    assert forall k :: 0 <= k < |rows| ==> lines[k] == Strip(rows[k]);
    assert |rows| < |lines| ==> lines[|rows|] == Strip(Out(s, rest)[0]);
    assert !(Rows(lines) < |rows|) && !(Rows(lines) > |rows|);
  }

  /** A malformed table is kept by the second scan too. */
  lemma MalformedAgain(first: State, second: State, rows: seq<Text>, rest: seq<Text>) returns (after: State)
    requires Sane(second) && second.fence == Closed && |rows| >= 2 && Region(rows) == rows
    requires forall k :: 0 <= k < |rows| ==> IsRow(Strip(rows[k])) && !Marked(Strip(rows[k]))
    requires IsDelimiter(Strip(rows[1])) && (rest != [] ==> !IsRow(Strip(rest[0])))
    requires Balanced(Closed, Lines(rows + Out(first, rest)))
    ensures Passed(second, rows, Out(first, rest), after)
  {
    hide IsRow, Marked, Out, Strip, IsDelimiter, Region, Rows, AfterRegion, Sane, Balanced, TaintedAhead;
    var tail := Out(first, rest);
    var all := rows + tail;
    if Candidate(second, Lines(all)) {
      RowsAgain(rows, first, rest);
      OutRegion(second, all);
      assert all[..|rows|] == rows && all[|rows|..] == tail;
      AfterRegionOpen(second, Lines(all), |rows|);
      after := AfterRegion(second, Lines(all)[..|rows|]);
    } else {
      NotCandidateBarred(second, Lines(all));
      after := SkipRows(second, rows, tail);
    }
  }

  lemma NotCandidateBarred(s: State, lines: seq<Text>)
    requires |lines| >= 2 && s.fence == Closed && !Candidate(s, lines)
    requires IsRow(lines[0]) && IsRow(lines[1]) && IsDelimiter(lines[1])
    ensures Barred(s, lines)
  {
    RowShape(lines[0]);
    hide IsRow, IsDelimiter;
  }

  /** The second scan passes over whatever the first one wrote for a table candidate. */
  lemma RegionAgain(first: State, second: State, rows: seq<Text>, rest: seq<Text>) returns (after: State)
    requires Sane(second) && second.fence == Closed && |rows| >= 2
    requires forall k :: 0 <= k < |rows| ==> IsRow(Strip(rows[k])) && !Marked(Strip(rows[k]))
    requires IsDelimiter(Strip(rows[1])) && (rest != [] ==> !IsRow(Strip(rest[0])))
    requires Balanced(Closed, Lines(Region(rows) + Out(first, rest)))
    ensures Passed(second, Region(rows), Out(first, rest), after)
  {
    hide IsRow, Marked, Out, Strip, IsDelimiter, Region, Sane, Written, Passed, Balanced, Eol;
    RegionKinds(rows);
    if Region(rows) == rows {
      after := MalformedAgain(first, second, rows, rest);
    } else if forall l <- Lines(Region(rows)) :: Written(l) {
      forall k | 0 <= k < |Region(rows)| ensures Written(Strip(Region(rows)[k])) {
        assert Lines(Region(rows))[k] in Lines(Region(rows));
      }
      after := SkipWritten(second, Region(rows), Out(first, rest));
    } else {
      EolKinds(rows[0]);
      EolKinds(rows[|rows| - 1]);
      FenceStripped(Eol(rows[0]));
      FenceStripped(Eol(rows[|rows| - 1]));
      after := SkipFenced(second, FENCE_LINE + Eol(rows[0]), rows, FENCE_LINE + Eol(rows[|rows| - 1]), Out(first, rest));
    }
  }

  /** Passing lines leaves balanced text balanced. */
  lemma {:induction false} ScanAgain(first: State, second: State, raws: seq<Text>)
    requires Follows(first, second) && Balanced(first.fence, Lines(raws)) && Balanced(second.fence, Lines(Out(first, raws)))
    ensures Out(second, Out(first, raws)) == Out(first, raws)
    decreases |raws|
  {
    hide Candidate, Region, AfterRegion, Kept, Out, Strip, Rows, FenceStep, IsRow, IsDelimiter, Marked, FenceAfter;
    var lines := Lines(raws);
    var out := Out(first, raws);
    if raws == [] {
      OutNone(first);
      OutNone(second);
    } else if !Candidate(first, lines) {
      OutKeeps(first, raws);
      KeptStays(first, second, raws);
      OutKeeps(second, out);
      KeptFollows(first, second, lines[0]);
      KeptFence(first, lines[0]);
      KeptFence(second, lines[0]);
      LinesTail(raws, 1);
      LinesTail(out, 1);
      assert out[1..] == Out(Kept(first, lines[0]), raws[1..]);
      FenceTail(first.fence, lines);
      FenceTail(second.fence, Lines(out));
      ScanAgain(Kept(first, lines[0]), Kept(second, lines[0]), raws[1..]);
    } else {
      RegionScanAgain(first, second, raws);
    }
  }

  lemma {:induction false} WrittenBalanced(lines: seq<Text>, tail: seq<Text>)
    requires Balanced(Closed, Lines(lines + tail)) && forall k :: 0 <= k < |lines| ==> Written(Strip(lines[k]))
    ensures Balanced(Closed, Lines(tail))
    decreases |lines|
  {
    hide Balanced, Written, Strip;
    if lines == [] {
      assert lines + tail == tail;
    } else {
      var all := lines + tail;
      LinesTail(all, 1);
      assert all[1..] == lines[1..] + tail;
      WrittenShape(Strip(lines[0]));
      Unmarked(Lines(all));
      WrittenBalanced(lines[1..], tail);
    }
  }

  lemma {:induction false} FencedRowsBalanced(f: Fence, rows: seq<Text>, tail: seq<Text>)
    requires f.Open? && Balanced(f, Lines(rows + tail))
    requires forall k :: 0 <= k < |rows| ==> IsRow(Strip(rows[k])) && !Marked(Strip(rows[k]))
    ensures Balanced(Open(f.run, f.hasContent || rows != []), Lines(tail))
    decreases |rows|
  {
    hide Balanced, IsRow, Marked, Strip;
    if rows == [] {
      assert rows + tail == tail;
    } else {
      var all := rows + tail;
      LinesTail(all, 1);
      assert all[1..] == rows[1..] + tail;
      RowShape(Strip(rows[0]));
      FenceTail(f, Lines(all));
      FencedRowsBalanced(FenceStep(f, Strip(rows[0])), rows[1..], tail);
    }
  }

  lemma FencedBalanced(open: Text, rows: seq<Text>, close: Text, tail: seq<Text>)
    requires rows != [] && Strip(open) == FENCE_LINE && Strip(close) == FENCE_LINE
    requires Balanced(Closed, Lines([open] + rows + [close] + tail))
    requires forall k :: 0 <= k < |rows| ==> IsRow(Strip(rows[k])) && !Marked(Strip(rows[k]))
    ensures Balanced(Closed, Lines(tail))
  {
    hide Balanced, IsRow, Marked, Strip, IsOpener, IsCloser, Run;
    FenceShape();
    var inside := rows + ([close] + tail);
    assert [open] + rows + [close] + tail == [open] + inside;
    LinesTail([open] + inside, 1);
    assert ([open] + inside)[1..] == inside;
    FenceTail(Closed, Lines([open] + inside));
    FencedRowsBalanced(Open(FENCE_LINE, false), rows, [close] + tail);
    LinesTail([close] + tail, 1);
    assert ([close] + tail)[1..] == tail;
    FenceTail(Open(FENCE_LINE, true), Lines([close] + tail));
  }

  /** After what the first scan wrote for a candidate, the rest of the output is balanced. */
  lemma RegionBalanced(rows: seq<Text>, tail: seq<Text>)
    requires |rows| >= 2 && Balanced(Closed, Lines(Region(rows) + tail))
    requires forall k :: 0 <= k < |rows| ==> IsRow(Strip(rows[k])) && !Marked(Strip(rows[k]))
    ensures Balanced(Closed, Lines(tail))
  {
    hide IsRow, Marked, Strip, Region, Written, Balanced, Eol;
    RegionKinds(rows);
    if Region(rows) == rows {
      LinesTail(rows + tail, |rows|);
      assert (rows + tail)[|rows|..] == tail;
      RowsUnmarked(Lines(rows + tail), |rows|);
    } else if forall l <- Lines(Region(rows)) :: Written(l) {
      forall k | 0 <= k < |Region(rows)| ensures Written(Strip(Region(rows)[k])) {
        assert Lines(Region(rows))[k] in Lines(Region(rows));
      }
      WrittenBalanced(Region(rows), tail);
    } else {
      EolKinds(rows[0]);
      EolKinds(rows[|rows| - 1]);
      FenceStripped(Eol(rows[0]));
      FenceStripped(Eol(rows[|rows| - 1]));
      FencedBalanced(FENCE_LINE + Eol(rows[0]), rows, FENCE_LINE + Eol(rows[|rows| - 1]), tail);
    }
  }

  lemma FenceTail(f: Fence, lines: seq<Text>)
    requires lines != [] && Balanced(f, lines)
    ensures Balanced(FenceStep(f, lines[0]), lines[1..])
  {
    hide FenceStep;
  }

  lemma RegionScanAgain(first: State, second: State, raws: seq<Text>)
    requires Follows(first, second) && Balanced(first.fence, Lines(raws)) && Balanced(second.fence, Lines(Out(first, raws)))
    requires Candidate(first, Lines(raws))
    ensures Out(second, Out(first, raws)) == Out(first, raws)
    decreases |raws|, 0
  {
    hide Region, AfterRegion, Kept, Out, Strip, Rows, FenceStep, IsRow, IsDelimiter, Marked, FenceAfter, Convertible, MayStart;
    var lines := Lines(raws);
    var n := Rows(lines);
    OutRegion(first, raws);
    CandidateClosed(first, lines);
    AfterRegionOpen(first, lines, n);
    LinesTail(raws, n);
    var rows, rest, after := raws[..n], raws[n..], AfterRegion(first, lines[..n]);
    assert rest != [] ==> Strip(rest[0]) == lines[n];
    var again := RegionAgain(after, second, rows, rest);
    RegionBalanced(rows, Out(after, rest));
    ScanAgain(after, again, rest);
  }

  // ---------- The text ----------

  lemma PartsOneLine(parts: seq<Text>, separator: Text)
    requires OneLine(separator) && forall p <- parts :: OneLine(p)
    ensures OneLine(JoinWith(parts, separator))
  {
    hide JoinWith;
  }

  lemma LabelsOneLine(header: Text)
    requires OneLine(header)
    ensures forall l <- Labels(Cells(header)) :: OneLine(l)
    ensures forall c <- Cells(header) :: OneLine(c)
  {
    hide Cells, HeaderLabel;
    var cells := Cells(header);
    forall l | l in Labels(cells) ensures OneLine(l) {
      var k :| 0 <= k < |cells| && Labels(cells)[k] == l;
      assert cells[k] in cells;
    }
  }

  lemma TitleOneLine(labels: seq<Text>)
    requires forall l <- labels :: OneLine(l)
    ensures forall l <- TitleLine(labels) :: OneLine(l)
  {
    hide JoinWith;
    PartsOneLine(NonEmpty(labels), TITLE_SEPARATOR);
  }

  lemma {:induction false} RowPartsOneLine(labels: seq<Text>, cells: seq<Text>)
    requires (forall l <- labels :: OneLine(l)) && forall c <- cells :: OneLine(c)
    ensures forall p <- RowParts(labels, cells) :: OneLine(p)
    decreases |cells|
  {
    if cells != [] {
      var n := |cells| - 1;
      assert cells[n] in cells;
      assert n < |labels| ==> labels[n] in labels;
      RowPartsOneLine(labels, cells[..n]);
    }
  }

  lemma {:induction false} RowLinesOneLine(labels: seq<Text>, rows: seq<Text>)
    requires (forall l <- labels :: OneLine(l)) && forall r <- rows :: OneLine(r)
    ensures forall l <- RowLines(labels, rows) :: OneLine(l)
    decreases |rows|
  {
    hide JoinWith, RowParts, Cells;
    if rows != [] {
      var n := |rows| - 1;
      assert rows[n] in rows;
      RowLinesOneLine(labels, rows[..n]);
      LabelsOneLine(rows[n]);
      RowPartsOneLine(labels, Cells(rows[n]));
      PartsOneLine(RowParts(labels, Cells(rows[n])), PART_SEPARATOR);
    }
  }

  lemma RenderedOneLine(header: Text, rows: seq<Text>, eol: Text)
    requires OneLine(header) && OneLine(eol) && forall r <- rows :: OneLine(r)
    ensures forall l <- WithEol(RenderTable(header, rows), eol) :: OneLine(l)
  {
    hide TitleLine, RowLines, Labels, Cells;
    var labels := Labels(Cells(header));
    LabelsOneLine(header);
    TitleOneLine(labels);
    RowLinesOneLine(labels, rows);
    var rendered := RenderTable(header, rows);
    forall l | l in WithEol(rendered, eol) ensures OneLine(l) {
      var k :| 0 <= k < |rendered| && l == rendered[k] + eol;
      assert rendered[k] in rendered;
    }
  }

  lemma FenceLineOneLine(raw: Text)
    ensures OneLine(FENCE_LINE + Eol(raw)) && OneLine(Eol(raw))
  {
  }

  lemma StripOneLine(raws: seq<Text>)
    requires forall r <- raws :: OneLine(r)
    ensures forall l <- Lines(raws) :: OneLine(l)
  {
    forall l | l in Lines(raws) ensures OneLine(l) {
      var k :| 0 <= k < |raws| && l == Strip(raws[k]);
      assert raws[k] in raws;
    }
  }

  lemma RegionOneLine(raws: seq<Text>)
    requires |raws| >= 2 && forall r <- raws :: OneLine(r)
    ensures forall l <- Region(raws) :: OneLine(l)
  {
    hide Simple, RenderTable, WithEol, OneLine, Eol, Strip, Lines;
    var lines := Lines(raws);
    StripOneLine(raws);
    FenceLineOneLine(raws[0]);
    FenceLineOneLine(raws[|raws| - 1]);
    FencedOneLine(FENCE_LINE + Eol(raws[0]), raws, FENCE_LINE + Eol(raws[|raws| - 1]));
    TailOneLine(lines);
    RenderedOneLine(lines[0], lines[2..], Eol(raws[0]));
  }

  lemma FencedOneLine(first: Text, raws: seq<Text>, last: Text)
    requires OneLine(first) && OneLine(last) && forall r <- raws :: OneLine(r)
    ensures forall l <- [first] + raws + [last] :: OneLine(l)
  {
    hide OneLine;
  }

  lemma TailOneLine(lines: seq<Text>)
    requires |lines| >= 2 && forall l <- lines :: OneLine(l)
    ensures OneLine(lines[0]) && forall l <- lines[2..] :: OneLine(l)
  {
    hide OneLine;
    assert lines[0] in lines;
  }

  lemma {:induction false} OutOneLine(s: State, raws: seq<Text>)
    requires forall r <- raws :: OneLine(r)
    ensures forall l <- Out(s, raws) :: OneLine(l)
    decreases |raws|
  {
    hide Candidate, Region, AfterRegion, Kept, OneLine, Rows, Strip;
    if raws != [] {
      if Candidate(s, Lines(raws)) {
        OutRegion(s, raws);
        var n := Rows(Lines(raws));
        RegionOneLine(raws[..n]);
        OutOneLine(AfterRegion(s, Lines(raws)[..n]), raws[n..]);
      } else {
        OutKeeps(s, raws);
        OutOneLine(Kept(s, Strip(raws[0])), raws[1..]);
      }
    }
  }

  /** Rendering is idempotent, for every text. */
  lemma RenderIsIdempotent(text: Text)
    ensures Render(Render(text)) == Render(text)
  {
    hide Out, HasQuote, HasOtherBreak, HasMarker, Split, JoinText, OneLine;
    if PIPE in text && Eligible(text) {
      var raws := Split(text);
      var out := Out(INITIAL, raws);
      SplitPieces(text);
      OutOneLine(INITIAL, raws);
      if out == [] {
        JoinNothing();
      } else {
        SplitJoin(out);
        if Eligible(JoinText(out)) {
          ScanAgain(INITIAL, INITIAL, raws);
        }
      }
    }
  }

  lemma JoinNothing()
    ensures JoinText([]) == []
  {
  }
}
