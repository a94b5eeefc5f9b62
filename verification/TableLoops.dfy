/** What table rendering changes, line by line, and the source's loops
    (packages/adapter-discord/src/markdown-tables.ts:68-130, 176-243). */
module TableLoops {
  import opened Utf16
  import opened Tables
  import opened TablesIdempotent

  // ---------- Paragraphs ----------

  function FenceBefore(lines: seq<Text>, k: nat): Fence
    requires k <= |lines|
  {
    FenceAfter(Closed, lines[..k])
  }

  predicate FencedAt(lines: seq<Text>, k: nat)
    requires k < |lines|
  {
    Fenced(FenceBefore(lines, k), lines[k])
  }

  predicate SeparatesAt(lines: seq<Text>, k: nat)
    requires k < |lines|
  {
    Separates(FenceBefore(lines, k), lines[k])
  }

  /** A separating blank line from `a` to before `b`. */
  predicate Apart(lines: seq<Text>, a: nat, b: nat)
    requires b <= |lines|
  {
    exists i: nat :: a <= i < b && SeparatesAt(lines, i)
  }

  /** The line is no separator, and every fenced line is in another paragraph. */
  predicate FenceFree(lines: seq<Text>, k: nat)
    requires k < |lines|
  {
    && !SeparatesAt(lines, k)
    && forall f: nat :: f < |lines| && FencedAt(lines, f) ==> if f < k then Apart(lines, f, k) else Apart(lines, k, f)
  }

  lemma FenceNext(lines: seq<Text>, k: nat)
    requires k < |lines|
    ensures FenceBefore(lines, k + 1) == FenceStep(FenceBefore(lines, k), lines[k])
  {
    hide FenceStep;
    assert lines[..k + 1] == lines[..k] + [lines[k]];
    FenceAppend(Closed, lines[..k], [lines[k]]);
    var f := FenceBefore(lines, k);
    var one := [lines[k]];
    assert |one[1..]| == 0;
    assert FenceAfter(f, one) == FenceAfter(FenceStep(f, lines[k]), []);
  }

  lemma {:induction false} TaintAppend(f: Fence, tainted: bool, a: seq<Text>, line: Text)
    ensures TaintAfter(f, tainted, a + [line]) == NextTaint(FenceAfter(f, a), TaintAfter(f, tainted, a), line)
    decreases |a|
  {
    hide FenceStep, NextTaint;
    if a == [] {
      assert a + [line] == [line];
      var one := [line];
      assert one[1..] == [];
      assert TaintAfter(f, tainted, one) == TaintAfter(FenceStep(f, line), NextTaint(f, tainted, line), []);
    } else {
      assert (a + [line])[0] == a[0] && (a + [line])[1..] == a[1..] + [line];
      TaintAppend(FenceStep(f, a[0]), NextTaint(f, tainted, a[0]), a[1..], line);
    }
  }

  function TaintBefore(lines: seq<Text>, k: nat): bool
    requires k <= |lines|
  {
    TaintAfter(Closed, false, lines[..k])
  }

  lemma TaintNext(lines: seq<Text>, k: nat)
    requires k < |lines|
    ensures TaintBefore(lines, k + 1) == NextTaint(FenceBefore(lines, k), TaintBefore(lines, k), lines[k])
  {
    assert lines[..k + 1] == lines[..k] + [lines[k]];
    TaintAppend(Closed, false, lines[..k], lines[k]);
  }

  predicate FenceReaches(lines: seq<Text>, f: nat, k: nat)
    requires k <= |lines|
  {
    f < k && FencedAt(lines, f) && !Apart(lines, f, k)
  }

  predicate FenceAheadOf(lines: seq<Text>, k: nat, f: nat)
    requires k <= |lines|
  {
    k <= f < |lines| && FencedAt(lines, f) && !Apart(lines, k, f)
  }

  /** The taint flag says that a fenced line came before in the same paragraph. */
  lemma {:induction false} TaintMeans(lines: seq<Text>, k: nat)
    requires k <= |lines|
    ensures TaintBefore(lines, k) <==> exists f: nat :: FenceReaches(lines, f, k)
    decreases k
  {
    hide FencedAt, SeparatesAt;
    if k > 0 {
      TaintMeans(lines, k - 1);
      TaintNext(lines, k - 1);
      Flags(lines, k - 1);
      var p: nat := k - 1;
      if f: nat :| FenceReaches(lines, f, p) {
        assert FenceReaches(lines, f, k) <==> !SeparatesAt(lines, p);
      }
      if FencedAt(lines, k - 1) {
        assert FenceReaches(lines, k - 1, k);
      }
      if f: nat :| FenceReaches(lines, f, k) {
        assert !SeparatesAt(lines, k - 1);
        assert f < k - 1 ==> FenceReaches(lines, f, k - 1);
      }
    }
  }

  lemma Flags(lines: seq<Text>, k: nat)
    requires k < |lines|
    ensures NextTaint(FenceBefore(lines, k), TaintBefore(lines, k), lines[k])
            == (!SeparatesAt(lines, k) && (FencedAt(lines, k) || TaintBefore(lines, k)))
    ensures FencedAt(lines, k) ==> !SeparatesAt(lines, k)
  {
  }

  /** Whether a fenced line follows in the same paragraph. */
  lemma {:induction false} AheadMeans(lines: seq<Text>, k: nat)
    requires k <= |lines|
    ensures TaintedAhead(FenceBefore(lines, k), lines[k..]) <==> exists f: nat :: FenceAheadOf(lines, k, f)
    decreases |lines| - k
  {
    hide FencedAt, SeparatesAt, FenceStep, Fenced, Separates;
    if k < |lines| {
      AheadMeans(lines, k + 1);
      FenceNext(lines, k);
      Flags(lines, k);
      AheadStep(lines, k);
      var p: nat := k + 1;
      if f: nat :| FenceAheadOf(lines, p, f) {
        assert FenceAheadOf(lines, k, f) <==> !SeparatesAt(lines, k);
      }
      if FencedAt(lines, k) {
        assert FenceAheadOf(lines, k, k);
      }
      if f: nat :| FenceAheadOf(lines, k, f) {
        assert f > k ==> !SeparatesAt(lines, k) && FenceAheadOf(lines, k + 1, f);
      }
    }
  }

  lemma AheadStep(lines: seq<Text>, k: nat)
    requires k < |lines|
    ensures TaintedAhead(FenceBefore(lines, k), lines[k..])
            == (!SeparatesAt(lines, k) && (FencedAt(lines, k) || TaintedAhead(FenceBefore(lines, k + 1), lines[k + 1..])))
  {
    FenceNext(lines, k);
    hide FenceStep, Fenced, Separates, FenceBefore;
    assert lines[k..][0] == lines[k] && lines[k..][1..] == lines[k + 1..];
  }

  /** The scan may convert a line exactly when its paragraph holds no fenced line. */
  lemma ConvertibleMeans(lines: seq<Text>, s: State, k: nat)
    requires k < |lines| && s.fence == FenceBefore(lines, k) && s.tainted == TaintBefore(lines, k)
    ensures Convertible(s, lines[k..]) <==> FenceFree(lines, k)
  {
    hide FencedAt, SeparatesAt, FenceBefore, TaintBefore, Separates, TaintedAhead, Apart;
    TaintMeans(lines, k);
    AheadMeans(lines, k);
    SeparatesHere(lines, s, k);
    if !SeparatesAt(lines, k) {
      forall f: nat | f < |lines| && FencedAt(lines, f)
        ensures (if f < k then Apart(lines, f, k) else Apart(lines, k, f)) <==> !(FenceReaches(lines, f, k) || FenceAheadOf(lines, k, f))
      {
      }
    }
  }

  lemma SeparatesHere(lines: seq<Text>, s: State, k: nat)
    requires k < |lines| && s.fence == FenceBefore(lines, k)
    ensures Separates(s.fence, lines[k..][0]) == SeparatesAt(lines, k)
  {
  }

  /** The lines of a run without a separator share their paragraph. */
  lemma SameParagraph(lines: seq<Text>, k: nat, j: nat)
    requires k <= j < |lines| && FenceFree(lines, k) && forall i :: k <= i <= j ==> !SeparatesAt(lines, i)
    ensures FenceFree(lines, j) && !FencedAt(lines, j)
  {
    hide FencedAt, SeparatesAt;
    assert !FencedAt(lines, j);
    forall f: nat | f < |lines| && FencedAt(lines, f) ensures if f < j then Apart(lines, f, j) else Apart(lines, j, f) {
      if f < k {
        var i: nat :| f <= i < k && SeparatesAt(lines, i);
        assert f <= i < j;
      } else {
        var i: nat :| k <= i < f && SeparatesAt(lines, i);
        assert i > j;
      }
    }
  }

  // ---------- What changes ----------

  /** A stretch of the input and what is written for it. */
  datatype Block = Block(before: seq<Text>, after: seq<Text>)

  function Blocks(s: State, raws: seq<Text>): (bs: seq<Block>)
    decreases |raws|
  {
    var lines := Lines(raws);
    if raws == [] then []
    else if Candidate(s, lines) then
      CandidateRows(s, lines);
      var n := Rows(lines);
      [Block(raws[..n], Region(raws[..n]))] + Blocks(AfterRegion(s, lines[..n]), raws[n..])
    else [Block([raws[0]], [raws[0]])] + Blocks(Kept(s, lines[0]), raws[1..])
  }

  function Befores(bs: seq<Block>): seq<Text> {
    if bs == [] then [] else bs[0].before + Befores(bs[1..])
  }

  function Afters(bs: seq<Block>): seq<Text> {
    if bs == [] then [] else bs[0].after + Afters(bs[1..])
  }

  /** An unindented line after a blank one, and no list item: it ends every list. */
  predicate EndsLists(lines: seq<Text>, i: nat)
    requires i < |lines|
  {
    i > 0 && IsBlank(lines[i - 1]) && !IsBlank(lines[i]) && !IsListItem(lines[i]) && !IsIndented(lines[i])
  }

  /** The list of the item at `j` is open before line `k`. */
  predicate OpenSince(lines: seq<Text>, j: nat, k: nat)
    requires k <= |lines|
  {
    j < k && IsListItem(lines[j]) && forall i :: j < i < k ==> !EndsLists(lines, i)
  }

  predicate ListOpen(lines: seq<Text>, k: nat)
    requires k <= |lines|
  {
    exists j :: 0 <= j < k && OpenSince(lines, j, k)
  }

  /** Line `k` follows, without a blank line, a line of a list that is open. */
  predicate InList(lines: seq<Text>, k: nat)
    requires k <= |lines|
  {
    k > 0 && !IsBlank(lines[k - 1]) && ListOpen(lines, k)
  }

  /** A header row and a delimiter row, in a paragraph without a fenced line and not in a list. */
  predicate StartsTable(lines: seq<Text>, k: nat) {
    && k + 1 < |lines| && IsRow(lines[k]) && IsRow(lines[k + 1]) && IsDelimiter(lines[k + 1])
    && FenceFree(lines, k) && !InList(lines, k)
  }

  /** All rows from `k` on. */
  predicate TableRun(lines: seq<Text>, k: nat, n: nat) {
    && 2 <= n && k + n <= |lines| && (forall i :: k <= i < k + n ==> IsRow(lines[i]))
    && (k + n < |lines| ==> !IsRow(lines[k + n]))
  }

  /** A table, with all its rows, becomes its region; any other line is kept as it is. */
  predicate BlockOk(lines: seq<Text>, at: nat, b: Block) {
    if StartsTable(lines, at) then TableRun(lines, at, |b.before|) && b.after == Region(b.before)
    else |b.before| == 1 && b.after == b.before
  }

  predicate BlocksOk(lines: seq<Text>, at: nat, bs: seq<Block>)
    decreases |bs|
  {
    bs == [] || (BlockOk(lines, at, bs[0]) && BlocksOk(lines, at + |bs[0].before|, bs[1..]))
  }

  /** What the scan remembers of lists. */
  predicate ListAt(lines: seq<Text>, context: Context, listOpen: bool, k: nat)
    requires k <= |lines|
  {
    && context.List? == InList(lines, k) && context.Blank? == (k > 0 && IsBlank(lines[k - 1]))
    && listOpen == ListOpen(lines, k)
  }

  ghost predicate At(lines: seq<Text>, s: State, k: nat)
    requires k <= |lines|
  {
    s.fence == FenceBefore(lines, k) && s.tainted == TaintBefore(lines, k) && ListAt(lines, s.context, s.listOpen, k)
  }

  /** A list is open after a line that is its item, or that does not end it. */
  lemma OpenNext(lines: seq<Text>, k: nat)
    requires k < |lines|
    ensures ListOpen(lines, k) ==> k > 0
    ensures ListOpen(lines, k + 1) <==> IsListItem(lines[k]) || (ListOpen(lines, k) && !EndsLists(lines, k))
  {
    hide IsListItem, EndsLists;
    var next := k + 1;
    if IsListItem(lines[k]) {
      assert OpenSince(lines, k, next);
    }
    if j: nat :| OpenSince(lines, j, k) {
      assert !EndsLists(lines, k) ==> OpenSince(lines, j, next);
    }
    if j: nat :| OpenSince(lines, j, next) {
      assert j < k ==> OpenSince(lines, j, k) && !EndsLists(lines, k);
    }
  }

  lemma ItemNotBlank(line: Text)
    requires IsListItem(line)
    ensures !IsBlank(line)
  {
    hide MarkerEnd, WhitespaceCode;
    var i := BlankEnd(line, 0);
    ItemMark(line, i);
    assert line[i] in line;
  }

  lemma ItemMark(t: Text, i: nat)
    requires i <= |t| && MarkerEnd(t, i) > i
    ensures i < |t| && !WhitespaceCode(t[i])
  {
  }

  lemma ListKept(lines: seq<Text>, s: State, k: nat)
    requires k < |lines| && ListAt(lines, s.context, s.listOpen, k)
    ensures ListAt(lines, Kept(s, lines[k]).context, Kept(s, lines[k]).listOpen, k + 1)
  {
    hide IsListItem, IsBlank, IsIndented, ListOpen, FenceStep, NextTaint;
    OpenNext(lines, k);
    if IsListItem(lines[k]) {
      ItemNotBlank(lines[k]);
    }
  }

  lemma {:induction false} RowsList(lines: seq<Text>, s: State, k: nat, n: nat)
    requires 1 <= n && k + n <= |lines| && ListAt(lines, s.context, s.listOpen, k) && !s.context.List?
    requires forall i :: k <= i < k + n ==> IsRow(lines[i])
    ensures ListAt(lines, Plain, s.listOpen && !s.context.Blank?, k + n)
    decreases n
  {
    hide IsRow, IsListItem, IsBlank, IsIndented, ListAt, FenceStep, NextTaint;
    ListKept(lines, s, k);
    RowShape(lines[k]);
    if n > 1 {
      RowsList(lines, Kept(s, lines[k]), k + 1, n - 1);
    }
  }

  lemma AtKept(lines: seq<Text>, s: State, k: nat)
    requires k < |lines| && At(lines, s, k)
    ensures At(lines, Kept(s, lines[k]), k + 1)
  {
    hide FenceStep, NextTaint, FenceAfter, TaintAfter, ListAt;
    KeptFence(s, lines[k]);
    ListKept(lines, s, k);
    FenceNext(lines, k);
    TaintNext(lines, k);
  }

  lemma {:induction false} TaintConcat(f: Fence, tainted: bool, a: seq<Text>, b: seq<Text>)
    ensures TaintAfter(f, tainted, a + b) == TaintAfter(FenceAfter(f, a), TaintAfter(f, tainted, a), b)
    decreases |a|
  {
    hide FenceStep, NextTaint;
    if a == [] {
      assert a + b == b;
    } else {
      assert (a + b)[0] == a[0] && (a + b)[1..] == a[1..] + b;
      TaintConcat(FenceStep(f, a[0]), NextTaint(f, tainted, a[0]), a[1..], b);
    }
  }

  lemma AtRegion(lines: seq<Text>, s: State, k: nat, n: nat)
    requires 1 <= n && k + n <= |lines| && At(lines, s, k) && !s.context.List? && forall i :: k <= i < k + n ==> IsRow(lines[i])
    ensures At(lines, AfterRegion(s, lines[k..][..n]), k + n)
  {
    hide FenceAfter, TaintAfter, ListAt, IsRow;
    RowsList(lines, s, k, n);
    assert lines[..k + n] == lines[..k] + lines[k..][..n];
    FenceAppend(Closed, lines[..k], lines[k..][..n]);
    TaintConcat(Closed, false, lines[..k], lines[k..][..n]);
  }

  /** The scan takes a line for the start of a table exactly when one starts there. */
  lemma CandidateMeans(lines: seq<Text>, s: State, k: nat)
    requires k < |lines| && At(lines, s, k)
    ensures Candidate(s, lines[k..]) <==> StartsTable(lines, k)
  {
    hide IsRow, IsDelimiter, FenceFree, Convertible, IsBlank, IsListItem, IsIndented, FenceBefore, TaintBefore, InList, ListOpen;
    ConvertibleMeans(lines, s, k);
    if IsRow(lines[k]) {
      RowShape(lines[k]);
    }
  }

  lemma RowsRun(lines: seq<Text>, k: nat)
    requires k < |lines| && StartsTable(lines, k)
    ensures TableRun(lines, k, Rows(lines[k..]))
  {
    hide IsRow, IsDelimiter, FenceFree, InList;
    var n := Rows(lines[k..]);
    assert lines[k..][0] == lines[k] && lines[k..][1] == lines[k + 1];
    assert n >= 2;
    forall i | k <= i < k + n ensures IsRow(lines[i]) {
      assert lines[k..][i - k] == lines[i];
    }
    if k + n < |lines| {
      assert lines[k..][n] == lines[k + n];
    }
  }

  /** Every line of a table lies outside every fence, in a paragraph without a fenced line. */
  lemma TableUnfenced(lines: seq<Text>, k: nat, n: nat, i: nat)
    requires StartsTable(lines, k) && TableRun(lines, k, n) && k <= i < k + n
    ensures FenceFree(lines, i) && !FencedAt(lines, i)
  {
    hide IsRow, IsDelimiter, FenceFree, InList, IsBlank, Fenced, FenceBefore;
    forall j | k <= j <= i ensures !SeparatesAt(lines, j) {
      RowShape(lines[j]);
    }
    SameParagraph(lines, k, i);
  }

  /** The lines from `k` on: joined, the blocks are the input and the output, and each is what `BlockOk` says. */
  lemma {:induction false} BlocksFrom(s: State, raws: seq<Text>, k: nat)
    requires k <= |raws| && At(Lines(raws), s, k)
    ensures var bs := Blocks(s, raws[k..]);
            Befores(bs) == raws[k..] && Afters(bs) == Out(s, raws[k..]) && BlocksOk(Lines(raws), k, bs)
    decreases |raws| - k
  {
    hide *;
    var lines, rest := Lines(raws), raws[k..];
    LinesTail(raws, k);
    BlocksStep(s, rest);
    if rest == [] {
      OutNone(s);
      NoBlocks(lines, k);
    } else if Candidate(s, Lines(rest)) {
      OutRegion(s, rest);
      var n := Rows(Lines(rest));
      FirstTable(lines, s, k);
      AtRegion(lines, s, k, n);
      assert rest[n..] == raws[k + n..] && rest == rest[..n] + rest[n..];
      BlocksFrom(AfterRegion(s, lines[k..][..n]), raws, k + n);
      RegionBlock(lines, k, Block(rest[..n], Region(rest[..n])));
      ConsBlock(lines, k, Block(rest[..n], Region(rest[..n])), Blocks(AfterRegion(s, Lines(rest)[..n]), rest[n..]));
    } else {
      OutKeeps(s, rest);
      AtKept(lines, s, k);
      assert rest[1..] == raws[k + 1..] && rest == [rest[0]] + rest[1..];
      BlocksFrom(Kept(s, lines[k]), raws, k + 1);
      KeptBlock(lines, s, k, rest[0]);
      ConsBlock(lines, k, Block([rest[0]], [rest[0]]), Blocks(Kept(s, lines[k]), rest[1..]));
    }
  }

  lemma NoBlocks(lines: seq<Text>, k: nat)
    ensures Befores([]) == [] && Afters([]) == [] && BlocksOk(lines, k, [])
  {
  }

  lemma FirstTable(lines: seq<Text>, s: State, k: nat)
    requires k < |lines| && At(lines, s, k) && Candidate(s, lines[k..])
    ensures var n := Rows(lines[k..]);
            && StartsTable(lines, k) && TableRun(lines, k, n) && 1 <= n && k + n <= |lines| && !s.context.List?
            && forall i :: k <= i < k + n ==> IsRow(lines[i])
  {
    hide IsRow, IsDelimiter, Convertible, At, StartsTable, IsBlank, IsListItem, IsIndented;
    CandidateMeans(lines, s, k);
    RowsRun(lines, k);
  }

  lemma RegionBlock(lines: seq<Text>, k: nat, b: Block)
    requires StartsTable(lines, k) && TableRun(lines, k, |b.before|) && b.after == Region(b.before)
    ensures BlockOk(lines, k, b)
  {
  }

  lemma KeptBlock(lines: seq<Text>, s: State, k: nat, raw: Text)
    requires k < |lines| && At(lines, s, k) && !Candidate(s, lines[k..])
    ensures BlockOk(lines, k, Block([raw], [raw]))
  {
    hide At, StartsTable, Candidate;
    CandidateMeans(lines, s, k);
  }

  lemma BlocksStep(s: State, raws: seq<Text>)
    ensures raws == [] ==> Blocks(s, raws) == []
    ensures raws != [] && Candidate(s, Lines(raws)) ==>
              var n := Rows(Lines(raws));
              && 2 <= n <= |raws|
              && Blocks(s, raws) == [Block(raws[..n], Region(raws[..n]))] + Blocks(AfterRegion(s, Lines(raws)[..n]), raws[n..])
    ensures raws != [] && !Candidate(s, Lines(raws)) ==>
              Blocks(s, raws) == [Block([raws[0]], [raws[0]])] + Blocks(Kept(s, Strip(raws[0])), raws[1..])
  {
    hide Region, AfterRegion, Kept, Rows, Candidate;
    if Candidate(s, Lines(raws)) {
      CandidateRows(s, Lines(raws));
    }
  }

  lemma ConsBlock(lines: seq<Text>, k: nat, b: Block, bs: seq<Block>)
    requires BlockOk(lines, k, b) && BlocksOk(lines, k + |b.before|, bs)
    ensures Befores([b] + bs) == b.before + Befores(bs) && Afters([b] + bs) == b.after + Afters(bs)
    ensures BlocksOk(lines, k, [b] + bs)
  {
    hide BlockOk;
    assert ([b] + bs)[1..] == bs;
  }

  /** The whole reply: ineligible text is unchanged; otherwise each table outside lists and fenced paragraphs becomes its
      region, and every other line is kept, in order. */
  lemma OnlyTablesChange(text: Text)
    ensures !Eligible(text) ==> Render(text) == text
    ensures PIPE in text && Eligible(text) ==>
              var raws := Split(text);
              var bs := Blocks(INITIAL, raws);
              Befores(bs) == raws && JoinText(Afters(bs)) == Render(text) && BlocksOk(Lines(raws), 0, bs)
  {
    hide Out, Blocks, BlocksOk, Split, JoinText, Eligible;
    var raws := Split(text);
    assert raws[0..] == raws;
    Beginning(Lines(raws));
    BlocksFrom(INITIAL, raws, 0);
  }

  lemma Beginning(lines: seq<Text>)
    ensures At(lines, INITIAL, 0)
  {
    assert lines[..0] == [];
  }

  // ---------- The source's loops ----------

  /** The fence flags, or null (not `ok`) when the fences are not balanced. */
  method FencedLines(lines: seq<Text>) returns (ok: bool, fenced: seq<bool>)
    ensures ok == Balanced(Closed, lines)
    ensures ok ==> |fenced| == |lines| && forall k :: 0 <= k < |lines| ==> fenced[k] == FencedAt(lines, k)
  {
    hide FenceAfter, Marked, IsOpener, IsCloser, Run, IsBlank;
    var open: Fence := Closed;
    fenced := [];
    var i := 0;
    FenceStart(lines);
    while i < |lines|
      invariant 0 <= i <= |lines| && |fenced| == i
      invariant open == FenceBefore(lines, i) && !open.Broken?
      invariant forall k :: 0 <= k < i ==> fenced[k] == FencedAt(lines, k)
    {
      var line := lines[i];
      FenceNext(lines, i);
      var marker := Marked(line);
      if open.Open? {
        fenced := fenced + [true];
        if !marker {
          open := Open(open.run, open.hasContent || !IsBlank(line));
        } else if !IsCloser(line) || Run(line) != open.run || !open.hasContent {
          BrokenFrom(lines, i + 1);
          return false, [];
        } else {
          open := Closed;
        }
      } else {
        if marker {
          if !IsOpener(line) {
            BrokenFrom(lines, i + 1);
            return false, [];
          }
          open := Open(Run(line), false);
        }
        fenced := fenced + [marker];
      }
      i := i + 1;
    }
    assert lines[..i] == lines;
    ok := open == Closed;
  }

  lemma FenceStart(lines: seq<Text>)
    ensures FenceBefore(lines, 0) == Closed
  {
    assert lines[..0] == [];
  }

  lemma BrokenFrom(lines: seq<Text>, k: nat)
    requires k <= |lines| && FenceBefore(lines, k) == Broken
    ensures !Balanced(Closed, lines)
  {
    hide FenceAfter;
    assert lines == lines[..k] + lines[k..];
    FenceAppend(Closed, lines[..k], lines[k..]);
    BrokenStays(lines[k..]);
  }

  /** Lines between two separators: fence-free exactly when none of them is fenced. */
  lemma ParagraphFree(lines: seq<Text>, start: nat, end: nat, k: nat)
    requires start <= k < end <= |lines| && forall i :: start <= i < end ==> !SeparatesAt(lines, i)
    requires start == 0 || SeparatesAt(lines, start - 1)
    requires end == |lines| || SeparatesAt(lines, end)
    ensures FenceFree(lines, k) <==> forall i :: start <= i < end ==> !FencedAt(lines, i)
  {
    hide FencedAt, SeparatesAt;
    if FenceFree(lines, k) {
      forall i | start <= i < end ensures !FencedAt(lines, i) {
      }
    }
    if forall i :: start <= i < end ==> !FencedAt(lines, i) {
      forall f: nat | f < |lines| && FencedAt(lines, f) ensures if f < k then Apart(lines, f, k) else Apart(lines, k, f) {
        if f < start {
          assert f <= start - 1 < k && SeparatesAt(lines, start - 1);
        } else {
          if f == end {
            SeparatorUnfenced(lines, end);
          }
          assert k <= end < f && SeparatesAt(lines, end);
        }
      }
    }
  }

  lemma SeparatorUnfenced(lines: seq<Text>, k: nat)
    requires k < |lines| && SeparatesAt(lines, k)
    ensures !FencedAt(lines, k)
  {
  }

  /** Paragraph by paragraph, the flags of a text with fences. */
  method ParagraphFlags(lines: seq<Text>, fenced: seq<bool>) returns (convertible: seq<bool>)
    requires |fenced| == |lines| && forall k :: 0 <= k < |lines| ==> fenced[k] == FencedAt(lines, k)
    ensures |convertible| == |lines| && forall k :: 0 <= k < |lines| ==> convertible[k] == FenceFree(lines, k)
  {
    hide FenceFree, FencedAt, IsBlank;
    convertible := [];
    var i := 0;
    while i < |lines|
      invariant 0 <= i <= |lines| && |convertible| == i
      invariant i == 0 || SeparatesAt(lines, i - 1) || i == |lines| || SeparatesAt(lines, i)
      invariant forall k :: 0 <= k < i ==> convertible[k] == FenceFree(lines, k)
    {
      var separates := IsBlank(lines[i]) && !fenced[i];
      SeparatesIs(lines, i);
      if separates {
        SeparatorNotFree(lines, i);
        convertible := convertible + [false];
        i := i + 1;
      } else {
        var end, clean := ParagraphEnd(lines, fenced, i);
        forall k | i <= k < end ensures FenceFree(lines, k) == clean {
          ParagraphFree(lines, i, end, k);
        }
        convertible := convertible + seq(end - i, _ => clean);
        i := end;
      }
    }
  }

  lemma SeparatesIs(lines: seq<Text>, k: nat)
    requires k < |lines|
    ensures SeparatesAt(lines, k) == (IsBlank(lines[k]) && !FencedAt(lines, k))
  {
  }

  lemma SeparatorNotFree(lines: seq<Text>, k: nat)
    requires k < |lines| && SeparatesAt(lines, k)
    ensures !FenceFree(lines, k)
  {
  }

  method ParagraphEnd(lines: seq<Text>, fenced: seq<bool>, start: nat) returns (end: nat, clean: bool)
    requires |fenced| == |lines| && forall k :: 0 <= k < |lines| ==> fenced[k] == FencedAt(lines, k)
    requires start < |lines| && !SeparatesAt(lines, start)
    ensures start < end <= |lines| && (end == |lines| || SeparatesAt(lines, end))
    ensures forall i :: start <= i < end ==> !SeparatesAt(lines, i)
    ensures clean <==> forall i :: start <= i < end ==> !FencedAt(lines, i)
  {
    hide FencedAt, IsBlank, SeparatesAt;
    end, clean := start, true;
    SeparatesIs(lines, start);
    while end < |lines| && !(IsBlank(lines[end]) && !fenced[end])
      invariant start <= end <= |lines|
      invariant forall i :: start <= i < end ==> !SeparatesAt(lines, i)
      invariant clean <==> forall i :: start <= i < end ==> !FencedAt(lines, i)
    {
      SeparatesIs(lines, end);
      if fenced[end] {
        clean := false;
      }
      end := end + 1;
    }
    if end < |lines| {
      SeparatesIs(lines, end);
    }
  }

  /** Without any fence marker, every line that is not blank may convert. */
  lemma {:induction false} NoMarkerFree(lines: seq<Text>, k: nat)
    requires !HasMarker(lines) && k <= |lines|
    ensures FenceBefore(lines, k) == Closed
    ensures k < |lines| ==> !FencedAt(lines, k)
    decreases k
  {
    hide Marked;
    if k == 0 {
      FenceStart(lines);
    } else {
      NoMarkerFree(lines, k - 1);
      FenceNext(lines, k - 1);
      assert lines[k - 1] in lines;
    }
    if k < |lines| {
      assert lines[k] in lines;
    }
  }

  lemma NoMarker(lines: seq<Text>)
    requires !HasMarker(lines)
    ensures Balanced(Closed, lines)
    ensures forall k :: 0 <= k < |lines| ==> (FenceFree(lines, k) <==> !IsBlank(lines[k]))
  {
    hide HasMarker, IsBlank, FencedAt, FenceAfter;
    NoMarkerFree(lines, |lines|);
    assert lines[..|lines|] == lines;
    forall k | 0 <= k < |lines| ensures FenceFree(lines, k) <==> !IsBlank(lines[k]) {
      SeparatesIs(lines, k);
      forall f | 0 <= f < |lines| ensures !FencedAt(lines, f) {
        NoMarkerFree(lines, f);
      }
      NoMarkerFree(lines, k);
    }
  }

  /** The flags agree with the paragraphs on every line that is not blank. */
  predicate FlagsOk(lines: seq<Text>, convertible: seq<bool>) {
    |convertible| == |lines| && forall k :: 0 <= k < |lines| && !IsBlank(lines[k]) ==> convertible[k] == FenceFree(lines, k)
  }

  method ConvertibleLines(text: Text, lines: seq<Text>) returns (ok: bool, convertible: seq<bool>)
    requires lines == Lines(Split(text))
    ensures ok == Eligible(text)
    ensures ok ==> FlagsOk(lines, convertible)
  {
    hide HasQuote, HasOtherBreak, HasMarker, FenceFree, FencedAt, IsBlank, Balanced, Split;
    convertible := [];
    if HasQuote(text) {
      return false, [];
    }
    if !HasMarker(lines) {
      NoMarker(lines);
      return true, seq(|lines|, _ => true);
    }
    if HasOtherBreak(text) {
      return false, [];
    }
    var balanced, fenced := FencedLines(lines);
    if !balanced {
      return false, [];
    }
    convertible := ParagraphFlags(lines, fenced);
    ok := true;
  }

  /** The scan of the source, line by line. */
  method RenderMarkdownTables(text: Text) returns (out: Text)
    ensures out == Render(text)
  {
    hide Out, Eligible, Split, JoinText;
    if PIPE !in text {
      return text;
    }
    var raws := Split(text);
    var lines := Lines(raws);
    var ok, convertible := ConvertibleLines(text, lines);
    if !ok {
      return text;
    }
    var rendered := RenderLines(raws, lines, convertible);
    out := JoinText(rendered);
  }

  method RenderLines(raws: seq<Text>, lines: seq<Text>, convertible: seq<bool>) returns (out: seq<Text>)
    requires lines == Lines(raws) && |convertible| == |lines| && FlagsOk(lines, convertible)
    ensures out == Out(INITIAL, raws)
  {
    hide *;
    out := [];
    var context, listOpen := Start, false;
    ghost var s := INITIAL;
    var i := 0;
    Beginning(lines);
    Initially();
    assert raws[0..] == raws && out + Out(s, raws) == Out(s, raws);
    while i < |lines|
      invariant 0 <= i <= |lines| == |raws| && At(lines, s, i) && s.context == context && s.listOpen == listOpen
      invariant out + Out(s, raws[i..]) == Out(INITIAL, raws)
      decreases |lines| - i
    {
      LinesTail(raws, i);
      CandidateIs(lines, convertible, s, i);
      ghost var before := out;
      if IsCandidate(lines, convertible, context, i) {
        OutRegion(s, raws[i..]);
        var end := RegionEnd(lines, i);
        assert raws[i..][..end - i] == raws[i..end] && raws[i..][end - i..] == raws[end..];
        FirstTable(lines, s, i);
        AtRegion(lines, s, i, end - i);
        RegionContext(s, lines[i..][..end - i]);
        out := out + Region(raws[i..end]);
        s := AfterRegion(s, lines[i..][..end - i]);
        context, listOpen := Plain, listOpen && !context.Blank?;
        Assoc(before, Region(raws[i..end]), Out(s, raws[end..]));
        i := end;
      } else {
        OutKeeps(s, raws[i..]);
        assert raws[i..][0] == raws[i] && raws[i..][1..] == raws[i + 1..];
        AtKept(lines, s, i);
        context, listOpen := KeepLine(context, listOpen, lines[i], s);
        s := Kept(s, lines[i]);
        out := out + [raws[i]];
        Assoc(before, [raws[i]], Out(s, raws[i + 1..]));
        i := i + 1;
      }
    }
    assert raws[i..] == [];
    OutNone(s);
  }

  lemma Initially()
    ensures INITIAL.context == Start && !INITIAL.listOpen
  {
  }

  lemma RegionContext(s: State, lines: seq<Text>)
    ensures AfterRegion(s, lines).context == Plain && AfterRegion(s, lines).listOpen == (s.listOpen && !s.context.Blank?)
  {
    hide FenceAfter, TaintAfter;
  }

  /** What a kept line leaves open. */
  method KeepLine(context0: Context, listOpen0: bool, line: Text, ghost s: State) returns (context: Context, listOpen: bool)
    requires s.context == context0 && s.listOpen == listOpen0
    ensures Kept(s, line).context == context && Kept(s, line).listOpen == listOpen
  {
    hide IsBlank, IsListItem, IsIndented, FenceStep, NextTaint;
    context, listOpen := context0, listOpen0;
    if IsBlank(line) {
      context := Blank;
    } else if IsListItem(line) {
      context, listOpen := List, true;
    } else if context.List? {
    } else if IsIndented(line) {
      context := if listOpen then List else Plain;
    } else {
      if context.Blank? {
        listOpen := false;
      }
      context := Plain;
    }
  }

  lemma Assoc(a: seq<Text>, b: seq<Text>, c: seq<Text>)
    ensures a + (b + c) == (a + b) + c
  {
  }

  /** The source's condition for a table candidate. */
  predicate IsCandidate(lines: seq<Text>, convertible: seq<bool>, context: Context, i: nat)
    requires i < |lines| == |convertible|
  {
    !IsBlank(lines[i]) && !IsListItem(lines[i]) && !context.List? && !IsIndented(lines[i])
    && convertible[i] && IsRow(lines[i]) && i + 1 < |lines| && IsRow(lines[i + 1]) && IsDelimiter(lines[i + 1])
  }

  lemma CandidateIs(lines: seq<Text>, convertible: seq<bool>, s: State, i: nat)
    requires i < |lines| && FlagsOk(lines, convertible) && At(lines, s, i)
    ensures IsCandidate(lines, convertible, s.context, i) == Candidate(s, lines[i..])
  {
    hide IsRow, IsDelimiter, FenceFree, Convertible, IsBlank, IsListItem, IsIndented;
    ConvertibleMeans(lines, s, i);
  }

  /** The end of the rows from `i` on. */
  method RegionEnd(lines: seq<Text>, i: nat) returns (end: nat)
    requires i < |lines|
    ensures i <= end <= |lines| && end - i == Rows(lines[i..])
  {
    hide IsRow;
    end := i;
    while end < |lines| && IsRow(lines[end])
      invariant i <= end <= |lines| && forall k :: i <= k < end ==> IsRow(lines[k])
    {
      end := end + 1;
    }
    var n := Rows(lines[i..]);
    assert forall k :: 0 <= k < |lines| - i ==> lines[i..][k] == lines[i + k];
    assert n < |lines| - i ==> !IsRow(lines[i + n]);
    assert !(n < end - i) && !(n > end - i);
  }
}
