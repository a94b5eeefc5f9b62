/** Markdown tables for Discord (packages/adapter-discord/src/markdown-tables.ts:40-243). */
module Tables {
  import opened Utf16

  const PIPE: Code := 0x7c
  const DASH: Code := 0x2d
  const BACKSLASH: Code := 0x5c
  const TILDE: Code := 0x7e
  const MAX_TABLE_COLUMNS: nat := 8
  const MAX_TABLE_ROWS: nat := 25

  // ---------- Line shapes ----------

  predicate IsBlank(line: Text) {
    forall c <- line :: WhitespaceCode(c)
  }

  predicate IsIndented(line: Text) {
    line != [] && BlankCode(line[0])
  }

  function DigitsEnd(t: Text, i: nat): (e: nat)
    requires i <= |t|
    ensures i <= e <= |t|
    decreases |t| - i
  {
    if i < |t| && 0x30 <= t[i] <= 0x39 then DigitsEnd(t, i + 1) else i
  }

  /** The end of a list marker at `i`, or `i`: `-`, `*`, `+`, or one to nine digits and `.` or `)`. */
  function MarkerEnd(t: Text, i: nat): (e: nat)
    requires i <= |t|
    ensures i <= e <= |t|
  {
    var d := DigitsEnd(t, i);
    if i < |t| && t[i] in {DASH, STAR, 0x2b} then i + 1
    else if 1 <= d - i <= 9 && d < |t| && t[d] in {0x2e, 0x29} then d + 1
    else i
  }

  predicate IsListItem(line: Text) {
    var i := BlankEnd(line, 0);
    var m := MarkerEnd(line, i);
    m > i && (m == |line| || BlankCode(line[m]))
  }

  /** A pipe at column 0 and an unescaped pipe at the end, blanks after it allowed. */
  predicate IsRow(line: Text) {
    var e := BlankStart(line, |line|);
    && e >= 2 && line[0] == PIPE && line[e - 1] == PIPE && line[e - 2] != BACKSLASH
    && forall k :: 0 < k < e - 1 ==> !LineTerminator(line[k])
  }

  /** Delimiter cells from `i` to the end: blanks, `:`, dashes, `:`, blanks, a pipe. */
  predicate DelimiterCells(t: Text, i: nat)
    requires i <= |t|
    decreases |t| - i
  {
    var a := BlankEnd(t, i);
    var b := if a < |t| && t[a] == 0x3a then a + 1 else a;
    var c := SameEnd(t, DASH, b);
    var d := if c < |t| && t[c] == 0x3a then c + 1 else c;
    var e := BlankEnd(t, d);
    c > b && e < |t| && t[e] == PIPE && (BlankEnd(t, e + 1) == |t| || DelimiterCells(t, e + 1))
  }

  predicate IsDelimiter(line: Text) {
    line != [] && line[0] == PIPE && DelimiterCells(line, 1)
  }

  // ---------- Fences ----------

  /** A fence marker anywhere in the line. */
  predicate Marked(line: Text) {
    exists i :: 0 <= i && i + 2 < |line| && line[i] in {BACKTICK, TILDE} && line[i] == line[i + 1] == line[i + 2]
  }

  function Run(line: Text): Text {
    if line == [] then [] else line[..SameEnd(line, line[0], 0)]
  }

  /** Column 0, a run of three or more, then printable ASCII without a backtick or tilde. */
  predicate IsOpener(line: Text) {
    |Run(line)| >= 3 && line[0] in {BACKTICK, TILDE}
    && forall k :: |Run(line)| <= k < |line| ==> 0x20 <= line[k] < 0x7e && line[k] != BACKTICK
  }

  predicate IsCloser(line: Text) {
    |Run(line)| >= 3 && line[0] in {BACKTICK, TILDE} && BlankEnd(line, |Run(line)|) == |line|
  }

  /** The open fence; `Broken` when the fences are not provably balanced. */
  datatype Fence = Closed | Open(run: Text, hasContent: bool) | Broken

  function FenceStep(f: Fence, line: Text): Fence {
    match f
    case Broken => Broken
    case Closed => if !Marked(line) then Closed else if IsOpener(line) then Open(Run(line), false) else Broken
    case Open(run, hasContent) =>
      if !Marked(line) then Open(run, hasContent || !IsBlank(line))
      else if IsCloser(line) && Run(line) == run && hasContent then Closed
      else Broken
  }

  /** The line lies in a fence, opener and closer included. */
  predicate Fenced(f: Fence, line: Text) {
    f.Open? || Marked(line)
  }

  function FenceAfter(f: Fence, lines: seq<Text>): Fence
    decreases |lines|
  {
    if lines == [] then f else FenceAfter(FenceStep(f, lines[0]), lines[1..])
  }

  predicate Balanced(f: Fence, lines: seq<Text>) {
    FenceAfter(f, lines) == Closed
  }

  predicate Separates(f: Fence, line: Text) {
    IsBlank(line) && !Fenced(f, line)
  }

  /** A fenced line follows in the same paragraph. */
  predicate TaintedAhead(f: Fence, lines: seq<Text>)
    decreases |lines|
  {
    lines != [] && !Separates(f, lines[0]) && (Fenced(f, lines[0]) || TaintedAhead(FenceStep(f, lines[0]), lines[1..]))
  }

  // ---------- Cells ----------

  function TrimLeft(t: Text): (r: Text)
    ensures forall c <- r :: c in t
  {
    if t != [] && WhitespaceCode(t[0]) then TrimLeft(t[1..]) else t
  }

  function TrimRight(t: Text): (r: Text)
    ensures forall c <- r :: c in t
  {
    if t != [] && WhitespaceCode(t[|t| - 1]) then TrimRight(t[..|t| - 1]) else t
  }

  function Trim(t: Text): (r: Text)
    ensures forall c <- r :: c in t
  {
    TrimRight(TrimLeft(t))
  }

  /** Split at each pipe that no backslash precedes. */
  function SplitCells(t: Text): (cells: seq<Text>)
    ensures cells != [] && forall cell <- cells, c <- cell :: c in t
  {
    if t == [] then [[]]
    else
      var n := |t| - 1;
      var front := SplitCells(t[..n]);
      if t[n] == PIPE && !(n > 0 && t[n - 1] == BACKSLASH) then front + [[]]
      else
        assert front[|front| - 1] in front;
        front[..|front| - 1] + [front[|front| - 1] + [t[n]]]
  }

  function Unescaped(t: Text): (r: Text)
    ensures forall c <- r :: c in t
  {
    if |t| >= 2 && t[0] == BACKSLASH && t[1] == PIPE then [PIPE] + Unescaped(t[2..])
    else if t == [] then []
    else [t[0]] + Unescaped(t[1..])
  }

  function CellOf(t: Text): (r: Text)
    ensures forall c <- r :: c in t
  {
    Trim(Unescaped(t))
  }

  function Inner(row: Text): (r: Text)
    ensures forall c <- r :: c in row
  {
    var t := Trim(row);
    if |t| < 2 then [] else t[1..|t| - 1]
  }

  function Cells(row: Text): (cells: seq<Text>)
    ensures cells != [] && forall cell <- cells, c <- cell :: c in row
  {
    var parts := SplitCells(Inner(row));
    assert forall p <- parts, c <- p :: c in row;
    seq(|parts|, k requires 0 <= k < |parts| => CellOf(parts[k]))
  }

  /** A bold header cell without its stars. */
  function HeaderLabel(cell: Text): (r: Text)
    ensures forall c <- r :: c in cell
  {
    var n := |cell|;
    if n >= 5 && cell[0] == cell[1] == cell[n - 1] == cell[n - 2] == STAR && forall k :: 2 <= k < n - 2 ==> !LineTerminator(cell[k])
    then Trim(cell[2..n - 2])
    else cell
  }

  // ---------- Rendering ----------

  function JoinWith(parts: seq<Text>, separator: Text): (r: Text)
    ensures forall c <- r :: c in separator || exists p <- parts :: c in p
    ensures |parts| > 0 && (forall p <- parts :: p != []) ==> r != []
  {
    if parts == [] then []
    else if |parts| == 1 then assert parts[0] in parts; parts[0]
    else assert parts[|parts| - 1] in parts; JoinWith(parts[..|parts| - 1], separator) + separator + parts[|parts| - 1]
  }

  function NonEmpty(parts: seq<Text>): (r: seq<Text>)
    ensures forall p <- r :: p != [] && p in parts
  {
    if parts == [] then []
    else NonEmpty(parts[..|parts| - 1]) + if parts[|parts| - 1] != [] then [parts[|parts| - 1]] else []
  }

  function Labels(header: seq<Text>): (r: seq<Text>)
    ensures |r| == |header| && forall k :: 0 <= k < |r| ==> r[k] == HeaderLabel(header[k])
  {
    seq(|header|, k requires 0 <= k < |header| => HeaderLabel(header[k]))
  }

  const TITLE_SEPARATOR: Text := [SPACE, 0xb7, SPACE]
  const PART_SEPARATOR: Text := [0x2c, SPACE]

  function TitleLine(labels: seq<Text>): seq<Text> {
    var titled := NonEmpty(labels);
    if titled == [] then [] else [[STAR, STAR] + JoinWith(titled, TITLE_SEPARATOR) + [STAR, STAR]]
  }

  /** The non-empty cells of a row, each after its label. */
  function RowParts(labels: seq<Text>, cells: seq<Text>): (r: seq<Text>)
    ensures forall p <- r :: p != []
  {
    if cells == [] then []
    else
      var n := |cells| - 1;
      var title := if n < |labels| then labels[n] else [];
      RowParts(labels, cells[..n])
      + (if cells[n] == [] then [] else if title == [] then [cells[n]] else [title + [0x3a, SPACE] + cells[n]])
  }

  /** The non-empty cells before column `k`. */
  function FilledBefore(cells: seq<Text>, k: nat): (n: nat)
    requires k <= |cells|
    ensures n <= k
  {
    if k == 0 then 0 else FilledBefore(cells, k - 1) + if cells[k - 1] != [] then 1 else 0
  }

  /** No filled cell is lost, moved or given another column's label. */
  lemma {:induction false} CellsShown(labels: seq<Text>, cells: seq<Text>, k: nat)
    requires k < |cells| && cells[k] != []
    ensures |RowParts(labels, cells)| == FilledBefore(cells, |cells|) && FilledBefore(cells, k) < |RowParts(labels, cells)|
    ensures RowParts(labels, cells)[FilledBefore(cells, k)]
            == if k < |labels| && labels[k] != [] then labels[k] + [0x3a, SPACE] + cells[k] else cells[k]
    decreases |cells|
  {
    var n := |cells| - 1;
    PartsCount(labels, cells[..n]);
    FilledPrefix(cells, n, n);
    FilledPrefix(cells, n, k);
    if k < n {
      CellsShown(labels, cells[..n], k);
    }
  }

  lemma {:induction false} PartsCount(labels: seq<Text>, cells: seq<Text>)
    ensures |RowParts(labels, cells)| == FilledBefore(cells, |cells|)
    decreases |cells|
  {
    if cells != [] {
      var n := |cells| - 1;
      PartsCount(labels, cells[..n]);
      FilledPrefix(cells, n, n);
    }
  }

  lemma {:induction false} FilledPrefix(cells: seq<Text>, n: nat, k: nat)
    requires k <= n <= |cells|
    ensures FilledBefore(cells[..n], k) == FilledBefore(cells, k)
    decreases k
  {
    if k > 0 {
      FilledPrefix(cells, n, k - 1);
    }
  }

  /** Splitting a row into cells loses nothing: joined by pipes they are the row's inner text. */
  lemma {:induction false} CellsTile(t: Text)
    ensures JoinWith(SplitCells(t), [PIPE]) == t
    decreases |t|
  {
    hide JoinWith;
    if t == [] {
      JoinOne([]);
    } else {
      var n := |t| - 1;
      var front := SplitCells(t[..n]);
      CellsTile(t[..n]);
      assert t == t[..n] + [t[n]];
      JoinMore(front, [], [PIPE]);
      JoinLonger(front, [t[n]], [PIPE]);
    }
  }

  lemma JoinOne(part: Text)
    ensures JoinWith([part], [PIPE]) == part
  {
  }

  lemma JoinMore(parts: seq<Text>, part: Text, separator: Text)
    requires parts != []
    ensures JoinWith(parts + [part], separator) == JoinWith(parts, separator) + separator + part
  {
    assert (parts + [part])[..|parts|] == parts;
  }

  lemma JoinLonger(parts: seq<Text>, more: Text, separator: Text)
    requires parts != []
    ensures JoinWith(parts[..|parts| - 1] + [parts[|parts| - 1] + more], separator) == JoinWith(parts, separator) + more
  {
    var m := |parts| - 1;
    var longer := parts[..m] + [parts[m] + more];
    assert longer[..m] == parts[..m];
  }

  function RowLine(labels: seq<Text>, cells: seq<Text>): seq<Text> {
    var parts := RowParts(labels, cells);
    if parts == [] then [] else [[DASH, SPACE] + JoinWith(parts, PART_SEPARATOR)]
  }

  function RowLines(labels: seq<Text>, rows: seq<Text>): seq<Text> {
    if rows == [] then [] else RowLines(labels, rows[..|rows| - 1]) + RowLine(labels, Cells(rows[|rows| - 1]))
  }

  /** The rows before `r` that get a bullet. */
  function BulletsBefore(labels: seq<Text>, rows: seq<Text>, r: nat): (n: nat)
    requires r <= |rows|
    ensures n <= r
  {
    if r == 0 then 0 else BulletsBefore(labels, rows, r - 1) + |RowLine(labels, Cells(rows[r - 1]))|
  }

  lemma {:induction false} BulletsPrefix(labels: seq<Text>, rows: seq<Text>, n: nat, r: nat)
    requires r <= n <= |rows|
    ensures BulletsBefore(labels, rows[..n], r) == BulletsBefore(labels, rows, r)
    decreases r
  {
    hide RowLine, Cells;
    if r > 0 {
      BulletsPrefix(labels, rows, n, r - 1);
    }
  }

  lemma {:induction false} BulletAt(labels: seq<Text>, rows: seq<Text>, r: nat)
    requires r < |rows| && RowParts(labels, Cells(rows[r])) != []
    ensures |RowLines(labels, rows)| == BulletsBefore(labels, rows, |rows|) && BulletsBefore(labels, rows, r) < |RowLines(labels, rows)|
    ensures RowLines(labels, rows)[BulletsBefore(labels, rows, r)] == [DASH, SPACE] + JoinWith(RowParts(labels, Cells(rows[r])), PART_SEPARATOR)
    decreases |rows|
  {
    hide RowLine, Cells, JoinWith, RowParts, BulletsBefore;
    var n := |rows| - 1;
    LastBullet(labels, rows);
    OneBullet(labels, rows[r]);
    BulletsCount(labels, rows[..n]);
    BulletsCount(labels, rows);
    BulletsPrefix(labels, rows, n, n);
    BulletsPrefix(labels, rows, n, r);
    if r < n {
      BulletAt(labels, rows[..n], r);
    }
  }

  lemma OneBullet(labels: seq<Text>, row: Text)
    requires RowParts(labels, Cells(row)) != []
    ensures RowLine(labels, Cells(row)) == [[DASH, SPACE] + JoinWith(RowParts(labels, Cells(row)), PART_SEPARATOR)]
  {
    hide RowParts, Cells, JoinWith;
  }

  lemma LastBullet(labels: seq<Text>, rows: seq<Text>)
    requires rows != []
    ensures BulletsBefore(labels, rows, |rows|) == BulletsBefore(labels, rows, |rows| - 1) + |RowLine(labels, Cells(rows[|rows| - 1]))|
  {
    hide RowLine, Cells;
  }

  lemma {:induction false} BulletsCount(labels: seq<Text>, rows: seq<Text>)
    ensures |RowLines(labels, rows)| == BulletsBefore(labels, rows, |rows|)
    decreases |rows|
  {
    hide RowLine, Cells;
    if rows != [] {
      var n := |rows| - 1;
      BulletsCount(labels, rows[..n]);
      BulletsPrefix(labels, rows, n, n);
    }
  }

  /** In the rendered lines of a table, the filled cell `k` of row `r` stands in that row's bullet, after the title line and
      the bullets of the rows before, at its place among the row's filled cells and behind its own column's label. */
  lemma CellsRendered(header: Text, rows: seq<Text>, r: nat, k: nat)
    requires r < |rows| && k < |Cells(rows[r])| && Cells(rows[r])[k] != []
    ensures var labels, cells := Labels(Cells(header)), Cells(rows[r]);
            var parts, at := RowParts(labels, cells), |TitleLine(labels)| + BulletsBefore(labels, rows, r);
            && at < |RenderTable(header, rows)|
            && RenderTable(header, rows)[at] == [DASH, SPACE] + JoinWith(parts, PART_SEPARATOR)
            && FilledBefore(cells, k) < |parts| == FilledBefore(cells, |cells|)
            && parts[FilledBefore(cells, k)] == if k < |labels| && labels[k] != [] then labels[k] + [0x3a, SPACE] + cells[k] else cells[k]
  {
    hide RowParts, Cells, JoinWith, RowLines, TitleLine;
    var labels, cells := Labels(Cells(header)), Cells(rows[r]);
    CellsShown(labels, cells, k);
    BulletAt(labels, rows, r);
  }

  /** The bold title line and one bullet line per row; empty ones are left out. */
  function RenderTable(header: Text, rows: seq<Text>): seq<Text> {
    TitleLine(Labels(Cells(header))) + RowLines(Labels(Cells(header)), rows)
  }

  // ---------- The scan ----------

  function Strip(raw: Text): (line: Text)
    ensures |line| <= |raw| <= |line| + 1 && line == raw[..|line|]
  {
    if raw != [] && raw[|raw| - 1] == CARRIAGE then raw[..|raw| - 1] else raw
  }

  function Eol(raw: Text): Text {
    if raw != [] && raw[|raw| - 1] == CARRIAGE then [CARRIAGE] else []
  }

  function Lines(raws: seq<Text>): (r: seq<Text>)
    ensures |r| == |raws| && forall k :: 0 <= k < |r| ==> r[k] == Strip(raws[k])
  {
    seq(|raws|, k requires 0 <= k < |raws| => Strip(raws[k]))
  }

  /** The leading table rows. */
  function Rows(lines: seq<Text>): (n: nat)
    ensures n <= |lines| && (forall k :: 0 <= k < n ==> IsRow(lines[k])) && (n < |lines| ==> !IsRow(lines[n]))
  {
    if lines == [] || !IsRow(lines[0]) then 0 else 1 + Rows(lines[1..])
  }

  predicate Simple(lines: seq<Text>)
    requires |lines| >= 2
  {
    var width := |Cells(lines[0])|;
    && 1 <= width <= MAX_TABLE_COLUMNS && |Cells(lines[1])| == width
    && |lines| > 2 && forall k :: 2 <= k < |lines| ==> |Cells(lines[k])| == width
  }

  const FENCE_LINE: Text := [BACKTICK, BACKTICK, BACKTICK]

  function WithEol(lines: seq<Text>, eol: Text): (r: seq<Text>)
    ensures |r| == |lines| && forall k :: 0 <= k < |r| ==> r[k] == lines[k] + eol
  {
    seq(|lines|, k requires 0 <= k < |lines| => lines[k] + eol)
  }

  /** What becomes of the lines of a table candidate. */
  function Region(raws: seq<Text>): seq<Text>
    requires |raws| >= 2
  {
    var lines := Lines(raws);
    if !Simple(lines) then raws
    else if |raws| - 2 > MAX_TABLE_ROWS then [FENCE_LINE + Eol(raws[0])] + raws + [FENCE_LINE + Eol(raws[|raws| - 1])]
    else WithEol(RenderTable(lines[0], lines[2..]), Eol(raws[0]))
  }

  datatype Context = Start | Blank | Plain | List

  /** `fence` and `tainted` say whether the line is in a fence, and whether a fenced line came before it in its paragraph. */
  datatype State = State(context: Context, listOpen: bool, fence: Fence, tainted: bool)

  const INITIAL := State(Start, false, Closed, false)

  function NextTaint(f: Fence, tainted: bool, line: Text): bool {
    !Separates(f, line) && (Fenced(f, line) || tainted)
  }

  /** The state after a line that is kept. */
  function Kept(s: State, line: Text): State {
    var n := s.(fence := FenceStep(s.fence, line), tainted := NextTaint(s.fence, s.tainted, line));
    if IsBlank(line) then n.(context := Blank)
    else if IsListItem(line) then n.(context := List, listOpen := true)
    else if s.context.List? then n
    else if IsIndented(line) then n.(context := if s.listOpen then List else Plain)
    else n.(context := Plain, listOpen := s.listOpen && !s.context.Blank?)
  }

  function TaintAfter(f: Fence, tainted: bool, lines: seq<Text>): bool
    decreases |lines|
  {
    if lines == [] then tainted else TaintAfter(FenceStep(f, lines[0]), NextTaint(f, tainted, lines[0]), lines[1..])
  }

  /** The state after a table candidate. */
  function AfterRegion(s: State, lines: seq<Text>): State {
    State(Plain, s.listOpen && !s.context.Blank?, FenceAfter(s.fence, lines), TaintAfter(s.fence, s.tainted, lines))
  }

  predicate MayStart(s: State, line: Text) {
    !IsBlank(line) && !IsListItem(line) && !s.context.List? && !IsIndented(line)
  }

  /** The first line is in a paragraph without a fenced line. */
  predicate Convertible(s: State, lines: seq<Text>)
    requires lines != []
  {
    !Separates(s.fence, lines[0]) && !s.tainted && !TaintedAhead(s.fence, lines)
  }

  /** A header row and a delimiter row at a place where a table may start. */
  predicate Candidate(s: State, lines: seq<Text>) {
    |lines| >= 2 && MayStart(s, lines[0]) && Convertible(s, lines)
    && IsRow(lines[0]) && IsRow(lines[1]) && IsDelimiter(lines[1])
  }

  lemma CandidateRows(s: State, lines: seq<Text>)
    requires Candidate(s, lines)
    ensures 2 <= Rows(lines) <= |lines|
  {
    assert Rows(lines) == 1 + Rows(lines[1..]);
  }

  function Out(s: State, raws: seq<Text>): seq<Text>
    decreases |raws|
  {
    var lines := Lines(raws);
    if raws == [] then []
    else if Candidate(s, lines) then
      CandidateRows(s, lines);
      var n := Rows(lines);
      Region(raws[..n]) + Out(AfterRegion(s, lines[..n]), raws[n..])
    else [raws[0]] + Out(Kept(s, lines[0]), raws[1..])
  }

  // ---------- Eligibility ----------

  /** A line (after any line terminator) that starts with a quote mark. */
  predicate HasQuote(text: Text) {
    exists i :: 0 <= i <= |text| && (i == 0 || LineTerminator(text[i - 1])) && BlankEnd(text, i) < |text| && text[BlankEnd(text, i)] == 0x3e
  }

  /** A line break other than a newline or a carriage return before one. */
  predicate HasOtherBreak(text: Text) {
    exists i :: 0 <= i < |text| &&
      ((text[i] == CARRIAGE && !(i + 1 < |text| && text[i + 1] == NEWLINE)) || text[i] in {0x85, 0x2028, 0x2029})
  }

  predicate HasMarker(lines: seq<Text>) {
    exists l <- lines :: Marked(l)
  }

  predicate Eligible(text: Text) {
    var lines := Lines(Split(text));
    !HasQuote(text) && (HasMarker(lines) ==> !HasOtherBreak(text)) && Balanced(Closed, lines)
  }

  function Render(text: Text): Text {
    if PIPE !in text || !Eligible(text) then text else JoinText(Out(INITIAL, Split(text)))
  }
}
