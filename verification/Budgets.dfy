/** The length budgets of rendered nodes, before and after translation (commonmark.ts:60-104, 117-159). */
module Budgets {
  import opened Utf16
  import opened Emphasis
  import opened Edits
  import opened Inline
  import opened CommonMark

  const ELLIPSIS: Code := 0x2026

  datatype LengthUnit = Utf16Units | CodePointUnits

  function Measure(t: Text, unit: LengthUnit): nat {
    if unit.Utf16Units? then |t| else Points(t)
  }

  function Clamp(k: int, n: nat): (r: nat)
    ensures r <= n && (0 <= k <= n ==> r == k)
  {
    if k < 0 then 0 else if k > n then n else k
  }

  /** The part of one segment inside the window, given where the segment starts. */
  function Cut(s: Segment, start: int, end: int): seq<Segment> {
    var from, to := Clamp(start, |s.text|), Clamp(end, |s.text|);
    if from < to then [Segment(s.text[from..to], s.span)] else []
  }

  /** The segments covering units [start, end) of their concatenation. */
  function Slice(segments: seq<Segment>, start: int, end: int): seq<Segment> {
    if segments == [] then []
    else
      var n := |segments| - 1;
      Slice(segments[..n], start, end) + Cut(segments[n], start - |LineText(segments[..n])|, end - |LineText(segments[..n])|)
  }

  method SliceSegments(segments: seq<Segment>, start: int, end: int) returns (out: seq<Segment>)
    ensures out == Slice(segments, start, end)
  {
    hide Slice, LineText, Cut;
    out := [];
    var at: nat := 0;
    var i := 0;
    SliceNone(start, end);
    assert segments[..i] == [];
    while i < |segments|
      invariant 0 <= i <= |segments| && at == |LineText(segments[..i])| && out == Slice(segments[..i], start, end)
    {
      var segment := segments[i];
      SliceStep(segments, i, start, end);
      var from := if start - at > 0 then start - at else 0;
      var to := if end - at < |segment.text| then end - at else |segment.text|;
      CutIs(segment, start - at, end - at);
      if from < to {
        out := out + [Segment(segment.text[from..to], segment.span)];
      }
      at := at + |segment.text|;
      i := i + 1;
    }
    assert segments[..i] == segments;
  }

  lemma SliceNone(start: int, end: int)
    ensures LineText([]) == [] && Slice([], start, end) == []
  {
  }

  lemma SliceStep(segments: seq<Segment>, i: nat, start: int, end: int)
    requires i < |segments|
    ensures |LineText(segments[..i + 1])| == |LineText(segments[..i])| + |segments[i].text|
    ensures var at := |LineText(segments[..i])|;
            Slice(segments[..i + 1], start, end) == Slice(segments[..i], start, end) + Cut(segments[i], start - at, end - at)
  {
    hide Cut;
    assert segments[..i + 1][..i] == segments[..i];
  }

  lemma CutIs(s: Segment, start: int, end: int)
    ensures var from, to := if start > 0 then start else 0, if end < |s.text| then end else |s.text|;
            if from < to then Cut(s, start, end) == [Segment(s.text[from..to], s.span)] else Cut(s, start, end) == []
  {
  }

  function Window(t: Text, start: int, end: int): Text {
    var from, to := Clamp(start, |t|), Clamp(end, |t|);
    if from < to then t[from..to] else []
  }

  lemma WindowNarrow(a: Text, b: Text, start: int, end: int)
    requires Clamp(start, |a| + |b|) >= Clamp(end, |a| + |b|)
    ensures Window(a + b, start, end) == [] && Window(a, start, end) == [] && Window(b, start - |a|, end - |a|) == []
  {
  }

  lemma WindowLeft(a: Text, b: Text, start: int, end: int)
    requires start < end <= |a|
    ensures Window(a + b, start, end) == Window(a, start, end) && Window(b, start - |a|, end - |a|) == []
  {
    var from, to := Clamp(start, |a|), Clamp(end, |a|);
    assert (a + b)[from..to] == a[from..to];
  }

  lemma WindowRight(a: Text, b: Text, start: int, end: int)
    requires |a| <= start < end
    ensures Window(a + b, start, end) == Window(b, start - |a|, end - |a|) && Window(a, start, end) == []
  {
    BehindPrefix(a, b, Clamp(start - |a|, |b|), Clamp(end - |a|, |b|));
  }

  lemma BehindPrefix(a: Text, b: Text, from: nat, to: nat)
    requires from <= to <= |b|
    ensures (a + b)[|a| + from..|a| + to] == b[from..to]
  {
  }

  lemma WindowBoth(a: Text, b: Text, start: int, end: int)
    requires start < |a| < end
    ensures Window(a + b, start, end) == a[Clamp(start, |a|)..] + b[..Clamp(end - |a|, |b|)]
    ensures Window(a, start, end) == a[Clamp(start, |a|)..] && Window(b, start - |a|, end - |a|) == b[..Clamp(end - |a|, |b|)]
  {
    var from, to := Clamp(start, |a|), Clamp(end - |a|, |b|);
    assert (a + b)[from..|a| + to] == a[from..] + b[..to];
  }

  lemma WindowAppend(a: Text, b: Text, start: int, end: int)
    ensures Window(a + b, start, end) == Window(a, start, end) + Window(b, start - |a|, end - |a|)
  {
    hide Window;
    if start >= end {
      WindowNarrow(a, b, start, end);
    } else if end <= |a| {
      WindowLeft(a, b, start, end);
    } else if start >= |a| {
      WindowRight(a, b, start, end);
    } else {
      WindowBoth(a, b, start, end);
    }
  }

  lemma LineTextAdd(segments: seq<Segment>, more: seq<Segment>)
    requires |more| <= 1
    ensures LineText(segments + more) == LineText(segments) + (if more == [] then [] else more[0].text)
  {
    if more == [] {
      assert segments + more == segments;
    } else {
      assert (segments + more)[..|segments + more| - 1] == segments;
    }
  }

  lemma {:induction false} LineTextAppend(a: seq<Segment>, b: seq<Segment>)
    ensures LineText(a + b) == LineText(a) + LineText(b)
    decreases |b|
  {
    if b == [] {
      assert a + b == a;
    } else {
      var n := |b| - 1;
      assert (a + b)[..|a + b| - 1] == a + b[..n];
      LineTextAppend(a, b[..n]);
    }
  }

  lemma WindowNone(start: int, end: int)
    ensures Window([], start, end) == []
  {
  }

  lemma CutText(s: Segment, start: int, end: int)
    ensures var cut := Cut(s, start, end);
            |cut| <= 1 && Window(s.text, start, end) == if cut == [] then [] else cut[0].text
  {
  }

  /** Slicing segments slices their text. */
  lemma {:induction false} SliceText(segments: seq<Segment>, start: int, end: int)
    ensures LineText(Slice(segments, start, end)) == Window(LineText(segments), start, end)
  {
    hide Window, Cut;
    if segments == [] {
      WindowNone(start, end);
    } else {
      var n := |segments| - 1;
      var at := |LineText(segments[..n])|;
      SliceText(segments[..n], start, end);
      CutText(segments[n], start - at, end - at);
      LineTextAdd(Slice(segments[..n], start, end), Cut(segments[n], start - at, end - at));
      WindowAppend(LineText(segments[..n]), segments[n].text, start, end);
    }
  }

  // ---------- Clip ----------

  /** The UTF-16 length of the first `count` code points. */
  function PointsLength(t: Text, count: nat): (n: nat)
    ensures n <= |t|
  {
    if t == [] || count == 0 then 0
    else First(t) + PointsLength(t[First(t)..], count - 1)
  }

  lemma {:induction false} PointsOfPrefix(t: Text, count: nat)
    ensures Points(t[..PointsLength(t, count)]) <= count
    decreases |t|
  {
    if t != [] && count > 0 {
      var n := First(t);
      var rest := PointsLength(t[n..], count - 1);
      PointsOfPrefix(t[n..], count - 1);
      assert t[..n + rest] == t[..n] + t[n..][..rest];
      PointsAppend(t[..n], t[n..][..rest]);
      PointsOfFirst(t);
    }
  }

  lemma PointsOfFirst(t: Text)
    requires t != []
    ensures Points(t[..First(t)]) == 1
  {
  }

  function HeadSegments(segments: seq<Segment>, count: nat, unit: LengthUnit): seq<Segment> {
    Slice(segments, 0, if unit.Utf16Units? then count else PointsLength(LineText(segments), count))
  }

  function TrimStart(t: Text): (n: nat)
    ensures n <= |t|
  {
    if t != [] && WhitespaceCode(t[0]) then 1 + TrimStart(t[1..]) else 0
  }

  function TrimEnd(t: Text): (n: nat)
    ensures n <= |t|
  {
    if t != [] && WhitespaceCode(t[|t| - 1]) then TrimEnd(t[..|t| - 1]) else |t|
  }

  function Trimmed(segments: seq<Segment>): seq<Segment> {
    var t := LineText(segments);
    if TrimStart(t) >= TrimEnd(t) then [] else Slice(segments, TrimStart(t), TrimEnd(t))
  }

  function Clip(content: seq<Segment>, after: seq<Segment>, maxChars: int, unit: LengthUnit, trim: bool): seq<Segment> {
    var budget := maxChars - Measure(LineText(after), unit);
    var text := if trim then Trimmed(content) else content;
    if Measure(LineText(text), unit) <= budget then text + after
    else if budget <= 0 then after
    else HeadSegments(text, budget - 1, unit) + [Segment([ELLIPSIS], false)] + after
  }

  lemma MeasureAppend(a: Text, b: Text, unit: LengthUnit)
    ensures Measure(a + b, unit) <= Measure(a, unit) + Measure(b, unit)
  {
    PointsAppend(a, b);
  }

  lemma HeadFits(segments: seq<Segment>, count: nat, unit: LengthUnit)
    ensures Measure(LineText(HeadSegments(segments, count, unit)), unit) <= count
  {
    hide Points, LineText, Slice;
    var t := LineText(segments);
    if unit.Utf16Units? {
      SliceText(segments, 0, count);
    } else {
      var n := PointsLength(t, count);
      SliceText(segments, 0, n);
      PointsOfPrefix(t, count);
      assert Window(t, 0, n) == t[..n];
    }
  }

  /** A clip keeps its budget exactly when what follows the clipped text does. */
  lemma ClipKeepsBudget(content: seq<Segment>, after: seq<Segment>, maxChars: int, unit: LengthUnit, trim: bool)
    ensures Measure(LineText(Clip(content, after, maxChars, unit, trim)), unit) <= maxChars
            <==> Measure(LineText(after), unit) <= maxChars
  {
    hide Points, LineText, Slice, HeadSegments, Trimmed;
    var budget := maxChars - Measure(LineText(after), unit);
    var text := if trim then Trimmed(content) else content;
    if Measure(LineText(text), unit) <= budget {
      LineTextAppend(text, after);
      MeasureAppend(LineText(text), LineText(after), unit);
    } else if budget > 0 {
      var head := HeadSegments(text, budget - 1, unit);
      var dots: seq<Segment> := [Segment([ELLIPSIS], false)];
      HeadFits(text, budget - 1, unit);
      Dots(unit);
      LineTextAppend(head, dots);
      LineTextAppend(head + dots, after);
      MeasureAppend(LineText(head), LineText(dots), unit);
      MeasureAppend(LineText(head) + LineText(dots), LineText(after), unit);
    }
  }

  lemma Dots(unit: LengthUnit)
    ensures LineText([Segment([ELLIPSIS], false)]) == [ELLIPSIS] && Measure([ELLIPSIS], unit) == 1
  {
    assert [Segment([ELLIPSIS], false)][..0] == [];
    assert [] + [ELLIPSIS] == [ELLIPSIS];
    var dots: Text := [ELLIPSIS];
    assert |dots| == 1 && |dots[1..]| == 0;
    assert Points(dots) == 1 + Points(dots[1..]);
  }

  // ---------- Fit lines ----------

  datatype Line = Line(content: seq<Segment>, droppable: bool)

  datatype Note = NoNote | Note(text: Text)

  /** The lines kept when the droppable ones from `cut` on are left out. */
  function Keeping(lines: seq<Line>, cut: nat, n: nat): (kept: seq<nat>)
    requires n <= |lines|
    ensures forall j :: 0 <= j < |kept| ==> kept[j] < n
  {
    if n == 0 then []
    else
      var front := Keeping(lines, cut, n - 1);
      if !lines[n - 1].droppable || n - 1 < cut then front + [n - 1] else front
  }

  function JoinedLines(lines: seq<Line>, kept: seq<nat>): seq<Segment>
    requires forall j :: 0 <= j < |kept| ==> kept[j] < |lines|
  {
    if kept == [] then []
    else
      var last := lines[kept[|kept| - 1]].content;
      if |kept| == 1 then last else JoinedLines(lines, kept[..|kept| - 1]) + [Segment([NEWLINE], false)] + last
  }

  function Shown(lines: seq<Line>, kept: seq<nat>, note: Note): seq<Segment>
    requires forall j :: 0 <= j < |kept| ==> kept[j] < |lines|
  {
    var text := JoinedLines(lines, kept);
    if |kept| < |lines| && note.Note? then text + [Segment([NEWLINE] + note.text, false)] else text
  }

  /** The segments shown when the droppable lines from `cut` on are left out. */
  function ShownAt(lines: seq<Line>, cut: nat, note: Note): seq<Segment> {
    Shown(lines, Keeping(lines, cut, |lines|), note)
  }

  predicate Fits(lines: seq<Line>, cut: nat, note: Note, maxChars: int) {
    |LineText(ShownAt(lines, cut, note))| <= maxChars
  }

  /** The last droppable line below `cut`, or -1. */
  function LastDroppable(lines: seq<Line>, cut: nat): (d: int)
    requires cut <= |lines|
    ensures -1 <= d < cut && (d >= 0 ==> lines[d].droppable) && forall k :: d < k < cut ==> !lines[k].droppable
  {
    if cut == 0 then -1 else if lines[cut - 1].droppable then cut - 1 else LastDroppable(lines, cut - 1)
  }

  /** Moving `cut` below the last droppable line takes exactly that line out. */
  lemma {:induction false} KeepingLess(lines: seq<Line>, cut: nat, d: nat, n: nat)
    requires n <= |lines| && d < cut <= |lines| && lines[d].droppable && forall k :: d < k < cut ==> !lines[k].droppable
    ensures n <= d ==> Keeping(lines, d, n) == Keeping(lines, cut, n)
    ensures n > d ==>
              var p := |Keeping(lines, cut, d)|;
              && p < |Keeping(lines, cut, n)| && Keeping(lines, cut, n)[p] == d
              && Keeping(lines, d, n) == Keeping(lines, cut, n)[..p] + Keeping(lines, cut, n)[p + 1..]
    decreases n
  {
    if n > 0 {
      KeepingLess(lines, cut, d, n - 1);
      if n - 1 == d {
        var k := Keeping(lines, cut, n);
        assert k == Keeping(lines, cut, d) + [d];
        assert Keeping(lines, d, n) == Keeping(lines, cut, d);
      }
    }
  }

  /** Cuts with no droppable line between them keep the same lines. */
  lemma {:induction false} KeepingSame(lines: seq<Line>, a: nat, b: nat, n: nat)
    requires n <= |lines| && a <= b <= |lines| && forall k :: a <= k < b ==> !lines[k].droppable
    ensures Keeping(lines, a, n) == Keeping(lines, b, n)
    decreases n
  {
    if n > 0 {
      KeepingSame(lines, a, b, n - 1);
    }
  }

  lemma {:induction false} KeepingAll(lines: seq<Line>, n: nat)
    requires n <= |lines|
    ensures Keeping(lines, |lines|, n) == seq(n, i => i)
    decreases n
  {
    if n > 0 {
      KeepingAll(lines, n - 1);
      assert seq(n, i => i) == seq(n - 1, i => i) + [n - 1];
    }
  }

  /** The last index into `kept` whose line is droppable, or -1. */
  method FindDroppable(lines: seq<Line>, kept: seq<nat>) returns (at: int)
    requires forall j :: 0 <= j < |kept| ==> kept[j] < |lines|
    ensures -1 <= at < |kept|
    ensures at >= 0 ==> lines[kept[at]].droppable
    ensures forall j :: at < j < |kept| ==> !lines[kept[j]].droppable
  {
    at := |kept| - 1;
    while at >= 0 && !lines[kept[at]].droppable
      invariant -1 <= at < |kept|
      invariant forall j :: at < j < |kept| ==> !lines[kept[j]].droppable
    {
      at := at - 1;
    }
  }

  /** The kept line found from the end is the last droppable line below the cut. */
  lemma FoundIsLast(lines: seq<Line>, cut: nat, at: int)
    requires cut <= |lines|
    requires var kept := Keeping(lines, cut, |lines|);
             && -1 <= at < |kept| && (at >= 0 ==> lines[kept[at]].droppable)
             && forall j :: at < j < |kept| ==> !lines[kept[j]].droppable
    ensures var d, kept := LastDroppable(lines, cut), Keeping(lines, cut, |lines|);
            && (at < 0 <==> d < 0)
            && (at >= 0 ==> kept[at] == d && Keeping(lines, d, |lines|) == kept[..at] + kept[at + 1..])
  {
    hide Keeping, LastDroppable;
    var d, kept := LastDroppable(lines, cut), Keeping(lines, cut, |lines|);
    if d >= 0 {
      KeepingLess(lines, cut, d, |lines|);
      var p := |Keeping(lines, cut, d)|;
      assert lines[kept[p]].droppable;
      assert at >= p;
      if at > p {
        KeepingAfter(lines, cut, d, |lines|, at);
      }
    } else if at >= 0 {
      KeepingBelow(lines, cut, |lines|, kept[at]);
    }
  }

  lemma {:induction false} KeepingBelow(lines: seq<Line>, cut: nat, n: nat, k: nat)
    requires n <= |lines| && k in Keeping(lines, cut, n)
    ensures k < n && (!lines[k].droppable || k < cut)
    decreases n
  {
    if n > 0 && k in Keeping(lines, cut, n - 1) {
      KeepingBelow(lines, cut, n - 1, k);
    }
  }

  /** Past the last droppable line below the cut, only fixed lines are kept. */
  lemma {:induction false} KeepingAfter(lines: seq<Line>, cut: nat, d: nat, n: nat, j: nat)
    requires d < n <= |lines| && d < cut <= |lines| && lines[d].droppable && forall k :: d < k < cut ==> !lines[k].droppable
    requires |Keeping(lines, cut, d)| < j < |Keeping(lines, cut, n)|
    ensures !lines[Keeping(lines, cut, n)[j]].droppable
    decreases n
  {
    if n - 1 > d && j < |Keeping(lines, cut, n - 1)| {
      KeepingAfter(lines, cut, d, n - 1, j);
    }
  }

  /** `out` shows the lines kept at `cut`: every cut that keeps more does not fit; when this one does not fit either, no
      droppable line is left and the text is cut. */
  ghost predicate FitsAtCut(lines: seq<Line>, note: Note, maxChars: int, cut: nat, out: seq<Segment>) {
    && cut <= |lines|
    && (forall c :: cut < c <= |lines| && Keeping(lines, c, |lines|) != Keeping(lines, cut, |lines|) ==> !Fits(lines, c, note, maxChars))
    && (if Fits(lines, cut, note, maxChars) then out == ShownAt(lines, cut, note)
        else LastDroppable(lines, cut) < 0
             && out == Slice(ShownAt(lines, cut, note), 0, maxChars - 1) + [Segment([ELLIPSIS], false)])
    && (|LineText(out)| <= maxChars <==> (maxChars >= 1 || Fits(lines, cut, note, maxChars)))
  }

  /** As few droppable lines as possible are left out, the last ones first; the result meets the budget unless it is below
      one unit and the fixed lines do not fit. */
  method FitLines(lines: seq<Line>, note: Note, maxChars: int) returns (out: seq<Segment>)
    ensures exists cut: nat :: FitsAtCut(lines, note, maxChars, cut, out)
  {
    hide Keeping, LastDroppable, Shown, ShownAt, LineText, Slice, JoinedLines, Fits;
    ghost var cut;
    var kept;
    kept, cut := KeepFitting(lines, note, maxChars);
    ShownIs(lines, cut, note, maxChars);
    var text := Shown(lines, kept, note);
    if |LineText(text)| <= maxChars {
      out := text;
    } else {
      out := CutToFit(text, maxChars);
    }
    assert FitsAtCut(lines, note, maxChars, cut, out);
  }

  lemma ShownIs(lines: seq<Line>, cut: nat, note: Note, maxChars: int)
    requires cut <= |lines|
    ensures ShownAt(lines, cut, note) == Shown(lines, Keeping(lines, cut, |lines|), note)
    ensures Fits(lines, cut, note, maxChars) <==> |LineText(ShownAt(lines, cut, note))| <= maxChars
  {
  }

  /** Leave out droppable lines, the last one first, until the rest fits or none is left. */
  method KeepFitting(lines: seq<Line>, note: Note, maxChars: int) returns (kept: seq<nat>, ghost cut: nat)
    ensures cut <= |lines| && kept == Keeping(lines, cut, |lines|)
    ensures forall c :: cut < c <= |lines| && Keeping(lines, c, |lines|) != kept ==> !Fits(lines, c, note, maxChars)
    ensures Fits(lines, cut, note, maxChars) || LastDroppable(lines, cut) < 0
  {
    hide *;
    kept := seq(|lines|, i => i);
    cut := |lines|;
    KeepingAll(lines, |lines|);
    ShownIs(lines, cut, note, maxChars);
    while |LineText(Shown(lines, kept, note))| > maxChars
      invariant cut <= |lines| && kept == Keeping(lines, cut, |lines|)
      invariant Fits(lines, cut, note, maxChars) <==> |LineText(Shown(lines, kept, note))| <= maxChars
      invariant forall c :: cut < c <= |lines| && Keeping(lines, c, |lines|) != kept ==> !Fits(lines, c, note, maxChars)
      decreases |kept|
    {
      var at := FindDroppable(lines, kept);
      FoundIsLast(lines, cut, at);
      if at < 0 {
        break;
      }
      ghost var d := LastDroppable(lines, cut);
      MoveCut(lines, note, maxChars, cut, d);
      kept := kept[..at] + kept[at + 1..];
      cut := d;
      ShownIs(lines, cut, note, maxChars);
    }
  }

  method CutToFit(text: seq<Segment>, maxChars: int) returns (out: seq<Segment>)
    requires |LineText(text)| > maxChars
    ensures out == Slice(text, 0, maxChars - 1) + [Segment([ELLIPSIS], false)]
    ensures |LineText(out)| <= maxChars <==> maxChars >= 1
  {
    hide LineText, Slice;
    var head := SliceSegments(text, 0, maxChars - 1);
    out := head + [Segment([ELLIPSIS], false)];
    SliceText(text, 0, maxChars - 1);
    Dots(Utf16Units);
    LineTextAppend(head, [Segment([ELLIPSIS], false)]);
  }

  lemma MoveCut(lines: seq<Line>, note: Note, maxChars: int, cut: nat, d: nat)
    requires cut <= |lines| && d == LastDroppable(lines, cut) && !Fits(lines, cut, note, maxChars)
    requires forall c :: cut < c <= |lines| && Keeping(lines, c, |lines|) != Keeping(lines, cut, |lines|) ==> !Fits(lines, c, note, maxChars)
    ensures forall c :: d < c <= |lines| && Keeping(lines, c, |lines|) != Keeping(lines, d, |lines|) ==> !Fits(lines, c, note, maxChars)
  {
    hide Keeping, Shown, LineText;
    forall c | d < c <= |lines| && Keeping(lines, c, |lines|) != Keeping(lines, d, |lines|) ensures !Fits(lines, c, note, maxChars) {
      if c <= cut {
        KeepingSame(lines, c, cut, |lines|);
      }
    }
  }

  // ---------- After translation ----------

  /** A budget met by the rendered text is met by its translation, in either unit. */
  lemma TranslationKeepsBudget(segments: seq<Segment>, punctuation: Text -> bool, unit: LengthUnit)
    ensures Measure(Flat(Translated(segments, punctuation)), unit) <= Measure(LineText(segments), unit)
  {
    hide Points, Flat, LineText, Translated;
    TranslationIsAnEdit(segments, punctuation);
    LineFlat(segments);
  }

  lemma ClipBudgetSurvives(content: seq<Segment>, after: seq<Segment>, maxChars: int, unit: LengthUnit, trim: bool, punctuation: Text -> bool)
    requires Measure(LineText(after), unit) <= maxChars
    ensures Measure(Flat(Translated(Clip(content, after, maxChars, unit, trim), punctuation)), unit) <= maxChars
  {
    hide Measure, Flat, LineText, Translated, Clip;
    ClipKeepsBudget(content, after, maxChars, unit, trim);
    TranslationKeepsBudget(Clip(content, after, maxChars, unit, trim), punctuation, unit);
  }
}
