/** The line rules and the whole translation (commonmark.ts:208-249, 504-576). */
module CommonMark {
  import opened Utf16
  import opened Emphasis
  import opened Edits
  import opened Inline

  const HASH: Code := 0x23
  const NEWLINE_UNIT := Unit([NEWLINE], false)

  // ---------- Units of copy ----------

  /** How many code units the first code point takes. */
  function First(t: Text): (n: nat)
    requires t != []
    ensures 1 <= n <= 2 && n <= |t|
  {
    if |t| >= 2 && HighSurrogate(t[0]) && LowSurrogate(t[1]) then 2 else 1
  }

  lemma CodePointsStep(t: Text)
    requires t != []
    ensures CodePoints(t) == [Unit(t[..First(t)], false)] + CodePoints(t[First(t)..])
  {
  }

  lemma {:induction false} CodePointsAppend(a: Text, b: Text)
    requires !(Open(a) && StartsLow(b))
    ensures CodePoints(a + b) == CodePoints(a) + CodePoints(b)
    decreases |a|
  {
    hide CodePoints;
    if a == [] {
      assert a + b == b;
      CodePointsNone();
    } else {
      var n := First(a);
      assert First(a + b) == n;
      assert (a + b)[n..] == a[n..] + b && (a + b)[..n] == a[..n];
      CodePointsStep(a);
      CodePointsStep(a + b);
      CodePointsAppend(a[n..], b);
      AssocOne(Unit(a[..n], false), CodePoints(a[n..]), CodePoints(b));
    }
  }

  lemma AssocOne(u: Unit, x: seq<Unit>, y: seq<Unit>)
    ensures ([u] + x) + y == [u] + (x + y)
  {
  }

  lemma CodePointsNone()
    ensures CodePoints([]) == []
  {
  }

  lemma CodePointsOne(c: Code)
    ensures CodePoints([c]) == [Unit([c], false)]
  {
    assert [c][..1] == [c];
    var rest: Text := [c][1..];
    assert |rest| == 0;
  }

  /** Splitting copy at an ordinary code unit. */
  lemma CodePointsAt(t: Text, k: nat)
    requires k < |t| && !HighSurrogate(t[k]) && !LowSurrogate(t[k])
    ensures CodePoints(t) == CodePoints(t[..k]) + [Unit([t[k]], false)] + CodePoints(t[k + 1..])
  {
    hide CodePoints;
    assert t == t[..k] + ([t[k]] + t[k + 1..]);
    CodePointsAppend(t[..k], [t[k]] + t[k + 1..]);
    CodePointsAppend([t[k]], t[k + 1..]);
    CodePointsOne(t[k]);
  }

  lemma {:induction false} CodePointsFlat(t: Text)
    ensures Flat(CodePoints(t)) == t
    decreases |t|
  {
    if t != [] {
      var n := if |t| >= 2 && HighSurrogate(t[0]) && LowSurrogate(t[1]) then 2 else 1;
      var one: seq<Unit> := [Unit(t[..n], false)];
      CodePointsFlat(t[n..]);
      FlatAppend(one, CodePoints(t[n..]));
      assert one[..0] == [];
      assert Flat(one) == [] + t[..n];
    }
  }

  // ---------- Lines ----------

  function Piece(t: Text): seq<Segment> {
    if t == [] then [] else [Segment(t, false)]
  }

  /** The lines after the pieces of one copy segment: the first one ends the open line, each other one starts a line. */
  function AddPieces(lines: seq<seq<Segment>>, pieces: seq<Text>): (r: seq<seq<Segment>>)
    requires lines != []
    ensures r != []
  {
    if pieces == [] then lines
    else
      var front, last := AddPieces(lines, pieces[..|pieces| - 1]), pieces[|pieces| - 1];
      if |pieces| == 1 then front[..|front| - 1] + [front[|front| - 1] + Piece(last)]
      else front + [Piece(last)]
  }

  lemma AddPiecesStep(lines: seq<seq<Segment>>, pieces: seq<Text>, piece: Text)
    requires lines != []
    ensures var front := AddPieces(lines, pieces);
            AddPieces(lines, pieces + [piece]) ==
              if pieces == [] then front[..|front| - 1] + [front[|front| - 1] + Piece(piece)] else front + [Piece(piece)]
  {
    assert (pieces + [piece])[..|pieces|] == pieces;
  }

  function AddSegment(lines: seq<seq<Segment>>, s: Segment): (r: seq<seq<Segment>>)
    requires lines != []
    ensures r != []
  {
    if s.span then lines[..|lines| - 1] + [lines[|lines| - 1] + [s]] else AddPieces(lines, Split(s.text))
  }

  function Lines(segments: seq<Segment>): (r: seq<seq<Segment>>)
    ensures r != []
  {
    if segments == [] then [[]] else AddSegment(Lines(segments[..|segments| - 1]), segments[|segments| - 1])
  }

  method SplitLines(segments: seq<Segment>) returns (lines: seq<seq<Segment>>)
    ensures lines == Lines(segments)
  {
    hide AddPieces, Split;
    lines := [[]];
    var i := 0;
    while i < |segments|
      invariant 0 <= i <= |segments| && lines == Lines(segments[..i])
    {
      var segment := segments[i];
      assert segments[..i + 1][..i] == segments[..i];
      if segment.span {
        lines := lines[..|lines| - 1] + [lines[|lines| - 1] + [segment]];
      } else {
        lines := PushPieces(lines, Split(segment.text));
      }
      i := i + 1;
    }
    assert segments[..i] == segments;
  }

  method PushPieces(lines0: seq<seq<Segment>>, pieces: seq<Text>) returns (lines: seq<seq<Segment>>)
    requires lines0 != []
    ensures lines == AddPieces(lines0, pieces)
  {
    hide *;
    lines := lines0;
    var index := 0;
    AddPiecesNone(lines);
    assert pieces[..index] == [];
    while index < |pieces|
      invariant 0 <= index <= |pieces| && lines == AddPieces(lines0, pieces[..index])
    {
      AddPiecesStep(lines0, pieces[..index], pieces[index]);
      assert pieces[..index + 1] == pieces[..index] + [pieces[index]];
      lines := PushPiece(lines, index, pieces[index]);
      index := index + 1;
    }
    assert pieces[..index] == pieces;
  }

  lemma AddPiecesNone(lines: seq<seq<Segment>>)
    requires lines != []
    ensures AddPieces(lines, []) == lines
  {
  }

  method PushPiece(lines0: seq<seq<Segment>>, index: nat, piece: Text) returns (lines: seq<seq<Segment>>)
    requires lines0 != []
    ensures lines == if index == 0 then lines0[..|lines0| - 1] + [lines0[|lines0| - 1] + Piece(piece)] else lines0 + [Piece(piece)]
  {
    lines := lines0;
    if index > 0 {
      lines := lines + [[]];
    }
    assert lines[|lines| - 1] + [] == lines[|lines| - 1];
    assert lines[..|lines| - 1] + [lines[|lines| - 1]] == lines;
    assert index > 0 ==> lines[..|lines| - 1] == lines0 && [] + Piece(piece) == Piece(piece);
    if piece != [] {
      lines := lines[..|lines| - 1] + [lines[|lines| - 1] + [Segment(piece, false)]];
    }
  }

  /** Lines of units, with a newline unit between two of them. */
  function Joined(lines: seq<seq<Unit>>): seq<Unit> {
    if lines == [] then []
    else if |lines| == 1 then lines[0]
    else Joined(lines[..|lines| - 1]) + [NEWLINE_UNIT] + lines[|lines| - 1]
  }

  function LineUnits(lines: seq<seq<Segment>>): (r: seq<seq<Unit>>)
    ensures |r| == |lines| && forall k :: 0 <= k < |lines| ==> r[k] == UnitsOf(lines[k])
  {
    seq(|lines|, k requires 0 <= k < |lines| => UnitsOf(lines[k]))
  }

  lemma JoinedLine(lines: seq<seq<Unit>>, line: seq<Unit>)
    requires lines != []
    ensures Joined(lines + [line]) == Joined(lines) + [NEWLINE_UNIT] + line
  {
    assert (lines + [line])[..|lines|] == lines;
  }

  lemma JoinedSingle(line: seq<Unit>)
    ensures Joined([line]) == line
  {
  }

  lemma JoinedMore(front: seq<seq<Unit>>, last: seq<Unit>, more: seq<Unit>)
    ensures Joined(front + [last + more]) == Joined(front + [last]) + more
  {
    hide Joined;
    if front == [] {
      assert front + [last + more] == [last + more] && front + [last] == [last];
      JoinedSingle(last);
      JoinedSingle(last + more);
    } else {
      JoinedLine(front, last);
      JoinedLine(front, last + more);
      Regrouped(Joined(front), last, more);
    }
  }

  lemma Regrouped(a: seq<Unit>, last: seq<Unit>, more: seq<Unit>)
    ensures a + [NEWLINE_UNIT] + (last + more) == (a + [NEWLINE_UNIT] + last) + more
  {
  }

  lemma UnitsMore(line: seq<Segment>, s: Segment)
    ensures UnitsOf(line + [s]) == UnitsOf(line) + SegmentUnits(s)
  {
    assert (line + [s])[..|line|] == line;
  }

  lemma UnitsPiece(line: seq<Segment>, t: Text)
    ensures UnitsOf(line + Piece(t)) == UnitsOf(line) + CodePoints(t)
  {
    if t == [] {
      assert line + Piece(t) == line;
    } else {
      UnitsMore(line, Segment(t, false));
    }
  }

  function PieceUnits(pieces: seq<Text>): (r: seq<seq<Unit>>)
    ensures |r| == |pieces| && forall k :: 0 <= k < |pieces| ==> r[k] == CodePoints(pieces[k])
  {
    seq(|pieces|, k requires 0 <= k < |pieces| => CodePoints(pieces[k]))
  }

  lemma LineUnitsLast(lines: seq<seq<Segment>>, line: seq<Segment>)
    ensures LineUnits(lines + [line]) == LineUnits(lines) + [UnitsOf(line)]
  {
  }

  lemma {:induction false} SplitUnits(t: Text)
    ensures Joined(PieceUnits(Split(t))) == CodePoints(t)
    decreases |t|
  {
    var k := LastIndex(t, NEWLINE, |t|);
    if k >= 0 {
      SplitUnits(t[..k]);
      CodePointsAt(t, k);
      assert PieceUnits(Split(t)) == PieceUnits(Split(t[..k])) + [CodePoints(t[k + 1..])];
      JoinedLine(PieceUnits(Split(t[..k])), CodePoints(t[k + 1..]));
    }
  }

  lemma {:induction false} AddPiecesUnits(lines: seq<seq<Segment>>, pieces: seq<Text>)
    requires lines != []
    ensures Joined(LineUnits(AddPieces(lines, pieces))) == Joined(LineUnits(lines)) + Joined(PieceUnits(pieces))
    decreases |pieces|
  {
    hide Joined, AddPieces, Piece, UnitsOf, CodePoints;
    if pieces == [] {
      NoPieces(lines);
    } else {
      var n := |pieces| - 1;
      var front, last := AddPieces(lines, pieces[..n]), pieces[n];
      AddPiecesUnits(lines, pieces[..n]);
      AddPiecesStep(lines, pieces[..n], last);
      assert pieces[..n] + [last] == pieces;
      assert PieceUnits(pieces) == PieceUnits(pieces[..n]) + [CodePoints(last)];
      if n == 0 {
        NoPieces(lines);
        UnitsPiece(front[|front| - 1], last);
        LastLineMore(front, Piece(last), CodePoints(last));
        assert PieceUnits(pieces) == [CodePoints(last)];
        JoinedSingle(CodePoints(last));
      } else {
        AddedLine(front, last);
        JoinedLine(PieceUnits(pieces[..n]), CodePoints(last));
        AssocLine(Joined(LineUnits(lines)), Joined(PieceUnits(pieces[..n])), CodePoints(last));
      }
    }
  }

  lemma AssocLine(a: seq<Unit>, b: seq<Unit>, c: seq<Unit>)
    ensures (a + b) + [NEWLINE_UNIT] + c == a + (b + [NEWLINE_UNIT] + c)
  {
  }

  lemma NoPieces(lines: seq<seq<Segment>>)
    requires lines != []
    ensures AddPieces(lines, []) == lines && Joined(PieceUnits([])) == []
    ensures Joined(LineUnits(lines)) + [] == Joined(LineUnits(lines))
  {
  }

  lemma AddedLine(front: seq<seq<Segment>>, last: Text)
    requires front != []
    ensures Joined(LineUnits(front + [Piece(last)])) == Joined(LineUnits(front)) + [NEWLINE_UNIT] + CodePoints(last)
  {
    hide Joined;
    LineUnitsLast(front, Piece(last));
    UnitsPiece([], last);
    assert [] + Piece(last) == Piece(last);
    assert UnitsOf(Piece(last)) == CodePoints(last);
    JoinedLine(LineUnits(front), CodePoints(last));
  }

  lemma LastLineMore(lines: seq<seq<Segment>>, more: seq<Segment>, units: seq<Unit>)
    requires lines != [] && UnitsOf(lines[|lines| - 1] + more) == UnitsOf(lines[|lines| - 1]) + units
    ensures Joined(LineUnits(lines[..|lines| - 1] + [lines[|lines| - 1] + more])) == Joined(LineUnits(lines)) + units
  {
    hide Joined, UnitsOf;
    var n := |lines| - 1;
    assert lines == lines[..n] + [lines[n]];
    LineUnitsLast(lines[..n], lines[n] + more);
    LineUnitsLast(lines[..n], lines[n]);
    JoinedMore(LineUnits(lines[..n]), UnitsOf(lines[n]), units);
  }

  /** The lines, joined by newlines, are the segments, unit for unit. */
  lemma {:induction false} LinesAreSegments(segments: seq<Segment>)
    ensures Joined(LineUnits(Lines(segments))) == UnitsOf(segments)
  {
    if segments == [] {
      assert LineUnits([[]])[0] == [];
    } else {
      var n := |segments| - 1;
      var lines, s := Lines(segments[..n]), segments[n];
      LinesAreSegments(segments[..n]);
      if s.span {
        UnitsMore(lines[|lines| - 1], s);
        LastLineMore(lines, [s], SegmentUnits(s));
      } else {
        AddPiecesUnits(lines, Split(s.text));
        SplitUnits(s.text);
      }
    }
  }

  lemma {:induction false} UnitsConcat(a: seq<Segment>, b: seq<Segment>)
    ensures UnitsOf(a + b) == UnitsOf(a) + UnitsOf(b)
    decreases |b|
  {
    hide UnitsOf, SegmentUnits;
    if b == [] {
      assert a + b == a;
      NoUnits();
    } else {
      var n := |b| - 1;
      assert a + b == (a + b[..n]) + [b[n]] && b == b[..n] + [b[n]];
      UnitsConcat(a, b[..n]);
      UnitsMore(a + b[..n], b[n]);
      UnitsMore(b[..n], b[n]);
    }
  }

  lemma NoUnits()
    ensures UnitsOf([]) == []
  {
  }

  // ---------- Line rules ----------

  /** The end of at most `limit` spaces from `i`. */
  function IndentEnd(t: Text, i: nat, limit: nat): (e: nat)
    requires i <= |t|
    ensures i <= e <= |t| && forall k :: i <= k < e ==> t[k] == SPACE
    decreases limit
  {
    if limit > 0 && i < |t| && t[i] == SPACE then IndentEnd(t, i + 1, limit - 1) else i
  }

  function SameStart(t: Text, c: Code, i: nat): (s: nat)
    requires i <= |t|
    ensures s <= i && forall k :: s <= k < i ==> t[k] == c
  {
    if i > 0 && t[i - 1] == c then SameStart(t, c, i - 1) else i
  }

  /** The end of a heading's marker and blanks, or -1: up to three spaces, one to six `#`, then a blank or the end. */
  function HeadingEnd(t: Text): (e: int)
    ensures -1 <= e <= |t|
    ensures forall k :: 0 <= k < e ==> BlankCode(t[k]) || t[k] == HASH
  {
    var i := IndentEnd(t, 0, 3);
    var h := SameEnd(t, HASH, i);
    var e := BlankEnd(t, h);
    if 1 <= h - i <= 6 && (e > h || h == |t|) then e else -1
  }

  /** Where a heading's closing run starts: blanks, `#`s, blanks to the end; else the end. */
  function HeadingCloseStart(t: Text): (s: nat)
    ensures s <= |t| && (s < |t| ==> BlankCode(t[s]))
  {
    var e := BlankStart(t, |t|);
    var h := SameStart(t, HASH, e);
    var s := BlankStart(t, h);
    if s < h < e then s else |t|
  }

  predicate IsBullet(t: Text) {
    var i := BlankEnd(t, 0);
    i < |t| && t[i] in {0x2d, STAR, 0x2b} && BlankEnd(t, i + 1) > i + 1
  }

  /** The marker and the blanks after it become a bullet sign and one space. */
  function Bulleted(t: Text): Text
    requires IsBullet(t)
  {
    var i := BlankEnd(t, 0);
    t[..i] + [BULLET_SIGN, SPACE] + t[BlankEnd(t, i + 1)..]
  }

  /** The end of the `> ` marks from `i`. */
  function MarksEnd(t: Text, i: nat): (e: nat)
    requires i <= |t|
    ensures i <= e <= |t| && forall k :: i <= k < e ==> t[k] == 0x3e || t[k] == SPACE
    decreases |t| - i
  {
    if i + 1 < |t| && t[i] == 0x3e && t[i + 1] == SPACE then MarksEnd(t, i + 2) else i
  }

  /** The end of the quote marks: `> ` marks, or a lone `>` that ends the text; the indentation's end when there is none. */
  function QuoteEnd(t: Text): (e: nat)
    ensures IndentEnd(t, 0, 3) <= e <= |t|
    ensures forall k :: IndentEnd(t, 0, 3) <= k < e ==> t[k] == 0x3e || t[k] == SPACE
  {
    var i := IndentEnd(t, 0, 3);
    if MarksEnd(t, i) > i then MarksEnd(t, i) else if i + 1 == |t| && t[i] == 0x3e then i + 1 else i
  }

  function Barred(t: Text): (r: Text)
    ensures |r| == |t| && forall k :: 0 <= k < |t| ==> r[k] == if t[k] == 0x3e then BAR_SIGN else t[k]
  {
    seq(|t|, k requires 0 <= k < |t| => if t[k] == 0x3e then BAR_SIGN else t[k])
  }

  predicate HasQuoteMark(t: Text) {
    exists k :: 0 <= k && k + 1 < |t| && t[k] == 0x3e && t[k + 1] == SPACE
  }

  function QuoteBars(t: Text): Text {
    var i, e := IndentEnd(t, 0, 3), QuoteEnd(t);
    t[..i] + Barred(t[i..e]) + t[e..]
  }

  function CloseHeading(line: seq<Segment>): seq<Segment> {
    if line == [] || line[|line| - 1].span then line
    else
      var t := line[|line| - 1].text;
      if HeadingCloseStart(t) == |t| then line
      else line[..|line| - 1] + [Segment(t[..HeadingCloseStart(t)], false)]
  }

  /** The line rules: heading, bullet and quote, on the first segment when it is copy. */
  function Rewritten(line: seq<Segment>): seq<Segment> {
    if line == [] || line[0].span then line
    else
      var t := line[0].text;
      if HeadingEnd(t) >= 0 then CloseHeading(Piece(t[HeadingEnd(t)..]) + line[1..])
      else if IsBullet(t) then [Segment(Bulleted(t), false)] + line[1..]
      else if QuoteEnd(t) > IndentEnd(t, 0, 3) && (|line| == 1 || HasQuoteMark(t)) then [Segment(QuoteBars(t), false)] + line[1..]
      else line
  }

  predicate CopyOnly(line: seq<Segment>) {
    forall s <- line :: !s.span
  }

  function LineText(line: seq<Segment>): Text {
    if line == [] then [] else LineText(line[..|line| - 1]) + line[|line| - 1].text
  }

  function Count(t: Text, c: Code): nat {
    if t == [] then 0 else Count(t[..|t| - 1], c) + if t[|t| - 1] == c then 1 else 0
  }

  /** Up to three spaces, then at least three of one of `-`, `*`, `_` with only blanks between and after. */
  predicate ThematicBreak(t: Text) {
    var i := IndentEnd(t, 0, 3);
    i < |t| && t[i] in {0x2d, STAR, 0x5f} && Count(t[i..], t[i]) >= 3 && forall k :: i <= k < |t| ==> t[k] == t[i] || BlankCode(t[k])
  }

  ghost function TranslatedLine(line: seq<Segment>, punctuation: Text -> bool): seq<Unit> {
    if CopyOnly(line) && ThematicBreak(LineText(line)) then UnitsOf(line)
    else Inlined(UnitsOf(Rewritten(line)), punctuation)
  }

  // ---------- The line rules are edits ----------

  lemma DropPrefix(t: Text, n: nat)
    requires n <= |t| && forall k :: 0 <= k < n ==> t[k] < 0xd800
    ensures Edited(CodePoints(t), CodePoints(t[n..]))
  {
    hide CodePoints, Edited;
    assert t == t[..n] + t[n..];
    CodePointsAppend(t[..n], t[n..]);
    CopyUnits(t[..n]);
    Drops(CodePoints(t[..n]));
    Keeps(CodePoints(t[n..]));
    Joins(CodePoints(t[..n]), [], CodePoints(t[n..]), CodePoints(t[n..]));
    assert [] + CodePoints(t[n..]) == CodePoints(t[n..]);
  }

  lemma DropSuffix(t: Text, n: nat)
    requires n <= |t| && (n < |t| ==> t[n] < 0xd800)
    ensures Edited(CodePoints(t), CodePoints(t[..n]))
  {
    hide CodePoints, Edited;
    assert t == t[..n] + t[n..];
    CodePointsAppend(t[..n], t[n..]);
    CopyUnits(t[n..]);
    Drops(CodePoints(t[n..]));
    Keeps(CodePoints(t[..n]));
    Joins(CodePoints(t[..n]), CodePoints(t[..n]), CodePoints(t[n..]), []);
    assert CodePoints(t[..n]) + [] == CodePoints(t[..n]);
  }

  lemma CopyUnits(t: Text)
    ensures forall u <- CodePoints(t) :: !u.atom
  {
  }

  /** Rewriting a middle piece of copy that touches no surrogate. */
  lemma EditMiddle(a: Text, b: Text, b2: Text, c: Text)
    requires b != [] && b2 != [] && !HighSurrogate(b[|b| - 1]) && !LowSurrogate(b[0])
    requires !HighSurrogate(b2[|b2| - 1]) && !LowSurrogate(b2[0])
    requires Edited(CodePoints(b), CodePoints(b2))
    ensures Edited(CodePoints(a + b + c), CodePoints(a + b2 + c))
  {
    hide CodePoints, Edited;
    CodePointsAppend(a, b);
    CodePointsAppend(a + b, c);
    CodePointsAppend(a, b2);
    CodePointsAppend(a + b2, c);
    Keeps(CodePoints(a));
    Keeps(CodePoints(c));
    Joins(CodePoints(a), CodePoints(a), CodePoints(b), CodePoints(b2));
    Joins(CodePoints(a) + CodePoints(b), CodePoints(a) + CodePoints(b2), CodePoints(c), CodePoints(c));
  }

  /** One sign for one sign. */
  predicate SignFor(c: Code, w: Code) {
    c < 0xd800 && (w == c || Allowed(Unit([c], false), Write(w)))
  }

  lemma {:induction false} Pointwise(a: Text, b: Text)
    requires |a| == |b| && forall k :: 0 <= k < |a| ==> SignFor(a[k], b[k]) && b[k] < 0xd800
    ensures Edited(CodePoints(a), CodePoints(b))
    decreases |a|
  {
    hide CodePoints, Edited;
    if a == [] {
      Keeps(CodePoints(a));
    } else {
      var n := |a| - 1;
      Pointwise(a[..n], b[..n]);
      assert a == a[..n] + [a[n]] && b == b[..n] + [b[n]];
      CodePointsAppend(a[..n], [a[n]]);
      CodePointsAppend(b[..n], [b[n]]);
      CodePointsOne(a[n]);
      CodePointsOne(b[n]);
      OneSign(a[n], b[n]);
      Joins(CodePoints(a[..n]), CodePoints(b[..n]), CodePoints([a[n]]), CodePoints([b[n]]));
    }
  }

  lemma OneSign(c: Code, w: Code)
    requires SignFor(c, w)
    ensures Edited([Unit([c], false)], [Unit([w], false)])
  {
    hide Edited;
    if w == c {
      Keeps([Unit([c], false)]);
    } else {
      Writes(Unit([c], false), w);
    }
  }

  lemma BulletEdited(t: Text)
    requires IsBullet(t)
    ensures Edited(CodePoints(t), CodePoints(Bulleted(t)))
  {
    hide CodePoints, Edited, BlankEnd;
    var i := BlankEnd(t, 0);
    var e := BlankEnd(t, i + 1);
    assert BlankCode(t[i + 1]);
    var marks := t[i..e];
    Pointwise(marks[..2], [BULLET_SIGN, SPACE]);
    DropSuffix(marks, 2);
    Composes(CodePoints(marks), CodePoints(marks[..2]), CodePoints([BULLET_SIGN, SPACE]));
    assert BlankCode(t[e - 1]);
    EditMiddle(t[..i], marks, [BULLET_SIGN, SPACE], t[e..]);
    assert t == t[..i] + marks + t[e..];
  }

  lemma QuoteEdited(t: Text)
    requires QuoteEnd(t) > IndentEnd(t, 0, 3)
    ensures Edited(CodePoints(t), CodePoints(QuoteBars(t)))
  {
    hide CodePoints, Edited, IndentEnd, QuoteEnd, Allowed;
    var i, e := IndentEnd(t, 0, 3), QuoteEnd(t);
    var marks := t[i..e];
    assert forall k :: 0 <= k < |marks| ==> marks[k] == t[i + k];
    BarsEdited(marks);
    EditMiddle(t[..i], marks, Barred(marks), t[e..]);
    assert t == t[..i] + marks + t[e..];
  }

  lemma BarsEdited(marks: Text)
    requires marks != [] && forall k :: 0 <= k < |marks| ==> marks[k] == 0x3e || marks[k] == SPACE
    ensures Edited(CodePoints(marks), CodePoints(Barred(marks)))
    ensures !HighSurrogate(marks[|marks| - 1]) && !LowSurrogate(marks[0])
    ensures !HighSurrogate(Barred(marks)[|marks| - 1]) && !LowSurrogate(Barred(marks)[0])
  {
    hide CodePoints, Edited;
    Pointwise(marks, Barred(marks));
  }

  lemma FirstEdited(t: Text, t2: Text, rest: seq<Segment>)
    requires Edited(CodePoints(t), CodePoints(t2))
    ensures Edited(UnitsOf([Segment(t, false)] + rest), UnitsOf([Segment(t2, false)] + rest))
    ensures Edited(UnitsOf([Segment(t, false)] + rest), UnitsOf(Piece(t2) + rest))
  {
    hide CodePoints, Edited, UnitsOf;
    var first, second := [Segment(t, false)], [Segment(t2, false)];
    UnitsConcat(first, rest);
    UnitsConcat(second, rest);
    UnitsConcat(Piece(t2), rest);
    OneSegment(t);
    OneSegment(t2);
    Keeps(UnitsOf(rest));
    Joins(CodePoints(t), CodePoints(t2), UnitsOf(rest), UnitsOf(rest));
  }

  lemma OneSegment(t: Text)
    ensures UnitsOf([Segment(t, false)]) == CodePoints(t) == UnitsOf(Piece(t))
  {
    UnitsMore([], Segment(t, false));
    assert [] + [Segment(t, false)] == [Segment(t, false)];
  }

  lemma CloseEdited(line: seq<Segment>)
    ensures Edited(UnitsOf(line), UnitsOf(CloseHeading(line)))
  {
    hide Edited, UnitsOf, HeadingCloseStart, CodePoints;
    if line == [] || line[|line| - 1].span {
      Keeps(UnitsOf(line));
    } else {
      var n := |line| - 1;
      var t := line[n].text;
      if HeadingCloseStart(t) == |t| {
        Keeps(UnitsOf(line));
      } else {
        var s := Segment(t[..HeadingCloseStart(t)], false);
        assert line == line[..n] + [line[n]];
        UnitsMore(line[..n], line[n]);
        UnitsMore(line[..n], s);
        DropSuffix(t, HeadingCloseStart(t));
        Keeps(UnitsOf(line[..n]));
        Joins(UnitsOf(line[..n]), UnitsOf(line[..n]), CodePoints(t), CodePoints(s.text));
      }
    }
  }

  lemma RewriteEdited(line: seq<Segment>)
    ensures Edited(UnitsOf(line), UnitsOf(Rewritten(line)))
  {
    hide Edited, UnitsOf, IsBullet, Bulleted, QuoteEnd, IndentEnd, QuoteBars, HasQuoteMark, HeadingEnd, CloseHeading, Piece, CodePoints;
    if line == [] || line[0].span {
      Keeps(UnitsOf(line));
    } else {
      var t, rest := line[0].text, line[1..];
      assert line == [Segment(t, false)] + rest;
      if HeadingEnd(t) >= 0 {
        DropPrefix(t, HeadingEnd(t));
        FirstEdited(t, t[HeadingEnd(t)..], rest);
        CloseEdited(Piece(t[HeadingEnd(t)..]) + rest);
        Composes(UnitsOf(line), UnitsOf(Piece(t[HeadingEnd(t)..]) + rest), UnitsOf(Rewritten(line)));
      } else if IsBullet(t) {
        BulletEdited(t);
        FirstEdited(t, Bulleted(t), rest);
      } else if QuoteEnd(t) > IndentEnd(t, 0, 3) && (|line| == 1 || HasQuoteMark(t)) {
        QuoteEdited(t);
        FirstEdited(t, QuoteBars(t), rest);
      } else {
        Keeps(UnitsOf(line));
      }
    }
  }

  lemma LineEdited(line: seq<Segment>, punctuation: Text -> bool)
    ensures Edited(UnitsOf(line), TranslatedLine(line, punctuation))
  {
    hide Edited, UnitsOf, Rewritten, ThematicBreak, Inlined;
    if CopyOnly(line) && ThematicBreak(LineText(line)) {
      Keeps(UnitsOf(line));
    } else {
      RewriteEdited(line);
      Composes(UnitsOf(line), UnitsOf(Rewritten(line)), TranslatedLine(line, punctuation));
    }
  }

  // ---------- Fences ----------

  datatype Fence = Outside | Inside(sign: Code, length: nat)

  /** The fence that a line of copy opens, if any: three or more backticks or tildes, no backtick after backticks. */
  function Opened(t: Text): Fence {
    var i := IndentEnd(t, 0, 3);
    if i == |t| || t[i] !in {BACKTICK, 0x7e} then Outside
    else
      var e := SameEnd(t, t[i], i);
      if e - i < 3 || (exists k :: e <= k < |t| && (LineTerminator(t[k]) || (t[i] == BACKTICK && t[k] == BACKTICK))) then Outside
      else Inside(t[i], e - i)
  }

  predicate Closes(t: Text, fence: Fence)
    requires fence.Inside?
  {
    var i := IndentEnd(t, 0, 3);
    i < |t| && t[i] == fence.sign && SameEnd(t, t[i], i) - i >= 3 && SameEnd(t, t[i], i) - i >= fence.length
    && BlankEnd(t, SameEnd(t, t[i], i)) == |t|
  }

  predicate IsCloser(fence: Fence, line: seq<Segment>) {
    fence.Inside? && CopyOnly(line) && Closes(LineText(line), fence)
  }

  function NextFence(fence: Fence, line: seq<Segment>): Fence {
    if fence.Inside? then if IsCloser(fence, line) then Outside else fence
    else if CopyOnly(line) then Opened(LineText(line)) else Outside
  }

  /** Fence lines are left out. */
  predicate FenceLine(fence: Fence, line: seq<Segment>) {
    IsCloser(fence, line) || (fence.Outside? && NextFence(fence, line).Inside?)
  }

  function FenceAfter(lines: seq<seq<Segment>>): Fence {
    if lines == [] then Outside else NextFence(FenceAfter(lines[..|lines| - 1]), lines[|lines| - 1])
  }

  ghost function OutLine(fence: Fence, line: seq<Segment>, punctuation: Text -> bool): seq<Unit> {
    if fence.Inside? then UnitsOf(line) else TranslatedLine(line, punctuation)
  }

  ghost function OutLines(lines: seq<seq<Segment>>, punctuation: Text -> bool): seq<seq<Unit>> {
    if lines == [] then []
    else
      var front, line := lines[..|lines| - 1], lines[|lines| - 1];
      OutLines(front, punctuation)
      + (if FenceLine(FenceAfter(front), line) then [] else [OutLine(FenceAfter(front), line, punctuation)])
  }

  /** The translation of rendered segments, in units. */
  ghost function Translated(segments: seq<Segment>, punctuation: Text -> bool): seq<Unit> {
    Joined(OutLines(Lines(segments), punctuation))
  }

  lemma OutLinesStep(lines: seq<seq<Segment>>, line: seq<Segment>, punctuation: Text -> bool)
    ensures OutLines(lines + [line], punctuation)
            == OutLines(lines, punctuation)
               + (if FenceLine(FenceAfter(lines), line) then [] else [OutLine(FenceAfter(lines), line, punctuation)])
    ensures FenceAfter(lines + [line]) == NextFence(FenceAfter(lines), line)
  {
    assert (lines + [line])[..|lines|] == lines;
  }

  // ---------- Main results ----------

  lemma {:induction false} CopyLine(line: seq<Segment>)
    requires CopyOnly(line)
    ensures forall u <- UnitsOf(line) :: !u.atom
  {
    if line != [] {
      CopyLine(line[..|line| - 1]);
    }
  }

  lemma {:induction false} OutLinesEdited(lines: seq<seq<Segment>>, punctuation: Text -> bool)
    ensures Edited(Joined(LineUnits(lines)), Joined(OutLines(lines, punctuation)))
    decreases |lines|
  {
    hide Edited, Joined, OutLines, FenceLine, OutLine, UnitsOf;
    if lines == [] {
      NoLines(punctuation);
      Keeps(Joined(LineUnits(lines)));
    } else {
      var n := |lines| - 1;
      assert lines == lines[..n] + [lines[n]];
      OutLinesEdited(lines[..n], punctuation);
      NoLines(punctuation);
      OutLinesStep(lines[..n], lines[n], punctuation);
      LineUnitsLast(lines[..n], lines[n]);
      OutLineEdited(FenceAfter(lines[..n]), lines[n], punctuation);
      JoinedEdited(LineUnits(lines[..n]), UnitsOf(lines[n]), OutLines(lines[..n], punctuation),
                   if FenceLine(FenceAfter(lines[..n]), lines[n]) then [] else [OutLine(FenceAfter(lines[..n]), lines[n], punctuation)]);
    }
  }

  lemma NoLines(punctuation: Text -> bool)
    ensures OutLines([], punctuation) == [] && LineUnits([]) == []
  {
  }

  lemma OutLineEdited(fence: Fence, line: seq<Segment>, punctuation: Text -> bool)
    ensures FenceLine(fence, line) ==> Edited(UnitsOf(line), [])
    ensures Edited(UnitsOf(line), OutLine(fence, line, punctuation))
  {
    hide Edited, UnitsOf, TranslatedLine, Closes, Opened;
    if FenceLine(fence, line) {
      CopyLine(line);
      Drops(UnitsOf(line));
    }
    Keeps(UnitsOf(line));
    LineEdited(line, punctuation);
  }

  /** One more line on the input, at most one more line on the output. */
  lemma JoinedEdited(before: seq<seq<Unit>>, line: seq<Unit>, outs: seq<seq<Unit>>, out: seq<seq<Unit>>)
    requires Edited(Joined(before), Joined(outs)) && |out| <= 1 && (before == [] ==> outs == [])
    requires Edited(line, if out == [] then [] else out[0])
    ensures Edited(Joined(before + [line]), Joined(outs + out))
  {
    hide Edited, Joined;
    var v := if out == [] then [] else out[0];
    if before == [] {
      assert before + [line] == [line] && outs + out == out;
      JoinedSingle(line);
      if out == [] {
        JoinedNone();
      } else {
        assert out == [v];
        JoinedSingle(v);
      }
    } else {
      JoinedLine(before, line);
      var newline: seq<Unit> := [NEWLINE_UNIT];
      var kept: seq<Unit> := if out == [] || outs == [] then [] else newline;
      Drops(newline);
      Keeps(newline);
      Joins(Joined(before), Joined(outs), newline, kept);
      Joins(Joined(before) + newline, Joined(outs) + kept, line, v);
      JoinedOut(outs, out);
    }
  }

  lemma JoinedNone()
    ensures Joined([]) == []
  {
  }

  lemma JoinedOut(outs: seq<seq<Unit>>, out: seq<seq<Unit>>)
    requires |out| <= 1
    ensures Joined(outs + out)
            == Joined(outs) + (if out == [] || outs == [] then [] else [NEWLINE_UNIT]) + (if out == [] then [] else out[0])
  {
    hide Joined;
    JoinedNone();
    if out == [] {
      assert outs + out == outs;
    } else {
      assert out == [out[0]];
      if outs == [] {
        assert outs + out == out;
        JoinedSingle(out[0]);
      } else {
        JoinedLine(outs, out[0]);
      }
    }
  }

  /** The translation only drops copy or writes one of three signs for one sign of copy, keeps every opaque span verbatim
      and in order, and is never longer, in UTF-16 units or in code points. */
  lemma TranslationIsAnEdit(segments: seq<Segment>, punctuation: Text -> bool)
    ensures Edited(UnitsOf(segments), Translated(segments, punctuation))
    ensures Atoms(Translated(segments, punctuation)) == Atoms(UnitsOf(segments))
    ensures |Flat(Translated(segments, punctuation))| <= |Flat(UnitsOf(segments))|
    ensures Points(Flat(Translated(segments, punctuation))) <= Points(Flat(UnitsOf(segments)))
  {
    hide Edited, Joined, OutLines, UnitsOf, Points, Flat, Atoms;
    LinesAreSegments(segments);
    OutLinesEdited(Lines(segments), punctuation);
    EditKeeps(UnitsOf(segments), Translated(segments, punctuation));
  }

  /** An unclosed fence: its opening line vanishes, and every line after it is kept unit for unit to the end. */
  lemma {:induction false} UnclosedFenceVerbatim(pre: seq<seq<Segment>>, opener: seq<Segment>, content: seq<seq<Segment>>, punctuation: Text -> bool)
    requires FenceAfter(pre).Outside? && NextFence(Outside, opener).Inside?
    requires forall l <- content :: !IsCloser(NextFence(Outside, opener), l)
    ensures FenceAfter(pre + [opener] + content) == NextFence(Outside, opener)
    ensures OutLines(pre + [opener] + content, punctuation) == OutLines(pre, punctuation) + LineUnits(content)
    decreases |content|
  {
    hide OutLines, FenceAfter, UnitsOf, IsCloser, Opened;
    OutLinesStep(pre, opener, punctuation);
    if content == [] {
      assert pre + [opener] + content == pre + [opener];
    } else {
      var n := |content| - 1;
      var last := content[n];
      assert pre + [opener] + content == (pre + [opener] + content[..n]) + [last] && content == content[..n] + [last];
      UnclosedFenceVerbatim(pre, opener, content[..n], punctuation);
      OutLinesStep(pre + [opener] + content[..n], last, punctuation);
      LineUnitsLast(content[..n], last);
      assert last in content;
    }
  }

  /** Lines outside every fence end a text of their own: what follows is translated as if it came first. */
  lemma {:induction false} OutsideStartsAgain(before: seq<seq<Segment>>, after: seq<seq<Segment>>, punctuation: Text -> bool)
    requires FenceAfter(before) == Outside
    ensures FenceAfter(before + after) == FenceAfter(after)
    ensures OutLines(before + after, punctuation) == OutLines(before, punctuation) + OutLines(after, punctuation)
    decreases |after|
  {
    hide OutLines, FenceAfter, FenceLine, OutLine, NextFence;
    if after == [] {
      assert before + after == before;
      NoLines(punctuation);
      NoFence();
    } else {
      var n := |after| - 1;
      OutsideStartsAgain(before, after[..n], punctuation);
      assert before + after == (before + after[..n]) + [after[n]] && after == after[..n] + [after[n]];
      OutLinesStep(before + after[..n], after[n], punctuation);
      OutLinesStep(after[..n], after[n], punctuation);
    }
  }

  lemma NoFence()
    ensures FenceAfter([]) == Outside
  {
  }

  /** A fenced block: its fence lines vanish, its content is kept unit for unit, and the lines after it are translated as if
      they came first. */
  lemma FencedBlockVerbatim(pre: seq<seq<Segment>>, opener: seq<Segment>, content: seq<seq<Segment>>, closer: seq<Segment>,
                            post: seq<seq<Segment>>, punctuation: Text -> bool)
    requires FenceAfter(pre).Outside? && NextFence(Outside, opener).Inside?
    requires forall l <- content :: !IsCloser(NextFence(Outside, opener), l)
    requires IsCloser(NextFence(Outside, opener), closer)
    ensures OutLines(pre + [opener] + content + [closer] + post, punctuation)
            == OutLines(pre, punctuation) + LineUnits(content) + OutLines(post, punctuation)
    ensures FenceAfter(pre + [opener] + content + [closer] + post) == FenceAfter(post)
  {
    hide OutLines, FenceAfter, UnitsOf, IsCloser, Opened;
    UnclosedFenceVerbatim(pre, opener, content, punctuation);
    OutLinesStep(pre + [opener] + content, closer, punctuation);
    OutsideStartsAgain(pre + [opener] + content + [closer], post, punctuation);
  }

  // ---------- The source's loop ----------

  ghost function Flats(lines: seq<seq<Unit>>): (r: seq<Text>)
    ensures |r| == |lines| && forall k :: 0 <= k < |lines| ==> r[k] == Flat(lines[k])
  {
    seq(|lines|, k requires 0 <= k < |lines| => Flat(lines[k]))
  }

  lemma {:induction false} JoinedFlat(lines: seq<seq<Unit>>)
    ensures Flat(Joined(lines)) == JoinText(Flats(lines))
  {
    if |lines| > 1 {
      var n := |lines| - 1;
      JoinedFlat(lines[..n]);
      assert Flats(lines)[..n] == Flats(lines[..n]);
      FlatAppend(Joined(lines[..n]), [NEWLINE_UNIT]);
      FlatAppend(Joined(lines[..n]) + [NEWLINE_UNIT], lines[n]);
      FlatOne(NEWLINE_UNIT);
    }
  }

  lemma FlatOne(u: Unit)
    ensures Flat([u]) == u.text
  {
    assert [u][..0] == [];
    assert [] + u.text == u.text;
  }

  lemma {:induction false} LineFlat(line: seq<Segment>)
    ensures Flat(UnitsOf(line)) == LineText(line)
  {
    if line != [] {
      var n := |line| - 1;
      LineFlat(line[..n]);
      FlatAppend(UnitsOf(line[..n]), SegmentUnits(line[n]));
      if line[n].span {
        FlatOne(Unit(line[n].text, true));
      } else {
        CodePointsFlat(line[n].text);
      }
    }
  }

  method TranslateLine(line: seq<Segment>, punctuation: Text -> bool) returns (text: Text)
    ensures text == Flat(TranslatedLine(line, punctuation))
  {
    hide Inlined, UnitsOf, Rewritten, ThematicBreak, Flat;
    if CopyOnly(line) && ThematicBreak(LineText(line)) {
      LineFlat(line);
      text := LineText(line);
    } else {
      text := TranslateInline(Rewritten(line), punctuation);
    }
  }

  /** The source's loop over the lines computes the translation. */
  method TranslateCommonMark(segments: seq<Segment>, punctuation: Text -> bool) returns (text: Text)
    ensures text == Flat(Translated(segments, punctuation))
  {
    hide *;
    var lines := SplitLines(segments);
    var out: seq<Text> := [];
    var fence := Outside;
    var i := 0;
    Begin(lines, punctuation);
    while i < |lines|
      invariant 0 <= i <= |lines|
      invariant fence == FenceAfter(lines[..i]) && out == Flats(OutLines(lines[..i], punctuation))
    {
      LoopStep(lines, i, punctuation);
      out := PushLine(out, fence, lines[i], punctuation);
      fence := NextFence(fence, lines[i]);
      i := i + 1;
    }
    text := JoinText(out);
    assert lines[..i] == lines;
    JoinedFlat(OutLines(lines, punctuation));
    TranslatedIs(segments, punctuation);
  }

  method PushLine(out0: seq<Text>, fence: Fence, line: seq<Segment>, punctuation: Text -> bool) returns (out: seq<Text>)
    ensures out == out0 + if FenceLine(fence, line) then [] else [Flat(OutLine(fence, line, punctuation))]
  {
    hide UnitsOf, TranslatedLine, Flat, Closes, Opened, LineText;
    out := out0;
    if fence.Inside? {
      if CopyOnly(line) && Closes(LineText(line), fence) {
        return;
      }
      LineFlat(line);
      out := out + [LineText(line)];
    } else if CopyOnly(line) && Opened(LineText(line)).Inside? {
      return;
    } else {
      var text := TranslateLine(line, punctuation);
      out := out + [text];
    }
  }

  lemma Begin(lines: seq<seq<Segment>>, punctuation: Text -> bool)
    ensures FenceAfter(lines[..0]) == Outside && Flats(OutLines(lines[..0], punctuation)) == []
  {
  }

  lemma LoopStep(lines: seq<seq<Segment>>, i: nat, punctuation: Text -> bool)
    requires i < |lines|
    ensures FenceAfter(lines[..i + 1]) == NextFence(FenceAfter(lines[..i]), lines[i])
    ensures Flats(OutLines(lines[..i + 1], punctuation))
            == Flats(OutLines(lines[..i], punctuation))
               + if FenceLine(FenceAfter(lines[..i]), lines[i]) then [] else [Flat(OutLine(FenceAfter(lines[..i]), lines[i], punctuation))]
  {
    hide FenceLine, OutLine, Flat, OutLines, FenceAfter, NextFence;
    OutLinesStep(lines[..i], lines[i], punctuation);
    assert lines[..i] + [lines[i]] == lines[..i + 1];
  }

  lemma TranslatedIs(segments: seq<Segment>, punctuation: Text -> bool)
    ensures Translated(segments, punctuation) == Joined(OutLines(Lines(segments), punctuation))
  {
  }
}
