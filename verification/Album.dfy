/** Quoted ranges at admission, and the merge of an album (packages/adapter-telegram/src/admission.ts:287-309,
    telegram-platform-adapter.ts:1343-1368). */
module Album {
  import opened Utf16

  datatype Range = Range(start: nat, end: nat)

  // ---------- Admission ----------

  const MAX_QUOTED_RANGES: nat := 32
  const MAX_ENTITIES: nat := 256

  /** What the Bot API reports; an entity of another type, or without integer bounds, is `Other`. */
  datatype Entity = Quote(offset: int, length: int) | Other

  predicate Selects(r: Range, length: nat) {
    r.start < r.end <= length
  }

  /** The range of one entity, clamped to the text, if it selects anything. */
  function RangeOf(e: Entity, length: nat): (rs: seq<Range>)
    ensures |rs| <= 1 && forall r <- rs :: Selects(r, length)
  {
    if e.Other? then []
    else
      var end := if e.offset + e.length < length then e.offset + e.length else length;
      if e.offset < 0 || e.offset >= length || end <= e.offset then [] else [Range(e.offset, end)]
  }

  function RangesOf(entities: seq<Entity>, length: nat): (rs: seq<Range>)
    ensures forall r <- rs :: Selects(r, length)
  {
    if entities == [] then [] else RangesOf(entities[..|entities| - 1], length) + RangeOf(entities[|entities| - 1], length)
  }

  function Upto<T>(s: seq<T>, n: nat): (r: seq<T>)
    ensures r <= s && |r| == if |s| < n then |s| else n
  {
    if |s| < n then s else s[..n]
  }

  /** The first 32 ranges of the first 256 entities, each inside the text and not empty. */
  method QuotedRangesOf(entities: seq<Entity>, length: nat) returns (ranges: seq<Range>)
    ensures ranges == Upto(RangesOf(Upto(entities, MAX_ENTITIES), length), MAX_QUOTED_RANGES)
    ensures |ranges| <= MAX_QUOTED_RANGES && forall r <- ranges :: Selects(r, length)
  {
    hide RangeOf;
    var taken := Upto(entities, MAX_ENTITIES);
    ranges := [];
    var i := 0;
    while i < |taken|
      invariant 0 <= i <= |taken| && ranges == RangesOf(taken[..i], length) && |ranges| < MAX_QUOTED_RANGES
    {
      assert taken[..i + 1][..i] == taken[..i];
      ranges := ranges + RangeOf(taken[i], length);
      i := i + 1;
      if |ranges| >= MAX_QUOTED_RANGES {
        RangesGrow(taken, i, length);
        return;
      }
    }
    assert taken[..i] == taken;
  }

  lemma {:induction false} RangesGrow(entities: seq<Entity>, n: nat, length: nat)
    requires n <= |entities|
    ensures RangesOf(entities[..n], length) <= RangesOf(entities, length)
    decreases |entities| - n
  {
    hide RangeOf;
    if n < |entities| {
      assert entities[..n + 1][..n] == entities[..n];
      RangesGrow(entities, n + 1, length);
    } else {
      assert entities[..n] == entities;
    }
  }

  // ---------- The merge ----------

  /** One admitted message: `head` stands for the ids and other fields taken from the first part. */
  datatype Part = Part(head: nat, text: Text, ranges: seq<Range>, attachments: seq<nat>, code: bool)

  predicate BlankText(t: Text) {
    forall k :: 0 <= k < |t| ==> WhitespaceCode(t[k])
  }

  predicate Clamped(p: Part) {
    forall r <- p.ranges :: Selects(r, |p.text|)
  }

  /** A range's origin: its part, and its index in the part. */
  datatype Source = Source(part: nat, range: nat)

  /** The joined caption so far, and where each non-blank part starts in it. */
  datatype Caption = Caption(text: Text, ranges: seq<Range>, joined: bool)

  function Shifted(ranges: seq<Range>, offset: nat): (r: seq<Range>)
    ensures |r| == |ranges| && forall k :: 0 <= k < |r| ==> r[k] == Range(ranges[k].start + offset, ranges[k].end + offset)
  {
    seq(|ranges|, k requires 0 <= k < |ranges| => Range(ranges[k].start + offset, ranges[k].end + offset))
  }

  function AddCaption(c: Caption, p: Part): Caption {
    if BlankText(p.text) then c
    else
      var text := if c.joined then c.text + [NEWLINE] else c.text;
      Caption(text + p.text, c.ranges + Shifted(p.ranges, |text|), true)
  }

  function Captions(parts: seq<Part>): Caption {
    if parts == [] then Caption([], [], false) else AddCaption(Captions(parts[..|parts| - 1]), parts[|parts| - 1])
  }

  function Attachments(parts: seq<Part>): seq<nat> {
    if parts == [] then [] else Attachments(parts[..|parts| - 1]) + parts[|parts| - 1].attachments
  }

  predicate AnyCode(parts: seq<Part>) {
    exists p <- parts :: p.code
  }

  function Merged(parts: seq<Part>): Part
    requires parts != []
  {
    if |parts| == 1 then parts[0]
    else Part(parts[0].head, Captions(parts).text, Captions(parts).ranges, Attachments(parts), AnyCode(parts))
  }

  method MergeAlbum(parts: seq<Part>) returns (merged: Part)
    requires parts != []
    ensures merged == Merged(parts)
  {
    hide BlankText;
    if |parts| == 1 {
      return parts[0];
    }
    var text: Text, quoted: seq<Range>, joined := [], [], false;
    var attachments: seq<nat>, code := [], false;
    var i := 0;
    while i < |parts|
      invariant 0 <= i <= |parts|
      invariant Captions(parts[..i]) == Caption(text, quoted, joined)
      invariant attachments == Attachments(parts[..i]) && code == AnyCode(parts[..i])
    {
      var part := parts[i];
      assert parts[..i + 1][..i] == parts[..i];
      assert parts[..i + 1] == parts[..i] + [part];
      if !BlankText(part.text) {
        if joined {
          text := text + [NEWLINE];
        }
        var offset := |text|;
        quoted := quoted + Shifted(part.ranges, offset);
        text := text + part.text;
        joined := true;
      }
      attachments := attachments + part.attachments;
      code := code || part.code;
      i := i + 1;
    }
    assert parts[..i] == parts;
    merged := Part(parts[0].head, text, quoted, attachments, code);
  }

  // ---------- Main result ----------

  /** The ranges of one part, in order. */
  function SourcesOf(index: nat, n: nat): (r: seq<Source>)
    ensures |r| == n && forall k :: 0 <= k < n ==> r[k] == Source(index, k)
  {
    seq(n, k requires 0 <= k < n => Source(index, k))
  }

  /** The quoted ranges of all parts that are not blank, part by part. */
  function Sources(parts: seq<Part>): (r: seq<Source>)
    ensures forall s <- r :: s.part < |parts| && s.range < |parts[s.part].ranges|
  {
    if parts == [] then []
    else
      var n := |parts| - 1;
      var before := Sources(parts[..n]);
      if BlankText(parts[n].text) then before else before + SourcesOf(n, |parts[n].ranges|)
  }

  function Selected(t: Text, r: Range): Text
    requires Selects(r, |t|)
  {
    t[r.start..r.end]
  }

  /** A joined range is not empty, in bounds, and selects exactly what its source range selected from its own part. */
  ghost predicate SameWords(parts: seq<Part>, text: Text, r: Range, s: Source)
    requires s.part < |parts| && s.range < |parts[s.part].ranges|
  {
    var p := parts[s.part];
    && Selects(r, |text|) && Selects(p.ranges[s.range], |p.text|)
    && Selected(text, r) == Selected(p.text, p.ranges[s.range])
  }

  lemma SameWordsLater(parts: seq<Part>, more: Part, text: Text, tail: Text, r: Range, s: Source)
    requires s.part < |parts| && s.range < |parts[s.part].ranges| && SameWords(parts, text, r, s)
    ensures SameWords(parts + [more], text + tail, r, s)
  {
    assert (text + tail)[r.start..r.end] == text[r.start..r.end];
  }

  lemma SameWordsShifted(parts: seq<Part>, before: Text, k: nat)
    requires parts != [] && Clamped(parts[|parts| - 1]) && k < |parts[|parts| - 1].ranges|
    ensures var p := parts[|parts| - 1];
            SameWords(parts, before + p.text, Range(p.ranges[k].start + |before|, p.ranges[k].end + |before|), Source(|parts| - 1, k))
  {
    var p := parts[|parts| - 1];
    var r := p.ranges[k];
    assert r in p.ranges;
    assert (before + p.text)[r.start + |before|..r.end + |before|] == p.text[r.start..r.end];
  }

  ghost predicate RangesAgree(parts: seq<Part>, c: Caption) {
    && |c.ranges| == |Sources(parts)|
    && forall k :: 0 <= k < |c.ranges| ==> SourceAt(parts, c, k)
  }

  ghost predicate SourceAt(parts: seq<Part>, c: Caption, k: nat)
    requires |c.ranges| == |Sources(parts)| && k < |c.ranges|
  {
    var s := Sources(parts)[k];
    assert s in Sources(parts);
    SameWords(parts, c.text, c.ranges[k], s)
  }

  /** Merging keeps every quoted range pointing at the same words, in order, and adds none. */
  lemma {:induction false} CaptionRangesAgree(parts: seq<Part>)
    requires forall p <- parts :: Clamped(p)
    ensures RangesAgree(parts, Captions(parts))
  {
    hide SameWords, BlankText, Clamped;
    if parts != [] {
      var n := |parts| - 1;
      var front, p := parts[..n], parts[n];
      assert parts == front + [p] && p in parts;
      CaptionRangesAgree(front);
      var c, next := Captions(front), Captions(parts);
      forall k | 0 <= k < |next.ranges| && |next.ranges| == |Sources(parts)| ensures SourceAt(parts, next, k) {
        if k < |c.ranges| {
          assert SourceAt(front, c, k);
          var s := Sources(front)[k];
          assert s in Sources(front);
          SameWordsLater(front, p, c.text, next.text[|c.text|..], c.ranges[k], s);
          assert next.text == c.text + next.text[|c.text|..];
        } else {
          var before := if c.joined then c.text + [NEWLINE] else c.text;
          SameWordsShifted(parts, before, k - |c.ranges|);
        }
      }
    }
  }

  /** The album turn: its ranges select the words its parts quoted, whatever the parts; a single part is left as it is. */
  lemma MergedRangesAgree(parts: seq<Part>)
    requires parts != [] && forall p <- parts :: Clamped(p)
    ensures |parts| == 1 ==> Merged(parts) == parts[0]
    ensures |parts| > 1 ==>
              var m := Merged(parts);
              && |m.ranges| == |Sources(parts)|
              && forall k :: 0 <= k < |m.ranges| ==>
                   Sources(parts)[k] in Sources(parts) && SameWords(parts, m.text, m.ranges[k], Sources(parts)[k])
  {
    hide SameWords, Clamped;
    CaptionRangesAgree(parts);
    if |parts| > 1 {
      var m := Merged(parts);
      forall k | 0 <= k < |m.ranges| ensures Sources(parts)[k] in Sources(parts) && SameWords(parts, m.text, m.ranges[k], Sources(parts)[k]) {
        assert SourceAt(parts, Captions(parts), k);
      }
    }
  }
}
