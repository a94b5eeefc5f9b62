/** `*` emphasis by delimiter runs (commonmark.ts:252-380; section 6.2 of CommonMark 0.31.2). */
module Emphasis {
  import opened Utf16

  /** One character of copy (one code point), or a whole opaque span. */
  datatype Unit = Unit(text: Text, atom: bool)

  /** A maximal run of stars; `length` is its original length. */
  datatype Run = Run(start: nat, length: nat, canOpen: bool, canClose: bool)

  /** Two matched units: their run indices and their positions. */
  datatype Pair = Pair(opener: nat, closer: nat, open: nat, close: nat)

  // ---------- Runs ----------

  predicate IsWhitespace(text: Text) {
    |text| == 1 && WhitespaceCode(text[0])
  }

  /** How the flanking rules see a neighbour: a line edge is whitespace, an atom is a letter. */
  datatype Side = Blank | Punctuation | Letter

  /** `punctuation` stands for the Unicode classes P and S. */
  function SideAt(units: seq<Unit>, index: int, punctuation: Text -> bool): Side {
    if !(0 <= index < |units|) then Blank
    else if units[index].atom then Letter
    else if IsWhitespace(units[index].text) then Blank
    else if punctuation(units[index].text) then Punctuation
    else Letter
  }

  predicate LeftFlanking(before: Side, after: Side) {
    after != Blank && (after != Punctuation || before == Blank || before == Punctuation)
  }

  predicate RightFlanking(before: Side, after: Side) {
    before != Blank && (before != Punctuation || after == Blank || after == Punctuation)
  }

  /** The units a run may hold: a copy star outside code spans and guarded tokens, not removed already. */
  predicate Eligible(units: seq<Unit>, removed: seq<bool>, code: seq<bool>, guarded: seq<bool>, k: nat)
    requires k < |units| == |removed| == |code| == |guarded|
  {
    !units[k].atom && !code[k] && !removed[k] && !guarded[k] && units[k].text == [STAR]
  }

  function Stars(units: seq<Unit>, removed: seq<bool>, code: seq<bool>, guarded: seq<bool>): (stars: seq<bool>)
    requires |units| == |removed| == |code| == |guarded|
    ensures |stars| == |units| && forall k :: 0 <= k < |units| ==> stars[k] == Eligible(units, removed, code, guarded, k)
  {
    seq(|units|, k requires 0 <= k < |units| => Eligible(units, removed, code, guarded, k))
  }

  function RunEnd(stars: seq<bool>, i: nat): (end: nat)
    requires i <= |stars|
    ensures i <= end <= |stars| && (forall k :: i <= k < end ==> stars[k]) && (end < |stars| ==> !stars[end])
    decreases |stars| - i
  {
    if i < |stars| && stars[i] then RunEnd(stars, i + 1) else i
  }

  function RunAt(units: seq<Unit>, stars: seq<bool>, i: nat, punctuation: Text -> bool): (r: Run)
    requires i < |stars| == |units| && stars[i]
    ensures r.start == i && r.length == RunEnd(stars, i) - i > 0
  {
    var end := RunEnd(stars, i);
    var before, after := SideAt(units, i - 1, punctuation), SideAt(units, end, punctuation);
    Run(i, end - i, LeftFlanking(before, after), RightFlanking(before, after))
  }

  function RunsFrom(units: seq<Unit>, stars: seq<bool>, i: nat, punctuation: Text -> bool): seq<Run>
    requires i <= |stars| == |units|
    decreases |stars| - i
  {
    if i == |stars| then []
    else if !stars[i] then RunsFrom(units, stars, i + 1, punctuation)
    else [RunAt(units, stars, i, punctuation)] + RunsFrom(units, stars, RunEnd(stars, i), punctuation)
  }

  /** Runs lie on stars, in order, with a gap between two of them. */
  ghost predicate RunsOk(stars: seq<bool>, runs: seq<Run>, from: nat) {
    && (forall r <- runs :: r.length > 0 && from <= r.start && r.start + r.length <= |stars|)
    && (forall r, k | r in runs && r.start <= k < r.start + r.length :: stars[k])
    && (forall i, j :: 0 <= i < j < |runs| ==> runs[i].start + runs[i].length < runs[j].start)
  }

  lemma RunsOkCons(stars: seq<bool>, run: Run, rest: seq<Run>, from: nat)
    requires run.length > 0 && from <= run.start && run.start + run.length <= |stars|
    requires forall k :: run.start <= k < run.start + run.length ==> stars[k]
    requires RunsOk(stars, rest, run.start + run.length + 1)
    ensures RunsOk(stars, [run] + rest, from)
  {
    var runs := [run] + rest;
    forall i, j | 0 <= i < j < |runs| ensures runs[i].start + runs[i].length < runs[j].start {
      if i == 0 {
        assert runs[j] == rest[j - 1] && rest[j - 1] in rest;
      }
    }
  }

  lemma RunsOkLower(stars: seq<bool>, runs: seq<Run>, from: nat, lower: nat)
    requires RunsOk(stars, runs, from) && lower <= from
    ensures RunsOk(stars, runs, lower)
  {
  }

  lemma {:induction false} RunsFromOk(units: seq<Unit>, stars: seq<bool>, i: nat, punctuation: Text -> bool)
    requires i <= |stars| == |units|
    ensures RunsOk(stars, RunsFrom(units, stars, i, punctuation), i)
    decreases |stars| - i
  {
    hide RunAt, RunsOk;
    if i == |stars| {
      NoRunsOk(stars, i);
    } else if !stars[i] {
      RunsFromOk(units, stars, i + 1, punctuation);
      RunsOkLower(stars, RunsFrom(units, stars, i + 1, punctuation), i + 1, i);
    } else {
      var end := RunEnd(stars, i);
      assert end > i;
      var rest := RunsFrom(units, stars, end, punctuation);
      if end < |stars| {
        assert rest == RunsFrom(units, stars, end + 1, punctuation);
        RunsFromOk(units, stars, end + 1, punctuation);
      } else {
        NoRunsOk(stars, end + 1);
      }
      RunsOkCons(stars, RunAt(units, stars, i, punctuation), rest, i);
    }
  }

  lemma NoRunsOk(stars: seq<bool>, from: nat)
    ensures RunsOk(stars, [], from)
  {
  }

  // ---------- The delimiter stack ----------

  /** How many units of each run were consumed from its left and right end, the stack of open runs, the matches so far. */
  datatype State = State(left: seq<nat>, right: seq<nat>, openers: seq<nat>, pairs: seq<Pair>)

  predicate Shape(runs: seq<Run>, s: State) {
    && |s.left| == |s.right| == |runs|
    && (forall k :: 0 <= k < |runs| ==> s.left[k] + s.right[k] <= runs[k].length)
    && (forall k <- s.openers :: k < |runs|)
  }

  function Remaining(runs: seq<Run>, s: State, k: nat): nat
    requires Shape(runs, s) && k < |runs|
  {
    runs[k].length - s.left[k] - s.right[k]
  }

  /** The rule of 3, on original lengths. */
  predicate Compatible(opener: Run, closer: Run) {
    var both := (closer.canOpen && closer.canClose) || (opener.canOpen && opener.canClose);
    !(both && (opener.length + closer.length) % 3 == 0 && !(opener.length % 3 == 0 && closer.length % 3 == 0))
  }

  predicate Matches(runs: seq<Run>, s: State, k: nat, r: nat)
    requires Shape(runs, s) && k < |s.openers| && r < |runs|
  {
    assert s.openers[k] in s.openers;
    Remaining(runs, s, s.openers[k]) > 0 && Compatible(runs[s.openers[k]], runs[r])
  }

  /** The topmost of the lowest `n` open runs that can match run `r`, or -1. */
  function FindOpener(runs: seq<Run>, s: State, r: nat, n: nat): (found: int)
    requires Shape(runs, s) && r < |runs| && n <= |s.openers|
    ensures -1 <= found < n
    ensures found >= 0 ==> Matches(runs, s, found, r)
    ensures forall k :: found < k < n ==> !Matches(runs, s, k, r)
  {
    if n == 0 then -1 else if Matches(runs, s, n - 1, r) then n - 1 else FindOpener(runs, s, r, n - 1)
  }

  /** Match run `r` with the open run at stack index `found`: two units from each side, or one. */
  function Match(runs: seq<Run>, s: State, r: nat, found: nat): (next: State)
    requires Shape(runs, s) && r < |runs| && found < |s.openers| && s.openers[found] != r
    requires Matches(runs, s, found, r) && Remaining(runs, s, r) > 0
    ensures Shape(runs, next) && Remaining(runs, next, r) < Remaining(runs, s, r)
    ensures forall k <- next.openers :: k in s.openers
  {
    assert s.openers[found] in s.openers;
    assert forall k <- s.openers[..found] :: k in s.openers;
    assert forall k <- s.openers[..found + 1] :: k in s.openers;
    var o := s.openers[found];
    var use := if Remaining(runs, s, o) >= 2 && Remaining(runs, s, r) >= 2 then 2 else 1;
    var inner := runs[o].start + runs[o].length - 1 - s.right[o];
    var outer := runs[r].start + s.left[r];
    var matched := [Pair(o, r, inner, outer)] + (if use == 2 then [Pair(o, r, inner - 1, outer + 1)] else []);
    var kept := if Remaining(runs, s, o) == use then s.openers[..found] else s.openers[..found + 1];
    assert forall k <- kept :: k in s.openers;
    State(s.left[r := s.left[r] + use], s.right[o := s.right[o] + use], kept, s.pairs + matched)
  }

  /** No open run is `r` itself: `r` is pushed only after it closed. */
  predicate Below(s: State, r: nat) {
    forall k <- s.openers :: k < r
  }

  function Close(runs: seq<Run>, s: State, r: nat): (next: State)
    requires Shape(runs, s) && r < |runs| && Below(s, r)
    ensures Shape(runs, next) && Below(next, r)
    decreases Remaining(runs, s, r)
  {
    if Remaining(runs, s, r) == 0 then s
    else
      var found := FindOpener(runs, s, r, |s.openers|);
      if found < 0 then s
      else
        assert s.openers[found] in s.openers;
        Close(runs, Match(runs, s, r, found), r)
  }

  function Process(runs: seq<Run>, s: State, r: nat): (next: State)
    requires Shape(runs, s) && r < |runs| && Below(s, r)
    ensures Shape(runs, next) && Below(next, r + 1)
  {
    var closed := if runs[r].canClose then Close(runs, s, r) else s;
    if runs[r].canOpen && Remaining(runs, closed, r) > 0 then closed.(openers := closed.openers + [r]) else closed
  }

  function Zeros(n: nat): (r: seq<nat>)
    ensures |r| == n && forall i :: 0 <= i < n ==> r[i] == 0
  {
    seq(n, _ => 0)
  }

  function ProcessTo(runs: seq<Run>, n: nat): (s: State)
    requires n <= |runs|
    ensures Shape(runs, s) && Below(s, n)
  {
    if n == 0 then State(Zeros(|runs|), Zeros(|runs|), [], []) else Process(runs, ProcessTo(runs, n - 1), n - 1)
  }

  function Runs(units: seq<Unit>, removed: seq<bool>, code: seq<bool>, guarded: seq<bool>, punctuation: Text -> bool): seq<Run>
    requires |units| == |removed| == |code| == |guarded|
  {
    RunsFrom(units, Stars(units, removed, code, guarded), 0, punctuation)
  }

  function Pairs(units: seq<Unit>, removed: seq<bool>, code: seq<bool>, guarded: seq<bool>, punctuation: Text -> bool): seq<Pair>
    requires |units| == |removed| == |code| == |guarded|
  {
    var runs := Runs(units, removed, code, guarded, punctuation);
    ProcessTo(runs, |runs|).pairs
  }

  // ---------- The source's loops ----------

  function Mark(flags: seq<bool>, k: nat): (r: seq<bool>)
    ensures |r| == |flags|
  {
    if k < |flags| then flags[k := true] else flags
  }

  /** The removal flags with both units of every pair set. */
  function Marked(flags: seq<bool>, pairs: seq<Pair>): (r: seq<bool>)
    ensures |r| == |flags|
  {
    if pairs == [] then flags
    else
      var last := pairs[|pairs| - 1];
      Mark(Mark(Marked(flags, pairs[..|pairs| - 1]), last.open), last.close)
  }

  lemma MarkedNone(flags: seq<bool>)
    ensures Marked(flags, []) == flags
  {
  }

  lemma MarkedAdd(flags: seq<bool>, pairs: seq<Pair>, p: Pair)
    ensures Marked(flags, pairs + [p]) == Mark(Mark(Marked(flags, pairs), p.open), p.close)
  {
    assert (pairs + [p])[..|pairs|] == pairs;
  }

  lemma {:induction false} MarkedExactly(flags: seq<bool>, pairs: seq<Pair>, k: nat)
    requires k < |flags|
    ensures Marked(flags, pairs)[k] <==> flags[k] || exists p <- pairs :: p.open == k || p.close == k
  {
    if pairs != [] {
      var front, last := pairs[..|pairs| - 1], pairs[|pairs| - 1];
      MarkedExactly(flags, front, k);
      assert pairs == front + [last];
    }
  }

  method CollectRuns(units: seq<Unit>, removed: array<bool>, code: seq<bool>, guarded: seq<bool>, punctuation: Text -> bool)
    returns (runs: seq<Run>)
    requires |units| == removed.Length == |code| == |guarded|
    ensures runs == Runs(units, removed[..], code, guarded, punctuation)
  {
    hide RunAt, RunsFrom, RunEnd, SideAt, LeftFlanking, RightFlanking, Eligible, IsWhitespace;
    ghost var stars := Stars(units, removed[..], code, guarded);
    runs := [];
    var i := 0;
    ghost var all := RunsFrom(units, stars, i, punctuation);
    while i < |units|
      invariant 0 <= i <= |units|
      invariant runs + RunsFrom(units, stars, i, punctuation) == all
      decreases |units| - i
    {
      RunsStep(units, stars, i, punctuation);
      var end := StarsFrom(units, removed, code, guarded, i);
      if end == i {
        i := i + 1;
      } else {
        var before, after := SideAt(units, i - 1, punctuation), SideAt(units, end, punctuation);
        var run := Run(i, end - i, LeftFlanking(before, after), RightFlanking(before, after));
        RunAtIs(units, stars, i, punctuation);
        Regroup(runs, run, RunsFrom(units, stars, end, punctuation));
        runs := runs + [run];
        i := end;
      }
    }
    RunsStep(units, stars, i, punctuation);
    Regroup0(runs);
  }

  lemma Regroup<T>(done: seq<T>, x: T, rest: seq<T>)
    ensures done + ([x] + rest) == (done + [x]) + rest
  {
  }

  lemma Regroup0<T>(done: seq<T>)
    ensures done + [] == done
  {
  }

  lemma RunsStep(units: seq<Unit>, stars: seq<bool>, i: nat, punctuation: Text -> bool)
    requires i <= |stars| == |units|
    ensures i == |stars| ==> RunsFrom(units, stars, i, punctuation) == []
    ensures i < |stars| && !stars[i] ==>
              RunEnd(stars, i) == i && RunsFrom(units, stars, i, punctuation) == RunsFrom(units, stars, i + 1, punctuation)
    ensures i < |stars| && stars[i] ==>
              && RunEnd(stars, i) > i
              && RunsFrom(units, stars, i, punctuation)
                 == [RunAt(units, stars, i, punctuation)] + RunsFrom(units, stars, RunEnd(stars, i), punctuation)
  {
    hide RunAt;
  }

  /** The end of the stars from `i` on. */
  method StarsFrom(units: seq<Unit>, removed: array<bool>, code: seq<bool>, guarded: seq<bool>, i: nat) returns (end: nat)
    requires |units| == removed.Length == |code| == |guarded| && i <= |units|
    ensures end == RunEnd(Stars(units, removed[..], code, guarded), i)
  {
    ghost var stars := Stars(units, removed[..], code, guarded);
    end := i;
    while end < |units| && !units[end].atom && !code[end] && !removed[end] && !guarded[end] && units[end].text == [STAR]
      invariant i <= end <= |units| && RunEnd(stars, end) == RunEnd(stars, i)
    {
      assert stars[end];
      end := end + 1;
    }
    assert end < |units| ==> !stars[end];
  }

  lemma RunAtIs(units: seq<Unit>, stars: seq<bool>, i: nat, punctuation: Text -> bool)
    requires i < |stars| == |units| && stars[i]
    ensures var end := RunEnd(stars, i);
            end > i && RunAt(units, stars, i, punctuation) ==
            Run(i, end - i, LeftFlanking(SideAt(units, i - 1, punctuation), SideAt(units, end, punctuation)),
                RightFlanking(SideAt(units, i - 1, punctuation), SideAt(units, end, punctuation)))
  {
  }

  /** The pairing loop sets exactly the flags of the pairs. */
  method MarkEmphasis(units: seq<Unit>, removed: array<bool>, code: seq<bool>, guarded: seq<bool>, punctuation: Text -> bool)
    requires |units| == removed.Length == |code| == |guarded|
    modifies removed
    ensures removed[..] == Marked(old(removed[..]), Pairs(units, old(removed[..]), code, guarded, punctuation))
  {
    hide RunsFrom, RunsOk;
    var runs := CollectRuns(units, removed, code, guarded, punctuation);
    RunsFit(units, removed[..], code, guarded, punctuation);
    PairRuns(runs, removed);
  }

  lemma RunsFit(units: seq<Unit>, removed: seq<bool>, code: seq<bool>, guarded: seq<bool>, punctuation: Text -> bool)
    requires |units| == |removed| == |code| == |guarded|
    ensures forall r <- Runs(units, removed, code, guarded, punctuation) :: r.start + r.length <= |units|
  {
    RunsFromOk(units, Stars(units, removed, code, guarded), 0, punctuation);
  }

  method PairRuns(runs: seq<Run>, removed: array<bool>)
    requires forall r <- runs :: r.start + r.length <= removed.Length
    modifies removed
    ensures removed[..] == Marked(old(removed[..]), ProcessTo(runs, |runs|).pairs)
  {
    hide Close, Marked;
    ghost var flags := removed[..];
    MarkedNone(flags);
    var left, right := Zeros(|runs|), Zeros(|runs|);
    var openers: seq<nat> := [];
    ghost var pairs: seq<Pair> := [];
    var r := 0;
    while r < |runs|
      invariant 0 <= r <= |runs|
      invariant State(left, right, openers, pairs) == ProcessTo(runs, r)
      invariant removed[..] == Marked(flags, pairs)
    {
      ghost var s := State(left, right, openers, pairs);
      if runs[r].canClose {
        left, right, openers, pairs := CloseRun(runs, r, left, right, openers, pairs, removed, flags);
      }
      if runs[r].canOpen && runs[r].length - left[r] - right[r] > 0 {
        openers := openers + [r];
      }
      assert State(left, right, openers, pairs) == Process(runs, s, r);
      r := r + 1;
    }
  }

  /** Match one closing run until nothing on the stack fits it or it is used up. */
  method CloseRun(runs: seq<Run>, r: nat, left0: seq<nat>, right0: seq<nat>, openers0: seq<nat>, ghost pairs0: seq<Pair>,
                  removed: array<bool>, ghost flags: seq<bool>)
    returns (left: seq<nat>, right: seq<nat>, openers: seq<nat>, ghost pairs: seq<Pair>)
    requires Shape(runs, State(left0, right0, openers0, pairs0)) && r < |runs| && Below(State(left0, right0, openers0, pairs0), r)
    requires forall run <- runs :: run.start + run.length <= removed.Length
    requires removed[..] == Marked(flags, pairs0)
    modifies removed
    ensures State(left, right, openers, pairs) == Close(runs, State(left0, right0, openers0, pairs0), r)
    ensures removed[..] == Marked(flags, pairs)
  {
    hide Compatible, Matches, Match, Marked;
    left, right, openers, pairs := left0, right0, openers0, pairs0;
    while runs[r].length - left[r] - right[r] > 0
      invariant Shape(runs, State(left, right, openers, pairs)) && Below(State(left, right, openers, pairs), r)
      invariant Close(runs, State(left, right, openers, pairs), r) == Close(runs, State(left0, right0, openers0, pairs0), r)
      invariant removed[..] == Marked(flags, pairs)
      decreases runs[r].length - left[r] - right[r]
    {
      var found := FindOpenerLoop(runs, left, right, openers, r, pairs);
      if found < 0 {
        break;
      }
      assert openers[found] in openers;
      left, right, openers, pairs := MatchStep(runs, r, found, left, right, openers, pairs, removed, flags);
    }
  }

  /** Take one or two units from each side, and drop the open runs between the two. */
  method MatchStep(runs: seq<Run>, r: nat, found: nat, left0: seq<nat>, right0: seq<nat>, openers0: seq<nat>, ghost pairs0: seq<Pair>,
                   removed: array<bool>, ghost flags: seq<bool>)
    returns (left: seq<nat>, right: seq<nat>, openers: seq<nat>, ghost pairs: seq<Pair>)
    requires Shape(runs, State(left0, right0, openers0, pairs0)) && r < |runs| && found < |openers0| && openers0[found] != r
    requires Matches(runs, State(left0, right0, openers0, pairs0), found, r)
    requires runs[r].length - left0[r] - right0[r] > 0
    requires forall run <- runs :: run.start + run.length <= removed.Length
    requires removed[..] == Marked(flags, pairs0)
    modifies removed
    ensures State(left, right, openers, pairs) == Match(runs, State(left0, right0, openers0, pairs0), r, found)
    ensures removed[..] == Marked(flags, pairs)
  {
    hide Compatible, Marked;
    ghost var s := State(left0, right0, openers0, pairs0);
    var o := openers0[found];
    FoundRemains(runs, s, found, r);
    assert runs[o] in runs && runs[r] in runs;
    var use := if runs[o].length - left0[o] - right0[o] >= 2 && runs[r].length - left0[r] - right0[r] >= 2 then 2 else 1;
    var inner, outer := runs[o].start + runs[o].length - 1 - right0[o], runs[r].start + left0[r];
    var first := Pair(o, r, inner, outer);
    SetPair(removed, inner, outer, flags, pairs0, first);
    pairs := pairs0 + [first];
    if use == 2 {
      var second := Pair(o, r, inner - 1, outer + 1);
      SetPair(removed, inner - 1, outer + 1, flags, pairs, second);
      pairs := pairs + [second];
      assert pairs == pairs0 + ([first] + [second]);
    } else {
      assert pairs == pairs0 + ([first] + []);
    }
    right := right0[o := right0[o] + use];
    left := left0[r := left0[r] + use];
    openers := if runs[o].length - left[o] - right[o] == 0 then openers0[..found] else openers0[..found + 1];
  }

  lemma FoundRemains(runs: seq<Run>, s: State, k: nat, r: nat)
    requires Shape(runs, s) && k < |s.openers| && r < |runs| && Matches(runs, s, k, r)
    ensures s.openers[k] < |runs| && Remaining(runs, s, s.openers[k]) > 0
  {
    assert s.openers[k] in s.openers;
  }

  method SetPair(removed: array<bool>, open: nat, close: nat, ghost flags: seq<bool>, ghost pairs: seq<Pair>, ghost p: Pair)
    requires open < removed.Length && close < removed.Length && p.open == open && p.close == close
    requires removed[..] == Marked(flags, pairs)
    modifies removed
    ensures removed[..] == Marked(flags, pairs + [p])
  {
    MarkedAdd(flags, pairs, p);
    removed[open] := true;
    removed[close] := true;
  }

  method FindOpenerLoop(runs: seq<Run>, left: seq<nat>, right: seq<nat>, openers: seq<nat>, r: nat, ghost pairs: seq<Pair>)
    returns (found: int)
    requires Shape(runs, State(left, right, openers, pairs)) && r < |runs|
    ensures found == FindOpener(runs, State(left, right, openers, pairs), r, |openers|)
  {
    var k := |openers| - 1;
    while k >= 0
      invariant -1 <= k < |openers|
      invariant FindOpener(runs, State(left, right, openers, pairs), r, |openers|) == FindOpener(runs, State(left, right, openers, pairs), r, k + 1)
    {
      var o := openers[k];
      assert o in openers;
      if runs[o].length - left[o] - right[o] > 0 && Compatible(runs[o], runs[r]) {
        return k;
      }
      k := k - 1;
    }
    found := -1;
  }

  // ---------- What matching keeps ----------

  /** Two matches never cross: the later one closes further right, and encloses or follows the earlier one. */
  predicate Uncrossed(p: Pair, q: Pair) {
    p.close < q.close && (q.open < p.open || p.close < q.open)
  }

  predicate PairOk(runs: seq<Run>, s: State, p: Pair)
    requires Shape(runs, s)
  {
    && p.opener < p.closer < |runs|
    && runs[p.opener].canOpen && runs[p.closer].canClose && Compatible(runs[p.opener], runs[p.closer])
    && runs[p.opener].start + runs[p.opener].length - s.right[p.opener] <= p.open < runs[p.opener].start + runs[p.opener].length
    && runs[p.closer].start <= p.close < runs[p.closer].start + s.left[p.closer]
  }

  /** The units an open run still offers lie left of a match's opener or right of its closer. */
  predicate Clear(runs: seq<Run>, s: State, o: nat, p: Pair)
    requires Shape(runs, s) && o < |runs|
  {
    || runs[o].start + runs[o].length - s.right[o] <= p.open
    || p.close < runs[o].start + s.left[o]
  }

  ghost predicate Ordered(runs: seq<Run>) {
    forall i, j :: 0 <= i < j < |runs| ==> runs[i].start + runs[i].length < runs[j].start
  }

  /** `r` is the run being processed; every open run lies before it. */
  ghost predicate StackOk(runs: seq<Run>, s: State, r: nat) {
    && Shape(runs, s)
    && (forall k :: r < k < |runs| ==> s.left[k] == 0 && s.right[k] == 0)
    && (r < |runs| ==> s.right[r] == 0)
    && (forall i, j :: 0 <= i < j < |s.openers| ==> s.openers[i] < s.openers[j])
    && (forall k <- s.openers :: k < r && runs[k].canOpen && Remaining(runs, s, k) > 0)
  }

  ghost predicate PairsOk(runs: seq<Run>, s: State, r: nat)
    requires Shape(runs, s)
  {
    && (forall p <- s.pairs :: PairOk(runs, s, p) && p.closer <= r)
    && (forall i, j :: 0 <= i < j < |s.pairs| ==> Uncrossed(s.pairs[i], s.pairs[j]))
  }

  ghost predicate AllClear(runs: seq<Run>, s: State)
    requires Shape(runs, s)
  {
    forall k, p | k in s.openers && p in s.pairs :: Clear(runs, s, k, p)
  }

  ghost predicate Inv(runs: seq<Run>, s: State, r: nat) {
    Ordered(runs) && Shape(runs, s) && StackOk(runs, s, r) && PairsOk(runs, s, r) && AllClear(runs, s)
  }

  /** The facts a match of run `r` starts from. */
  ghost predicate CanMatch(runs: seq<Run>, s: State, r: nat, found: nat) {
    && Inv(runs, s, r) && r < |runs| && runs[r].canClose && Remaining(runs, s, r) > 0
    && found < |s.openers| && s.openers[found] < r && Matches(runs, s, found, r)
  }

  lemma MatchStack(runs: seq<Run>, s: State, r: nat, found: nat)
    requires CanMatch(runs, s, r, found)
    ensures StackOk(runs, Match(runs, s, r, found), r)
    ensures forall k <- Match(runs, s, r, found).openers :: k in s.openers && k <= s.openers[found]
  {
    hide Compatible, PairsOk, AllClear;
    var next, o := Match(runs, s, r, found), s.openers[found];
    assert o in s.openers;
    forall k | k in next.openers ensures k in s.openers && k <= o {
      var i :| 0 <= i < |next.openers| && next.openers[i] == k;
      assert s.openers[i] == k && i <= found;
    }
    forall k | k in next.openers ensures Remaining(runs, next, k) > 0 {
      assert k in s.openers && Remaining(runs, s, k) > 0;
      if k == o {
        var i :| 0 <= i < |next.openers| && next.openers[i] == k;
        assert i == found;
      }
    }
  }

  lemma OldPair(runs: seq<Run>, s: State, r: nat, found: nat, p: Pair)
    requires CanMatch(runs, s, r, found) && p in s.pairs
    ensures PairOk(runs, Match(runs, s, r, found), p) && p.closer <= r
    ensures p.close < runs[r].start + s.left[r]
  {
    hide Compatible;
    assert PairOk(runs, s, p);
    if p.closer < r {
      assert runs[p.closer].start + runs[p.closer].length < runs[r].start;
    }
  }

  /** The added pairs take the opener's inner end and the closer's inner end. */
  lemma AddedPairs(runs: seq<Run>, s: State, r: nat, found: nat) returns (added: seq<Pair>)
    requires CanMatch(runs, s, r, found)
    ensures Match(runs, s, r, found).pairs == s.pairs + added
    ensures forall i, j :: 0 <= i < j < |added| ==> Uncrossed(added[i], added[j])
    ensures forall q <- added :: PairOk(runs, Match(runs, s, r, found), q) && q.closer == r
    ensures forall q <- added :: q.close >= runs[r].start + s.left[r]
    ensures var o := s.openers[found];
            forall q <- added :: runs[o].start + s.left[o] <= q.open < runs[o].start + runs[o].length - s.right[o]
  {
    hide PairsOk, AllClear;
    var next, o := Match(runs, s, r, found), s.openers[found];
    assert o in s.openers && runs[o].canOpen && Compatible(runs[o], runs[r]);
    hide Compatible;
    var inner := runs[o].start + runs[o].length - 1 - s.right[o];
    var outer := runs[r].start + s.left[r];
    var use := next.left[r] - s.left[r];
    added := [Pair(o, r, inner, outer)] + (if use == 2 then [Pair(o, r, inner - 1, outer + 1)] else []);
  }

  lemma AddedUncrossed(runs: seq<Run>, s: State, r: nat, found: nat, p: Pair, q: Pair)
    requires CanMatch(runs, s, r, found) && p in s.pairs
    requires q.close >= runs[r].start + s.left[r]
    requires var o := s.openers[found]; runs[o].start + s.left[o] <= q.open < runs[o].start + runs[o].length - s.right[o]
    ensures Uncrossed(p, q)
  {
    OldPair(runs, s, r, found, p);
    assert s.openers[found] in s.openers;
    assert Clear(runs, s, s.openers[found], p);
  }

  lemma MatchPairs(runs: seq<Run>, s: State, r: nat, found: nat)
    requires CanMatch(runs, s, r, found)
    ensures PairsOk(runs, Match(runs, s, r, found), r)
  {
    hide Compatible, Match, PairOk, Uncrossed, StackOk, AllClear;
    var next := Match(runs, s, r, found);
    var added := AddedPairs(runs, s, r, found);
    forall p | p in next.pairs ensures PairOk(runs, next, p) && p.closer <= r {
      if p in s.pairs {
        OldPair(runs, s, r, found, p);
      }
    }
    forall i, j | 0 <= i < j < |next.pairs| ensures Uncrossed(next.pairs[i], next.pairs[j]) {
      if i < |s.pairs| <= j {
        AddedUncrossed(runs, s, r, found, s.pairs[i], added[j - |s.pairs|]);
      } else if j >= |s.pairs| {
        assert Uncrossed(added[i - |s.pairs|], added[j - |s.pairs|]);
      }
    }
  }

  lemma MatchClear(runs: seq<Run>, s: State, r: nat, found: nat)
    requires CanMatch(runs, s, r, found)
    ensures AllClear(runs, Match(runs, s, r, found))
  {
    hide Compatible;
    var next, o := Match(runs, s, r, found), s.openers[found];
    assert o in s.openers;
    MatchStack(runs, s, r, found);
    forall k, p | k in next.openers && p in next.pairs ensures Clear(runs, next, k, p) {
      if p in s.pairs {
        assert Clear(runs, s, k, p);
      } else if k < o {
        assert runs[k].start + runs[k].length < runs[o].start;
      }
    }
  }

  lemma {:induction false} CloseKeeps(runs: seq<Run>, s: State, r: nat)
    requires Inv(runs, s, r) && r < |runs| && Below(s, r) && runs[r].canClose
    ensures Inv(runs, Close(runs, s, r), r)
    decreases Remaining(runs, s, r)
  {
    hide Match, StackOk, PairsOk, AllClear;
    if Remaining(runs, s, r) > 0 {
      var found := FindOpener(runs, s, r, |s.openers|);
      if found >= 0 {
        assert s.openers[found] in s.openers;
        MatchStack(runs, s, r, found);
        MatchPairs(runs, s, r, found);
        MatchClear(runs, s, r, found);
        CloseKeeps(runs, Match(runs, s, r, found), r);
      }
    }
  }

  /** Going on to the next run, with run `r` left on the stack when it can still open. */
  lemma PushKeeps(runs: seq<Run>, s: State, r: nat, push: bool)
    requires Inv(runs, s, r) && r < |runs| && (push ==> runs[r].canOpen && Remaining(runs, s, r) > 0)
    ensures Inv(runs, if push then s.(openers := s.openers + [r]) else s, r + 1)
  {
    hide Compatible, Uncrossed;
    var next := if push then s.(openers := s.openers + [r]) else s;
    forall p | p in s.pairs ensures PairOk(runs, next, p) && Clear(runs, next, r, p) {
      assert PairOk(runs, s, p);
      if p.closer < r {
        assert runs[p.closer].start + runs[p.closer].length < runs[r].start;
      }
    }
    forall k, p | k in next.openers && p in next.pairs ensures Clear(runs, next, k, p) {
      if k in s.openers {
        assert Clear(runs, s, k, p);
      }
    }
    forall i, j | 0 <= i < j < |next.openers| ensures next.openers[i] < next.openers[j] {
      assert next.openers[i] in s.openers;
    }
    forall k | k in next.openers ensures k < r + 1 && runs[k].canOpen && Remaining(runs, next, k) > 0 {
      assert k in s.openers || (push && k == r);
    }
  }

  lemma ProcessKeeps(runs: seq<Run>, s: State, r: nat)
    requires Inv(runs, s, r) && r < |runs| && Below(s, r)
    ensures Inv(runs, Process(runs, s, r), r + 1)
  {
    hide StackOk, PairsOk, AllClear;
    if runs[r].canClose {
      CloseKeeps(runs, s, r);
    }
    var closed := if runs[r].canClose then Close(runs, s, r) else s;
    PushKeeps(runs, closed, r, runs[r].canOpen && Remaining(runs, closed, r) > 0);
  }

  lemma StartKeeps(runs: seq<Run>)
    requires Ordered(runs)
    ensures Inv(runs, ProcessTo(runs, 0), 0)
  {
  }

  lemma {:induction false} ProcessToKeeps(runs: seq<Run>, n: nat)
    requires Ordered(runs) && n <= |runs|
    ensures Inv(runs, ProcessTo(runs, n), n)
  {
    hide Inv, Process;
    if n == 0 {
      StartKeeps(runs);
    } else {
      ProcessToKeeps(runs, n - 1);
      ProcessKeeps(runs, ProcessTo(runs, n - 1), n - 1);
    }
  }

  // ---------- Main result ----------

  /** What a match guarantees: copy stars outside code spans, guarded tokens and atoms, in two runs that may open and
      close, allowed by the rule of 3 on the original lengths. */
  ghost predicate Legal(units: seq<Unit>, removed: seq<bool>, code: seq<bool>, guarded: seq<bool>, runs: seq<Run>, p: Pair)
    requires |units| == |removed| == |code| == |guarded|
  {
    && p.opener < p.closer < |runs| && p.open < p.close < |units|
    && Eligible(units, removed, code, guarded, p.open) && Eligible(units, removed, code, guarded, p.close)
    && runs[p.opener].canOpen && runs[p.closer].canClose && Compatible(runs[p.opener], runs[p.closer])
    && runs[p.opener].start <= p.open < runs[p.opener].start + runs[p.opener].length
    && runs[p.closer].start <= p.close < runs[p.closer].start + runs[p.closer].length
  }

  lemma PairIsLegal(units: seq<Unit>, removed: seq<bool>, code: seq<bool>, guarded: seq<bool>, runs: seq<Run>, s: State, p: Pair)
    requires |units| == |removed| == |code| == |guarded|
    requires RunsOk(Stars(units, removed, code, guarded), runs, 0) && Shape(runs, s) && PairOk(runs, s, p)
    ensures Legal(units, removed, code, guarded, runs, p)
  {
    hide Compatible, Eligible;
    var stars := Stars(units, removed, code, guarded);
    assert runs[p.opener] in runs && runs[p.closer] in runs;
    assert stars[p.open] && stars[p.close];
    assert runs[p.opener].start + runs[p.opener].length < runs[p.closer].start;
  }

  /** Opener units and closer units never coincide: the two consumed ends of a run do not overlap. */
  lemma EndsApart(runs: seq<Run>, s: State, p: Pair, q: Pair)
    requires Ordered(runs) && Shape(runs, s) && PairOk(runs, s, p) && PairOk(runs, s, q)
    ensures p.open != q.close
  {
    if p.opener < q.closer {
      assert runs[p.opener].start + runs[p.opener].length < runs[q.closer].start;
    } else if q.closer < p.opener {
      assert runs[q.closer].start + runs[q.closer].length < runs[p.opener].start;
    }
  }

  /** Stars are removed only as matched pairs that never cross, each legal, and no unit serves twice. */
  lemma EmphasisIsMatched(units: seq<Unit>, removed: seq<bool>, code: seq<bool>, guarded: seq<bool>, punctuation: Text -> bool)
    requires |units| == |removed| == |code| == |guarded|
    ensures var runs, pairs := Runs(units, removed, code, guarded, punctuation), Pairs(units, removed, code, guarded, punctuation);
            && (forall p <- pairs :: Legal(units, removed, code, guarded, runs, p))
            && (forall i, j :: 0 <= i < j < |pairs| ==> Uncrossed(pairs[i], pairs[j]))
            && (forall p, q | p in pairs && q in pairs :: p.open != q.close)
  {
    var stars := Stars(units, removed, code, guarded);
    var runs := Runs(units, removed, code, guarded, punctuation);
    RunsFromOk(units, stars, 0, punctuation);
    ProcessToKeeps(runs, |runs|);
    var s := ProcessTo(runs, |runs|);
    hide ProcessTo, RunsFrom, PairOk, Legal, StackOk, AllClear, Uncrossed;
    forall p | p in s.pairs ensures Legal(units, removed, code, guarded, runs, p) {
      PairIsLegal(units, removed, code, guarded, runs, s, p);
    }
    forall p, q | p in s.pairs && q in s.pairs ensures p.open != q.close {
      EndsApart(runs, s, p, q);
    }
  }
}
