/** `*` emphasis pairs as much as it may (commonmark.ts:347-380): a run left with stars finds no run to pair with. */
module EmphasisMaximal {
  import opened Utf16
  import opened Emphasis

  // ---------- Where unmatched open runs are ----------

  /** The run lies between the two runs of a pair. */
  predicate Encloses(p: Pair, o: nat) {
    p.opener < o < p.closer
  }

  ghost predicate Enclosed(pairs: seq<Pair>, o: nat, last: nat) {
    exists p <- pairs :: Encloses(p, o) && p.closer <= last
  }

  /** Every run before `r` that can still open is on the stack, or a pair encloses it. */
  ghost predicate Stacked(runs: seq<Run>, s: State, r: nat)
    requires Shape(runs, s)
  {
    forall o: nat :: o < r && o < |runs| && runs[o].canOpen && Remaining(runs, s, o) > 0 ==> o in s.openers || Enclosed(s.pairs, o, r)
  }

  /** No two runs before `r` are left that could pair, but for an opener that a pair encloses. */
  ghost predicate Exhausted(runs: seq<Run>, s: State, r: nat)
    requires Shape(runs, s)
  {
    forall o: nat, c: nat | o < c < r && c < |runs| && CouldPair(runs, s, o, c) :: Enclosed(s.pairs, o, c)
  }

  predicate CouldPair(runs: seq<Run>, s: State, o: nat, c: nat)
    requires Shape(runs, s) && o < |runs| && c < |runs|
  {
    runs[o].canOpen && runs[c].canClose && Compatible(runs[o], runs[c]) && Remaining(runs, s, o) > 0 && Remaining(runs, s, c) > 0
  }

  /** A pair takes the nearest opener: one between its runs that would do lies in an earlier pair. */
  ghost predicate Nearest(runs: seq<Run>, s: State)
    requires Shape(runs, s)
  {
    forall j: nat, o: nat | j < |s.pairs| && PassedOver(runs, s, s.pairs[j], o) :: Enclosed(s.pairs[..j], o, s.pairs[j].closer)
  }

  predicate PassedOver(runs: seq<Run>, s: State, p: Pair, o: nat)
    requires Shape(runs, s)
  {
    Encloses(p, o) && p.closer < |runs| && runs[o].canOpen && Compatible(runs[o], runs[p.closer]) && Remaining(runs, s, o) > 0
  }

  predicate InLeft(runs: seq<Run>, s: State, r: nat, k: nat)
    requires Shape(runs, s) && r < |runs|
  {
    runs[r].start <= k < runs[r].start + s.left[r]
  }

  predicate InRight(runs: seq<Run>, s: State, r: nat, k: nat)
    requires Shape(runs, s) && r < |runs|
  {
    runs[r].start + runs[r].length - s.right[r] <= k < runs[r].start + runs[r].length
  }

  ghost predicate ClosedAt(pairs: seq<Pair>, k: nat) {
    exists p <- pairs :: p.close == k
  }

  ghost predicate OpenedAt(pairs: seq<Pair>, k: nat) {
    exists p <- pairs :: p.open == k
  }

  /** The consumed ends of a run are units of pairs. */
  ghost predicate Covered(runs: seq<Run>, s: State)
    requires Shape(runs, s)
  {
    && (forall r: nat, k: nat | r < |runs| && InLeft(runs, s, r, k) :: ClosedAt(s.pairs, k))
    && (forall r: nat, k: nat | r < |runs| && InRight(runs, s, r, k) :: OpenedAt(s.pairs, k))
  }

  ghost predicate Full(runs: seq<Run>, s: State, r: nat) {
    Inv(runs, s, r) && Stacked(runs, s, r) && Exhausted(runs, s, r) && Nearest(runs, s) && Covered(runs, s)
  }

  // ---------- One match ----------

  lemma EnclosedMore(pairs: seq<Pair>, more: seq<Pair>, o: nat, last: nat, later: nat)
    requires Enclosed(pairs, o, last) && last <= later
    ensures Enclosed(pairs + more, o, later)
  {
    var p :| p in pairs && Encloses(p, o) && p.closer <= last;
    assert p in pairs + more;
  }

  /** What one match does to the counts, the stack and the pairs. */
  ghost predicate Matched(runs: seq<Run>, s: State, r: nat, found: nat, next: State, added: seq<Pair>) {
    && Shape(runs, s) && Shape(runs, next) && r < |runs| && found < |s.openers| && s.openers[found] < r
    && next.pairs == s.pairs + added && added != []
    && (forall q <- added :: q.opener == s.openers[found] && q.closer == r)
    && (forall k :: 0 <= k < |runs| ==> Remaining(runs, next, k) <= Remaining(runs, s, k))
    && (forall k: nat :: k < found ==> s.openers[k] in next.openers)
    && (Remaining(runs, next, s.openers[found]) > 0 ==> s.openers[found] in next.openers)
  }

  lemma MatchIs(runs: seq<Run>, s: State, r: nat, found: nat) returns (added: seq<Pair>)
    requires CanMatch(runs, s, r, found)
    ensures Matched(runs, s, r, found, Match(runs, s, r, found), added)
  {
    hide PairsOk, AllClear, Compatible;
    var next, o := Match(runs, s, r, found), s.openers[found];
    assert o in s.openers;
    var use := next.left[r] - s.left[r];
    var inner, outer := runs[o].start + runs[o].length - 1 - s.right[o], runs[r].start + s.left[r];
    added := [Pair(o, r, inner, outer)] + (if use == 2 then [Pair(o, r, inner - 1, outer + 1)] else []);
    forall k: nat | k < found ensures s.openers[k] in next.openers {
      assert s.openers[..found][k] == s.openers[k] && s.openers[..found + 1][k] == s.openers[k];
    }
    if Remaining(runs, next, o) > 0 {
      assert s.openers[..found + 1][found] == o;
    }
  }

  lemma MatchStacked(runs: seq<Run>, s: State, r: nat, found: nat, next: State, added: seq<Pair>)
    requires Matched(runs, s, r, found, next, added) && Stacked(runs, s, r) && StackOk(runs, s, r)
    ensures Stacked(runs, next, r)
  {
    forall o: nat | o < r && o < |runs| && runs[o].canOpen && Remaining(runs, next, o) > 0
      ensures o in next.openers || Enclosed(next.pairs, o, r)
    {
      if o in s.openers {
        var i :| 0 <= i < |s.openers| && s.openers[i] == o;
        if i > found {
          assert s.openers[found] < o;
          assert added[0] in added && added[0] in next.pairs;
          assert Encloses(added[0], o);
        }
      } else {
        EnclosedMore(s.pairs, added, o, r, r);
      }
    }
  }

  lemma MatchExhausted(runs: seq<Run>, s: State, r: nat, found: nat, next: State, added: seq<Pair>)
    requires Matched(runs, s, r, found, next, added) && Exhausted(runs, s, r)
    ensures Exhausted(runs, next, r)
  {
    hide Compatible, Enclosed;
    forall o: nat, c: nat | o < c < r && c < |runs| && CouldPair(runs, next, o, c) ensures Enclosed(next.pairs, o, c) {
      assert CouldPair(runs, s, o, c);
      EnclosedMore(s.pairs, added, o, c, c);
    }
  }

  lemma MatchNearest(runs: seq<Run>, s: State, r: nat, found: nat, next: State, added: seq<Pair>)
    requires Matched(runs, s, r, found, next, added) && Nearest(runs, s) && Stacked(runs, s, r) && StackOk(runs, s, r)
    requires found == FindOpener(runs, s, r, |s.openers|)
    ensures Nearest(runs, next)
  {
    hide Compatible, Enclosed;
    forall j: nat, o: nat | j < |next.pairs| && PassedOver(runs, next, next.pairs[j], o)
      ensures Enclosed(next.pairs[..j], o, next.pairs[j].closer)
    {
      var p := next.pairs[j];
      if j < |s.pairs| {
        assert PassedOver(runs, s, s.pairs[j], o) && next.pairs[..j] == s.pairs[..j];
      } else {
        assert p == added[j - |s.pairs|] && p in added;
        if o in s.openers {
          AboveFound(runs, s, r, found, o);
          assert false;
        }
        assert next.pairs[..j] == s.pairs + added[..j - |s.pairs|];
        EnclosedMore(s.pairs, added[..j - |s.pairs|], o, r, r);
      }
    }
  }

  /** An open run above the one that was found cannot pair with the closer. */
  lemma AboveFound(runs: seq<Run>, s: State, r: nat, found: nat, o: nat)
    requires StackOk(runs, s, r) && r < |runs| && found < |s.openers| && o in s.openers && s.openers[found] < o
    requires found == FindOpener(runs, s, r, |s.openers|)
    ensures Remaining(runs, s, o) == 0 || !Compatible(runs[o], runs[r])
  {
    hide Compatible, FindOpener;
    var i :| 0 <= i < |s.openers| && s.openers[i] == o;
    assert i > found;
    assert !Matches(runs, s, i, r);
  }

  lemma AtMore(pairs: seq<Pair>, more: seq<Pair>, k: nat)
    ensures ClosedAt(pairs, k) || ClosedAt(more, k) ==> ClosedAt(pairs + more, k)
    ensures OpenedAt(pairs, k) || OpenedAt(more, k) ==> OpenedAt(pairs + more, k)
  {
    if p :| p in pairs && p.close == k {
      assert p in pairs + more;
    }
    if p :| p in more && p.close == k {
      assert p in pairs + more;
    }
    if p :| p in pairs && p.open == k {
      assert p in pairs + more;
    }
    if p :| p in more && p.open == k {
      assert p in pairs + more;
    }
  }

  /** The units a match takes. */
  lemma MatchTakes(runs: seq<Run>, s: State, r: nat, found: nat) returns (added: seq<Pair>)
    requires CanMatch(runs, s, r, found)
    ensures var next := Match(runs, s, r, found);
            && next.pairs == s.pairs + added
            && (forall c: nat, k: nat | c < |runs| && InLeft(runs, next, c, k) && !InLeft(runs, s, c, k) :: ClosedAt(added, k))
            && (forall c: nat, k: nat | c < |runs| && InRight(runs, next, c, k) && !InRight(runs, s, c, k) :: OpenedAt(added, k))
  {
    hide PairsOk, AllClear, Compatible, Ordered, StackOk;
    var next, o := Match(runs, s, r, found), s.openers[found];
    assert o in s.openers;
    var use := next.left[r] - s.left[r];
    var inner, outer := runs[o].start + runs[o].length - 1 - s.right[o], runs[r].start + s.left[r];
    added := [Pair(o, r, inner, outer)] + (if use == 2 then [Pair(o, r, inner - 1, outer + 1)] else []);
    assert added[0] in added && (use == 2 ==> added[1] in added);
  }

  lemma MatchCovered(runs: seq<Run>, s: State, r: nat, found: nat)
    requires CanMatch(runs, s, r, found) && Covered(runs, s)
    ensures Covered(runs, Match(runs, s, r, found))
  {
    hide Inv, Match, Compatible, ClosedAt, OpenedAt, InLeft, InRight;
    var added := MatchTakes(runs, s, r, found);
    forall k: nat ensures (ClosedAt(s.pairs, k) || ClosedAt(added, k) ==> ClosedAt(s.pairs + added, k))
                          && (OpenedAt(s.pairs, k) || OpenedAt(added, k) ==> OpenedAt(s.pairs + added, k)) {
      AtMore(s.pairs, added, k);
    }
  }

  lemma MatchFull(runs: seq<Run>, s: State, r: nat, found: nat)
    requires Full(runs, s, r) && CanMatch(runs, s, r, found) && found == FindOpener(runs, s, r, |s.openers|)
    ensures Full(runs, Match(runs, s, r, found), r)
  {
    hide Match, Matched, StackOk, PairsOk, AllClear, Stacked, Exhausted, Nearest, Covered, FindOpener;
    MatchStack(runs, s, r, found);
    MatchPairs(runs, s, r, found);
    MatchClear(runs, s, r, found);
    MatchCovered(runs, s, r, found);
    var next := Match(runs, s, r, found);
    var added := MatchIs(runs, s, r, found);
    MatchStacked(runs, s, r, found, next, added);
    MatchExhausted(runs, s, r, found, next, added);
    MatchNearest(runs, s, r, found, next, added);
  }

  // ---------- One run ----------

  /** When a run stops closing, it has no stars left or no open run on the stack can pair with it. */
  ghost predicate Stuck(runs: seq<Run>, s: State, r: nat)
    requires Shape(runs, s) && r < |runs|
  {
    Remaining(runs, s, r) == 0 || FindOpener(runs, s, r, |s.openers|) < 0
  }

  lemma {:induction false} CloseFull(runs: seq<Run>, s: State, r: nat)
    requires Full(runs, s, r) && r < |runs| && Below(s, r) && runs[r].canClose
    ensures Full(runs, Close(runs, s, r), r) && Stuck(runs, Close(runs, s, r), r)
    decreases Remaining(runs, s, r)
  {
    hide Match, StackOk, PairsOk, AllClear, Stacked, Exhausted, Nearest, Covered, FindOpener;
    if Remaining(runs, s, r) > 0 {
      var found := FindOpener(runs, s, r, |s.openers|);
      if found >= 0 {
        assert s.openers[found] in s.openers;
        MatchFull(runs, s, r, found);
        CloseFull(runs, Match(runs, s, r, found), r);
      }
    }
  }

  lemma NoneFound(runs: seq<Run>, s: State, r: nat, o: nat)
    requires Shape(runs, s) && r < |runs| && o in s.openers && FindOpener(runs, s, r, |s.openers|) < 0
    ensures o < |runs| && (Remaining(runs, s, o) == 0 || !Compatible(runs[o], runs[r]))
  {
    hide Compatible, FindOpener;
    var i :| 0 <= i < |s.openers| && s.openers[i] == o;
    assert !Matches(runs, s, i, r);
  }

  lemma StuckExhausted(runs: seq<Run>, s: State, r: nat)
    requires Shape(runs, s) && r < |runs| && Stacked(runs, s, r) && Exhausted(runs, s, r) && (runs[r].canClose ==> Stuck(runs, s, r))
    ensures Exhausted(runs, s, r + 1)
  {
    hide Compatible, Enclosed, FindOpener;
    forall o: nat, c: nat | o < c < r + 1 && c < |runs| && CouldPair(runs, s, o, c) ensures Enclosed(s.pairs, o, c) {
      if c < r {
        assert CouldPair(runs, s, o, c);
      } else if o in s.openers {
        NoneFound(runs, s, r, o);
        assert false;
      }
    }
  }

  /** Going on to the next run, with run `r` on the stack when it can still open. */
  lemma PushFull(runs: seq<Run>, s: State, r: nat)
    requires Full(runs, s, r) && r < |runs| && Below(s, r) && (runs[r].canClose ==> Stuck(runs, s, r))
    ensures var push := runs[r].canOpen && Remaining(runs, s, r) > 0;
            Full(runs, if push then s.(openers := s.openers + [r]) else s, r + 1)
  {
    hide Compatible, StackOk, PairsOk, AllClear, FindOpener, Stuck;
    var push := runs[r].canOpen && Remaining(runs, s, r) > 0;
    var next := if push then s.(openers := s.openers + [r]) else s;
    PushKeeps(runs, s, r, push);
    StuckExhausted(runs, s, r);
    Pushed(runs, s, next, r);
  }

  lemma Pushed(runs: seq<Run>, s: State, next: State, r: nat)
    requires Shape(runs, s) && r < |runs| && Shape(runs, next) && next == s.(openers := next.openers)
    requires next.openers == if runs[r].canOpen && Remaining(runs, s, r) > 0 then s.openers + [r] else s.openers
    requires Stacked(runs, s, r) && Exhausted(runs, s, r + 1) && Nearest(runs, s) && Covered(runs, s)
    ensures Stacked(runs, next, r + 1) && Exhausted(runs, next, r + 1) && Nearest(runs, next) && Covered(runs, next)
  {
    hide Compatible;
    forall o: nat | o < r + 1 && o < |runs| && runs[o].canOpen && Remaining(runs, next, o) > 0
      ensures o in next.openers || Enclosed(next.pairs, o, r + 1)
    {
      if o < r && o !in s.openers {
        EnclosedMore(s.pairs, [], o, r, r + 1);
        assert s.pairs + [] == s.pairs;
      }
    }
    hide Enclosed;
    forall o: nat, c: nat | o < c < r + 1 && c < |runs| && CouldPair(runs, next, o, c) ensures Enclosed(next.pairs, o, c) {
      assert CouldPair(runs, s, o, c);
    }
    forall j: nat, o: nat | j < |next.pairs| && PassedOver(runs, next, next.pairs[j], o)
      ensures Enclosed(next.pairs[..j], o, next.pairs[j].closer)
    {
      assert PassedOver(runs, s, s.pairs[j], o);
    }
    forall c: nat, k: nat | c < |runs| ensures InLeft(runs, next, c, k) == InLeft(runs, s, c, k) && InRight(runs, next, c, k) == InRight(runs, s, c, k) {
    }
  }

  lemma {:induction false} ProcessToFull(runs: seq<Run>, n: nat)
    requires Ordered(runs) && n <= |runs|
    ensures Full(runs, ProcessTo(runs, n), n)
  {
    hide Inv, Close, Stacked, Exhausted, Nearest, Covered;
    if n == 0 {
      StartKeeps(runs);
      StartFull(runs);
    } else {
      var s := ProcessTo(runs, n - 1);
      ProcessToFull(runs, n - 1);
      if runs[n - 1].canClose {
        CloseFull(runs, s, n - 1);
      }
      PushFull(runs, if runs[n - 1].canClose then Close(runs, s, n - 1) else s, n - 1);
    }
  }

  lemma StartFull(runs: seq<Run>)
    ensures var s := ProcessTo(runs, 0); Stacked(runs, s, 0) && Exhausted(runs, s, 0) && Nearest(runs, s) && Covered(runs, s)
  {
  }

  // ---------- Main result ----------

  /** The unit belongs to the run and to no pair. */
  ghost predicate Left(pairs: seq<Pair>, run: Run, k: nat) {
    run.start <= k < run.start + run.length && forall p <- pairs :: p.open != k && p.close != k
  }

  lemma LeftRemains(runs: seq<Run>, s: State, r: nat, k: nat)
    requires Shape(runs, s) && Covered(runs, s) && r < |runs| && Left(s.pairs, runs[r], k)
    ensures Remaining(runs, s, r) > 0
  {
    assert !ClosedAt(s.pairs, k) && !OpenedAt(s.pairs, k);
    assert !InLeft(runs, s, r, k) && !InRight(runs, s, r, k);
  }

  /** Nothing more could be paired: of two runs that both keep a star and could pair, the opening one lies inside a pair that
      is closed no later; and of several openers a closer takes the nearest: one passed over that keeps a star lies inside an
      earlier pair. */
  lemma EmphasisIsMaximal(units: seq<Unit>, removed: seq<bool>, code: seq<bool>, guarded: seq<bool>, punctuation: Text -> bool)
    requires |units| == |removed| == |code| == |guarded|
    ensures var runs, pairs := Runs(units, removed, code, guarded, punctuation), Pairs(units, removed, code, guarded, punctuation);
            && (forall o, c, i, j | 0 <= o < c < |runs| && Left(pairs, runs[o], i) && Left(pairs, runs[c], j)
                    && runs[o].canOpen && runs[c].canClose && Compatible(runs[o], runs[c]) :: Enclosed(pairs, o, c))
            && (forall n, o, i | 0 <= n < |pairs| && 0 <= o < |runs| && Encloses(pairs[n], o) && pairs[n].closer < |runs|
                    && Left(pairs, runs[o], i) && runs[o].canOpen && Compatible(runs[o], runs[pairs[n].closer]) ::
                  Enclosed(pairs[..n], o, pairs[n].closer))
  {
    hide ProcessTo, RunsFrom, Inv, Left, Enclosed, Compatible;
    var stars := Stars(units, removed, code, guarded);
    var runs, pairs := Runs(units, removed, code, guarded, punctuation), Pairs(units, removed, code, guarded, punctuation);
    RunsFromOk(units, stars, 0, punctuation);
    ProcessToFull(runs, |runs|);
    var s := ProcessTo(runs, |runs|);
    forall o, c, i, j | 0 <= o < c < |runs| && Left(pairs, runs[o], i) && Left(pairs, runs[c], j)
        && runs[o].canOpen && runs[c].canClose && Compatible(runs[o], runs[c])
      ensures Enclosed(pairs, o, c)
    {
      LeftRemains(runs, s, o, i);
      LeftRemains(runs, s, c, j);
      assert CouldPair(runs, s, o, c);
    }
    forall n, o, i | 0 <= n < |pairs| && 0 <= o < |runs| && Encloses(pairs[n], o) && pairs[n].closer < |runs|
        && Left(pairs, runs[o], i) && runs[o].canOpen && Compatible(runs[o], runs[pairs[n].closer])
      ensures Enclosed(pairs[..n], o, pairs[n].closer)
    {
      LeftRemains(runs, s, o, i);
      assert PassedOver(runs, s, s.pairs[n], o);
    }
  }
}
