/** The HTTP 409 policy of the poll (telegram-platform-adapter.ts:755-759): which conflicts the pruned list still counts. */
module PollConflicts {
  const CONFLICT_COUNT := 3
  const CONFLICT_WINDOW := 300000

  /** The times inside the window that ends at `at`. */
  function Recent(times: seq<int>, at: int): seq<int> {
    if times == [] then []
    else Recent(times[..|times| - 1], at) + (if at - times[|times| - 1] < CONFLICT_WINDOW then [times[|times| - 1]] else [])
  }

  /** The list the adapter keeps after the 409s of `history`: pruned at each one, then extended. */
  function Conflicts(history: seq<int>): seq<int> {
    if history == [] then []
    else
      var at := history[|history| - 1];
      Recent(Conflicts(history[..|history| - 1]), at) + [at]
  }

  /** A conflict was inside the window at `at` and at every later conflict from `i` on. */
  predicate Survives(history: seq<int>, i: nat, t: int) {
    forall j :: i < j < |history| ==> history[j] - t < CONFLICT_WINDOW
  }

  /** The conflicts no later one found outside its window. */
  function Survivors(history: seq<int>, n: nat): seq<int>
    requires n <= |history|
  {
    if n == 0 then []
    else Survivors(history, n - 1) + (if Survives(history, n - 1, history[n - 1]) then [history[n - 1]] else [])
  }

  lemma RecentSnoc(times: seq<int>, t: int, at: int)
    ensures Recent(times + [t], at) == Recent(times, at) + (if at - t < CONFLICT_WINDOW then [t] else [])
  {
    assert (times + [t])[..|times|] == times;
  }

  lemma RecentNone(at: int)
    ensures Recent([], at) == []
  {
  }

  /** Pruning the survivors at a later conflict leaves the survivors of the longer history. */
  lemma {:induction false} SurvivorsPruned(history: seq<int>, at: int, n: nat)
    requires n <= |history|
    ensures Recent(Survivors(history, n), at) == Survivors(history + [at], n)
  {
    hide Survives, Recent;
    if n == 0 {
      RecentNone(at);
    } else {
      var t, more := history[n - 1], history + [at];
      SurvivorsPruned(history, at, n - 1);
      SurvivesMore(history, at, n - 1);
      RecentSnoc(Survivors(history, n - 1), t, at);
      NothingMore(Survivors(history, n - 1));
      NothingMore(Survivors(more, n - 1));
    }
  }

  lemma NothingMore(kept: seq<int>)
    ensures kept + [] == kept
  {
  }

  lemma SurvivesMore(history: seq<int>, at: int, i: nat)
    requires i < |history|
    ensures var more := history + [at];
            more[i] == history[i] && (Survives(more, i, history[i]) <==> Survives(history, i, history[i]) && at - history[i] < CONFLICT_WINDOW)
  {
    var more := history + [at];
    assert forall j :: i < j < |history| ==> more[j] == history[j];
    assert more[|history|] == at;
  }

  /** The kept list is exactly the conflicts that were inside the window at every later one. */
  lemma {:induction false} ConflictsAreSurvivors(history: seq<int>)
    ensures Conflicts(history) == Survivors(history, |history|)
  {
    if history != [] {
      var n := |history| - 1;
      var front, at := history[..n], history[n];
      assert history == front + [at];
      ConflictsAreSurvivors(front);
      SurvivorsPruned(front, at, n);
      assert Survives(history, n, at);
    }
  }

  /** In the last window, but outside the window of an earlier later conflict: pruned too early. */
  predicate Lost(history: seq<int>, i: nat)
    requires history != [] && i < |history|
  {
    history[|history| - 1] - history[i] < CONFLICT_WINDOW && !Survives(history, i, history[i])
  }

  function CountLost(history: seq<int>, n: nat): nat
    requires history != [] && n <= |history|
  {
    if n == 0 then 0 else CountLost(history, n - 1) + if Lost(history, n - 1) then 1 else 0
  }

  /** What survives is in the last window; the rest of that window is lost. */
  lemma {:induction false} RecentSplits(history: seq<int>, n: nat)
    requires history != [] && n <= |history|
    ensures |Recent(history[..n], history[|history| - 1])| == |Survivors(history, n)| + CountLost(history, n)
    ensures CountLost(history, n) == 0 ==> Recent(history[..n], history[|history| - 1]) == Survivors(history, n)
  {
    if n > 0 {
      var at, t := history[|history| - 1], history[n - 1];
      RecentSplits(history, n - 1);
      assert history[..n] == history[..n - 1] + [t];
      RecentSnoc(history[..n - 1], t, at);
      if Survives(history, n - 1, t) {
        LastOfAll(history, n - 1);
      }
    }
  }

  lemma LastOfAll(history: seq<int>, i: nat)
    requires i < |history| && Survives(history, i, history[i])
    ensures history[|history| - 1] - history[i] < CONFLICT_WINDOW
  {
    if i < |history| - 1 {
      assert history[|history| - 1] - history[i] < CONFLICT_WINDOW;
    }
  }

  lemma {:induction false} CountLostNone(history: seq<int>, n: nat)
    requires history != [] && n <= |history|
    ensures CountLost(history, n) == 0 <==> forall i: nat :: i < n ==> !Lost(history, i)
  {
    if n > 0 {
      CountLostNone(history, n - 1);
    }
  }

  /** Nothing is lost exactly when a conflict found outside a window stays outside. */
  lemma NoneLost(history: seq<int>)
    requires history != []
    ensures (forall i: nat :: i < |history| ==> !Lost(history, i))
       <==> forall i, j :: 0 <= i < j < |history| && history[j] - history[i] >= CONFLICT_WINDOW ==>
              history[|history| - 1] - history[i] >= CONFLICT_WINDOW
  {
    if forall i: nat :: i < |history| ==> !Lost(history, i) {
      forall i, j | 0 <= i < j < |history| && history[j] - history[i] >= CONFLICT_WINDOW
        ensures history[|history| - 1] - history[i] >= CONFLICT_WINDOW {
        assert !Lost(history, i);
      }
    } else {
      var i: nat :| i < |history| && Lost(history, i);
      var j :| i < j < |history| && history[j] - history[i] >= CONFLICT_WINDOW;
    }
  }

  /** The kept list is the last window of the whole history exactly when a conflict found outside a window stays outside. */
  lemma ConflictsAreRecentExactly(history: seq<int>)
    requires history != []
    ensures Conflicts(history) == Recent(history, history[|history| - 1])
       <==> forall i, j :: 0 <= i < j < |history| && history[j] - history[i] >= CONFLICT_WINDOW ==>
              history[|history| - 1] - history[i] >= CONFLICT_WINDOW
  {
    hide Conflicts, Recent, Survivors, CountLost, Lost;
    ConflictsAreSurvivors(history);
    RecentSplits(history, |history|);
    CountLostNone(history, |history|);
    NoneLost(history);
    assert history[..|history|] == history;
  }

  /** The adapter halts after a history exactly when the last window holds three conflicts beyond those pruned too early. */
  lemma HaltsExactly(history: seq<int>)
    requires history != []
    ensures |Conflicts(history)| >= CONFLICT_COUNT
       <==> |Recent(history, history[|history| - 1])| >= CONFLICT_COUNT + CountLost(history, |history|)
  {
    ConflictsAreSurvivors(history);
    RecentSplits(history, |history|);
    assert history[..|history|] == history;
  }

  /** With a clock that never steps back nothing is lost: three conflicts in the window halt the adapter. */
  lemma ClockwiseHalts(history: seq<int>)
    requires history != [] && forall i, j :: 0 <= i < j < |history| ==> history[i] <= history[j]
    ensures |Conflicts(history)| >= CONFLICT_COUNT <==> |Recent(history, history[|history| - 1])| >= CONFLICT_COUNT
  {
    ConflictsAreRecentExactly(history);
  }

  /** A clock that steps back lets a pruned 409 count no more: the window holds three, the list two. */
  lemma ClockStepLosesConflict()
    ensures var history := [0, 300000, 200000]; |Recent(history, 200000)| == 3 && |Conflicts(history)| == 2
  {
    var history := [0, 300000, 200000];
    ConflictsAreSurvivors(history);
    RecentSplits(history, 3);
    assert history[..3] == history;
    assert history[1] - history[0] >= CONFLICT_WINDOW;
    assert !Survives(history, 0, 0) && Survives(history, 1, 300000) && Survives(history, 2, 200000);
    assert Survivors(history, 3) == [300000, 200000];
  }
}
