/** The reset of the offset after a silent day (telegram-platform-adapter.ts:668-733): exactly when it can hand an update
    over again. */
module PollReset {
  import opened Options
  import opened TelegramPoll
  import opened PollDelivery

  // ---------- Calm polls: how an update can be handed over again ----------

  const CALM := Wait(true, false, false, false)
  const CALM_WAITS := Waits(CALM, CALM, CALM, true, CALM, CALM, CALM, true)

  function CalmEntry(w: World, id: nat): Entry
    requires id in w.facts
  {
    Entry(Update(id, w.facts[id].date, w.facts[id].content), w.now, CALM_WAITS)
  }

  /** The answer is the next update alone. */
  function CalmPoll(w: World, id: nat): Step
    requires id in w.facts
  {
    Poll([CalmEntry(w, id)], w.now, CALM_WAITS, w.now)
  }

  ghost predicate Collected(w: World, h: nat) {
    w.node.a.pending.Some? && h in w.node.a.pending.value.parts
  }

  /** Calm polls will hand `h` over: it is waiting at the server, or collected. */
  ghost predicate Waiting(w: World, h: nat) {
    && Polling(w.node.a) && ServerOk(w.produced, w.facts, w.now)
    && h in w.produced && Wanted(w, h) && Base(w) <= h
    && (Collected(w, h) || !StaleNow(w, h))
    && (w.node.a.pending.Some? ==>
          var g := w.node.a.pending.value;
          g.parts != [] && g.last in w.produced && Base(w) <= g.last && (h <= g.last ==> h in g.parts))
  }

  lemma CalmFlush(n: Node)
    requires Polling(n.a)
    ensures Flush(n, CALM, CALM, CALM, true) == Result(FlushedNode(n), true)
  {
  }

  function FlushedNode(n: Node): Node {
    if n.a.pending.None? then n
    else
      var g := n.a.pending.value;
      Node(n.a.(pending := None, offset := Some(g.last + 1), saved := Some(g.last + 1), unsaved := false), n.log + [Turn(g.parts)])
  }

  /** The next update alone, before an album is collected. */
  function TakenNode(n: Node, id: nat, content: Content, at: nat, stale: bool): Node {
    if content.Refused? || stale then Refuse(n, id, if content.Refused? then Unwanted else Stale(at))
    else if content.Message? && content.album.Some? then
      WithPending(n, Some(Group([id], content.chat, content.album.value, id, true, 0)))
    else n.(a := n.a.(offset := Some(id + 1), saved := Some(id + 1), unsaved := false), log := n.log + [Turn([id])])
  }

  lemma CalmTake(n: Node, e: Entry)
    requires Polling(n.a) && e.waits == CALM_WAITS && e.update.Update? && n.a.pending.None? && !Seen(n.a, e.update.id)
    ensures Take(n, e) == Result(TakenNode(n, e.update.id, e.update.content, e.at, IsStale(e.update.date, e.at)), true)
  {
    hide Flush, IsStale;
    CalmFlush(n);
  }

  function FinishedNode(n: Node): Node {
    if n.a.pending.None? then Persist(n, true)
    else
      var g := n.a.pending.value;
      if !g.grew || g.rounds >= MAX_ALBUM_ROUNDS then Persist(FlushedNode(n), true)
      else Persist(WithPending(n, Some(g.(grew := false, rounds := g.rounds + 1))), true)
  }

  lemma CalmFinish(n: Node)
    requires Polling(n.a)
    ensures Finish(n, CALM_WAITS) == Result(FinishedNode(n), true)
  {
    hide Flush;
    CalmFlush(n);
  }

  lemma OneEntry(n: Node, e: Entry, end: Waits)
    requires Take(n, e).ok
    ensures HandleBatch(n, [e], end) == Finish(Take(n, e).node, end)
  {
    hide Take, Finish;
    var es := [e];
    assert |es[1..]| == 0;
    assert Batch(Take(n, e).node, es[1..]) == Result(Take(n, e).node, true);
  }

  /** The next update, which is not above `h`. */
  ghost predicate Upcoming(w: World, h: nat, id: nat) {
    First(w, id) && id <= h
  }

  lemma {:induction false} FirstFrom(w: World, h: nat, i: nat) returns (id: nat)
    requires Sorted(w.produced) && (forall x <- w.produced :: x in w.facts) && i < |w.produced| && w.produced[i] == h && Base(w) <= h
    ensures Upcoming(w, h, id)
    decreases i
  {
    if i > 0 && Base(w) <= w.produced[i - 1] {
      id := FirstFrom(w, w.produced[i - 1], i - 1);
    } else {
      id := h;
      assert i > 0 ==> forall j :: 0 <= j < i ==> w.produced[j] <= w.produced[i - 1];
      forall y | y in w.produced && Base(w) <= y ensures h <= y {
        var j :| 0 <= j < |w.produced| && w.produced[j] == y;
      }
    }
  }

  lemma CalmEnabled(w: World, h: nat, id: nat)
    requires Waiting(w, h) && Upcoming(w, h, id)
    ensures Enabled(w, CalmPoll(w, id)) && !w.facts[id].huge
  {
    var es := [CalmEntry(w, id)];
    assert id < h ==> !w.facts[id].huge;
    assert InTime(w.now, es, w.now) by {
      assert |es[1..]| == 0;
    }
    assert Is(es[0], id);
    hide InTime, IsStale;
  }

  /** What one calm poll does. */
  function Polled(w: World, id: nat): World
    requires id in w.facts
  {
    var c := Confirm(w);
    var n := Answered(c.node, true, w.now);
    c.(node := FinishedNode(if Seen(n.a, id) then n else TakenNode(n, id, w.facts[id].content, w.now, StaleNow(w, id))))
  }

  lemma CalmNext(w: World, h: nat, id: nat)
    requires Waiting(w, h) && Upcoming(w, h, id)
    ensures Next(w, CalmPoll(w, id)) == Polled(w, id)
    ensures Seen(w.node.a, id) == w.node.a.pending.Some?
  {
    hide HandleBatch, Batch, Finish, Flush, IsStale, Takeable, ServerOk, Refuse, FinishedNode;
    var n := Answered(Confirm(w).node, true, w.now);
    var e := CalmEntry(w, id);
    if Seen(n.a, id) {
      assert Take(n, e) == Result(n, true);
    } else {
      assert n.a.pending.None?;
      CalmTake(n, e);
    }
    OneEntry(n, e, CALM_WAITS);
    var m := Take(n, e).node;
    StillPolling(n, id, w.facts[id].content, w.now, StaleNow(w, id));
    CalmFinish(m);
  }

  lemma StillPolling(n: Node, id: nat, content: Content, at: nat, stale: bool)
    requires Polling(n.a)
    ensures Polling(TakenNode(n, id, content, at, stale).a)
  {
  }

  function Phase(a: Adapter): nat {
    if a.pending.None? then 3 else if a.pending.value.grew then 2 else 1
  }

  function Distance(w: World, h: nat): nat {
    if Base(w) <= h then 4 * (h + 1 - Base(w)) + Phase(w.node.a) else 0
  }

  /** `v` comes from `w` by calm polls; the clock stands. */
  ghost predicate Calmly(w: World, v: World, h: nat) {
    && Polling(v.node.a) && v == w.(node := v.node, forgotten := v.forgotten) && w.forgotten <= v.forgotten <= h
    && v.node.a.lastAt == w.now && v.node.a.life == w.node.a.life
  }

  /** `h` was handed over, and nothing is collected. */
  ghost predicate Arrived(w: World, v: World, h: nat) {
    && Times(Handed(v.node.log), h) > Times(Handed(w.node.log), h) && v.node.a.pending.None? && v.node.a.offset.Some?
  }

  ghost predicate Nearer(w: World, v: World, h: nat) {
    Calmly(w, v, h) && (Arrived(w, v, h) || (Waiting(v, h) && Distance(v, h) < Distance(w, h)))
    && Times(Handed(w.node.log), h) <= Times(Handed(v.node.log), h)
  }

  lemma CalmSeen(w: World, h: nat, id: nat)
    requires Waiting(w, h) && Upcoming(w, h, id) && w.node.a.pending.Some?
    ensures Nearer(w, Polled(w, id), h)
  {
    hide Handed, Times, IsStale, ServerOk, Takeable, Nearer, Base, Polling;
    CalmNext(w, h, id);
    var v, g := Polled(w, id), w.node.a.pending.value;
    if !g.grew || g.rounds >= MAX_ALBUM_ROUNDS {
      FlushedNearer(w, v, h, g);
    } else {
      AgedNearer(w, v, h, g);
    }
  }

  lemma FlushedNearer(w: World, v: World, h: nat, g: Group)
    requires Waiting(w, h) && w.node.a.pending == Some(g) && v.node.a.pending.None? && v.node.log == w.node.log + [Turn(g.parts)]
    requires v == Confirm(w).(node := v.node) && v.node.a.life == w.node.a.life && v.node.a.lastAt == w.now
    requires v.node.a.offset == Some(g.last + 1)
    ensures Nearer(w, v, h)
  {
    hide Handed, Times, IsStale, ServerOk, Takeable;
    CalmBase(w, h);
    Appended(w.node.log, Turn(g.parts));
    TimesAppend(Handed(w.node.log), g.parts, h);
    TimesIn(g.parts, h);
  }

  lemma AgedNearer(w: World, v: World, h: nat, g: Group)
    requires Waiting(w, h) && w.node.a.pending == Some(g) && g.grew && v.node.log == w.node.log
    requires v == Confirm(w).(node := v.node) && v.node.a.life == w.node.a.life && v.node.a.lastAt == w.now
    requires v.node.a.offset == w.node.a.offset && v.node.a.pending == Some(g.(grew := false, rounds := g.rounds + 1))
    ensures Nearer(w, v, h)
  {
    hide Handed, Times, IsStale, ServerOk, Takeable;
    CalmBase(w, h);
  }

  lemma CalmBase(w: World, h: nat)
    requires Waiting(w, h)
    ensures Base(Confirm(w)) == Base(w) && w.forgotten <= Confirm(w).forgotten <= h
    ensures Wanted(Confirm(w), h)
  {
  }

  /** The offset passed `id`, which was handed over unless it is another update than `h`. */
  lemma PassedNearer(w: World, v: World, h: nat, id: nat, ids: seq<nat>)
    requires Waiting(w, h) && Upcoming(w, h, id) && w.node.a.pending.None? && v.node.a.pending.None?
    requires v == Confirm(w).(node := v.node) && v.node.a.life == w.node.a.life && v.node.a.lastAt == w.now
    requires v.node.a.offset == Some(id + 1) && Handed(v.node.log) == Handed(w.node.log) + ids && (id == h ==> ids == [h])
    ensures Nearer(w, v, h)
  {
    hide Handed, Times, IsStale, ServerOk, Takeable;
    CalmBase(w, h);
    TimesAppend(Handed(w.node.log), ids, h);
    TimesIn(ids, h);
  }

  lemma JoinedNearer(w: World, v: World, h: nat, id: nat)
    requires Waiting(w, h) && Upcoming(w, h, id) && w.node.a.pending.None? && v.node.log == w.node.log
    requires v == Confirm(w).(node := v.node) && v.node.a.life == w.node.a.life && v.node.a.lastAt == w.now
    requires v.node.a.offset == w.node.a.offset && v.node.a.pending.Some? && !v.node.a.pending.value.grew
    requires v.node.a.pending.value.parts == [id] && v.node.a.pending.value.last == id
    ensures Nearer(w, v, h)
  {
    hide Handed, Times, IsStale, ServerOk, Takeable;
    CalmBase(w, h);
    assert id in v.node.a.pending.value.parts;
  }

  lemma CalmNew(w: World, h: nat, id: nat)
    requires Waiting(w, h) && Upcoming(w, h, id) && w.node.a.pending.None?
    ensures Nearer(w, Polled(w, id), h)
  {
    hide Handed, Times, IsStale, ServerOk, Nearer, Base, Polling;
    CalmNext(w, h, id);
    var v, content := Polled(w, id), w.facts[id].content;
    if content.Refused? || StaleNow(w, id) {
      var why := if content.Refused? then Unwanted else Stale(w.now);
      Appended(w.node.log, Drop(id, why));
      PassedNearer(w, v, h, id, []);
    } else if content.Message? && content.album.Some? {
      JoinedNearer(w, v, h, id);
    } else {
      Appended(w.node.log, Turn([id]));
      PassedNearer(w, v, h, id, [id]);
    }
  }

  /** Calm polls hand a waiting update over. */
  lemma {:induction false} Reach(w: World, h: nat) returns (steps: seq<Step>, last: World)
    requires Waiting(w, h)
    ensures Run(w, steps, last) && Resets(steps) == 0 && Calmly(w, last, h) && Arrived(w, last, h)
    decreases Distance(w, h)
  {
    hide Handed, Times, IsStale, Next, Enabled, Waiting, Polled, Takeable, ServerOk, Calmly;
    var id := Coming(w, h);
    CalmEnabled(w, h, id);
    CalmNext(w, h, id);
    var step, v := CalmPoll(w, id), Polled(w, id);
    if w.node.a.pending.Some? {
      CalmSeen(w, h, id);
    } else {
      CalmNew(w, h, id);
    }
    if Arrived(w, v, h) {
      steps, last := [step], v;
      OneStep(w, step);
    } else {
      var rest;
      rest, last := Reach(v, h);
      steps := [step] + rest;
      assert steps[1..] == rest;
      CalmlyTwice(w, v, last, h);
    }
  }

  lemma Coming(w: World, h: nat) returns (id: nat)
    requires Waiting(w, h)
    ensures Upcoming(w, h, id) && id in w.facts
  {
    hide Takeable, IsStale;
    var i :| 0 <= i < |w.produced| && w.produced[i] == h;
    id := FirstFrom(w, h, i);
  }

  lemma OneStep(w: World, step: Step)
    requires Enabled(w, step) && step.Poll?
    ensures Run(w, [step], Next(w, step)) && Resets([step]) == 0
  {
    var steps := [step];
    assert |steps[1..]| == 0;
    hide Next, Enabled;
    assert Run(Next(w, step), steps[1..], Next(w, step));
  }

  lemma CalmlyTwice(w: World, v: World, u: World, h: nat)
    requires Calmly(w, v, h) && Calmly(v, u, h)
    ensures Calmly(w, u, h)
  {
  }

  // ---------- Main results ----------

  lemma {:induction false} RunJoin(a: World, first: seq<Step>, b: World, second: seq<Step>, c: World)
    requires Run(a, first, b) && Run(b, second, c)
    ensures Run(a, first + second, c) && Resets(first + second) == Resets(first) + Resets(second)
    decreases |first|
  {
    hide Enabled, Next;
    if first == [] {
      assert first + second == second;
    } else {
      RunJoin(Next(a, first[0]), first[1..], b, second, c);
      assert (first + second)[1..] == first[1..] + second;
    }
  }

  /** After `v`, with no further reset and no lost offset, some run hands `h` over once more. */
  ghost predicate CanRepeat(v: World, h: nat) {
    exists steps, last :: Repeats(v, steps, last, h)
  }

  ghost predicate Repeats(v: World, steps: seq<Step>, last: World, h: nat) {
    Run(v, steps, last) && Resets(steps) == 0 && last.lost == v.lost && Times(Handed(last.node.log), h) > Times(Handed(v.node.log), h)
  }

  /** The album being collected covers `h`, and nothing can lose it before the saved offset covers `h`. */
  predicate Covered(a: Adapter, h: nat) {
    a.pending.Some? && h <= a.pending.value.last && !a.life.stray && h < Held(a.saved)
  }

  /** Of an update dated `date`: still unconfirmed when `bound` is, not stale, and not covered. */
  predicate OpenTo(a: Adapter, now: nat, date: int, h: nat, bound: nat) {
    (a.pending.Some? && h in a.pending.value.parts) || (bound <= h && !IsStale(date, now) && !Covered(a, h))
  }

  lemma ClosedStays(w: World, h: nat, steps: seq<Step>, last: World)
    requires SkipOk(w) && (Ordered(w) ==> OrderOk(w)) && Enabled(w, SilentReset)
    requires h in w.facts && !OpenTo(w.node.a, w.now, w.facts[h].date, h, w.forgotten)
    requires Run(Next(w, SilentReset), steps, last) && Resets(steps) == 0 && last.lost == w.lost
    ensures Times(Handed(last.node.log), h) <= Times(Handed(w.node.log), h)
  {
    hide SkipOk, OrderOk, NoneAhead, Handed, Times, Enabled, Run, Ahead;
    var v, k := Next(w, SilentReset), Times(Handed(w.node.log), h);
    ResetInv(w, h);
    NoResetKeeps(v, steps, last, h, k);
  }

  lemma ResetInv(w: World, h: nat)
    requires SkipOk(w) && (Ordered(w) ==> OrderOk(w)) && Enabled(w, SilentReset)
    requires h in w.facts && !OpenTo(w.node.a, w.now, w.facts[h].date, h, w.forgotten)
    ensures Inv(Next(w, SilentReset), h, Times(Handed(w.node.log), h))
  {
    hide SkipOk, OrderOk, NoneAhead, Handed, Times, Ahead, IsStale;
    ResetSkip(w);
    if Ordered(w) {
      ResetOrder(w);
    }
  }

  lemma WaitingAfterReset(w: World, h: nat)
    requires SkipOk(w) && Enabled(w, SilentReset) && h in w.produced && Wanted(w, h)
    requires Collected(w, h) || (w.forgotten <= h && !StaleNow(w, h))
    requires Collected(w, h) || w.node.a.pending.None? || w.node.a.pending.value.last < h
    ensures Waiting(Next(w, SilentReset), h)
  {
    hide Handed, IsStale, ServerOk, LastOk, Passed, Known;
  }

  lemma HandedIn(w: World, h: nat)
    requires SkipOk(w) && h in Handed(w.node.log)
    ensures Wanted(w, h) && h in w.facts && h in w.produced && w.facts[h].sentAt <= w.now
  {
    hide Handed, LastOk, Passed, Known;
    assert Wanted(w, h);
  }

  lemma Cons(w: World, step: Step, rest: seq<Step>, last: World)
    requires Enabled(w, step) && Run(Next(w, step), rest, last)
    ensures Run(w, [step] + rest, last) && Resets([step] + rest) == (if step.SilentReset? then 1 else 0) + Resets(rest)
  {
    hide Enabled, Next;
    var steps := [step] + rest;
    assert steps[1..] == rest;
  }

  /** The album is lost by a stray loop. */
  lemma StrayRepeats(v: World, h: nat)
    requires Polling(v.node.a) && v.node.a.life.stray && Waiting(Next(v, AlbumLost), h)
    ensures CanRepeat(v, h)
  {
    hide Waiting, Handed, Times, Polling;
    var u := Next(v, AlbumLost);
    var steps, last := Reach(u, h);
    Cons(v, AlbumLost, steps, last);
    assert Repeats(v, [AlbumLost] + steps, last, h);
  }

  /** The album is lost by a stop, and the saved offset is before `h`. */
  lemma StopRepeats(v: World, h: nat)
    requires Polling(v.node.a) && v.node.a.offset.None? && Held(v.node.a.saved) <= h && v.forgotten <= h
    requires ServerOk(v.produced, v.facts, v.now) && h in v.produced && Wanted(v, h) && !StaleNow(v, h)
    ensures CanRepeat(v, h)
  {
    hide Handed, Times, ServerOk, IsStale, Takeable, Next, Polling, Waiting, Enabled, Held;
    var a := Next(v, Stop(true));
    var b := Next(a, StartAgain(false));
    var c := Next(b, Verify);
    StopStart(v, h);
    var steps, last := Reach(c, h);
    Cons(b, Verify, steps, last);
    Cons(a, StartAgain(false), [Verify] + steps, last);
    Cons(v, Stop(true), [StartAgain(false)] + ([Verify] + steps), last);
    assert Repeats(v, [Stop(true)] + ([StartAgain(false)] + ([Verify] + steps)), last, h);
  }

  lemma StopStart(v: World, h: nat)
    requires Polling(v.node.a) && v.node.a.offset.None? && Held(v.node.a.saved) <= h && v.forgotten <= h
    requires ServerOk(v.produced, v.facts, v.now) && h in v.produced && Wanted(v, h) && !StaleNow(v, h)
    ensures var a := Next(v, Stop(true));
            var b := Next(a, StartAgain(false));
            var c := Next(b, Verify);
            && Enabled(v, Stop(true)) && Enabled(a, StartAgain(false)) && Enabled(b, Verify)
            && Waiting(c, h) && Handed(c.node.log) == Handed(v.node.log) && c.lost == v.lost
  {
    hide Handed, ServerOk, IsStale, Takeable, May, ActedOnlyWhileOpen;
    var a := Next(v, Stop(true));
    var b := Next(a, StartAgain(false));
    Appended(v.node.log, Closed);
    Appended(a.node.log, Closed);
    Appended(b.node.log, Opened);
  }

  lemma OpenRepeats(w: World, h: nat)
    requires SkipOk(w) && Enabled(w, SilentReset) && h in w.produced && Wanted(w, h)
    requires h in w.facts && OpenTo(w.node.a, w.now, w.facts[h].date, h, w.forgotten)
    ensures CanRepeat(Next(w, SilentReset), h)
  {
    hide Handed, Times, IsStale, LastOk, Passed, Known, Justified, AlbumOk, ServerOk, Takeable;
    var v := Next(w, SilentReset);
    if Collected(w, h) || w.node.a.pending.None? || w.node.a.pending.value.last < h {
      WaitingAfterReset(w, h);
      var steps, last := Reach(v, h);
      assert Repeats(v, steps, last, h);
    } else if w.node.a.life.stray {
      StrayRepeats(v, h);
    } else {
      StopRepeats(v, h);
    }
  }

  /** In every reachable state the reset lets an update that was handed over be handed over again exactly when the update
      is part of the album being collected, or the server still holds it, it is not stale, and no album or saved offset
      covers it. */
  lemma SilentResetExactly(start: World, steps: seq<Step>, w: World, h: nat)
    requires Begins(start) && Run(start, steps, w) && Enabled(w, SilentReset) && h in Handed(w.node.log)
    ensures h in w.facts
    ensures CanRepeat(Next(w, SilentReset), h) <==> OpenTo(w.node.a, w.now, w.facts[h].date, h, w.forgotten)
  {
    hide Handed, Times, Enabled, Ahead, SkipOk, OpenTo, Next;
    BeginsInv(start, h);
    RunKeeps(start, steps, w, h, 1);
    HandedIn(w, h);
    var v := Next(w, SilentReset);
    SameLog(w);
    if OpenTo(w.node.a, w.now, w.facts[h].date, h, w.forgotten) {
      OpenRepeats(w, h);
    } else if CanRepeat(v, h) {
      RepeatOpens(w, h);
    }
  }

  lemma SameLog(w: World)
    ensures Next(w, SilentReset).node.log == w.node.log && Next(w, SilentReset).lost == w.lost
  {
  }

  /** A run from the beginning of a numbering in which an update like `f` is handed over more than once. */
  ghost predicate Repeated(start: World, steps: seq<Step>, last: World, x: nat, f: Fact) {
    && Begins(start) && Run(start, steps, last)
    && x in last.facts && last.facts[x] == f && Times(Handed(last.node.log), x) > 1 && last.lost == 0
  }

  function Fresh(now: nat): World {
    World(Node(Adapter(FRESH_LIFE, None, None, None, false, None, POLL_LIMIT, 0), []), [], map[], 0, now, 0, 0)
  }

  const FIRST_ID: nat := 1

  /** The update has arrived and the adapter has started to poll. */
  function Opening(f: Fact): World {
    World(Node(Adapter(Life(true, false, false, true, true, false), None, None, None, false, None, POLL_LIMIT, f.sentAt), [Opened]),
          [FIRST_ID], map[FIRST_ID := f], 0, f.sentAt, 0, 0)
  }

  lemma FirstPoll(f: Fact)
    ensures var start := Fresh(f.sentAt);
            var arrived := Next(start, Arrive(FIRST_ID, f.date, f.content, f.huge));
            && Begins(start) && Enabled(start, Arrive(FIRST_ID, f.date, f.content, f.huge)) && Enabled(arrived, Verify)
            && Next(arrived, Verify) == Opening(f)
  {
  }

  lemma OpeningWaits(f: Fact)
    requires !f.content.Refused? && !f.huge && !IsStale(f.date, f.sentAt)
    ensures Waiting(Opening(f), FIRST_ID) && ServerOk([FIRST_ID], map[FIRST_ID := f], f.sentAt) && Wanted(Opening(f), FIRST_ID)
    ensures !StaleNow(Opening(f), FIRST_ID)
  {
    hide IsStale;
  }

  /** More than a day after the hand-over the offset is reset, and the update is waiting again. */
  lemma SecondPoll(w: World, f: Fact)
    requires Ahead(f) && !f.content.Refused? && !f.huge && w.facts == map[FIRST_ID := f] && w.now == f.sentAt
    requires ServerOk(w.produced, w.facts, w.now) && Polling(w.node.a) && w.node.a.pending.None? && w.node.a.offset.Some?
    requires w.node.a.lastAt == w.now && w.forgotten <= FIRST_ID
    ensures var late := Next(w, Tick(w.now + DAY + 1));
            var v := Next(late, SilentReset);
            && Enabled(w, Tick(w.now + DAY + 1)) && Enabled(late, SilentReset) && Waiting(v, FIRST_ID)
            && v.node.log == w.node.log && v.facts == w.facts && v.lost == w.lost
  {
  }

  lemma AheadRepeats(f: Fact) returns (steps: seq<Step>, last: World)
    requires Ahead(f) && !f.content.Refused? && !f.huge
    ensures Repeated(Fresh(f.sentAt), steps, last, FIRST_ID, f)
  {
    hide Handed, Waiting, Next, Enabled, Polling, ServerOk, Ahead;
    AheadNotStale(f);
    FirstPoll(f);
    var start := Fresh(f.sentAt);
    var arrive := Arrive(FIRST_ID, f.date, f.content, f.huge);
    var open := Opening(f);
    OpeningWaits(f);
    var first, w := Reach(open, FIRST_ID);
    CalmServer(open, w);
    SecondPoll(w, f);
    var tick := Tick(w.now + DAY + 1);
    var v := Next(Next(w, tick), SilentReset);
    var second, u := Reach(v, FIRST_ID);
    Cons(Next(w, tick), SilentReset, second, u);
    Cons(w, tick, [SilentReset] + second, u);
    RunJoin(open, first, w, [tick] + ([SilentReset] + second), u);
    var rest := first + ([tick] + ([SilentReset] + second));
    Cons(Next(start, arrive), Verify, rest, u);
    Cons(start, arrive, [Verify] + rest, u);
    steps, last := [arrive] + ([Verify] + rest), u;
  }

  lemma AheadNotStale(f: Fact)
    requires Ahead(f)
    ensures !IsStale(f.date, f.sentAt)
  {
  }

  lemma CalmServer(w: World, v: World)
    requires Waiting(w, FIRST_ID) && Calmly(w, v, FIRST_ID)
    ensures ServerOk(v.produced, v.facts, v.now) && Polling(v.node.a)
  {
  }

  /** An update is handed over more than once in some run exactly when it is dated a day, but for ten minutes, ahead of the
      host clock at which it came to exist. */
  lemma DatedAheadExactly(f: Fact)
    requires !f.content.Refused? && !f.huge
    ensures (exists start, steps, last, x :: Repeated(start, steps, last, x, f)) <==> Ahead(f)
  {
    hide Handed, Times, Ahead, Begins, Run;
    if Ahead(f) {
      var steps, last := AheadRepeats(f);
    }
    forall start, steps, last, x | Repeated(start, steps, last, x, f) ensures Ahead(f) {
      NothingTwiceNothingSkipped(start, steps, last);
    }
  }

  // ---------- A lost offset ----------

  const UNSAVED_WAITS := CALM_WAITS.(saves := false)

  /** The update is handed over, but the offset past it cannot be saved. */
  lemma UnsavedPoll(w: World, id: nat)
    requires Waiting(w, id) && w.node.a.pending.None? && w.node.a.offset.None? && w.node.a.saved.None? && w.forgotten <= id
    requires w.produced == [id] && !(w.facts[id].content.Message? && w.facts[id].content.album.Some?)
    ensures var e := CalmEntry(w, id).(waits := UNSAVED_WAITS);
            var step := Poll([e], w.now, UNSAVED_WAITS, w.now);
            var v := Next(w, step);
            && Enabled(w, step) && v == w.(node := v.node) && Handed(v.node.log) == Handed(w.node.log) + [id]
            && v.node.a.unsaved && v.node.a.saved.None?
  {
    hide IsStale, Handed, May, ActedOnlyWhileOpen;
    var e := CalmEntry(w, id).(waits := UNSAVED_WAITS);
    Appended(w.node.log, Turn([id]));
    assert Is(e, id);
    UnsavedOne(w, e);
    UnsavedTake(Answered(w.node, true, w.now), e);
    OneEntry(Answered(w.node, true, w.now), e, UNSAVED_WAITS);
  }

  lemma UnsavedOne(w: World, e: Entry)
    requires e.at == w.now
    ensures InTime(w.now, [e], w.now)
  {
    var es := [e];
    assert |es[1..]| == 0;
  }

  lemma UnsavedTake(n: Node, e: Entry)
    requires Polling(n.a) && n.a.pending.None? && n.a.offset.None? && n.a.saved.None? && e.waits == UNSAVED_WAITS && e.update.Update?
    requires !e.update.content.Refused? && !IsStale(e.update.date, e.at)
    requires !(e.update.content.Message? && e.update.content.album.Some?)
    ensures Take(n, e) == Result(Node(n.a.(offset := Some(e.update.id + 1), unsaved := true), n.log + [Turn([e.update.id])]), true)
  {
    hide IsStale;
  }

  /** The process ends, and the next one polls without an offset. */
  lemma PollAfterLoss(w: World, id: nat)
    requires ServerOk(w.produced, w.facts, w.now) && id in w.produced && Wanted(w, id) && !StaleNow(w, id) && w.forgotten <= id
    requires w.node.a.saved.None? && w.node.a.unsaved
    ensures var crashed := Next(w, ProcessRestart);
            var v := Next(crashed, Verify);
            && Enabled(w, ProcessRestart) && Enabled(crashed, Verify) && Waiting(v, id) && v.lost == w.lost + 1
            && Handed(v.node.log) == Handed(w.node.log) && v.facts == w.facts
  {
    hide IsStale, Handed, Takeable, ServerOk, May, ActedOnlyWhileOpen;
    var crashed := Next(w, ProcessRestart);
    Appended(w.node.log, Closed);
    Appended(crashed.node.log, Opened);
  }

  /** The bound counts lost offsets rightly: one lost offset can bring any update that is not stale back once. */
  lemma LostOffsetRepeats(f: Fact) returns (steps: seq<Step>, last: World)
    requires !f.content.Refused? && !f.huge && !IsStale(f.date, f.sentAt) && !(f.content.Message? && f.content.album.Some?)
    ensures Begins(Fresh(f.sentAt)) && Run(Fresh(f.sentAt), steps, last) && Resets(steps) == 0 && last.lost == 1
    ensures last.facts == map[FIRST_ID := f] && Times(Handed(last.node.log), FIRST_ID) == 2
  {
    hide Handed, Times, Waiting, Next, Enabled, Polling, ServerOk, IsStale, Takeable, Ahead;
    FirstPoll(f);
    var start := Fresh(f.sentAt);
    var arrive := Arrive(FIRST_ID, f.date, f.content, f.huge);
    var open := Opening(f);
    OpeningWaits(f);
    UnsavedPoll(open, FIRST_ID);
    var poll := Poll([CalmEntry(open, FIRST_ID).(waits := UNSAVED_WAITS)], open.now, UNSAVED_WAITS, open.now);
    var w := Next(open, poll);
    PollAfterLoss(w, FIRST_ID);
    var v := Next(Next(w, ProcessRestart), Verify);
    var rest, u := Reach(v, FIRST_ID);
    Cons(Next(w, ProcessRestart), Verify, rest, u);
    Cons(w, ProcessRestart, [Verify] + rest, u);
    var later := [ProcessRestart] + ([Verify] + rest);
    Cons(open, poll, later, u);
    Cons(Next(start, arrive), Verify, [poll] + later, u);
    Cons(start, arrive, [Verify] + ([poll] + later), u);
    steps, last := [arrive] + ([Verify] + ([poll] + later)), u;
    TimesAppend(Handed(open.node.log), [FIRST_ID], FIRST_ID);
    TimesIn([FIRST_ID], FIRST_ID);
    NothingTwiceNothingSkipped(start, steps, last);
    assert Allowed(last, steps, FIRST_ID) == 2;
  }

  // ---------- What the reset is for ----------

  lemma {:induction false} LostGrows(w: World, steps: seq<Step>, last: World)
    requires Run(w, steps, last)
    ensures w.lost <= last.lost
    decreases |steps|
  {
    hide Enabled, Next;
    if steps != [] {
      LostNext(w, steps[0]);
      LostGrows(Next(w, steps[0]), steps[1..], last);
    }
  }

  lemma {:induction false} NoResetKeeps(w: World, steps: seq<Step>, last: World, x: nat, k: nat)
    requires Inv(w, x, k) && Run(w, steps, last) && Resets(steps) == 0 && last.lost == w.lost
    ensures Inv(last, x, k)
    decreases |steps|
  {
    hide Inv, Enabled, Next;
    if steps != [] {
      LostNext(w, steps[0]);
      LostGrows(Next(w, steps[0]), steps[1..], last);
      NextKeeps(w, steps[0], x, k);
      NoResetKeeps(Next(w, steps[0]), steps[1..], last, x, k);
    }
  }

  /** Offsets of an earlier numbering hide an update that is numbered below them until the reset; what the reset opens is the
      same as for an update that was handed over: it can come through if the server still holds it, it is not stale, and no
      album together with the saved offset covers it. */
  lemma LowerNumbering(start: World, steps: seq<Step>, w: World, x: nat)
    requires Begins(start) && x < Held(start.node.a.offset) && x < Held(start.node.a.saved)
    requires Run(start, steps, w) && Resets(steps) == 0 && w.lost == 0
    ensures x !in Handed(w.node.log)
    ensures Enabled(w, SilentReset) && x in w.produced && x in w.facts && Wanted(w, x) ==>
              (CanRepeat(Next(w, SilentReset), x) <==> OpenTo(w.node.a, w.now, w.facts[x].date, x, w.forgotten))
  {
    hide Handed, Times, Run, Enabled, Takeable, SkipOk, OpenTo, Next, CanRepeat;
    LowerBegins(start, x);
    NoResetKeeps(start, steps, w, x, 0);
    TimesIn(Handed(w.node.log), x);
    if Enabled(w, SilentReset) && x in w.produced && x in w.facts && Wanted(w, x) {
      if OpenTo(w.node.a, w.now, w.facts[x].date, x, w.forgotten) {
        OpenRepeats(w, x);
      } else if CanRepeat(Next(w, SilentReset), x) {
        RepeatOpens(w, x);
      }
    }
  }

  lemma LowerBegins(start: World, x: nat)
    requires Begins(start) && x < Held(start.node.a.offset) && x < Held(start.node.a.saved)
    ensures Inv(start, x, 0)
  {
  }

  // ---------- What the adapter can tell ----------

  /** No oversized update lies between `f` and what the server forgot. */
  ghost predicate NoneHugeFrom(w: World, f: nat) {
    forall x <- w.facts :: w.facts[x].huge && f <= x ==> w.forgotten <= x
  }

  /** What an answered poll confirmed is at most what the server forgot. */
  ghost predicate ConfirmedOk(w: World) {
    w.shadow == 0 && Held(w.node.a.confirmed) <= w.forgotten
  }

  lemma HandOverConfirmed(n: Node, ids: seq<nat>, files: bool, intake: Wait, turn: Wait)
    ensures HandOver(n, ids, files, intake, turn).node.a.confirmed == n.a.confirmed
  {
  }

  lemma FlushConfirmed(n: Node, gate: Wait, intake: Wait, turn: Wait, saves: bool)
    ensures Flush(n, gate, intake, turn, saves).node.a.confirmed == n.a.confirmed
  {
    hide HandOver;
    if n.a.pending.Some? {
      HandOverConfirmed(WithPending(Await(n, gate), None), n.a.pending.value.parts, true, intake, turn);
    }
  }

  lemma TakeConfirmed(n: Node, e: Entry)
    ensures Take(n, e).node.a.confirmed == n.a.confirmed
  {
    hide HandOver, Flush, IsStale;
    var w := e.waits;
    FlushConfirmed(n, w.flushGate, w.flushIntake, w.flushTurn, w.flushSaves);
    var r := Flush(n, w.flushGate, w.flushIntake, w.flushTurn, w.flushSaves);
    if e.update.Update? {
      var content := e.update.content;
      HandOverConfirmed(Await(r.node, w.gate), [e.update.id], content.Message? && content.files, w.intake, w.turn);
    }
  }

  lemma {:induction false} BatchConfirmed(n: Node, es: seq<Entry>)
    ensures Batch(n, es).node.a.confirmed == n.a.confirmed
    decreases |es|
  {
    hide Take;
    if es != [] {
      TakeConfirmed(n, es[0]);
      BatchConfirmed(Take(n, es[0]).node, es[1..]);
    }
  }

  lemma HandledConfirmed(n: Node, es: seq<Entry>, end: Waits)
    ensures HandleBatch(n, es, end).node.a.confirmed == n.a.confirmed
  {
    hide Batch, Flush;
    BatchConfirmed(n, es);
    FlushConfirmed(Batch(n, es).node, end.flushGate, end.flushIntake, end.flushTurn, end.flushSaves);
  }

  lemma NextConfirmed(w: World, step: Step)
    requires SkipOk(w) && Enabled(w, step) && ConfirmedOk(w)
    ensures ConfirmedOk(Next(w, step))
  {
    hide HandleBatch, Justified, LastOk, AlbumOk, ServerOk, Done, ServerBatch, InTime;
    assert Held(w.node.a.offset) <= Top(w);
    if step.Poll? {
      HandledConfirmed(Answered(Confirm(w).node, step.entries != [], step.arrived), step.entries, step.end);
    }
  }

  lemma {:induction false} RunConfirmed(w: World, steps: seq<Step>, last: World, k: nat)
    requires Inv(w, 0, k) && k > 0 && ConfirmedOk(w) && Run(w, steps, last)
    ensures ConfirmedOk(last)
    decreases |steps|
  {
    hide Inv, Enabled, Next, ConfirmedOk, Ahead;
    if steps != [] {
      InvSkip(w, 0, k);
      NextConfirmed(w, steps[0]);
      StepKeeps(w, steps[0], 0, k);
      RunConfirmed(Next(w, steps[0]), steps[1..], last, k + if Reopens(w, steps[0], 0) then 1 else 0);
    }
  }

  /** A server that forgot less, but everything it confirmed, fits what the adapter saw. */
  lemma LessForgotten(w: World, f: nat)
    requires SkipOk(w) && (Ordered(w) ==> OrderOk(w)) && Enabled(w, SilentReset) && f <= w.forgotten && NoneHugeFrom(w, f)
    ensures var v := w.(forgotten := f); SkipOk(v) && (Ordered(v) ==> OrderOk(v)) && Enabled(v, SilentReset)
  {
    hide Handed, Sorted, ServerOk, JustDrop, Settled, Ahead;
    var v := w.(forgotten := f);
    assert forall y :: Wanted(w, y) ==> Wanted(v, y);
    hide Takeable;
    assert forall y :: Done(w, y) ==> Done(v, y);
    assert forall y :: Known(w, y) ==> Known(v, y);
  }

  /** What the adapter can tell before it resets, in a run without offsets of an earlier numbering, when no oversized update is
      waiting in between: some server that forgot at least what answered polls confirmed, and no more than polls asked it to, can make the adapter hand
      `h` over again, exactly when `h` is open to that with the confirmed offset for the bound. */
  lemma AdapterCanTell(start: World, steps: seq<Step>, w: World, h: nat)
    requires Begins(start) && start.shadow == 0 && Run(start, steps, w) && Enabled(w, SilentReset) && h in Handed(w.node.log)
    requires NoneHugeFrom(w, Held(w.node.a.confirmed))
    ensures h in w.facts
    ensures (exists f: nat :: Held(w.node.a.confirmed) <= f <= w.forgotten && CanRepeat(Next(w.(forgotten := f), SilentReset), h))
       <==> OpenTo(w.node.a, w.now, w.facts[h].date, h, Held(w.node.a.confirmed))
  {
    hide Handed, Times, Enabled, Ahead, SkipOk, Next, CanRepeat, NoneHugeFrom, Run, NoneAhead, OrderOk;
    BeginsInv(start, h);
    RunKeeps(start, steps, w, h, 1);
    BeginsInv(start, 0);
    RunConfirmed(start, steps, w, 1);
    HandedIn(w, h);
    var c := Held(w.node.a.confirmed);
    if OpenTo(w.node.a, w.now, w.facts[h].date, h, c) {
      LessForgotten(w, c);
      HandedIn(w.(forgotten := c), h);
      OpenRepeats(w.(forgotten := c), h);
      assert CanRepeat(Next(w.(forgotten := c), SilentReset), h);
    }
    forall f: nat | c <= f <= w.forgotten && CanRepeat(Next(w.(forgotten := f), SilentReset), h)
      ensures OpenTo(w.node.a, w.now, w.facts[h].date, h, c) {
      FromOn(w, c, f);
      LessForgotten(w, f);
      RepeatOpens(w.(forgotten := f), h);
    }
  }

  lemma FromOn(w: World, c: nat, f: nat)
    requires NoneHugeFrom(w, c) && c <= f
    ensures NoneHugeFrom(w, f)
  {
  }

  lemma RepeatOpens(w: World, h: nat)
    requires SkipOk(w) && (Ordered(w) ==> OrderOk(w)) && Enabled(w, SilentReset) && h in w.facts
    requires CanRepeat(Next(w, SilentReset), h)
    ensures OpenTo(w.node.a, w.now, w.facts[h].date, h, w.forgotten)
  {
    hide SkipOk, NoneAhead, OrderOk, Enabled, Handed, Times, OpenTo, Run, Next;
    SameLog(w);
    var more, last :| Repeats(Next(w, SilentReset), more, last, h);
    if !OpenTo(w.node.a, w.now, w.facts[h].date, h, w.forgotten) {
      ClosedStays(w, h, more, last);
    }
  }
}
