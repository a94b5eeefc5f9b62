/** What every run of polls keeps: nothing is skipped, nothing is handed over twice, hand-overs follow id order
    (telegram-platform-adapter.ts:407-449, 569-613, 663-873). */
module PollDelivery {
  import opened Options
  import opened TelegramPoll
  import opened PollLifecycle

  // ---------- The invariant ----------

  /** Dated so far ahead of the host clock that it can be admitted again after a silent day. */
  predicate Ahead(f: Fact) {
    f.date >= (f.sentAt + DAY + 1) / 1000 - MAX_UPDATE_AGE
  }

  predicate StaleNow(w: World, x: nat) {
    x in w.facts && IsStale(w.facts[x].date, w.now)
  }

  /** The update exists, admission does not refuse its content, it is not over the size bound, and the server forgot those
      before it that are. */
  ghost predicate Takeable(facts: map<nat, Fact>, forgotten: nat, x: nat) {
    && x in facts && !facts[x].content.Refused? && !facts[x].huge
    && (forall f <- facts :: facts[f].huge && f < x ==> f < forgotten)
  }

  ghost predicate Wanted(w: World, x: nat) {
    Takeable(w.facts, w.forgotten, x)
  }

  predicate SentBy(w: World, x: nat, time: nat) {
    x in w.facts && w.facts[x].sentAt <= time
  }

  /** Handed over or dropped, or numbered below an offset held from an earlier numbering. */
  ghost predicate Done(w: World, x: nat) {
    Settled(w.facts, w.node.log, x) || x < w.shadow
  }

  /** Done, or a part of the album being collected. */
  ghost predicate Known(w: World, x: nat) {
    Done(w, x) || (w.node.a.pending.Some? && x in w.node.a.pending.value.parts)
  }

  /** Every update below the bound is done, and no later one will be below it unless the earlier numbering put it there. */
  ghost predicate Passed(w: World, bound: nat) {
    (forall x <- w.produced :: x < bound ==> Done(w, x)) && (bound <= w.shadow || bound <= Top(w))
  }

  ghost predicate AlbumOk(w: World, g: Group) {
    && g.parts != [] && Sorted(g.parts) && g.last == g.parts[|g.parts| - 1]
    && (forall p <- g.parts :: p in w.produced && Wanted(w, p))
    && (forall x <- w.produced :: x <= g.last ==> Known(w, x))
    && Held(w.node.a.offset) <= g.parts[0] && w.forgotten <= g.parts[0]
  }

  ghost predicate ServerOk(produced: seq<nat>, facts: map<nat, Fact>, now: nat) {
    && Sorted(produced) && (forall x :: x in facts <==> x in produced)
    && (forall x <- produced :: facts[x].sentAt <= now)
    && (forall x, y | x in produced && y in produced && x < y :: facts[x].sentAt <= facts[y].sentAt)
  }

  ghost predicate WorldOk(w: World) {
    ServerOk(w.produced, w.facts, w.now) && w.forgotten <= Top(w)
  }

  /** Every drop has its reason, and only admissible updates were handed over. */
  ghost predicate Justified(w: World) {
    && (forall id: nat, why :: Drop(id, why) in w.node.log ==>
          (JustDrop(w.facts, id, why) || why.Oversized?) && id + 1 <= Top(w)
          && (why.Stale? ==> why.at <= w.now))
    && (forall h <- Handed(w.node.log) :: Wanted(w, h))
  }

  /** While polling the adapter is not stopped, and everything handed over or collected was sent before the last batch arrived. */
  ghost predicate LastOk(w: World) {
    w.node.a.life.looping ==>
      && !w.node.a.life.stopped
      && (forall h <- Handed(w.node.log) :: SentBy(w, h, w.node.a.lastAt))
      && (w.node.a.pending.Some? ==> forall p <- w.node.a.pending.value.parts :: SentBy(w, p, w.node.a.lastAt))
  }

  ghost predicate SkipOk(w: World) {
    && WorldOk(w) && Justified(w) && LastOk(w)
    && Passed(w, Held(w.node.a.offset)) && Passed(w, Held(w.node.a.saved)) && Passed(w, w.forgotten)
    && (w.node.a.pending.Some? ==> AlbumOk(w, w.node.a.pending.value))
  }

  /** No poll up to the next reset can hand `x` over. */
  ghost predicate Guarded(w: World, x: nat) {
    || x < w.forgotten
    || StaleNow(w, x)
    || (Held(w.node.a.offset) > x && (Held(w.node.a.saved) > x || w.node.a.unsaved))
    || (&& Held(w.node.a.saved) > x && w.node.a.offset.None? && w.node.a.life.verified
        && (|| !w.node.a.life.looping
            || (!w.node.a.life.stray && w.node.a.pending.Some? && x <= w.node.a.pending.value.last)))
  }

  /** `x` was handed over at most `k` times and, once it was `k` times, will not be again up to the next reset. */
  ghost predicate Tracked(w: World, x: nat, k: nat) {
    var times := Times(Handed(w.node.log), x);
    && times <= k
    && (times == k ==> Guarded(w, x) && (w.node.a.pending.Some? ==> x !in w.node.a.pending.value.parts))
  }

  ghost predicate NoneAhead(facts: map<nat, Fact>) {
    forall x <- facts :: !Ahead(facts[x])
  }

  /** No reset and no restart can bring an update back. */
  ghost predicate Ordered(w: World) {
    NoneAhead(w.facts) && w.lost == 0
  }

  /** Everything that may still come from `bound` on lies above everything handed over. */
  ghost predicate Above(w: World, bound: nat) {
    forall x, h | x in w.produced && h in Handed(w.node.log) :: bound <= x && !StaleNow(w, x) ==> h < x
  }

  ghost predicate OrderOk(w: World) {
    && Sorted(Handed(w.node.log))
    && Above(w, Held(w.node.a.offset)) && (w.node.a.unsaved || Above(w, Held(w.node.a.saved)))
    && (w.node.a.pending.Some? ==> forall h, p | h in Handed(w.node.log) && p in w.node.a.pending.value.parts :: h < p)
  }

  ghost predicate Inv(w: World, x: nat, k: nat) {
    SkipOk(w) && Tracked(w, x, k) && (Ordered(w) ==> OrderOk(w))
  }

  // ---------- Counting ----------

  lemma {:induction false} TimesAppend(a: seq<nat>, b: seq<nat>, x: nat)
    ensures Times(a + b, x) == Times(a, x) + Times(b, x)
    decreases |b|
  {
    if b == [] {
      assert a + b == a;
    } else {
      assert (a + b)[..|a + b| - 1] == a + b[..|b| - 1];
      TimesAppend(a, b[..|b| - 1], x);
    }
  }

  lemma {:induction false} TimesIn(s: seq<nat>, x: nat)
    ensures Times(s, x) > 0 <==> x in s
  {
    if s != [] {
      TimesIn(s[..|s| - 1], x);
      assert s == s[..|s| - 1] + [s[|s| - 1]];
    }
  }

  lemma {:induction false} TimesSorted(s: seq<nat>, x: nat)
    requires Sorted(s)
    ensures Times(s, x) == if x in s then 1 else 0
  {
    if s != [] {
      var n := |s| - 1;
      TimesSorted(s[..n], x);
      assert s == s[..n] + [s[n]];
    }
  }

  lemma SortedAppend(a: seq<nat>, b: seq<nat>)
    requires Sorted(a) && Sorted(b) && forall x, y | x in a && y in b :: x < y
    ensures Sorted(a + b)
  {
    forall i, j | 0 <= i < j < |a + b| ensures (a + b)[i] < (a + b)[j] {
      if i < |a| <= j {
        assert a[i] in a && b[j - |a|] in b;
      }
    }
  }

  lemma SortedBounds(s: seq<nat>)
    requires Sorted(s) && s != []
    ensures forall p <- s :: s[0] <= p <= s[|s| - 1]
  {
  }

  // ---------- Moves of the adapter ----------

  ghost predicate SameBooks(n: Node, m: Node) {
    Handed(m.log) == Handed(n.log) && forall id, why :: Drop(id, why) in m.log <==> Drop(id, why) in n.log
  }

  /** Nothing handed over or dropped, no offset moved; the album may be lost when the loop ends. */
  ghost predicate Quiet(n: Node, m: Node) {
    && SameBooks(n, m) && m.a.offset == n.a.offset && m.a.saved == n.a.saved && m.a.unsaved == n.a.unsaved && m.a.lastAt == n.a.lastAt
    && m.a.life.stray == n.a.life.stray && m.a.life.verified == n.a.life.verified && (m.a.life.looping ==> n.a.life.looping)
    && (m.a.life.looping ==> m.a.life.stopped == n.a.life.stopped)
    && (m.a.pending == n.a.pending || (m.a.pending.None? && !m.a.life.looping))
  }

  /** `ids` handed over, the offset past the last one and saved. */
  ghost predicate Turned(n: Node, m: Node, ids: seq<nat>) {
    && Handed(m.log) == Handed(n.log) + ids && (forall id, why :: Drop(id, why) in m.log <==> Drop(id, why) in n.log)
    && ids != [] && m.a.offset == Some(ids[|ids| - 1] + 1) && m.a.lastAt == n.a.lastAt
    && ((m.a.saved == m.a.offset && !m.a.unsaved) || (m.a.saved == n.a.saved && m.a.unsaved))
    && m.a.life.stray == n.a.life.stray && (m.a.life.looping ==> n.a.life.looping && m.a.life.stopped == n.a.life.stopped)
    && m.a.pending.None?
  }

  lemma AwaitQuiet(n: Node, w: Wait)
    ensures Quiet(n, Await(n, w))
    ensures n.a.pending.None? ==> Await(n, w).a.pending.None?
    ensures Await(n, w).a.life.live ==> n.a.life.live && Await(n, w).a.life.looping == n.a.life.looping && Await(n, w).a.pending == n.a.pending
  {
    Appended(n.log, Closed);
    var s := if w.stops then StopNow(n, w.clears) else n;
    Appended(s.log, Closed);
  }

  /** A hand-over calls the handler, or ends the loop with nothing done. */
  lemma HandOverMoves(n: Node, ids: seq<nat>, files: bool, intake: Wait, turn: Wait, last: nat, saves: bool)
    requires n.a.pending.None? && ids != [] && last == ids[|ids| - 1]
    ensures var r := HandOver(n, ids, files, intake, turn);
            if r.ok then Turned(n, Persist(MoveOffset(r.node, last), saves), ids) && n.a.life.live
                         && (r.node.a.life.live ==> r.node.a.life.looping == n.a.life.looping)
                         && Persist(MoveOffset(r.node, last), saves).a.life == r.node.a.life
            else Quiet(n, r.node) && !r.node.a.life.looping
  {
    hide Await, Handed, May, ActedOnlyWhileOpen;
    if !HandOverClosed(n.a) {
      var m := if files then Await(n, intake) else n;
      AwaitQuiet(n, intake);
      if !HandOverClosed(m.a) {
        Appended(m.log, Turn(ids));
        var acted := m.(log := m.log + [Turn(ids)]);
        AwaitQuiet(acted, turn);
      }
    }
  }

  lemma SameSettled(facts: map<nat, Fact>, n: Node, m: Node)
    requires SameBooks(n, m)
    ensures forall x :: Settled(facts, m.log, x) == Settled(facts, n.log, x)
  {
    forall x ensures Dropped(facts, m.log, x) == Dropped(facts, n.log, x) {
      if Dropped(facts, n.log, x) {
        var why :| Drop(x, why) in n.log && JustDrop(facts, x, why);
        assert Drop(x, why) in m.log;
      }
      if Dropped(facts, m.log, x) {
        var why :| Drop(x, why) in m.log && JustDrop(facts, x, why);
        assert Drop(x, why) in n.log;
      }
    }
  }

  lemma QuietSkip(w: World, m: Node)
    requires SkipOk(w) && Quiet(w.node, m)
    ensures SkipOk(w.(node := m))
  {
    hide Sorted, Handed, ServerOk, JustDrop, Settled;
    SameSettled(w.facts, w.node, m);
    var v := w.(node := m);
    assert forall x :: Done(w, x) ==> Done(v, x);
    assert forall x :: Known(w, x) && m.a.pending.Some? ==> Known(v, x);
  }

  lemma QuietTracked(w: World, m: Node, x: nat, k: nat)
    requires Tracked(w, x, k) && Quiet(w.node, m)
    ensures Tracked(w.(node := m), x, k)
  {
    hide Handed, Times;
  }

  lemma QuietOrder(w: World, m: Node)
    requires OrderOk(w) && Quiet(w.node, m)
    ensures OrderOk(w.(node := m))
  {
    hide Handed, Sorted;
  }

  lemma QuietKeeps(w: World, m: Node, x: nat, k: nat)
    requires Inv(w, x, k) && Quiet(w.node, m)
    ensures Inv(w.(node := m), x, k)
  {
    hide SkipOk, Tracked, OrderOk, NoneAhead, Quiet;
    QuietSkip(w, m);
    QuietTracked(w, m, x, k);
    if Ordered(w) {
      QuietOrder(w, m);
    }
  }

  // ---------- A turn ----------

  /** What may be handed over: updates that exist, wanted, in order, from the offset on, with nothing unknown up to the last. */
  ghost predicate Ready(w: World, ids: seq<nat>) {
    && ids != [] && Sorted(ids) && Held(w.node.a.offset) <= ids[0]
    && (forall p <- ids :: p in w.produced && Wanted(w, p) && SentBy(w, p, w.node.a.lastAt))
    && (forall y <- w.produced :: y <= ids[|ids| - 1] ==> Done(w, y) || y in ids)
  }

  /** `x` is among `ids` only when it may still be handed over. */
  ghost predicate NewTo(w: World, x: nat, k: nat, ids: seq<nat>) {
    x in ids ==> Times(Handed(w.node.log), x) < k
  }

  lemma TurnSettles(facts: map<nat, Fact>, n: Node, m: Node, ids: seq<nat>)
    requires Turned(n, m, ids)
    ensures forall y :: Settled(facts, n.log, y) || y in ids ==> Settled(facts, m.log, y)
  {
    forall y | Dropped(facts, n.log, y) ensures Dropped(facts, m.log, y) {
      var why :| Drop(y, why) in n.log && JustDrop(facts, y, why);
      assert Drop(y, why) in m.log;
    }
  }

  lemma TurnSkip(w: World, m: Node, ids: seq<nat>)
    requires SkipOk(w) && Turned(w.node, m, ids) && Ready(w, ids)
    ensures SkipOk(w.(node := m))
  {
    hide Handed, JustDrop, AlbumOk;
    TurnSettles(w.facts, w.node, m, ids);
    hide Settled;
    var v := w.(node := m);
    var last := ids[|ids| - 1];
    assert last in ids && last in w.produced;
    TopAbove(w, last);
    forall y | y in v.produced && y < last + 1 ensures Done(v, y) {
      assert Done(w, y) || y in ids;
    }
    assert forall y :: Done(w, y) ==> Done(v, y);
  }

  lemma TopAbove(w: World, y: nat)
    requires WorldOk(w) && y in w.produced
    ensures y + 1 <= Top(w)
  {
  }

  lemma TurnTracked(w: World, m: Node, ids: seq<nat>, x: nat, k: nat)
    requires Tracked(w, x, k) && Turned(w.node, m, ids) && ids != [] && Sorted(ids) && Held(w.node.a.offset) <= ids[0]
    requires NewTo(w, x, k, ids) && w.node.a.life.looping
    requires w.node.a.pending.Some? ==> w.node.a.pending.value.last == ids[|ids| - 1]
    ensures Tracked(w.(node := m), x, k)
  {
    hide Handed, Times;
    SortedBounds(ids);
    TimesAppend(Handed(w.node.log), ids, x);
    TimesSorted(ids, x);
    TimesIn(Handed(w.node.log), x);
    assert ids[0] <= ids[|ids| - 1];
  }

  lemma TurnOrder(w: World, m: Node, ids: seq<nat>)
    requires OrderOk(w) && Turned(w.node, m, ids) && ids != [] && Sorted(ids) && Held(w.node.a.offset) <= ids[0]
    requires forall h, p | h in Handed(w.node.log) && p in ids :: h < p
    ensures OrderOk(w.(node := m))
  {
    hide Handed;
    SortedAppend(Handed(w.node.log), ids);
    hide Sorted;
    SortedBounds(ids);
    var v := w.(node := m);
    var bound := ids[|ids| - 1] + 1;
    assert ids[0] in ids;
    forall y, h | y in v.produced && h in Handed(v.node.log) && bound <= y && !StaleNow(v, y) ensures h < y {
      assert h in Handed(w.node.log) || h in ids;
    }
    assert Above(v, bound);
  }

  lemma TurnKeeps(w: World, m: Node, ids: seq<nat>, x: nat, k: nat)
    requires Inv(w, x, k) && Turned(w.node, m, ids) && Ready(w, ids) && NewTo(w, x, k, ids) && w.node.a.life.looping
    requires w.node.a.pending.Some? ==> w.node.a.pending.value.last == ids[|ids| - 1]
    requires Ordered(w) ==> forall h, p | h in Handed(w.node.log) && p in ids :: h < p
    ensures Inv(w.(node := m), x, k)
    ensures forall y :: Done(w, y) || y in ids ==> Done(w.(node := m), y)
  {
    hide SkipOk, Tracked, OrderOk, NoneAhead, Handed, Sorted, Settled;
    TurnSettles(w.facts, w.node, m, ids);
    TurnSkip(w, m, ids);
    TurnTracked(w, m, ids, x, k);
    if Ordered(w) {
      TurnOrder(w, m, ids);
    }
  }

  // ---------- A drop ----------

  ghost predicate DroppedOne(n: Node, m: Node, id: nat, why: Why) {
    && Handed(m.log) == Handed(n.log)
    && (forall i, y :: Drop(i, y) in m.log <==> Drop(i, y) in n.log || (i == id && y == why))
    && m.a.offset == Some(id + 1) && m.a.saved == n.a.saved && m.a.unsaved == n.a.unsaved && m.a.lastAt == n.a.lastAt
    && m.a.life == n.a.life && m.a.pending == n.a.pending
  }

  lemma RefuseDrops(n: Node, id: nat, why: Why)
    ensures DroppedOne(n, Refuse(n, id, why), id, why)
  {
    Appended(n.log, Drop(id, why));
  }

  lemma DropSettles(facts: map<nat, Fact>, n: Node, m: Node, id: nat, why: Why)
    requires DroppedOne(n, m, id, why)
    ensures forall y :: Settled(facts, n.log, y) ==> Settled(facts, m.log, y)
    ensures JustDrop(facts, id, why) ==> Settled(facts, m.log, id)
  {
    assert Drop(id, why) in m.log;
    forall y | Dropped(facts, n.log, y) ensures Dropped(facts, m.log, y) {
      var reason :| Drop(y, reason) in n.log && JustDrop(facts, y, reason);
      assert Drop(y, reason) in m.log;
    }
  }

  /** May be passed without a hand-over. */
  ghost predicate Passable(w: World, id: nat) {
    && Held(w.node.a.offset) <= id && id + 1 <= Top(w)
    && (forall y <- w.produced :: y < id ==> Done(w, y))
    && (w.node.a.pending.Some? ==> w.node.a.pending.value.parts != [] && id < w.node.a.pending.value.parts[0])
  }

  /** The drop has its reason, or the update was done before. */
  ghost predicate Reasoned(w: World, id: nat, why: Why) {
    (JustDrop(w.facts, id, why) || (why.Oversized? && id < w.forgotten && (id in w.produced ==> Done(w, id))))
    && (why.Stale? ==> why.at <= w.now)
  }

  lemma DropSkip(w: World, m: Node, id: nat, why: Why)
    requires SkipOk(w) && DroppedOne(w.node, m, id, why) && Reasoned(w, id, why) && Passable(w, id)
    ensures SkipOk(w.(node := m))
  {
    hide Handed, JustDrop, Sorted, ServerOk, Settled;
    DropSettles(w.facts, w.node, m, id, why);
    var v := w.(node := m);
    assert forall y :: Done(w, y) ==> Done(v, y);
    assert id in w.produced ==> Done(v, id);
    assert forall y :: Known(w, y) ==> Known(v, y);
    assert Passed(v, id + 1);
  }

  lemma DropTracked(w: World, m: Node, id: nat, why: Why, x: nat, k: nat)
    requires Tracked(w, x, k) && DroppedOne(w.node, m, id, why) && Held(w.node.a.offset) <= id
    requires w.node.a.offset.None? ==> w.node.a.life.looping && w.node.a.pending.None?
    ensures Tracked(w.(node := m), x, k)
  {
    hide Handed, Times;
  }

  lemma DropOrder(w: World, m: Node, id: nat, why: Why)
    requires OrderOk(w) && DroppedOne(w.node, m, id, why) && Held(w.node.a.offset) <= id
    ensures OrderOk(w.(node := m))
  {
    hide Handed, Sorted;
  }

  lemma DropKeeps(w: World, m: Node, id: nat, why: Why, x: nat, k: nat)
    requires Inv(w, x, k) && DroppedOne(w.node, m, id, why) && Reasoned(w, id, why) && Passable(w, id)
    requires w.node.a.offset.None? ==> w.node.a.life.looping && w.node.a.pending.None?
    ensures Inv(w.(node := m), x, k)
    ensures forall y :: Known(w, y) ==> Known(w.(node := m), y)
    ensures JustDrop(w.facts, id, why) ==> Known(w.(node := m), id)
  {
    hide SkipOk, Tracked, OrderOk, NoneAhead, Handed, Settled;
    DropSettles(w.facts, w.node, m, id, why);
    DropSkip(w, m, id, why);
    DropTracked(w, m, id, why, x, k);
    if Ordered(w) {
      DropOrder(w, m, id, why);
    }
  }

  // ---------- The album ----------

  /** The album `g` with one part more, or a new one; `before` are the parts so far. */
  ghost predicate Grown(w: World, g: Group, before: seq<nat>, id: nat) {
    && g.parts == before + [id] && g.last == id
    && before == (if w.node.a.pending.Some? then w.node.a.pending.value.parts else [])
    && id in w.produced && Wanted(w, id) && SentBy(w, id, w.node.a.lastAt)
    && Held(w.node.a.offset) <= id && w.forgotten <= id && (forall p <- before :: p < id) && (w.node.a.pending.Some? ==> w.node.a.pending.value.last < id)
    && (forall y <- w.produced :: y < id ==> Known(w, y))
  }

  lemma GrownParts(w: World, g: Group, before: seq<nat>, id: nat)
    requires Grown(w, g, before, id) && (w.node.a.pending.Some? ==> AlbumOk(w, w.node.a.pending.value))
    ensures g.parts != [] && Sorted(g.parts) && g.parts[|g.parts| - 1] == id && Held(w.node.a.offset) <= g.parts[0]
    ensures forall y :: y in g.parts <==> y in before || y == id
  {
    hide Handed, Settled, Known;
    assert Sorted([id]) && Sorted(before);
    SortedAppend(before, [id]);
    if before != [] {
      assert g.parts[0] == before[0];
    }
  }

  lemma AlbumSkip(w: World, g: Group, before: seq<nat>, id: nat)
    requires SkipOk(w) && Grown(w, g, before, id)
    ensures SkipOk(w.(node := WithPending(w.node, Some(g))))
    ensures forall y :: Known(w, y) || y == id ==> Known(w.(node := WithPending(w.node, Some(g))), y)
  {
    hide Handed, Settled, ServerOk, JustDrop, Sorted;
    var v := w.(node := WithPending(w.node, Some(g)));
    GrownParts(w, g, before, id);
    assert forall y :: Done(w, y) ==> Done(v, y);
    assert forall y :: Known(w, y) || y == id ==> Known(v, y);
    assert AlbumOk(v, g);
  }

  lemma AlbumTracked(w: World, g: Group, before: seq<nat>, id: nat, x: nat, k: nat)
    requires Tracked(w, x, k) && Grown(w, g, before, id) && NewTo(w, x, k, [id])
    requires w.node.a.offset.None? ==> w.node.a.life.looping
    ensures Tracked(w.(node := WithPending(w.node, Some(g))), x, k)
  {
    hide Handed, Times, Known, Settled, IsStale;
    assert id in [id];
  }

  lemma AlbumOrder(w: World, g: Group, before: seq<nat>, id: nat)
    requires OrderOk(w) && Grown(w, g, before, id) && forall h <- Handed(w.node.log) :: h < id
    ensures OrderOk(w.(node := WithPending(w.node, Some(g))))
  {
    hide Handed, Sorted, Known, Settled, IsStale;
  }

  lemma AlbumKeeps(w: World, g: Group, before: seq<nat>, id: nat, x: nat, k: nat)
    requires Inv(w, x, k) && Grown(w, g, before, id) && NewTo(w, x, k, [id])
    requires w.node.a.offset.None? ==> w.node.a.life.looping
    requires Ordered(w) ==> forall h <- Handed(w.node.log) :: h < id
    ensures Inv(w.(node := WithPending(w.node, Some(g))), x, k)
    ensures forall y :: Known(w, y) || y == id ==> Known(w.(node := WithPending(w.node, Some(g))), y)
  {
    hide SkipOk, Tracked, OrderOk, NoneAhead, Handed, Settled, Known, Grown;
    AlbumSkip(w, g, before, id);
    AlbumTracked(w, g, before, id, x, k);
    if Ordered(w) {
      AlbumOrder(w, g, before, id);
    }
  }

  // ---------- The album again, and the saved offset ----------

  /** The same books, loop, offset and album parts; the saved offset is the old one or the held one. */
  ghost predicate Same(n: Node, m: Node) {
    && m.log == n.log && m.a.life == n.a.life && m.a.offset == n.a.offset && m.a.lastAt == n.a.lastAt
    && (|| (m.a.saved == n.a.saved && (m.a.unsaved == n.a.unsaved || (n.a.offset.Some? && m.a.unsaved)))
        || (n.a.offset.Some? && m.a.saved == n.a.offset && !m.a.unsaved))
    && m.a.pending.Some? == n.a.pending.Some?
    && (m.a.pending.Some? ==> m.a.pending.value.parts == n.a.pending.value.parts && m.a.pending.value.last == n.a.pending.value.last)
  }

  lemma SameSkip(w: World, m: Node)
    requires SkipOk(w) && Same(w.node, m)
    ensures SkipOk(w.(node := m))
  {
    hide Handed, Settled, ServerOk, JustDrop, Sorted;
    var v := w.(node := m);
    assert forall y :: Done(w, y) ==> Done(v, y);
    assert forall y :: Known(w, y) ==> Known(v, y);
  }

  lemma SameKeeps(w: World, m: Node, x: nat, k: nat)
    requires Inv(w, x, k) && Same(w.node, m)
    ensures Inv(w.(node := m), x, k)
    ensures forall y :: Known(w, y) ==> Known(w.(node := m), y)
  {
    hide SkipOk, Handed, Settled, Sorted, Times, IsStale, Ahead;
    SameSkip(w, m);
  }

  // ---------- Flush ----------

  /** In a batch the loop runs unless the adapter was stopped. */
  predicate InLoop(n: Node) {
    n.a.life.live ==> n.a.life.looping
  }

  /** After a successful flush there is no album, and its parts are settled. */
  ghost predicate Flushed(w: World, m: Node) {
    && m.a.pending.None? && InLoop(m) && m.a.lastAt == w.node.a.lastAt
    && Handed(m.log) == Handed(w.node.log) + (if w.node.a.pending.Some? then w.node.a.pending.value.parts else [])
    && (if w.node.a.pending.Some? then m.a.offset == Some(w.node.a.pending.value.last + 1) else m == w.node)
    && forall y :: Known(w, y) ==> Done(w.(node := m), y)
  }

  lemma AlbumReady(w: World, x: nat, k: nat)
    requires Inv(w, x, k) && w.node.a.pending.Some? && w.node.a.life.looping
    ensures var parts := w.node.a.pending.value.parts;
            && Ready(w, parts) && NewTo(w, x, k, parts) && w.node.a.pending.value.last == parts[|parts| - 1]
            && (Ordered(w) ==> forall h, p | h in Handed(w.node.log) && p in parts :: h < p)
  {
    hide Handed, Settled, ServerOk, JustDrop, Sorted, Times, StaleNow, Passed;
    var g := w.node.a.pending.value;
    forall y | y in w.produced && y <= g.last ensures Done(w, y) || y in g.parts {
      assert Known(w, y);
    }
  }

  lemma FlushKeeps(w: World, gate: Wait, intake: Wait, turn: Wait, saves: bool, x: nat, k: nat)
    requires Inv(w, x, k) && InLoop(w.node)
    ensures var r := Flush(w.node, gate, intake, turn, saves);
            && Inv(w.(node := r.node), x, k)
            && (if r.ok then Flushed(w, r.node) else !r.node.a.life.looping)
  {
    hide Inv, Handed, Settled, Await, HandOver, Persist;
    if w.node.a.pending.Some? {
      var g := w.node.a.pending.value;
      var m := Await(w.node, gate);
      AwaitQuiet(w.node, gate);
      var cleared := WithPending(m, None);
      QuietKeeps(w, Fail(m).node, x, k);
      QuietKeeps(w, Fail(cleared).node, x, k);
      if GateOpen(m, gate) && m.a.pending.Some? {
        AlbumReady(w, x, k);
        HandOverMoves(cleared, g.parts, true, intake, turn, g.last, saves);
        var r := HandOver(cleared, g.parts, true, intake, turn);
        if r.ok {
          TurnKeeps(w, Persist(MoveOffset(r.node, g.last), saves), g.parts, x, k);
        } else {
          QuietKeeps(w, r.node, x, k);
        }
      }
    } else {
      assert Handed(w.node.log) + [] == Handed(w.node.log);
    }
  }

  // ---------- One entry ----------

  /** The clock shows the entry's time; the server sent it, and everything before it is known. */
  ghost predicate Sent(w: World, e: Entry) {
    && w.now == e.at && Shows(w.facts, e)
    && (e.update.Update? ==>
          && e.update.id in w.produced && (e.update.content.Refused? || Wanted(w, e.update.id)) && w.forgotten <= e.update.id
          && SentBy(w, e.update.id, w.node.a.lastAt)
          && forall y <- w.produced :: y < e.update.id ==> Known(w, y))
  }

  /** One entry forgets nothing known, and makes its own id known. */
  ghost predicate Took(w: World, m: Node, e: Entry) {
    && InLoop(m) && m.a.lastAt == w.node.a.lastAt
    && (forall y :: Known(w, y) ==> Known(w.(node := m), y))
    && (e.update.Update? ==> Known(w.(node := m), e.update.id))
  }

  /** A wanted update that is not stale and was not seen lies above everything handed over, and is not a tracked one. */
  lemma Unseen(w: World, e: Entry, x: nat, k: nat)
    requires Inv(w, x, k) && Sent(w, e) && e.update.Update? && !Seen(w.node.a, e.update.id) && w.node.a.life.looping
    requires !IsStale(e.update.date, e.at)
    ensures NewTo(w, x, k, [e.update.id])
    ensures Ordered(w) ==> forall h <- Handed(w.node.log) :: h < e.update.id
  {
    hide SkipOk, Handed, Times, Sorted;
    var id := e.update.id;
    assert !StaleNow(w, id) && Held(w.node.a.offset) <= id;
    assert Guarded(w, x) ==> x != id;
  }

  /** A seen update is known. */
  lemma SeenKnown(w: World, id: nat)
    requires SkipOk(w) && id in w.produced && Seen(w.node.a, id)
    ensures Known(w, id)
  {
    hide Handed, Settled, ServerOk, JustDrop, Sorted;
  }

  /** What is known of an unseen entry after the album before it went. */
  ghost predicate After(w: World, m: Node, id: nat, x: nat, k: nat) {
    var v := w.(node := m);
    && Inv(v, x, k) && Flushed(w, m) && Held(m.a.offset) <= id
    && (m.a.offset.None? ==> m.a.life.looping)
    && (forall y <- v.produced :: y < id ==> Done(v, y))
    && (forall y :: Known(w, y) ==> Done(v, y))
  }

  lemma AfterFlush(w: World, m: Node, id: nat, x: nat, k: nat)
    requires Inv(w, x, k) && Inv(w.(node := m), x, k) && Flushed(w, m) && !Seen(w.node.a, id) && w.node.a.life.looping
    requires forall y <- w.produced :: y < id ==> Known(w, y)
    ensures After(w, m, id, x, k)
    ensures NewTo(w, x, k, [id]) ==> NewTo(w.(node := m), x, k, [id])
    ensures (forall h <- Handed(w.node.log) :: h < id) ==> forall h <- Handed(m.log) :: h < id
  {
    AlbumBelow(w, id);
    hide Inv, Handed, Settled;
    var parts := if w.node.a.pending.Some? then w.node.a.pending.value.parts else [];
    TimesAppend(Handed(w.node.log), parts, id);
    TimesIn(parts, id);
  }

  lemma AlbumBelow(w: World, id: nat)
    requires SkipOk(w) && !Seen(w.node.a, id)
    ensures w.node.a.pending.Some? ==> w.node.a.pending.value.last < id && forall p <- w.node.a.pending.value.parts :: p < id
  {
    hide Handed, Settled, ServerOk, JustDrop, Known;
    if w.node.a.pending.Some? {
      SortedBounds(w.node.a.pending.value.parts);
    }
  }

  lemma SingleKeeps(w: World, m: Node, e: Entry, x: nat, k: nat)
    requires Sent(w, e) && e.update.Update? && After(w, m, e.update.id, x, k) && w.node.a.life.looping
    requires !e.update.content.Refused? && NewTo(w.(node := m), x, k, [e.update.id])
    requires Ordered(w) ==> forall h <- Handed(m.log) :: h < e.update.id
    ensures var r := Single(m, e.update.id, e.update.content, e.waits);
            && Inv(w.(node := r.node), x, k)
            && (if r.ok then Took(w, r.node, e) else !r.node.a.life.looping)
  {
    hide Inv, Handed, Settled;
    var id, ws := e.update.id, e.waits;
    var v := w.(node := m);
    var n := Await(m, ws.gate);
    AwaitQuiet(m, ws.gate);
    QuietKeeps(v, Fail(n).node, x, k);
    hide Await;
    if GateOpen(n, ws.gate) && !HandOverClosed(n.a) {
      var files := e.update.content.Message? && e.update.content.files;
      HandOverMoves(n, [id], files, ws.intake, ws.turn, id, ws.saves);
      var r := HandOver(n, [id], files, ws.intake, ws.turn);
      hide HandOver;
      if r.ok {
        OneReady(v, id);
        TurnKeeps(v, Persist(MoveOffset(r.node, id), ws.saves), [id], x, k);
      } else {
        QuietKeeps(v, r.node, x, k);
      }
    }
  }

  lemma OneReady(v: World, id: nat)
    requires id in v.produced && v.node.a.pending.None?
    requires Wanted(v, id) && SentBy(v, id, v.node.a.lastAt) && Held(v.node.a.offset) <= id
    requires forall y <- v.produced :: y < id ==> Done(v, y)
    ensures Ready(v, [id])
  {
    hide Settled;
  }

  lemma RefuseKeeps(w: World, m: Node, e: Entry, x: nat, k: nat)
    requires Sent(w, e) && e.update.Update? && After(w, m, e.update.id, x, k)
    requires e.update.content.Refused? || IsStale(e.update.date, e.at)
    ensures var r := Refuse(m, e.update.id, if e.update.content.Refused? then Unwanted else Stale(e.at));
            Inv(w.(node := r), x, k) && Took(w, r, e)
  {
    hide Handed, Settled, Sorted, Tracked, OrderOk, Justified, LastOk, Passed;
    var id := e.update.id;
    var why := if e.update.content.Refused? then Unwanted else Stale(e.at);
    var v := w.(node := m);
    RefuseDrops(m, id, why);
    TopOf(v, id);
    DropKeeps(v, Refuse(m, id, why), id, why, x, k);
  }

  lemma TopOf(w: World, y: nat)
    requires SkipOk(w) && y in w.produced
    ensures y + 1 <= Top(w) && y in w.facts
  {
    TopAbove(w, y);
  }

  lemma JoinKeeps(w: World, e: Entry, x: nat, k: nat)
    requires Inv(w, x, k) && InLoop(w.node) && Sent(w, e) && e.update.Update? && !Seen(w.node.a, e.update.id) && w.node.a.life.live
    requires e.update.content.Message? && !IsStale(e.update.date, e.at) && w.node.a.pending.Some?
    requires NewTo(w, x, k, [e.update.id]) && (Ordered(w) ==> forall h <- Handed(w.node.log) :: h < e.update.id)
    ensures var m := WithPending(w.node, Some(Joined(w.node.a.pending.value, e.update.id))); Inv(w.(node := m), x, k) && Took(w, m, e)
  {
    AlbumBelow(w, e.update.id);
    hide Inv, Handed, Settled, Known, Takeable, IsStale;
    var g := w.node.a.pending.value;
    AlbumKeeps(w, Joined(g, e.update.id), g.parts, e.update.id, x, k);
  }

  lemma StartAlbumKeeps(w: World, m: Node, e: Entry, chat: nat, album: nat, x: nat, k: nat)
    requires Sent(w, e) && e.update.Update? && After(w, m, e.update.id, x, k) && e.update.content.Message?
    requires NewTo(w.(node := m), x, k, [e.update.id]) && (Ordered(w) ==> forall h <- Handed(m.log) :: h < e.update.id)
    ensures var r := WithPending(m, Some(Group([e.update.id], chat, album, e.update.id, true, 0)));
            Inv(w.(node := r), x, k) && Took(w, r, e)
  {
    hide Inv, Handed, Settled, Takeable;
    var id, v := e.update.id, w.(node := m);
    var g := Group([id], chat, album, id, true, 0);
    assert g.parts == [] + [id];
    AlbumKeeps(v, g, [], id, x, k);
  }

  lemma AlbumPartKeeps(w: World, e: Entry, x: nat, k: nat)
    requires Inv(w, x, k) && InLoop(w.node) && Sent(w, e) && e.update.Update? && !Seen(w.node.a, e.update.id) && w.node.a.life.live
    requires e.update.content.Message? && e.update.content.album.Some? && !IsStale(e.update.date, e.at)
    ensures var r := AlbumPart(w.node, e.update.id, e.update.content.chat, e.update.content.album.value, e.waits);
            && Inv(w.(node := r.node), x, k)
            && (if r.ok then Took(w, r.node, e) else !r.node.a.life.looping)
  {
    hide Inv, Handed, Settled, Flush, Sent, After, Took, Flushed, NewTo, Joined;
    var id, chat, album, ws := e.update.id, e.update.content.chat, e.update.content.album.value, e.waits;
    Unseen(w, e, x, k);
    FlushKeeps(w, ws.flushGate, ws.flushIntake, ws.flushTurn, ws.flushSaves, x, k);
    if CanJoin(w.node.a, chat, album) {
      JoinKeeps(w, e, x, k);
    } else {
      var r := Flush(w.node, ws.flushGate, ws.flushIntake, ws.flushTurn, ws.flushSaves);
      if r.ok {
        SentBefore(w, e);
        AfterFlush(w, r.node, id, x, k);
        StartAlbumKeeps(w, r.node, e, chat, album, x, k);
      }
    }
  }

  lemma SentBefore(w: World, e: Entry)
    requires Sent(w, e) && e.update.Update?
    ensures forall y <- w.produced :: y < e.update.id ==> Known(w, y)
  {
    hide Known;
  }

  lemma TakeKeeps(w: World, e: Entry, x: nat, k: nat)
    requires Inv(w, x, k) && InLoop(w.node) && Sent(w, e)
    ensures var r := Take(w.node, e);
            && Inv(w.(node := r.node), x, k)
            && (if r.ok then Took(w, r.node, e) else !r.node.a.life.looping)
  {
    var ws := e.waits;
    QuietKeeps(w, Fail(w.node).node, x, k);
    FlushKeeps(w, ws.flushGate, ws.flushIntake, ws.flushTurn, ws.flushSaves, x, k);
    var r := Flush(w.node, ws.flushGate, ws.flushIntake, ws.flushTurn, ws.flushSaves);
    if w.node.a.life.live && e.update.Update? {
      if Seen(w.node.a, e.update.id) {
        SeenKnown(w, e.update.id);
      } else if !(e.update.content.Refused? || IsStale(e.update.date, e.at)) {
        Unseen(w, e, x, k);
        if e.update.content.Message? && e.update.content.album.Some? {
          AlbumPartKeeps(w, e, x, k);
        }
      }
      if !Seen(w.node.a, e.update.id) && r.ok {
        AfterFlush(w, r.node, e.update.id, x, k);
        NewEntry(w, r.node, e, x, k);
      }
    }
    hide Inv, Handed, Settled, Flush, Single, Refuse, IsStale, AlbumPart;
  }

  lemma NewEntry(w: World, m: Node, e: Entry, x: nat, k: nat)
    requires Sent(w, e) && e.update.Update? && After(w, m, e.update.id, x, k) && w.node.a.life.looping
    requires !(e.update.content.Refused? || IsStale(e.update.date, e.at)) ==>
               NewTo(w.(node := m), x, k, [e.update.id]) && (Ordered(w) ==> forall h <- Handed(m.log) :: h < e.update.id)
    ensures (e.update.content.Refused? || IsStale(e.update.date, e.at)) ==>
              var r := Refuse(m, e.update.id, if e.update.content.Refused? then Unwanted else Stale(e.at));
              Inv(w.(node := r), x, k) && Took(w, r, e)
    ensures !(e.update.content.Refused? || IsStale(e.update.date, e.at)) ==>
              var r := Single(m, e.update.id, e.update.content, e.waits);
              Inv(w.(node := r.node), x, k) && (if r.ok then Took(w, r.node, e) else !r.node.a.life.looping)
  {
    hide *;
    if e.update.content.Refused? || IsStale(e.update.date, e.at) {
      RefuseKeeps(w, m, e, x, k);
    } else {
      SingleKeeps(w, m, e, x, k);
    }
  }

  // ---------- A batch ----------

  /** What is left of a batch fits what is known so far. */
  ghost predicate BatchOk(w: World, es: seq<Entry>) {
    forall i :: 0 <= i < |es| ==> EntryOk(w, es, i)
  }

  predicate Named(es: seq<Entry>, n: nat, y: nat)
    requires n <= |es|
  {
    exists j :: 0 <= j < n && Is(es[j], y)
  }

  ghost predicate EntryOk(w: World, es: seq<Entry>, i: nat)
    requires i < |es|
  {
    && Shows(w.facts, es[i])
    && (es[i].update.Update? ==>
          var id := es[i].update.id;
          && id in w.produced && (es[i].update.content.Refused? || Wanted(w, id)) && w.forgotten <= id
          && SentBy(w, id, w.node.a.lastAt)
          && forall y <- w.produced :: y < id ==> Known(w, y) || Named(es, i, y))
  }

  lemma FirstSent(w: World, es: seq<Entry>)
    requires es != [] && BatchOk(w, es) && w.now == es[0].at
    ensures Sent(w, es[0])
  {
    hide Known, Wanted;
    assert EntryOk(w, es, 0);
  }

  lemma TailOk(w: World, v: World, es: seq<Entry>)
    requires es != [] && BatchOk(w, es) && Took(w, v.node, es[0]) && v == w.(node := v.node, now := v.now)
    ensures BatchOk(v, es[1..])
  {
    hide Settled, Wanted;
    var rest := es[1..];
    var taken := w.(node := v.node);
    forall y | Known(w, y) || Is(es[0], y) ensures Known(v, y) {
      assert Known(taken, y);
    }
    forall i: nat | i < |rest| ensures EntryOk(v, rest, i) {
      assert EntryOk(w, es, i + 1);
      TailEntry(w, v, es, i);
    }
  }

  lemma TailEntry(w: World, v: World, es: seq<Entry>, i: nat)
    requires i + 1 < |es| && EntryOk(w, es, i + 1) && v == w.(node := v.node, now := v.now)
    requires v.node.a.lastAt == w.node.a.lastAt && forall y :: Known(w, y) || Is(es[0], y) ==> Known(v, y)
    ensures EntryOk(v, es[1..], i)
  {
    hide Known, Takeable;
    var rest, e := es[1..], es[i + 1];
    assert e == rest[i];
    if e.update.Update? {
      forall y | y in v.produced && y < e.update.id ensures Known(v, y) || Named(rest, i, y) {
        if !Known(w, y) && !Is(es[0], y) {
          var j :| 0 <= j < i + 1 && Is(es[j], y);
          assert Is(rest[j - 1], y);
        }
      }
    }
  }

  lemma TickKeeps(w: World, to: nat, x: nat, k: nat)
    requires Inv(w, x, k) && w.now <= to
    ensures Inv(w.(now := to), x, k)
    ensures forall y :: Known(w, y) ==> Known(w.(now := to), y)
  {
    hide Handed, Settled, Sorted, Times, JustDrop, Ahead;
    var v := w.(now := to);
    assert forall y :: StaleNow(w, y) ==> StaleNow(v, y);
    assert forall y :: Known(w, y) ==> Known(v, y);
    assert SkipOk(v);
  }

  lemma TickBatch(w: World, to: nat, es: seq<Entry>)
    requires BatchOk(w, es)
    ensures BatchOk(w.(now := to), es)
  {
    var v := w.(now := to);
    assert forall y :: Known(w, y) ==> Known(v, y);
    hide Known, Takeable;
    forall i: nat | i < |es| ensures EntryOk(v, es, i) {
      assert EntryOk(w, es, i);
    }
  }

  lemma {:induction false} BatchKeeps(w: World, es: seq<Entry>, done: nat, x: nat, k: nat)
    requires Inv(w, x, k) && InLoop(w.node) && BatchOk(w, es) && InTime(w.now, es, done)
    ensures var r := Batch(w.node, es); Inv(w.(node := r.node, now := done), x, k) && (r.ok ==> InLoop(r.node))
    decreases |es|
  {
    hide Inv, BatchOk, Take, Known, Sent;
    if es == [] {
      TickKeeps(w, done, x, k);
    } else {
      var v := w.(now := es[0].at);
      TickKeeps(w, es[0].at, x, k);
      TickBatch(w, es[0].at, es);
      FirstSent(v, es);
      TakeKeeps(v, es[0], x, k);
      var r := Take(v.node, es[0]);
      var u := v.(node := r.node);
      if r.ok {
        TailOk(v, u, es);
        BatchKeeps(u, es[1..], done, x, k);
      } else {
        TimeAhead(es[0].at, es[1..], done);
        TickKeeps(u, done, x, k);
      }
    }
  }

  lemma {:induction false} TimeAhead(from: nat, es: seq<Entry>, done: nat)
    requires InTime(from, es, done)
    ensures from <= done
    decreases |es|
  {
    if es != [] {
      TimeAhead(es[0].at, es[1..], done);
    }
  }

  lemma PersistSame(n: Node, saves: bool)
    ensures Same(n, Persist(n, saves))
  {
  }

  lemma FinishKeeps(w: World, ws: Waits, x: nat, k: nat)
    requires Inv(w, x, k) && InLoop(w.node)
    ensures Inv(w.(node := Finish(w.node, ws).node), x, k)
  {
    hide Inv, Flush, Known;
    if w.node.a.life.live {
      SameKeeps(w, Persist(w.node, ws.saves), x, k);
      if w.node.a.pending.Some? {
        var g := w.node.a.pending.value;
        FlushKeeps(w, ws.flushGate, ws.flushIntake, ws.flushTurn, ws.flushSaves, x, k);
        var r := Flush(w.node, ws.flushGate, ws.flushIntake, ws.flushTurn, ws.flushSaves);
        PersistSame(r.node, ws.saves);
        SameKeeps(w.(node := r.node), Persist(r.node, ws.saves), x, k);
        SameKeeps(w, Persist(WithPending(w.node, Some(g.(grew := false, rounds := g.rounds + 1))), ws.saves), x, k);
      }
    } else {
      QuietKeeps(w, Fail(w.node).node, x, k);
    }
  }

  // ---------- Steps ----------

  lemma ConfirmKeeps(w: World, x: nat, k: nat)
    requires Inv(w, x, k)
    ensures Inv(Confirm(w), x, k) && Base(Confirm(w)) == Base(w)
    ensures forall y :: Known(w, y) ==> Known(Confirm(w), y)
  {
    hide Handed, Settled, Sorted, Times, JustDrop, Ahead, IsStale, ServerOk;
    var v := Confirm(w);
    assert forall y :: Known(w, y) ==> Known(v, y);
    assert SkipOk(v);
  }

  lemma AnsweredKeeps(w: World, some: bool, arrived: nat, x: nat, k: nat)
    requires Inv(w, x, k) && w.now <= arrived
    ensures Inv(w.(node := Answered(w.node, some, arrived)), x, k)
    ensures forall y :: Known(w, y) ==> Known(w.(node := Answered(w.node, some, arrived)), y)
  {
    hide Handed, Settled, Sorted, Times, JustDrop, Ahead, IsStale;
    var v := w.(node := Answered(w.node, some, arrived));
    assert forall y :: Known(w, y) ==> Known(v, y);
    assert forall y <- w.produced :: SentBy(w, y, arrived);
    assert SkipOk(v);
  }

  /** What the server sends fits what is known. */
  lemma ServerBatchOk(w: World, es: seq<Entry>, v: World)
    requires SkipOk(w) && ServerBatch(w, es) && v == Confirm(w).(node := v.node) && Base(w) >= v.forgotten
    requires v.node.a.lastAt >= w.now || es == []
    requires forall y :: Known(w, y) ==> Known(v, y)
    ensures BatchOk(v, es)
  {
    hide Known, Handed, Settled, Sorted, AlbumOk, JustDrop;
    forall i: nat | i < |es| ensures EntryOk(v, es, i) {
      assert es[i] in es;
      if es[i].update.Update? {
        ServerEntry(w, es, v, i);
      }
    }
  }

  lemma ServerEntry(w: World, es: seq<Entry>, v: World, i: nat)
    requires SkipOk(w) && ServerBatch(w, es) && v == Confirm(w).(node := v.node)
    requires v.node.a.lastAt >= w.now && i < |es| && es[i].update.Update?
    requires forall y :: Known(w, y) ==> Known(v, y)
    ensures EntryOk(v, es, i)
  {
    hide Known, Handed, Settled, Sorted, AlbumOk, JustDrop;
    var e := es[i];
    var id := e.update.id;
    assert e in es && Sendable(w, id);
    forall y | y in v.produced && y < id ensures Known(v, y) || Named(es, i, y) {
      if Base(w) <= y {
        var other :| other in es && Is(other, y);
        var j :| 0 <= j < |es| && es[j] == other;
        assert j < i;
      } else {
        BelowBase(w, y);
      }
    }
    forall f | f in v.facts && v.facts[f].huge && f < id ensures f < v.forgotten {
      if Base(w) <= f {
        var other :| other in es && Is(other, f);
        assert false;
      } else {
        TopAbove(w, f);
      }
    }
  }

  lemma BelowBase(w: World, y: nat)
    requires SkipOk(w) && y in w.produced && y < Base(w)
    ensures Known(w, y)
  {
    hide Handed, Settled, Sorted, AlbumOk, JustDrop;
    assert Done(w, y);
  }

  lemma PollKeeps(w: World, es: seq<Entry>, arrived: nat, end: Waits, done: nat, x: nat, k: nat)
    requires Inv(w, x, k) && Enabled(w, Poll(es, arrived, end, done))
    ensures Inv(Next(w, Poll(es, arrived, end, done)), x, k)
  {
    hide SkipOk, Tracked, OrderOk, NoneAhead, Known, ServerBatch, BatchOk, Batch, Finish;
    var c := Confirm(w);
    ConfirmKeeps(w, x, k);
    var v := c.(node := Answered(c.node, es != [], arrived));
    AnsweredKeeps(c, es != [], arrived, x, k);
    ServerBatchOk(w, es, v);
    var u := v.(now := arrived);
    TickKeeps(v, arrived, x, k);
    TickBatch(v, arrived, es);
    BatchKeeps(u, es, done, x, k);
    var r := Batch(u.node, es);
    if r.ok {
      FinishKeeps(u.(node := r.node, now := done), end, x, k);
    }
  }

  /** `v` is `w` with one more update, numbered `id`, above all others. */
  ghost predicate Grew(w: World, v: World, id: nat) {
    && v == w.(produced := v.produced, facts := v.facts)
    && (forall y :: y in v.produced <==> y in w.produced || y == id)
    && (forall y :: y in v.facts <==> y in w.facts || y == id) && (forall y <- w.facts :: v.facts[y] == w.facts[y] && y < id)
    && Top(w) <= id && Top(v) == id + 1 && w.facts.Keys == (set y | y in w.produced)
    && (forall y <- w.produced :: Settled(w.facts, w.node.log, y) ==> Settled(v.facts, v.node.log, y))
  }

  lemma ArriveGrows(w: World, id: nat, date: int, content: Content, huge: bool)
    requires SkipOk(w) && forall x <- w.produced :: x < id
    ensures var v := Next(w, Arrive(id, date, content, huge)); Grew(w, v, id) && ServerOk(v.produced, v.facts, v.now)
  {
    hide Settled, AlbumOk, Handed, Justified, LastOk, Passed;
    var v := Next(w, Arrive(id, date, content, huge));
    AppendedTop(w.produced, id);
    ServerGrows(w.produced, w.facts, w.now, id, v.facts[id]);
    ArriveSettled(w, v, id);
    hide ServerOk, Sorted;
  }

  lemma AppendedTop(produced: seq<nat>, id: nat)
    requires forall x <- produced :: x < id
    ensures produced == [] || produced[|produced| - 1] + 1 <= id
    ensures (produced + [id])[|produced|] == id
    ensures forall y :: y in produced + [id] <==> y in produced || y == id
  {
    if produced != [] {
      assert produced[|produced| - 1] in produced;
    }
  }

  lemma ServerGrows(produced: seq<nat>, facts: map<nat, Fact>, now: nat, id: nat, f: Fact)
    requires ServerOk(produced, facts, now) && (forall x <- produced :: x < id) && f.sentAt == now
    ensures ServerOk(produced + [id], facts[id := f], now) && facts.Keys == (set y | y in produced)
  {
    SortedAppend(produced, [id]);
    hide Sorted;
  }

  lemma ArriveWanted(w: World, v: World, id: nat, y: nat)
    requires Grew(w, v, id) && Wanted(w, y)
    ensures Wanted(v, y)
  {
  }

  lemma ArrivePassed(w: World, v: World, id: nat, bound: nat)
    requires Grew(w, v, id) && Passed(w, bound)
    ensures Passed(v, bound)
  {
    hide Settled;
  }

  lemma ArriveJust(w: World, v: World, id: nat)
    requires Grew(w, v, id) && Justified(w) && LastOk(w)
    ensures Justified(v) && LastOk(v)
  {
    hide Settled, Handed;
    forall h | h in Handed(v.node.log) ensures Wanted(v, h) {
      ArriveWanted(w, v, id, h);
    }
    hide Takeable;
  }

  lemma ArriveAlbum(w: World, v: World, id: nat)
    requires Grew(w, v, id) && w.node.a.pending.Some? && AlbumOk(w, w.node.a.pending.value)
    ensures AlbumOk(v, w.node.a.pending.value)
  {
    hide Settled, Takeable;
    var g := w.node.a.pending.value;
    forall p | p in g.parts ensures Wanted(v, p) {
      ArriveWanted(w, v, id, p);
    }
    assert g.last in g.parts && g.last in w.facts.Keys;
    forall y | y in v.produced && y <= g.last ensures Known(v, y) {
      assert y in w.produced && Known(w, y);
    }
  }

  lemma ArriveSkip(w: World, id: nat, date: int, content: Content, huge: bool)
    requires SkipOk(w) && forall x <- w.produced :: x < id
    ensures SkipOk(Next(w, Arrive(id, date, content, huge))) && Grew(w, Next(w, Arrive(id, date, content, huge)), id)
  {
    hide Settled, AlbumOk, Handed, Justified, LastOk, Passed, ServerOk, Grew;
    var v := Next(w, Arrive(id, date, content, huge));
    ArriveGrows(w, id, date, content, huge);
    ArriveJust(w, v, id);
    ArrivePassed(w, v, id, Held(w.node.a.offset));
    ArrivePassed(w, v, id, Held(w.node.a.saved));
    ArrivePassed(w, v, id, w.forgotten);
    ArriveTop(w, v, id);
    if w.node.a.pending.Some? {
      ArriveAlbum(w, v, id);
    }
  }

  lemma ArriveTop(w: World, v: World, id: nat)
    requires Grew(w, v, id) && WorldOk(w)
    ensures w.forgotten <= Top(v)
  {
    hide ServerOk, Settled;
  }

  lemma ArriveSettled(w: World, v: World, id: nat)
    requires v == w.(produced := v.produced, facts := v.facts)
    requires forall y <- w.facts :: y in v.facts && v.facts[y] == w.facts[y]
    requires forall y <- v.facts :: y in w.facts || y == id
    ensures forall y <- w.facts :: Settled(w.facts, w.node.log, y) ==> Settled(v.facts, v.node.log, y)
  {
    hide Handed;
    forall y | y in w.facts && Dropped(w.facts, w.node.log, y) ensures Dropped(v.facts, v.node.log, y) {
      var why :| Drop(y, why) in w.node.log && JustDrop(w.facts, y, why);
      assert JustDrop(v.facts, y, why);
    }
  }

  lemma ArriveKeeps(w: World, id: nat, date: int, content: Content, huge: bool, x: nat, k: nat)
    requires Inv(w, x, k) && forall y <- w.produced :: y < id
    ensures Inv(Next(w, Arrive(id, date, content, huge)), x, k)
  {
    hide SkipOk, Tracked, OrderOk, NoneAhead, Handed, Settled, Ahead;
    var v := Next(w, Arrive(id, date, content, huge));
    ArriveSkip(w, id, date, content, huge);
    assert Tracked(v, x, k) by {
      hide *;
      ArriveTracked(w, v, id, x, k);
    }
    if Ordered(v) {
      ArriveOrder(w, v, id);
    }
  }

  lemma ArriveTracked(w: World, v: World, id: nat, x: nat, k: nat)
    requires Grew(w, v, id) && Tracked(w, x, k)
    ensures Tracked(v, x, k)
  {
    hide Handed, Settled, Times, IsStale;
  }

  lemma ArriveOrder(w: World, v: World, id: nat)
    requires Grew(w, v, id) && SkipOk(w) && (Ordered(w) ==> OrderOk(w)) && Ordered(v)
    ensures OrderOk(v)
  {
    hide Handed, Settled, Sorted, Takeable, Ahead, IsStale;
    assert Ordered(w);
    forall h | h in Handed(v.node.log) ensures h < id {
      assert Wanted(w, h);
      assert h in w.facts by {
        HandedExist(w, h);
      }
    }
  }

  lemma HandedExist(w: World, h: nat)
    requires Wanted(w, h)
    ensures h in w.facts
  {
  }

  // ---------- Restarts and resets ----------

  /** Nothing handed over or dropped; the album as it was or lost, the offset as it was or the saved one. */
  ghost predicate Moved(n: Node, m: Node) {
    && SameBooks(n, m) && m.a.saved == n.a.saved
    && (|| (m.a.offset == n.a.offset && (m.a.unsaved == n.a.unsaved || n.a.offset.None?))
        || (m.a.offset == n.a.saved && !m.a.unsaved))
    && (m.a.pending == n.a.pending || m.a.pending.None?)
  }

  lemma MovedSkip(w: World, m: Node)
    requires SkipOk(w) && Moved(w.node, m) && LastOk(w.(node := m))
    requires m.a.pending.Some? ==> m.a.offset == w.node.a.offset
    ensures SkipOk(w.(node := m))
  {
    hide Handed, Settled, ServerOk, JustDrop, Sorted, Takeable, LastOk;
    SameSettled(w.facts, w.node, m);
    var v := w.(node := m);
    assert forall y :: Done(w, y) ==> Done(v, y);
    assert forall y :: Known(w, y) && m.a.pending.Some? ==> Known(v, y);
  }

  lemma MovedOrder(w: World, m: Node)
    requires OrderOk(w) && Moved(w.node, m)
    requires m.a.offset == w.node.a.offset || w.node.a.offset.None? || !w.node.a.unsaved
    ensures OrderOk(w.(node := m))
  {
    hide Handed, Sorted;
  }

  lemma RestartKeeps(w: World, m: Node, x: nat, k: nat)
    requires Inv(w, x, k) && Moved(w.node, m) && !m.a.life.looping && m.a.pending.None?
    requires m.a.offset == if w.node.a.offset.Some? then w.node.a.offset else w.node.a.saved
    ensures Inv(w.(node := m), x, k)
  {
    hide SkipOk, OrderOk, NoneAhead, Handed, Times, IsStale;
    MovedSkip(w, m);
    if Ordered(w) {
      MovedOrder(w, m);
    }
  }

  /** Steps that only close, open or lose something. */
  lemma QuietStep(w: World, step: Step, x: nat, k: nat)
    requires Inv(w, x, k) && (step.Halt? || step.Stop? || step.Send?)
    ensures Inv(Next(w, step), x, k)
  {
    hide Inv, Handed, May, ActedOnlyWhileOpen;
    Appended(w.node.log, if step.Send? then Called else Closed);
    QuietKeeps(w, Next(w, step).node, x, k);
  }

  lemma AlbumLostKeeps(w: World, x: nat, k: nat)
    requires Inv(w, x, k) && (w.node.a.life.stopped || w.node.a.life.stray)
    ensures Inv(Next(w, AlbumLost), x, k)
  {
    hide OrderOk, NoneAhead, Handed, Times, IsStale, ServerOk, JustDrop, Settled, Takeable;
    var m := WithPending(w.node, None);
    MovedSkip(w, m);
    if Ordered(w) {
      MovedOrder(w, m);
    }
  }

  lemma VerifyKeeps(w: World, x: nat, k: nat)
    requires Inv(w, x, k)
    ensures Inv(Next(w, Verify), x, k)
  {
    hide OrderOk, NoneAhead, Handed, Times, IsStale, JustDrop, Settled, May, ActedOnlyWhileOpen;
    Appended(w.node.log, Opened);
    var m := Open(w.node, w.now);
    MovedSkip(w, m);
    if Ordered(w) {
      MovedOrder(w, m);
    }
  }

  lemma TooLargeKeeps(w: World, saves: bool, x: nat, k: nat)
    requires Inv(w, x, k) && Enabled(w, TooLarge(saves))
    ensures Inv(Next(w, TooLarge(saves)), x, k)
  {
    hide SkipOk, Tracked, OrderOk, NoneAhead, Handed, Refuse, Settled, Takeable;
    ConfirmKeeps(w, x, k);
    var c := Confirm(w);
    var a := c.node.a;
    if a.limit == 1 && a.offset.Some? {
      TooLargeDrop(w, saves);
      var o := a.offset.value;
      RefuseDrops(c.node, o, Oversized);
      DropKeeps(c, Refuse(c.node, o, Oversized), o, Oversized, x, k);
      PersistSame(Refuse(c.node, o, Oversized), saves);
      SameKeeps(c.(node := Refuse(c.node, o, Oversized)), Persist(Refuse(c.node, o, Oversized), saves), x, k);
    } else {
      SameKeeps(c, ShrinkOrSkip(c.node, saves), x, k);
    }
  }

  /** The first part of a collected album is waiting at the server. */
  lemma CollectedFirst(w: World)
    requires SkipOk(w)
    ensures w.node.a.pending.Some? ==>
              var parts := w.node.a.pending.value.parts;
              parts != [] && parts[0] in w.produced && Base(w) <= parts[0] && Wanted(w, parts[0])
  {
    hide Handed, Settled, Sorted, Justified, LastOk, Known, Takeable;
  }

  lemma TooLargeDrop(w: World, saves: bool)
    requires SkipOk(w) && SkipOk(Confirm(w)) && Enabled(w, TooLarge(saves)) && w.node.a.limit == 1 && w.node.a.offset.Some?
    ensures Reasoned(Confirm(w), w.node.a.offset.value, Oversized) && Passable(Confirm(w), w.node.a.offset.value)
  {
    hide SkipOk, Known, Done, Takeable, Passed, ServerOk, WorldOk, Wanted;
    var c, o := Confirm(w), w.node.a.offset.value;
    var first :| First(w, first) && w.facts[first].huge;
    SkipParts(w);
    SkipParts(c);
    TopAbove(w, first);
    CollectedFirst(w);
    FirstHuge(w, first);
    PassedDone(c, c.forgotten);
    PassedDone(c, o);
  }

  lemma SkipParts(w: World)
    requires SkipOk(w)
    ensures WorldOk(w) && Passed(w, Held(w.node.a.offset)) && Passed(w, w.forgotten) && (forall x :: x in w.facts <==> x in w.produced)
  {
    hide Passed, Justified, LastOk, AlbumOk;
  }

  lemma PassedDone(w: World, bound: nat)
    requires Passed(w, bound)
    ensures forall x <- w.produced :: x < bound ==> Done(w, x)
  {
    hide Done;
  }

  /** An album being collected comes before any oversized update. */
  lemma FirstHuge(w: World, first: nat)
    requires First(w, first) && w.facts[first].huge
    requires w.node.a.pending.Some? ==>
               var parts := w.node.a.pending.value.parts;
               parts != [] && parts[0] in w.produced && Base(w) <= parts[0] && Wanted(w, parts[0])
    ensures w.node.a.pending.None?
  {
  }

  // ---------- The reset of a silent day ----------

  /** The reset leaves `x` guarded or finds it handed over fewer than `k` times. */
  lemma ResetKeeps(w: World, x: nat, k: nat)
    requires Inv(w, x, k) && Enabled(w, SilentReset)
    requires Times(Handed(w.node.log), x) == k ==> Guarded(Next(w, SilentReset), x)
    ensures Inv(Next(w, SilentReset), x, k)
  {
    hide Handed, Times, IsStale, Sorted, ServerOk, Takeable, Settled, JustDrop, Ahead, OrderOk;
    var v := Next(w, SilentReset);
    ResetSkip(w);
    if Ordered(v) {
      ResetOrder(w);
    }
  }

  lemma ResetSkip(w: World)
    requires SkipOk(w) && Enabled(w, SilentReset)
    ensures SkipOk(Next(w, SilentReset))
  {
    hide Handed, IsStale, Sorted, Takeable, Settled, JustDrop;
    var v := Next(w, SilentReset);
    assert LastOk(v) by {
      assert forall y <- w.produced :: SentBy(v, y, w.now);
    }
    hide ServerOk, LastOk;
    assert forall y :: Done(w, y) ==> Done(v, y);
    assert forall y :: Known(w, y) ==> Known(v, y);
  }

  /** What was sent before the silent day and is not dated ahead is stale by now. */
  lemma SilentIsStale(w: World, x: nat)
    requires SkipOk(w) && Enabled(w, SilentReset) && x in w.facts && !Ahead(w.facts[x]) && w.facts[x].sentAt <= w.node.a.lastAt
    ensures StaleNow(w, x)
  {
    hide SkipOk;
    var f := w.facts[x];
    assert (f.sentAt + DAY + 1) / 1000 <= w.now / 1000;
  }

  lemma ResetOrder(w: World)
    requires SkipOk(w) && OrderOk(w) && Ordered(w) && Enabled(w, SilentReset)
    ensures OrderOk(Next(w, SilentReset))
  {
    hide Handed, Ahead, Settled, JustDrop, Sorted, IsStale, Passed;
    var v := Next(w, SilentReset);
    forall x, h | x in v.produced && h in Handed(v.node.log) && !StaleNow(v, x) ensures h < x {
      assert Wanted(w, h) && SentBy(w, h, w.node.a.lastAt);
      if x <= h {
        SilentIsStale(w, x);
      }
    }
  }


  // ---------- Main results ----------

  /** How often a run reset its offset. */
  function Resets(steps: seq<Step>): nat {
    if steps == [] then 0 else (if steps[0].SilentReset? then 1 else 0) + Resets(steps[1..])
  }

  predicate AheadIn(w: World, x: nat) {
    x in w.facts && Ahead(w.facts[x])
  }

  /** The steps that give an offset up: a reset, and the end of a process whose offset could not be saved. */
  predicate GivesUp(w: World, step: Step) {
    step.SilentReset? || (step.ProcessRestart? && w.node.a.unsaved)
  }

  lemma NextKeeps(w: World, step: Step, x: nat, k: nat)
    requires Inv(w, x, k) && Enabled(w, step)
    requires GivesUp(w, step) && Times(Handed(w.node.log), x) == k ==> Guarded(Next(w, step), x)
    ensures Inv(Next(w, step), x, k)
  {
    hide Inv, HandleBatch, Handed, Guarded, Times, ServerBatch, InTime;
    match step
    case Arrive(id, date, content, huge) => ArriveKeeps(w, id, date, content, huge, x, k);
    case Tick(to) => TickKeeps(w, to, x, k);
    case Poll(es, arrived, end, done) => PollKeeps(w, es, arrived, end, done, x, k);
    case PollLost => ConfirmKeeps(w, x, k);
    case ConfirmOnStop(_) => ConfirmOnStopKeeps(w, step, x, k);
    case TooLarge(saves) => TooLargeKeeps(w, saves, x, k);
    case Verify => VerifyKeeps(w, x, k);
    case StartAgain(stray) => BackKeeps(w, step, x, k);
    case ProcessRestart => CrashKeeps(w, x, k);
    case AlbumLost => AlbumLostKeeps(w, x, k);
    case SilentReset => ResetKeeps(w, x, k);
    case _ => QuietStep(w, step, x, k);
  }

  lemma ConfirmOnStopKeeps(w: World, step: Step, x: nat, k: nat)
    requires Inv(w, x, k) && step.ConfirmOnStop?
    ensures Inv(Next(w, step), x, k)
  {
    hide Inv;
    ConfirmKeeps(w, x, k);
    var c := Confirm(w);
    SameKeeps(c, c.node.(a := c.node.a.(confirmed := w.node.a.offset)), x, k);
  }

  lemma BackKeeps(w: World, step: Step, x: nat, k: nat)
    requires Inv(w, x, k) && step.StartAgain?
    ensures Inv(Next(w, step), x, k)
  {
    hide Inv, Handed;
    Appended(w.node.log, Closed);
    RestartKeeps(w, Next(w, step).node, x, k);
  }

  lemma CrashKeeps(w: World, x: nat, k: nat)
    requires Inv(w, x, k)
    requires w.node.a.unsaved && Times(Handed(w.node.log), x) == k ==> Guarded(Next(w, ProcessRestart), x)
    ensures Inv(Next(w, ProcessRestart), x, k)
  {
    hide Handed, Times, IsStale, May, ActedOnlyWhileOpen, Sorted, Settled, JustDrop, Takeable, ServerOk, NoneAhead;
    Appended(w.node.log, Closed);
    var v := Next(w, ProcessRestart);
    MovedSkip(w, v.node);
    assert SkipOk(v) by {
      LostSkip(w.(node := v.node), v.lost);
    }
    if Ordered(v) {
      MovedOrder(w, v.node);
    }
  }

  lemma LostSkip(w: World, lost: nat)
    requires SkipOk(w)
    ensures SkipOk(w.(lost := lost))
  {
    hide Handed, Sorted, Settled, JustDrop, Takeable, ServerOk;
    var v := w.(lost := lost);
    assert forall y :: Known(w, y) ==> Known(v, y);
  }

  lemma FactsStay(w: World, step: Step)
    requires SkipOk(w) && Enabled(w, step)
    ensures forall y <- w.facts :: y in Next(w, step).facts && Next(w, step).facts[y] == w.facts[y]
  {
    hide HandleBatch;
  }

  /** The steps that allow one more hand-over: a reset, of an update dated ahead, and an offset that was lost. */
  predicate Reopens(w: World, step: Step, x: nat) {
    (step.SilentReset? && AheadIn(w, x)) || (step.ProcessRestart? && w.node.a.unsaved)
  }

  lemma StepKeeps(w: World, step: Step, x: nat, k: nat)
    requires Inv(w, x, k) && Enabled(w, step) && k > 0
    ensures Inv(Next(w, step), x, k + if Reopens(w, step, x) then 1 else 0)
  {
    if Reopens(w, step, x) {
      assert Inv(w, x, k + 1);
      NextKeeps(w, step, x, k + 1);
    } else {
      if step.SilentReset? && Times(Handed(w.node.log), x) == k {
        TimesIn(Handed(w.node.log), x);
        HandedIsStale(w, x);
      }
      NextKeeps(w, step, x, k);
    }
  }

  lemma HandedIsStale(w: World, x: nat)
    requires SkipOk(w) && Enabled(w, SilentReset) && x in Handed(w.node.log) && !AheadIn(w, x)
    ensures StaleNow(w, x)
  {
    hide Ahead, Handed, IsStale;
    assert Wanted(w, x) && SentBy(w, x, w.node.a.lastAt);
    SilentIsStale(w, x);
  }

  /** How often a run may hand an update over. */
  function Allowed(last: World, steps: seq<Step>, x: nat): nat {
    1 + last.lost + if AheadIn(last, x) then Resets(steps) else 0
  }

  lemma InvMore(w: World, x: nat, k: nat, more: nat)
    requires Inv(w, x, k) && k <= more
    ensures Inv(w, x, more)
  {
  }

  lemma {:induction false} RunKeeps(w: World, steps: seq<Step>, last: World, x: nat, k: nat)
    requires Inv(w, x, k) && Run(w, steps, last) && k > 0
    ensures w.lost <= last.lost && Inv(last, x, k - 1 + Allowed(last, steps, x) - w.lost)
    ensures forall y <- w.facts :: y in last.facts && last.facts[y] == w.facts[y]
    decreases |steps|
  {
    hide Inv, Next, Enabled, Ahead;
    if steps != [] {
      StepKeeps(w, steps[0], x, k);
      InvSkip(w, x, k);
      FactsStay(w, steps[0]);
      LostNext(w, steps[0]);
      var v, i := Next(w, steps[0]), if Reopens(w, steps[0], x) then 1 else 0;
      RunKeeps(v, steps[1..], last, x, k + i);
      InvMore(last, x, k + i - 1 + Allowed(last, steps[1..], x) - v.lost, k - 1 + Allowed(last, steps, x) - w.lost);
    }
  }

  lemma LostNext(w: World, step: Step)
    ensures Next(w, step).lost == w.lost + if step.ProcessRestart? && w.node.a.unsaved then 1 else 0
  {
    hide HandleBatch;
  }

  lemma InvSkip(w: World, x: nat, k: nat)
    requires Inv(w, x, k)
    ensures SkipOk(w)
  {
  }

  /** Why an update that exists may be passed without a hand-over: admission refuses its content, it was stale when it was
      admitted, no response can hold it, or the offset of an earlier numbering hid it. */
  ghost predicate Excused(w: World, x: nat) {
    || x < w.shadow
    || (x in w.facts && (w.facts[x].content.Refused? || w.facts[x].huge))
    || exists at: nat :: Drop(x, Stale(at)) in w.node.log && x in w.facts && IsStale(w.facts[x].date, at) && w.facts[x].sentAt <= at <= w.now
  }

  lemma DoneExcused(w: World, x: nat)
    requires SkipOk(w) && Done(w, x) && x in w.produced
    ensures x in Handed(w.node.log) || Excused(w, x)
  {
    hide Handed, IsStale, LastOk, Passed, AlbumOk, Takeable;
    if x !in Handed(w.node.log) && x >= w.shadow {
      var why :| Drop(x, why) in w.node.log && JustDrop(w.facts, x, why);
      if why.Stale? {
        assert Drop(x, Stale(why.at)) in w.node.log;
      }
    }
  }

  lemma BeginsInv(w: World, x: nat)
    requires Begins(w)
    ensures Inv(w, x, 1)
  {
  }

  /** Over every run from the beginning of a numbering: an update is handed over once, and once more at most per process that
      ended with an offset it could not save, and per reset when the update is dated a day ahead; only updates admission takes are handed over; every update below the held offset, the saved
      offset or what the server forgot was handed over or has its excuse; and without updates dated ahead and lost offsets
      hand-overs follow id order. */
  lemma NothingTwiceNothingSkipped(w: World, steps: seq<Step>, last: World)
    requires Begins(w) && Run(w, steps, last)
    ensures forall x :: Times(Handed(last.node.log), x) <= Allowed(last, steps, x)
    ensures forall x <- Handed(last.node.log) :: x in last.facts && !last.facts[x].content.Refused? && !last.facts[x].huge
    ensures forall x <- last.produced ::
              (x < Held(last.node.a.offset) || x < Held(last.node.a.saved) || x < last.forgotten) ==>
                x in Handed(last.node.log) || Excused(last, x)
    ensures Ordered(last) ==> Sorted(Handed(last.node.log))
  {
    hide Handed, Times, Ahead, Excused;
    forall x ensures Inv(last, x, Allowed(last, steps, x)) {
      BeginsInv(w, x);
      RunKeeps(w, steps, last, x, 1);
    }
    InvSkip(last, 0, Allowed(last, steps, 0));
    forall x | x in last.produced && (x < Held(last.node.a.offset) || x < Held(last.node.a.saved) || x < last.forgotten)
      ensures x in Handed(last.node.log) || Excused(last, x) {
      DoneExcused(last, x);
    }
  }
}
