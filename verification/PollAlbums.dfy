/** Albums (telegram-platform-adapter.ts:778-843): a turn is one update, or parts of one album of one chat. */
module PollAlbums {
  import opened Options
  import opened TelegramPoll
  import PollDelivery

  predicate PartOf(facts: map<nat, Fact>, id: nat, chat: nat, album: nat) {
    && id in facts && facts[id].content.Message?
    && facts[id].content.chat == chat && facts[id].content.album == Some(album)
  }

  predicate OfAlbum(facts: map<nat, Fact>, ids: seq<nat>, chat: nat, album: nat) {
    forall id <- ids :: PartOf(facts, id, chat, album)
  }

  ghost predicate TurnIsPure(facts: map<nat, Fact>, ids: seq<nat>) {
    |ids| == 1 || (2 <= |ids| <= MAX_ALBUM_PARTS && exists chat, album :: OfAlbum(facts, ids, chat, album))
  }

  ghost predicate GroupIsPure(facts: map<nat, Fact>, g: Group) {
    1 <= |g.parts| <= MAX_ALBUM_PARTS && OfAlbum(facts, g.parts, g.chat, g.album)
  }

  ghost predicate AlbumsPure(facts: map<nat, Fact>, n: Node) {
    && (forall e <- n.log :: e.Turn? ==> TurnIsPure(facts, e.ids))
    && (n.a.pending.Some? ==> GroupIsPure(facts, n.a.pending.value))
  }

  lemma AwaitPure(facts: map<nat, Fact>, n: Node, w: Wait)
    requires AlbumsPure(facts, n)
    ensures AlbumsPure(facts, Await(n, w))
  {
  }

  lemma HandOverPure(facts: map<nat, Fact>, n: Node, ids: seq<nat>, files: bool, intake: Wait, turn: Wait)
    requires AlbumsPure(facts, n) && n.a.pending.None? && TurnIsPure(facts, ids)
    ensures AlbumsPure(facts, HandOver(n, ids, files, intake, turn).node)
    ensures HandOver(n, ids, files, intake, turn).node.a.pending.None?
  {
    hide Await, PollDelivery.Quiet, AlbumsPure, TurnIsPure;
    var m := if files then Await(n, intake) else n;
    AwaitPure(facts, n, intake);
    PollDelivery.AwaitQuiet(n, intake);
    SameTurns(facts, n, Fail(n).node);
    SameTurns(facts, m, Fail(m).node);
    var acted := m.(log := m.log + [Turn(ids)]);
    TurnAdded(facts, m, ids);
    AwaitPure(facts, acted, turn);
    PollDelivery.AwaitQuiet(acted, turn);
  }

  lemma TurnAdded(facts: map<nat, Fact>, n: Node, ids: seq<nat>)
    requires AlbumsPure(facts, n) && TurnIsPure(facts, ids)
    ensures AlbumsPure(facts, n.(log := n.log + [Turn(ids)]))
  {
    hide TurnIsPure, GroupIsPure;
  }

  lemma GroupTurnPure(facts: map<nat, Fact>, g: Group)
    requires GroupIsPure(facts, g)
    ensures TurnIsPure(facts, g.parts)
  {
    if |g.parts| != 1 {
      assert OfAlbum(facts, g.parts, g.chat, g.album);
    }
  }

  lemma FlushPure(facts: map<nat, Fact>, n: Node, gate: Wait, intake: Wait, turn: Wait, saves: bool)
    requires AlbumsPure(facts, n)
    ensures AlbumsPure(facts, Flush(n, gate, intake, turn, saves).node)
    ensures Flush(n, gate, intake, turn, saves).ok ==> Flush(n, gate, intake, turn, saves).node.a.pending.None?
  {
    hide Await, HandOver, TurnIsPure, GroupIsPure;
    if n.a.pending.Some? {
      AwaitPure(facts, n, gate);
      var g := n.a.pending.value;
      GroupTurnPure(facts, g);
      HandOverPure(facts, WithPending(Await(n, gate), None), g.parts, true, intake, turn);
    }
  }

  /** A part joins an album of its own chat and name only. */
  lemma AlbumPartPure(facts: map<nat, Fact>, n: Node, id: nat, chat: nat, album: nat, w: Waits)
    requires AlbumsPure(facts, n) && PartOf(facts, id, chat, album)
    ensures AlbumsPure(facts, AlbumPart(n, id, chat, album, w).node)
  {
    hide Flush, TurnIsPure;
    FlushPure(facts, n, w.flushGate, w.flushIntake, w.flushTurn, w.flushSaves);
  }

  lemma SinglePure(facts: map<nat, Fact>, n: Node, id: nat, content: Content, w: Waits)
    requires AlbumsPure(facts, n) && n.a.pending.None?
    ensures AlbumsPure(facts, Single(n, id, content, w).node)
  {
    hide Await, HandOver;
    AwaitPure(facts, n, w.gate);
    PollDelivery.AwaitQuiet(n, w.gate);
    HandOverPure(facts, Await(n, w.gate), [id], content.Message? && content.files, w.intake, w.turn);
  }

  lemma TakePure(facts: map<nat, Fact>, n: Node, e: Entry)
    requires AlbumsPure(facts, n) && Shows(facts, e)
    ensures AlbumsPure(facts, Take(n, e).node)
  {
    hide Flush, Single, AlbumPart, TurnIsPure, GroupIsPure, IsStale;
    var w := e.waits;
    FlushPure(facts, n, w.flushGate, w.flushIntake, w.flushTurn, w.flushSaves);
    var r := Flush(n, w.flushGate, w.flushIntake, w.flushTurn, w.flushSaves);
    if e.update.Update? {
      var id, content := e.update.id, e.update.content;
      if r.ok {
        SinglePure(facts, r.node, id, content, w);
      }
      if content.Message? && content.album.Some? {
        AlbumPartPure(facts, n, id, content.chat, content.album.value, w);
      }
    }
  }

  lemma {:induction false} BatchPure(facts: map<nat, Fact>, n: Node, es: seq<Entry>)
    requires AlbumsPure(facts, n) && forall e <- es :: Shows(facts, e)
    ensures AlbumsPure(facts, Batch(n, es).node)
    decreases |es|
  {
    hide AlbumsPure, Take, Shows;
    if es != [] {
      TakePure(facts, n, es[0]);
      BatchPure(facts, Take(n, es[0]).node, es[1..]);
    }
  }

  lemma PollPure(facts: map<nat, Fact>, n: Node, es: seq<Entry>, end: Waits)
    requires AlbumsPure(facts, n) && forall e <- es :: Shows(facts, e)
    ensures AlbumsPure(facts, HandleBatch(n, es, end).node)
  {
    hide Flush, Batch, TurnIsPure, Shows;
    BatchPure(facts, n, es);
    FlushPure(facts, Batch(n, es).node, end.flushGate, end.flushIntake, end.flushTurn, end.flushSaves);
  }

  ghost predicate FactsOk(w: World) {
    forall id <- w.facts :: id in w.produced
  }

  lemma MoreFacts(facts: map<nat, Fact>, more: map<nat, Fact>, n: Node)
    requires AlbumsPure(facts, n) && forall id <- facts :: id in more && more[id] == facts[id]
    ensures AlbumsPure(more, n)
  {
    forall e | e in n.log && e.Turn? ensures TurnIsPure(more, e.ids) {
      assert TurnIsPure(facts, e.ids);
      if |e.ids| != 1 {
        var chat, album :| OfAlbum(facts, e.ids, chat, album);
        assert OfAlbum(more, e.ids, chat, album);
      }
    }
  }

  /** No new turn, and the album as it was or lost. */
  lemma SameTurns(facts: map<nat, Fact>, n: Node, m: Node)
    requires AlbumsPure(facts, n) && (forall e <- m.log :: e.Turn? ==> e in n.log)
    requires m.a.pending == n.a.pending || m.a.pending.None?
    ensures AlbumsPure(facts, m)
  {
    hide TurnIsPure, GroupIsPure;
  }

  lemma NextPure(w: World, step: Step)
    requires AlbumsPure(w.facts, w.node) && FactsOk(w) && Enabled(w, step)
    ensures AlbumsPure(Next(w, step).facts, Next(w, step).node) && FactsOk(Next(w, step))
  {
    hide HandleBatch, AlbumsPure, InTime, Persist;
    if step.Poll? {
      var n := Answered(Confirm(w).node, step.entries != [], step.arrived);
      SameTurns(w.facts, w.node, n);
      PollPure(w.facts, n, step.entries, step.end);
    } else if step.Arrive? {
      MoreFacts(w.facts, Next(w, step).facts, w.node);
    } else if step.TooLarge? {
      SkipPure(w.facts, Confirm(w).node, step.saves);
    } else {
      SameTurns(w.facts, w.node, Next(w, step).node);
    }
  }

  lemma SkipPure(facts: map<nat, Fact>, n: Node, saves: bool)
    requires AlbumsPure(facts, n)
    ensures AlbumsPure(facts, ShrinkOrSkip(n, saves))
  {
    hide AlbumsPure;
    SameTurns(facts, n, ShrinkOrSkip(n, saves));
  }

  lemma {:induction false} RunPure(w: World, steps: seq<Step>, last: World)
    requires AlbumsPure(w.facts, w.node) && FactsOk(w) && Run(w, steps, last)
    ensures AlbumsPure(last.facts, last.node)
    decreases |steps|
  {
    hide AlbumsPure, Next, Enabled, FactsOk;
    if steps != [] {
      NextPure(w, steps[0]);
      RunPure(Next(w, steps[0]), steps[1..], last);
    }
  }

  /** Over every run, each turn is one update, or two to ten parts of one album of one chat. */
  lemma EveryTurnIsPure(w: World, steps: seq<Step>, last: World)
    requires Begins(w) && Run(w, steps, last)
    ensures forall e <- last.node.log :: e.Turn? ==> TurnIsPure(last.facts, e.ids)
  {
    RunPure(w, steps, last);
  }
}
