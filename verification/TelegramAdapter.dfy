/** The adapter object (telegram-platform-adapter.ts): its fields and methods, each tied to a step of `TelegramPoll`. */
module TelegramAdapter {
  import opened Options
  import opened TelegramPoll
  import opened PollConflicts

  class TelegramPlatformAdapter {
    var offset: Option<nat>
    /** What the offset store holds. */
    var savedOffset: Option<nat>
    var pendingGroup: Option<Group>
    var identityVerified: bool
    var halted: bool
    var stopped: bool
    /** The current run's lifecycle signal is not aborted. */
    var live: bool
    /** The poll loop of the current run goes on: a `false` from a batch ends it. */
    var polling: bool
    /** The offset sent with an answered poll. */
    var confirmedOffset: Option<nat>
    var lastUpdateAtMs: nat
    var pollLimit: Positive
    var conflicts: seq<int>
    ghost var log: seq<Event>
    /** A loop of an earlier run may still wake up. */
    ghost var stray: bool
    /** The last attempt to save the offset failed. */
    ghost var unsaved: bool

    ghost function View(): Node
      reads this
    {
      Node(Adapter(Life(identityVerified, halted, stopped, live, polling, stray), offset, confirmedOffset, savedOffset, unsaved, pendingGroup,
                   pollLimit, lastUpdateAtMs), log)
    }

    predicate IsConnected()
      reads this
      ensures IsConnected() == Connected(View().a)
    {
      identityVerified && !halted && !stopped
    }

    constructor (saved: Option<nat>)
      ensures View() == Node(Adapter(FRESH_LIFE, saved, None, saved, false, None, POLL_LIMIT, 0), []) && conflicts == []
    {
      offset, savedOffset, confirmedOffset, pendingGroup := saved, saved, None, None;
      identityVerified, halted, stopped, live, polling, stray, unsaved := false, false, false, true, false, false, false;
      pollLimit, lastUpdateAtMs, conflicts, log := POLL_LIMIT, 0, [], [];
    }

    method Halt()
      modifies this`halted, this`log
      ensures View() == HaltNow(old(View()))
    {
      if halted {
        return;
      }
      halted := true;
      log := log + [Closed];
    }

    /** The synchronous part of `stop()`, and the album it clears once it no longer waits for the loop. */
    method Stop(clears: bool)
      modifies this
      ensures View() == StopNow(old(View()), clears) && conflicts == old(conflicts)
    {
      stopped := true;
      live := false;
      polling := false;
      if clears {
        pendingGroup := None;
      }
      log := log + [Closed];
    }

    /** `unsettled`: the loop of the run before was stopped but had not ended. */
    method Start(ghost unsettled: bool)
      modifies this
      ensures View() == Restart(old(View()), unsettled) && conflicts == []
    {
      ResetFlags(unsettled);
      conflicts := [];
      pendingGroup := None;
      LoadOffset();
      log := log + [Closed];
    }

    method ResetFlags(ghost unsettled: bool)
      modifies this`stopped, this`halted, this`identityVerified, this`polling, this`live, this`stray
      ensures View() == WithLife(old(View()), Life(false, false, false, true, false, old(stray) || unsettled))
    {
      stopped, halted, identityVerified, polling := false, false, false, false;
      live := true;
      stray := stray || unsettled;
    }

    method LoadOffset()
      modifies this`offset, this`unsaved
      ensures View() == if old(offset).Some? then old(View()) else old(View()).(a := old(View()).a.(offset := old(savedOffset), unsaved := false))
    {
      if offset.None? {
        offset := savedOffset;
        unsaved := false;
      }
    }

    /** The identity check succeeded; the poll loop starts. */
    method IdentityMatched(now: nat)
      modifies this`identityVerified, this`polling, this`lastUpdateAtMs, this`log
      ensures View() == Open(old(View()), now)
    {
      if live && !stopped && !halted && !identityVerified {
        identityVerified := true;
        polling := true;
        lastUpdateAtMs := now;
        log := log + [Opened];
      }
    }

    /** Before a poll: the offset is given up after a silent day. */
    method ResetIfSilent(now: nat)
      modifies this`offset, this`lastUpdateAtMs, this`unsaved
      ensures View() == if old(offset).Some? && now - old(lastUpdateAtMs) > DAY then Forget(old(View()), now) else old(View())
    {
      if offset.Some? && now - lastUpdateAtMs > DAY {
        offset := None;
        unsaved := false;
        lastUpdateAtMs := now;
      }
    }

    /** The answer to a poll that carried the held offset. */
    method PollAnswered(some: bool, now: nat)
      modifies this`pollLimit, this`confirmedOffset, this`lastUpdateAtMs
      ensures View() == Answered(old(View()), some, now)
    {
      pollLimit := POLL_LIMIT;
      if offset.Some? {
        confirmedOffset := offset;
      }
      if some {
        lastUpdateAtMs := now;
      }
    }

    /** What others do while this code waits. */
    method WaitFor(w: Wait)
      modifies this
      ensures View() == Await(old(View()), w) && conflicts == old(conflicts)
    {
      if w.stops {
        Stop(w.clears);
      }
      if w.halts {
        Halt();
      }
    }

    /** `saves`: the store takes the offset; a failure is only logged. */
    method PersistOffset(saves: bool)
      modifies this`savedOffset, this`unsaved
      ensures View() == Persist(old(View()), saves)
    {
      if offset.None? {
        return;
      }
      if offset != savedOffset {
        if !saves {
          unsaved := true;
          return;
        }
        savedOffset := offset;
      }
      unsaved := false;
    }

    /** The offset moves past an update, and is saved. */
    method MovePast(id: nat, saves: bool)
      modifies this`offset, this`savedOffset, this`unsaved
      ensures View() == Persist(MoveOffset(old(View()), id), saves)
    {
      offset := Some(id + 1);
      PersistOffset(saves);
    }

    method HandOverMessage(ids: seq<nat>, files: bool, intake: Wait, turn: Wait) returns (ok: bool)
      modifies this
      ensures Result(View(), ok) == HandOver(old(View()), ids, files, intake, turn) && conflicts == old(conflicts)
    {
      if !live || !IsConnected() {
        polling := false;
        return false;
      }
      if files {
        WaitFor(intake);
        if !live || !IsConnected() {
          polling := false;
          return false;
        }
      }
      log := log + [Turn(ids)];
      WaitFor(turn);
      ok := true;
    }

    method FlushPendingGroup(gate: Wait, intake: Wait, turn: Wait, saves: bool) returns (ok: bool)
      modifies this
      ensures Result(View(), ok) == Flush(old(View()), gate, intake, turn, saves) && conflicts == old(conflicts)
    {
      hide HandOver, Await, Persist;
      if pendingGroup.None? {
        return true;
      }
      var group := pendingGroup.value;
      WaitFor(gate);
      if !(gate.open && live) {
        pendingGroup := None;
        polling := false;
        return false;
      }
      if pendingGroup.None? {
        polling := false;
        return false;
      }
      pendingGroup := None;
      ok := HandOverMessage(group.parts, true, intake, turn);
      if ok {
        MovePast(group.last, saves);
      }
    }

    method JoinPendingGroup(id: nat, chat: nat, album: nat) returns (joined: bool)
      modifies this`pendingGroup
      ensures joined == CanJoin(old(View()).a, chat, album)
      ensures joined ==> old(pendingGroup).Some? && View() == WithPending(old(View()), Some(Joined(old(pendingGroup).value, id)))
      ensures !joined ==> View() == old(View())
    {
      if pendingGroup.None? {
        return false;
      }
      var group := pendingGroup.value;
      if group.chat != chat || group.album != album || |group.parts| >= MAX_ALBUM_PARTS {
        return false;
      }
      pendingGroup := Some(group.(parts := group.parts + [id], last := id, grew := true));
      joined := true;
    }

    /** A part joins the collected album, or starts a new one after the collected one went. */
    method CollectPart(id: nat, chat: nat, album: nat, w: Waits) returns (ok: bool)
      modifies this
      ensures Result(View(), ok) == AlbumPart(old(View()), id, chat, album, w) && conflicts == old(conflicts)
    {
      hide Flush, HandOver, Await;
      var joined := JoinPendingGroup(id, chat, album);
      if joined {
        return true;
      }
      ok := FlushPendingGroup(w.flushGate, w.flushIntake, w.flushTurn, w.flushSaves);
      if ok {
        pendingGroup := Some(Group([id], chat, album, id, true, 0));
      }
    }

    /** An update of its own, after the gate. */
    method HandOverSingle(id: nat, content: Content, w: Waits) returns (ok: bool)
      modifies this
      ensures Result(View(), ok) == Single(old(View()), id, content, w) && conflicts == old(conflicts)
    {
      hide Flush, HandOver, Await;
      WaitFor(w.gate);
      if !(w.gate.open && live) || !live || !IsConnected() {
        polling := false;
        return false;
      }
      ok := HandOverMessage([id], content.Message? && content.files, w.intake, w.turn);
      if ok {
        MovePast(id, w.saves);
      }
    }

    /** One entry; `false` ends the batch. */
    method HandleUpdate(e: Entry) returns (ok: bool)
      modifies this
      ensures Result(View(), ok) == Take(old(View()), e) && conflicts == old(conflicts)
    {
      hide Flush, HandOver, Await, IsStale, Single, AlbumPart;
      if !live {
        polling := false;
        return false;
      }
      var w := e.waits;
      match e.update {
        case Malformed =>
          ok := FlushPendingGroup(w.flushGate, w.flushIntake, w.flushTurn, w.flushSaves);
        case Update(id, date, content) =>
          if offset.Some? && id < offset.value {
            return true;
          }
          if pendingGroup.Some? && id <= pendingGroup.value.last {
            return true;
          }
          var refused := content.Refused?;
          var stale := IsStale(date, e.at);
          if !refused && !stale && content.Message? && content.album.Some? {
            ok := CollectPart(id, content.chat, content.album.value, w);
            return;
          }
          ok := FlushPendingGroup(w.flushGate, w.flushIntake, w.flushTurn, w.flushSaves);
          if !ok {
            return;
          }
          if refused || stale {
            log := log + [Drop(id, if refused then Unwanted else Stale(e.at))];
            offset := Some(id + 1);
            return;
          }
          ok := HandOverSingle(id, content, w);
      }
    }

    method HandleBatchOf(es: seq<Entry>, end: Waits) returns (ok: bool)
      modifies this
      ensures Result(View(), ok) == HandleBatch(old(View()), es, end) && conflicts == old(conflicts)
    {
      hide Take, Flush;
      ghost var start := View();
      var i := 0;
      while i < |es|
        invariant 0 <= i <= |es|
        invariant Batch(start, es) == Batch(View(), es[i..])
        invariant conflicts == old(conflicts)
      {
        assert es[i..][0] == es[i] && es[i..][1..] == es[i + 1..];
        ok := HandleUpdate(es[i]);
        if !ok {
          return;
        }
        i := i + 1;
      }
      if !live {
        polling := false;
        return false;
      }
      if pendingGroup.Some? {
        var group := pendingGroup.value;
        if !group.grew || group.rounds >= MAX_ALBUM_ROUNDS {
          ok := FlushPendingGroup(end.flushGate, end.flushIntake, end.flushTurn, end.flushSaves);
          if !ok {
            return;
          }
        } else {
          pendingGroup := Some(group.(grew := false, rounds := group.rounds + 1));
        }
      }
      PersistOffset(end.saves);
      ok := true;
    }

    /** `true`: poll again at once. */
    method AfterTooLarge(saves: bool) returns (again: bool)
      modifies this
      ensures View() == ShrinkOrSkip(old(View()), saves) && conflicts == old(conflicts)
      ensures again == (old(pollLimit) > 1 || old(offset).Some?)
    {
      if pollLimit > 1 {
        pollLimit := pollLimit / 2;
        return true;
      }
      if offset.None? {
        return false;
      }
      log := log + [Drop(offset.value, Oversized)];
      offset := Some(offset.value + 1);
      PersistOffset(saves);
      again := true;
    }

    /** One HTTP 409 at `at`; `true` when the adapter must halt. */
    method RecordConflict(at: int, ghost history: seq<int>) returns (halts: bool)
      requires conflicts == Conflicts(history)
      modifies this`conflicts
      ensures conflicts == Conflicts(history + [at])
      ensures halts <==> |Recent(history + [at], at)| >= CONFLICT_COUNT + CountLost(history + [at], |history| + 1)
    {
      assert (history + [at])[..|history|] == history;
      conflicts := Recent(conflicts, at) + [at];
      halts := |conflicts| >= CONFLICT_COUNT;
      HaltsExactly(history + [at]);
    }

    /** Sends, typing, file and download calls: refused with nothing sent unless connected. */
    method OutboundCall() returns (sent: bool)
      modifies this`log
      ensures View() == Outbound(old(View())) && sent == Connected(old(View()).a)
    {
      if !IsConnected() {
        return false;
      }
      log := log + [Called];
      sent := true;
    }
  }
}
