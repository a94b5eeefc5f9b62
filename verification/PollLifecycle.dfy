/** Nothing is handed over and no call starts before verification or after a halt, a stop or a restart
    (telegram-platform-adapter.ts:510-613, 937-979, 1218-1253). */
module PollLifecycle {
  import opened Options
  import opened TelegramPoll

  /** The log agrees with the flags, and nothing was done while closed. */
  ghost predicate LogOk(n: Node) {
    && May(n.log) == Connected(n.a)
    && (!n.a.life.live ==> n.a.life.stopped)
    && ActedOnlyWhileOpen(n.log)
  }

  lemma StopLog(n: Node, clears: bool)
    requires LogOk(n)
    ensures LogOk(StopNow(n, clears))
  {
    Appended(n.log, Closed);
  }

  lemma HaltLog(n: Node)
    requires LogOk(n)
    ensures LogOk(HaltNow(n))
  {
    Appended(n.log, Closed);
  }

  lemma AwaitLog(n: Node, w: Wait)
    requires LogOk(n)
    ensures LogOk(Await(n, w))
  {
    hide LogOk;
    if w.stops {
      StopLog(n, w.clears);
    }
    HaltLog(if w.stops then StopNow(n, w.clears) else n);
  }

  /** The lifecycle part does not read the offsets, the album or whether the loop runs. */
  lemma FieldsLog(n: Node, m: Node)
    requires LogOk(n) && m.log == n.log
    requires m.a.life.(looping := n.a.life.looping, stray := n.a.life.stray) == n.a.life
    ensures LogOk(m)
  {
  }

  lemma PersistLog(n: Node, saves: bool)
    ensures Persist(n, saves).log == n.log && Persist(n, saves).a.life == n.a.life
  {
  }

  lemma HandOverLog(n: Node, ids: seq<nat>, files: bool, intake: Wait, turn: Wait)
    requires LogOk(n)
    ensures LogOk(HandOver(n, ids, files, intake, turn).node)
  {
    hide Await;
    if HandOverClosed(n.a) {
      FieldsLog(n, Fail(n).node);
    } else {
      if files {
        AwaitLog(n, intake);
      }
      var m := if files then Await(n, intake) else n;
      if HandOverClosed(m.a) {
        FieldsLog(m, Fail(m).node);
      } else {
        Appended(m.log, Turn(ids));
        AwaitLog(m.(log := m.log + [Turn(ids)]), turn);
      }
    }
  }

  lemma FlushLog(n: Node, gate: Wait, intake: Wait, turn: Wait, saves: bool)
    requires LogOk(n)
    ensures LogOk(Flush(n, gate, intake, turn, saves).node)
  {
    hide LogOk, Await, HandOver, Persist;
    if n.a.pending.Some? {
      AwaitLog(n, gate);
      var m := Await(n, gate);
      var cleared := WithPending(m, None);
      FieldsLog(m, cleared);
      if !GateOpen(m, gate) {
        FieldsLog(m, Fail(cleared).node);
      } else if m.a.pending.None? {
        FieldsLog(m, Fail(m).node);
      } else {
        FlushedLog(cleared, n.a.pending.value, intake, turn, saves);
      }
    }
  }

  lemma FlushedLog(n: Node, g: Group, intake: Wait, turn: Wait, saves: bool)
    requires LogOk(n)
    ensures var r := HandOver(n, g.parts, true, intake, turn); LogOk(r.node) && LogOk(Persist(MoveOffset(r.node, g.last), saves))
  {
    hide LogOk, HandOver, Persist;
    HandOverLog(n, g.parts, true, intake, turn);
    var r := HandOver(n, g.parts, true, intake, turn);
    PersistLog(MoveOffset(r.node, g.last), saves);
    FieldsLog(r.node, Persist(MoveOffset(r.node, g.last), saves));
  }

  lemma SingleLog(n: Node, id: nat, content: Content, w: Waits)
    requires LogOk(n)
    ensures LogOk(Single(n, id, content, w).node)
  {
    hide LogOk, Await, HandOver, Persist;
    AwaitLog(n, w.gate);
    var m := Await(n, w.gate);
    if !GateOpen(m, w.gate) || HandOverClosed(m.a) {
      FieldsLog(m, Fail(m).node);
    } else {
      HandOverLog(m, [id], content.Message? && content.files, w.intake, w.turn);
      var r := HandOver(m, [id], content.Message? && content.files, w.intake, w.turn);
      SavedLog(r.node, MoveOffset(r.node, id), w.saves);
    }
  }

  lemma RefuseLog(n: Node, id: nat, why: Why)
    requires LogOk(n)
    ensures LogOk(Refuse(n, id, why))
  {
    Appended(n.log, Drop(id, why));
  }

  lemma TakeLog(n: Node, e: Entry)
    requires LogOk(n)
    ensures LogOk(Take(n, e).node)
  {
    hide LogOk, Await, Flush, Single, Refuse, IsStale;
    var w := e.waits;
    FieldsLog(n, Fail(n).node);
    FlushLog(n, w.flushGate, w.flushIntake, w.flushTurn, w.flushSaves);
    var r := Flush(n, w.flushGate, w.flushIntake, w.flushTurn, w.flushSaves);
    if e.update.Update? {
      var id, content := e.update.id, e.update.content;
      SingleLog(r.node, id, content, w);
      RefuseLog(r.node, id, if content.Refused? then Unwanted else Stale(e.at));
      if content.Message? && content.album.Some? {
        FieldsLog(r.node, WithPending(r.node, Some(Group([id], content.chat, content.album.value, id, true, 0))));
        if CanJoin(n.a, content.chat, content.album.value) {
          FieldsLog(n, WithPending(n, Some(Joined(n.a.pending.value, id))));
        }
      }
    }
  }

  lemma {:induction false} BatchLog(n: Node, es: seq<Entry>)
    requires LogOk(n)
    ensures LogOk(Batch(n, es).node)
    decreases |es|
  {
    hide LogOk, Take;
    if es != [] {
      TakeLog(n, es[0]);
      if Take(n, es[0]).ok {
        BatchLog(Take(n, es[0]).node, es[1..]);
      }
    }
  }

  lemma FinishLog(n: Node, w: Waits)
    requires LogOk(n)
    ensures LogOk(Finish(n, w).node)
  {
    hide LogOk, Flush, Persist;
    if !n.a.life.live {
      FieldsLog(n, Fail(n).node);
    } else if n.a.pending.None? {
      SavedLog(n, n, w.saves);
    } else {
      FlushLog(n, w.flushGate, w.flushIntake, w.flushTurn, w.flushSaves);
      var flushed := Flush(n, w.flushGate, w.flushIntake, w.flushTurn, w.flushSaves).node;
      SavedLog(flushed, flushed, w.saves);
      var g := n.a.pending.value;
      SavedLog(n, WithPending(n, Some(g.(grew := false, rounds := g.rounds + 1))), w.saves);
    }
  }

  lemma SavedLog(n: Node, m: Node, saves: bool)
    requires LogOk(n) && m.log == n.log && m.a.life == n.a.life
    ensures LogOk(Persist(m, saves))
  {
    hide LogOk, Persist;
    PersistLog(m, saves);
    FieldsLog(n, Persist(m, saves));
  }

  lemma PollLog(n: Node, es: seq<Entry>, end: Waits)
    requires LogOk(n)
    ensures LogOk(HandleBatch(n, es, end).node)
  {
    hide LogOk, Batch, Finish;
    BatchLog(n, es);
    FinishLog(Batch(n, es).node, end);
  }

  lemma OpenLog(n: Node, now: nat)
    requires LogOk(n)
    ensures LogOk(Open(n, now))
  {
    Appended(n.log, Opened);
  }

  lemma RestartLog(n: Node, stray: bool)
    requires LogOk(n)
    ensures LogOk(Restart(n, stray)) && LogOk(Crash(n))
  {
    Appended(n.log, Closed);
  }

  lemma SendLog(n: Node)
    requires LogOk(n)
    ensures LogOk(Outbound(n))
  {
    Appended(n.log, Called);
  }

  lemma TooLargeLog(n: Node, saves: bool)
    requires LogOk(n)
    ensures LogOk(ShrinkOrSkip(n, saves))
  {
    hide LogOk, Refuse, Persist;
    if n.a.limit > 1 {
      FieldsLog(n, ShrinkOrSkip(n, saves));
    } else if n.a.offset.Some? {
      var dropped := Refuse(n, n.a.offset.value, Oversized);
      RefuseLog(n, n.a.offset.value, Oversized);
      SavedLog(dropped, dropped, saves);
    }
  }

  lemma NextLog(w: World, step: Step)
    requires LogOk(w.node)
    ensures LogOk(Next(w, step).node)
  {
    hide LogOk, HandleBatch, HaltNow, ShrinkOrSkip, Open, StopNow;
    match step
    case Poll(es, arrived, end, _) =>
      var n := Answered(w.node, es != [], arrived);
      FieldsLog(w.node, n);
      PollLog(n, es, end);
    case TooLarge(saves) => TooLargeLog(w.node, saves);
    case Verify => OpenLog(w.node, w.now);
    case Halt => HaltLog(w.node);
    case Stop(clears) => StopLog(w.node, clears);
    case StartAgain(stray) => RestartLog(w.node, stray);
    case ProcessRestart => RestartLog(w.node, false);
    case AlbumLost => FieldsLog(w.node, WithPending(w.node, None));
    case ConfirmOnStop(_) => FieldsLog(w.node, Next(w, step).node);
    case Send => SendLog(w.node);
    case SilentReset => FieldsLog(w.node, Forget(w.node, w.now));
    case _ =>
  }

  lemma {:induction false} RunLog(w: World, steps: seq<Step>, last: World)
    requires LogOk(w.node) && Run(w, steps, last)
    ensures LogOk(last.node)
    decreases |steps|
  {
    hide LogOk, Next, Enabled;
    if steps != [] {
      NextLog(w, steps[0]);
      RunLog(Next(w, steps[0]), steps[1..], last);
    }
  }

  /** Over every run: a turn or a call only between a verification and the next halt, stop or restart. */
  lemma ActsOnlyWhileOpen(w: World, steps: seq<Step>, last: World)
    requires Begins(w) && Run(w, steps, last)
    ensures ActedOnlyWhileOpen(last.node.log) && May(last.node.log) == Connected(last.node.a)
  {
    RunLog(w, steps, last);
  }
}
