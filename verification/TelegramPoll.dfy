/** The Telegram poll, album and hand-over protocol (telegram-platform-adapter.ts; the ages of admission.ts:125, 246, 331):
    the adapter's state, its steps as functions, the server that sends unconfirmed updates again, and the host clock. */
module TelegramPoll {
  import opened Options

  const MAX_ALBUM_PARTS := 10
  const MAX_ALBUM_ROUNDS := 3
  const POLL_LIMIT := 100

  /** Seconds. */
  const MAX_UPDATE_AGE := 600
  /** The silence after which the offset is reset, in milliseconds. */
  const DAY := 86400000

  /** What admission makes of an update apart from its age: who sent it, where and what. */
  datatype Content = Message(chat: nat, album: Option<nat>, files: bool) | Reaction | Refused

  /** A malformed entry has no usable `update_id` and is always refused. */
  datatype Update = Malformed | Update(id: nat, date: int, content: Content)

  /** Admission compares whole seconds of the host clock with the update's date. */
  predicate IsStale(date: int, at: nat) {
    at / 1000 - date > MAX_UPDATE_AGE
  }

  /** What the rest of the program does while the batch waits: the identity gate opens or not, `stop()` runs (and clears
      the album once it stopped waiting for the loop), the adapter halts. */
  datatype Wait = Wait(open: bool, stops: bool, clears: bool, halts: bool)

  /** The waits of one entry: gate and intake of an album flushed before it, gate and intake of its own; what the two
      handlers do synchronously when they are called; and whether the offset store takes the two offsets. */
  datatype Waits = Waits(flushGate: Wait, flushIntake: Wait, flushTurn: Wait, flushSaves: bool,
                         gate: Wait, intake: Wait, turn: Wait, saves: bool)

  /** `at`: the host clock when the entry's admission is computed. */
  datatype Entry = Entry(update: Update, at: nat, waits: Waits)

  datatype Group = Group(parts: seq<nat>, chat: nat, album: nat, last: nat, grew: bool, rounds: nat)

  /** `live`: the current run's lifecycle signal is not aborted. `looping`: its poll loop runs. `stray`: the loop of an
      earlier run, stopped past the settle bound, may still wake up. */
  datatype Life = Life(verified: bool, halted: bool, stopped: bool, live: bool, looping: bool, stray: bool)

  type Positive = n: nat | 0 < n witness 1

  /** `unsaved`: the last attempt to save the offset failed. `limit`: the batch size of the next poll. `lastAt`: when the last non-empty batch arrived, or polling started. */
  datatype Adapter = Adapter(
    life: Life, offset: Option<nat>, confirmed: Option<nat>, saved: Option<nat>, unsaved: bool, pending: Option<Group>,
    limit: Positive, lastAt: nat)

  /** Why an update was dropped; `at`: the clock at its admission. */
  datatype Why = Unwanted | Stale(at: nat) | Oversized

  /** `Opened` and `Closed` record when the adapter became able or unable to act. */
  datatype Event = Turn(ids: seq<nat>) | Drop(id: nat, why: Why) | Opened | Closed | Called

  datatype Node = Node(a: Adapter, log: seq<Event>)

  /** Not `ok`: the batch and the poll loop end. */
  datatype Result = Result(node: Node, ok: bool)

  predicate Connected(a: Adapter) {
    a.life.verified && !a.life.halted && !a.life.stopped
  }

  predicate HandOverClosed(a: Adapter) {
    !a.life.live || !Connected(a)
  }

  function WithLife(n: Node, life: Life): Node {
    n.(a := n.a.(life := life))
  }

  function Fail(n: Node): Result {
    Result(WithLife(n, n.a.life.(looping := false)), false)
  }

  function StopNow(n: Node, clears: bool): Node {
    Node(n.a.(life := n.a.life.(stopped := true, live := false, looping := false), pending := if clears then None else n.a.pending),
         n.log + [Closed])
  }

  function HaltNow(n: Node): Node {
    if n.a.life.halted then n else Node(n.a.(life := n.a.life.(halted := true)), n.log + [Closed])
  }

  function Await(n: Node, w: Wait): Node {
    var s := if w.stops then StopNow(n, w.clears) else n;
    if w.halts then HaltNow(s) else s
  }

  /** The gate counts as closed after a stop. */
  predicate GateOpen(n: Node, w: Wait) {
    w.open && n.a.life.live
  }

  /** An offset that is saved already is not saved again; a failure is logged and polling goes on. */
  function Persist(n: Node, saves: bool): Node {
    if n.a.offset.None? then n
    else if saves || n.a.offset == n.a.saved then n.(a := n.a.(saved := n.a.offset, unsaved := false))
    else n.(a := n.a.(unsaved := true))
  }

  function MoveOffset(n: Node, id: nat): Node {
    n.(a := n.a.(offset := Some(id + 1)))
  }

  function WithPending(n: Node, pending: Option<Group>): Node {
    n.(a := n.a.(pending := pending))
  }

  /** The handler is called, or nothing is handed over. */
  function HandOver(n: Node, ids: seq<nat>, files: bool, intake: Wait, turn: Wait): Result {
    if HandOverClosed(n.a) then Fail(n)
    else
      var m := if files then Await(n, intake) else n;
      if HandOverClosed(m.a) then Fail(m)
      else Result(Await(m.(log := m.log + [Turn(ids)]), turn), true)
  }

  function Flush(n: Node, gate: Wait, intake: Wait, turn: Wait, saves: bool): Result {
    if n.a.pending.None? then Result(n, true)
    else
      var group := n.a.pending.value;
      var m := Await(n, gate);
      if !GateOpen(m, gate) then Fail(WithPending(m, None))
      else if m.a.pending.None? then Fail(m)
      else
        var r := HandOver(WithPending(m, None), group.parts, true, intake, turn);
        if !r.ok then r else Result(Persist(MoveOffset(r.node, group.last), saves), true)
  }

  predicate CanJoin(a: Adapter, chat: nat, album: nat) {
    a.pending.Some? && a.pending.value.chat == chat && a.pending.value.album == album && |a.pending.value.parts| < MAX_ALBUM_PARTS
  }

  function Joined(g: Group, id: nat): Group {
    g.(parts := g.parts + [id], last := id, grew := true)
  }

  predicate Seen(a: Adapter, id: nat) {
    || (a.offset.Some? && id < a.offset.value)
    || (a.pending.Some? && id <= a.pending.value.last)
  }

  /** A single update that is admitted: gate, hand-over, offset and persist. */
  function Single(n: Node, id: nat, content: Content, w: Waits): Result {
    var m := Await(n, w.gate);
    if !GateOpen(m, w.gate) || HandOverClosed(m.a) then Fail(m)
    else
      var r := HandOver(m, [id], content.Message? && content.files, w.intake, w.turn);
      if !r.ok then r else Result(Persist(MoveOffset(r.node, id), w.saves), true)
  }

  function AlbumPart(n: Node, id: nat, chat: nat, album: nat, w: Waits): Result {
    if CanJoin(n.a, chat, album) then Result(WithPending(n, Some(Joined(n.a.pending.value, id))), true)
    else
      var r := Flush(n, w.flushGate, w.flushIntake, w.flushTurn, w.flushSaves);
      if !r.ok then r else Result(WithPending(r.node, Some(Group([id], chat, album, id, true, 0))), true)
  }

  function Refuse(n: Node, id: nat, why: Why): Node {
    MoveOffset(n.(log := n.log + [Drop(id, why)]), id)
  }

  /** One entry of a batch. */
  function Take(n: Node, e: Entry): Result {
    var w := e.waits;
    if !n.a.life.live then Fail(n)
    else
      match e.update
      case Malformed => Flush(n, w.flushGate, w.flushIntake, w.flushTurn, w.flushSaves)
      case Update(id, date, content) =>
        if Seen(n.a, id) then Result(n, true)
        else if content.Refused? || IsStale(date, e.at) then
          var r := Flush(n, w.flushGate, w.flushIntake, w.flushTurn, w.flushSaves);
          if !r.ok then r else Result(Refuse(r.node, id, if content.Refused? then Unwanted else Stale(e.at)), true)
        else if content.Message? && content.album.Some? then AlbumPart(n, id, content.chat, content.album.value, w)
        else
          var r := Flush(n, w.flushGate, w.flushIntake, w.flushTurn, w.flushSaves);
          if !r.ok then r else Single(r.node, id, content, w)
  }

  function Batch(n: Node, es: seq<Entry>): Result
    decreases |es|
  {
    if es == [] then Result(n, true)
    else
      var r := Take(n, es[0]);
      if !r.ok then r else Batch(r.node, es[1..])
  }

  /** After the last entry: an album that did not grow, or was re-polled often enough, is handed over. */
  function Finish(n: Node, w: Waits): Result {
    if !n.a.life.live then Fail(n)
    else if n.a.pending.None? then Result(Persist(n, w.saves), true)
    else
      var g := n.a.pending.value;
      if !g.grew || g.rounds >= MAX_ALBUM_ROUNDS then
        var r := Flush(n, w.flushGate, w.flushIntake, w.flushTurn, w.flushSaves);
        if !r.ok then r else Result(Persist(r.node, w.saves), true)
      else Result(Persist(WithPending(n, Some(g.(grew := false, rounds := g.rounds + 1))), w.saves), true)
  }

  function HandleBatch(n: Node, es: seq<Entry>, end: Waits): Result {
    var r := Batch(n, es);
    if !r.ok then r else Finish(r.node, end)
  }

  /** A response over the size bound: fewer updates next time, or, at one update, skip it. */
  function ShrinkOrSkip(n: Node, saves: bool): Node {
    if n.a.limit > 1 then n.(a := n.a.(limit := n.a.limit / 2))
    else if n.a.offset.None? then n
    else Persist(Refuse(n, n.a.offset.value, Oversized), saves)
  }

  /** The identity matched: the poll loop starts. */
  function Open(n: Node, now: nat): Node {
    var l := n.a.life;
    if l.live && !l.stopped && !l.halted && !l.verified then
      Node(n.a.(life := l.(verified := true, looping := true), lastAt := now), n.log + [Opened])
    else n
  }

  /** `start()` after a stop, in the same process; `stray`: the old loop had not settled. */
  function Restart(n: Node, stray: bool): Node {
    Node(n.a.(life := Life(false, false, false, true, false, n.a.life.stray || stray), pending := None,
              offset := if n.a.offset.None? then n.a.saved else n.a.offset, unsaved := n.a.unsaved && n.a.offset.Some?),
         n.log + [Closed])
  }

  const FRESH_LIFE := Life(false, false, false, true, false, false)

  /** The process ends at any point between two steps, and a new one starts from the saved offset. */
  function Crash(n: Node): Node {
    Node(Adapter(FRESH_LIFE, n.a.saved, None, n.a.saved, false, None, POLL_LIMIT, 0), n.log + [Closed])
  }

  function Outbound(n: Node): Node {
    if Connected(n.a) then n.(log := n.log + [Called]) else n
  }

  /** The reset after a silent day. */
  function Forget(n: Node, now: nat): Node {
    n.(a := n.a.(offset := None, unsaved := false, lastAt := now))
  }

  // ---------- The server, the clock and the runs ----------

  /** `huge`: a response with this update alone is over the size bound. `sentAt`: the host clock when it came to exist. */
  datatype Fact = Fact(date: int, content: Content, huge: bool, sentAt: nat)

  /** `produced`: every update id of the current numbering so far, in order. Ids below `forgotten` were confirmed and are
      never sent again. `now`: the host clock, in milliseconds. `shadow`: the offsets held when the numbering began.
      `lost`: how often a process ended with an offset that could not be saved. */
  datatype World = World(node: Node, produced: seq<nat>, facts: map<nat, Fact>, forgotten: nat, now: nat, shadow: nat, lost: nat)

  datatype Step =
    | Arrive(id: nat, date: int, content: Content, huge: bool)
    | Tick(to: nat)
    | Poll(entries: seq<Entry>, arrived: nat, end: Waits, done: nat)
    | PollLost
    | TooLarge(saves: bool)
    | Verify
    | Halt
    | Stop(clears: bool)
    | StartAgain(stray: bool)
    | ProcessRestart
    | AlbumLost
    | ConfirmOnStop(answered: bool)
    | Send
    | SilentReset

  predicate Sorted(s: seq<nat>) {
    forall i, j :: 0 <= i < j < |s| ==> s[i] < s[j]
  }

  function Held(offset: Option<nat>): nat {
    if offset.Some? then offset.value else 0
  }

  /** One past the last update that exists. */
  function Top(w: World): nat {
    if w.produced == [] then 0 else w.produced[|w.produced| - 1] + 1
  }

  /** A numbering begins: nothing exists yet; the adapter may hold offsets of an earlier numbering. */
  predicate Begins(w: World) {
    && w.node.log == [] && w.produced == [] && w.facts == map[] && w.forgotten == 0
    && w.node.a.life == FRESH_LIFE && w.node.a.pending.None? && w.node.a.confirmed.None?
    && !w.node.a.unsaved && w.lost == 0
    && w.shadow == (if Held(w.node.a.offset) > Held(w.node.a.saved) then Held(w.node.a.offset) else Held(w.node.a.saved))
  }

  /** A poll with an offset makes the server forget every update below it that exists. */
  function Confirm(w: World): World {
    var o := if Held(w.node.a.offset) < Top(w) then Held(w.node.a.offset) else Top(w);
    if o > w.forgotten then w.(forgotten := o) else w
  }

  /** The first id a poll can get. */
  function Base(w: World): nat {
    if Held(w.node.a.offset) > w.forgotten then Held(w.node.a.offset) else w.forgotten
  }

  /** An entry shows the update as it is. */
  predicate Shows(facts: map<nat, Fact>, e: Entry) {
    e.update.Update? ==>
      e.update.id in facts && e.update.date == facts[e.update.id].date && e.update.content == facts[e.update.id].content
  }

  predicate Is(e: Entry, id: nat) {
    e.update.Update? && e.update.id == id
  }

  /** A batch within the limit: sorted by id, with every unconfirmed update up to its last one (repeated entries allowed). */
  ghost predicate ServerBatch(w: World, es: seq<Entry>) {
    && |es| <= w.node.a.limit
    && (forall i, j | 0 <= i < j < |es| && es[i].update.Update? && es[j].update.Update? :: es[i].update.id <= es[j].update.id)
    && (forall e <- es :: Shows(w.facts, e) && (e.update.Update? ==> Sendable(w, e.update.id)))
    && (forall e, x | e in es && e.update.Update? && x in w.produced ::
          Base(w) <= x <= e.update.id ==> exists other <- es :: Is(other, x))
  }

  predicate Sendable(w: World, id: nat) {
    id in w.produced && Base(w) <= id && id in w.facts && !w.facts[id].huge
  }

  /** The next update the server has to send. */
  ghost predicate First(w: World, x: nat) {
    x in w.produced && x in w.facts && Base(w) <= x && forall y <- w.produced :: Base(w) <= y ==> x <= y
  }

  /** The clock never steps back from entry to entry. */
  predicate InTime(from: nat, es: seq<Entry>, done: nat)
    decreases |es|
  {
    if es == [] then from <= done else from <= es[0].at && InTime(es[0].at, es[1..], done)
  }

  predicate Polling(a: Adapter) {
    a.life.looping && a.life.live && Connected(a)
  }

  /** Which steps are possible: guards of the poll loop, and what server and clock can do. */
  ghost predicate Enabled(w: World, step: Step) {
    match step
    case Arrive(id, _, _, _) => forall x <- w.produced :: x < id
    case Tick(to) => w.now <= to
    case Poll(es, arrived, _, done) => Polling(w.node.a) && ServerBatch(w, es) && w.now <= arrived && InTime(arrived, es, done)
    case PollLost => Polling(w.node.a)
    case TooLarge(_) => Polling(w.node.a) && exists x :: First(w, x) && (w.node.a.limit > 1 || w.facts[x].huge)
    case ConfirmOnStop(_) => w.node.a.life.stopped && w.node.a.life.verified && !w.node.a.life.halted
    case StartAgain(_) => w.node.a.life.stopped
    case AlbumLost => w.node.a.life.stopped || w.node.a.life.stray
    case SilentReset => Polling(w.node.a) && w.node.a.offset.Some? && w.now - w.node.a.lastAt > DAY
    case _ => true
  }

  /** An answered poll: what it confirmed, the full batch size again, and when it arrived. */
  function Answered(n: Node, some: bool, arrived: nat): Node {
    n.(a := n.a.(limit := POLL_LIMIT, confirmed := if n.a.offset.Some? then n.a.offset else n.a.confirmed,
                 lastAt := if some then arrived else n.a.lastAt))
  }

  function Next(w: World, step: Step): World {
    match step
    case Arrive(id, date, content, huge) => w.(produced := w.produced + [id], facts := w.facts[id := Fact(date, content, huge, w.now)])
    case Tick(to) => w.(now := to)
    case Poll(es, arrived, end, done) =>
      var c := Confirm(w);
      c.(node := HandleBatch(Answered(c.node, es != [], arrived), es, end).node, now := done)
    case PollLost => Confirm(w)
    case TooLarge(saves) => var c := Confirm(w); c.(node := ShrinkOrSkip(c.node, saves))
    case Verify => w.(node := Open(w.node, w.now))
    case Halt => w.(node := HaltNow(w.node))
    case Stop(clears) => w.(node := StopNow(w.node, clears))
    case StartAgain(stray) => w.(node := Restart(w.node, stray))
    case ProcessRestart => w.(node := Crash(w.node), lost := w.lost + if w.node.a.unsaved then 1 else 0)
    case AlbumLost => w.(node := WithPending(w.node, None))
    case ConfirmOnStop(answered) =>
      var c := Confirm(w);
      if answered && w.node.a.offset.Some? then c.(node := c.node.(a := c.node.a.(confirmed := w.node.a.offset))) else c
    case Send => w.(node := Outbound(w.node))
    case SilentReset => w.(node := Forget(w.node, w.now))
  }

  /** A run: every step is possible where it is taken. */
  ghost predicate Run(w: World, steps: seq<Step>, last: World)
    decreases |steps|
  {
    if steps == [] then w == last
    else Enabled(w, steps[0]) && Run(Next(w, steps[0]), steps[1..], last)
  }

  // ---------- What the log says ----------

  /** Every id handed over, in order, an album's parts one after the other. */
  function Handed(log: seq<Event>): seq<nat> {
    if log == [] then []
    else
      var last := log[|log| - 1];
      Handed(log[..|log| - 1]) + (if last.Turn? then last.ids else [])
  }

  /** The drop has its reason: admission refuses the content, the update was stale then, or no response can hold it. */
  predicate JustDrop(facts: map<nat, Fact>, id: nat, why: Why) {
    match why
    case Unwanted => id in facts && facts[id].content.Refused?
    case Stale(at) => id in facts && !facts[id].content.Refused? && IsStale(facts[id].date, at) && facts[id].sentAt <= at
    case Oversized => id in facts ==> facts[id].huge
  }

  ghost predicate Dropped(facts: map<nat, Fact>, log: seq<Event>, id: nat) {
    exists why :: Drop(id, why) in log && JustDrop(facts, id, why)
  }

  ghost predicate Settled(facts: map<nat, Fact>, log: seq<Event>, id: nat) {
    id in Handed(log) || Dropped(facts, log, id)
  }

  /** Whether the adapter may act, from the lifecycle events alone. */
  predicate May(log: seq<Event>) {
    if log == [] then false
    else
      match log[|log| - 1]
      case Opened => true
      case Closed => false
      case _ => May(log[..|log| - 1])
  }

  /** Nothing was handed over and no call started while the adapter could not act. */
  ghost predicate ActedOnlyWhileOpen(log: seq<Event>) {
    forall i :: 0 <= i < |log| && (log[i].Turn? || log[i].Called?) ==> May(log[..i])
  }

  lemma Appended(log: seq<Event>, e: Event)
    ensures Handed(log + [e]) == Handed(log) + (if e.Turn? then e.ids else [])
    ensures forall id, why :: Drop(id, why) in log + [e] <==> Drop(id, why) in log || e == Drop(id, why)
    ensures May(log + [e]) == (if e.Opened? then true else if e.Closed? then false else May(log))
    ensures ActedOnlyWhileOpen(log) && (e.Turn? || e.Called? ==> May(log)) ==> ActedOnlyWhileOpen(log + [e])
  {
    var l := log + [e];
    assert l[..|l| - 1] == log;
    forall i | 0 <= i < |log| ensures l[..i] == log[..i] {
    }
  }

  /** How often `x` occurs. */
  function Times(s: seq<nat>, x: nat): nat {
    if s == [] then 0 else Times(s[..|s| - 1], x) + if s[|s| - 1] == x then 1 else 0
  }
}
