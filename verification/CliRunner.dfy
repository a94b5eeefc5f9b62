/** The contained CLI runner (packages/ai-cli/src/cli-runner.ts): one run as a state that events change in any order. */
module CliRunner {
  import opened Options

  type Byte = x: int | 0 <= x < 256

  /** What is fixed for a run. `group`: the child leads its own process group; `cleanupThrows`: removing its directory fails. */
  datatype Config = Config(maxStdout: nat, maxStderr: nat, timeout: nat, grace: nat, group: bool, input: bool, cleanupThrows: bool)

  datatype Reason = SPAWN | STDOUT_OVERFLOW | STDERR_OVERFLOW | STDIN_UNAVAILABLE | STDIN_DELIVERY | SANDBOX_CLEANUP

  datatype Stdin = Fine | Unavailable | Delivery

  /** The diagnostic stream of a result: a fixed reason, or what the child wrote. */
  datatype Diagnostic = Fixed(reason: Reason) | Captured(bytes: seq<Byte>)

  datatype CliResult = CliResult(code: Option<int>, stdout: seq<Byte>, stderr: Diagnostic, timedOut: bool)

  /** A callback may run late or again after its timer was cleared or fired; only an armed timer is due. */
  datatype Timer = Off | Armed(at: nat) | Spent(at: nat)

  /** What a run did, in order. */
  datatype Act =
    | Closed
    | TimeoutSeen
    | TermSent
    | ChildKillSent
    | Probed(gone: bool)
    | GroupKillSent
    | CleanedUp
    | Resolved(result: CliResult, failed: bool)

  /** Counted and kept output. */
  datatype Streams = Streams(outBytes: nat, errBytes: nat, stdout: seq<Byte>, stderr: seq<Byte>,
                             outOverflowed: bool, errOverflowed: bool, downloadObserved: bool)

  datatype Faults = Faults(spawnFailed: bool, stdin: Stdin, cleanupFailed: bool)

  datatype Life = Life(timedOut: bool, closeObserved: bool, killRequested: bool, killEscalated: bool, settled: bool, finalized: bool)

  datatype Timers = Timers(timeout: Timer, force: Timer, abandon: Timer, reaper: Timer)

  datatype Group = Group(started: bool, reaped: bool, tracked: bool)

  datatype Run = Run(now: nat, start: nat, io: Streams, faults: Faults, life: Life, timers: Timers, group: Group,
                     projection: Option<Option<int>>, cleanups: nat, acts: seq<Act>)

  predicate ContainmentFailed(s: Run) {
    s.faults.spawnFailed || s.io.outOverflowed || s.io.errOverflowed || s.io.downloadObserved || s.faults.stdin != Fine
  }

  function Clear(t: Timer): Timer {
    if t.Armed? then Spent(t.at) else t
  }

  /** All but the reaper. */
  function ClearTimers(t: Timers): Timers {
    t.(timeout := Clear(t.timeout), force := Clear(t.force), abandon := Clear(t.abandon))
  }

  function Finalize(c: Config, s: Run): Run {
    if s.life.finalized then s
    else
      s.(life := s.life.(finalized := true), timers := ClearTimers(s.timers),
         group := s.group.(tracked := s.group.tracked && s.group.started), cleanups := s.cleanups + 1,
         faults := s.faults.(cleanupFailed := c.cleanupThrows), acts := s.acts + [CleanedUp])
  }

  function FailClosed(reason: Reason): CliResult {
    CliResult(None, [], Fixed(reason), false)
  }

  function FinishResult(s: Run, code: Option<int>): CliResult {
    if s.faults.spawnFailed then FailClosed(SPAWN)
    else if s.io.outOverflowed then FailClosed(STDOUT_OVERFLOW)
    else if s.io.errOverflowed then FailClosed(STDERR_OVERFLOW)
    else if s.faults.stdin == Unavailable then FailClosed(STDIN_UNAVAILABLE)
    else if s.faults.stdin == Delivery then FailClosed(STDIN_DELIVERY)
    else if s.faults.cleanupFailed then FailClosed(SANDBOX_CLEANUP)
    else CliResult(code, s.io.stdout, Captured(s.io.stderr), s.life.timedOut)
  }

  function Settle(c: Config, s: Run, code: Option<int>): Run {
    if s.life.settled then s
    else
      var f := Finalize(c, s.(life := s.life.(settled := true)));
      f.(acts := f.acts + [Resolved(FinishResult(f, code), ContainmentFailed(f))])
  }

  /** `gone`: the probe finds no process of the group. */
  function ReapGroup(c: Config, s: Run, gone: bool): Run {
    if !c.group || s.group.reaped then s
    else s.(group := s.group.(reaped := true, tracked := false),
            acts := s.acts + (if gone then [Probed(true)] else [Probed(false), GroupKillSent]))
  }

  function RequestTermination(c: Config, s: Run): Run {
    if s.life.killRequested || s.life.closeObserved then s
    else
      var t := s.timers.(force := Armed(s.now + c.grace));
      s.(life := s.life.(killRequested := true), acts := s.acts + [TermSent],
         timers := if c.group then t.(reaper := Armed(s.now + c.grace)) else t,
         group := if c.group then s.group.(started := true) else s.group)
  }

  /** A chunk of either stream; `marked`: the download-marker policy recognises it. */
  function Append(c: Config, s: Run, isStdout: bool, chunk: seq<Byte>, marked: bool): Run {
    if s.life.settled || (if isStdout then s.io.outOverflowed else s.io.errOverflowed) || ContainmentFailed(s) then s
    else
      var total := (if isStdout then s.io.outBytes else s.io.errBytes) + |chunk|;
      if total > (if isStdout then c.maxStdout else c.maxStderr) then
        RequestTermination(c, s.(io := if isStdout then s.io.(outOverflowed := true, stdout := [])
                                       else s.io.(errOverflowed := true, stderr := [])))
      else if marked then RequestTermination(c, s.(io := s.io.(downloadObserved := true, stdout := [], stderr := [])))
      else s.(io := if isStdout then s.io.(outBytes := total, stdout := s.io.stdout + chunk)
                    else s.io.(errBytes := total, stderr := s.io.stderr + chunk))
  }

  function OnError(c: Config, s: Run): Run {
    if s.life.closeObserved then s else Settle(c, s.(faults := s.faults.(spawnFailed := true)), None)
  }

  function OnClose(s: Run, code: Option<int>): Run {
    s.(life := s.life.(closeObserved := true), timers := ClearTimers(s.timers), projection := Some(code), acts := s.acts + [Closed])
  }

  /** The deferred result projection. */
  function OnImmediate(c: Config, s: Run): Run
    requires s.projection.Some?
  {
    var t := s.(projection := None);
    if t.life.settled then t else Settle(c, t, s.projection.value)
  }

  function OnTimeout(c: Config, s: Run): Run {
    var t := s.(timers := s.timers.(timeout := Clear(s.timers.timeout)));
    if s.life.closeObserved || s.life.settled then t
    else RequestTermination(c, t.(life := s.life.(timedOut := true), acts := s.acts + [TimeoutSeen]))
  }

  function OnGrace(c: Config, s: Run, gone: bool): Run {
    var t := s.(timers := s.timers.(force := Clear(s.timers.force)));
    if s.life.closeObserved || s.life.settled || s.life.killEscalated then t
    else
      var u := t.(life := s.life.(killEscalated := true), timers := t.timers.(abandon := Armed(s.now + c.grace)));
      if c.group then ReapGroup(c, u, gone) else u.(acts := u.acts + [ChildKillSent])
  }

  function OnReaper(c: Config, s: Run, gone: bool): Run {
    ReapGroup(c, s.(timers := s.timers.(reaper := Clear(s.timers.reaper))), gone)
  }

  function OnAbandon(c: Config, s: Run): Run {
    var t := s.(timers := s.timers.(abandon := Clear(s.timers.abandon)));
    if s.life.closeObserved || s.life.settled then t else Settle(c, t, None)
  }

  function OnStdinError(c: Config, s: Run): Run {
    if s.faults.stdin != Fine || !c.input then s else RequestTermination(c, s.(faults := s.faults.(stdin := Delivery)))
  }

  datatype Event =
    | Data(isStdout: bool, chunk: seq<Byte>, marked: bool)
    | Error
    | Close(code: Option<int>)
    | Immediate
    | TimeoutFires
    | GraceFires(gone: bool)
    | ReaperFires(gone: bool)
    | AbandonFires
    | Abort
    | StdinError
    | Tick(to: nat)

  function Handle(c: Config, s: Run, e: Event): Run
    requires Enabled(c, s, e)
  {
    match e
    case Data(isStdout, chunk, marked) => Append(c, s, isStdout, chunk, marked)
    case Error => OnError(c, s)
    case Close(code) => OnClose(s, code)
    case Immediate => OnImmediate(c, s)
    case TimeoutFires => OnTimeout(c, s)
    case GraceFires(gone) => OnGrace(c, s, gone)
    case ReaperFires(gone) => OnReaper(c, s, gone)
    case AbandonFires => OnAbandon(c, s)
    case Abort => RequestTermination(c, s)
    case StdinError => OnStdinError(c, s)
    case Tick(to) => s.(now := to)
  }

  predicate Due(t: Timer, now: nat) {
    !t.Off? && t.at <= now
  }

  /** Time does not pass an armed timer. */
  predicate Before(to: nat, t: Timer) {
    t.Armed? ==> to <= t.at
  }

  /** Stream, child and abort listeners are gone after finalizing; the stdin write callback of a spawned child is not.
      `close` comes once. A child that leads a group has a process id, so its only `error` is a failed kill. Timer callbacks
      may come late or again; a pending projection and every armed timer run before time moves on. */
  predicate Enabled(c: Config, s: Run, e: Event) {
    match e
    case Data(_, _, _) => !s.life.finalized
    case Error => !s.life.finalized && (!c.group || s.life.killRequested)
    case Close(_) => !s.life.finalized && !s.life.closeObserved
    case Immediate => s.projection.Some?
    case TimeoutFires => Due(s.timers.timeout, s.now)
    case GraceFires(_) => Due(s.timers.force, s.now)
    case ReaperFires(_) => Due(s.timers.reaper, s.now)
    case AbandonFires => Due(s.timers.abandon, s.now)
    case Abort => !s.life.finalized
    case StdinError => !s.timers.timeout.Off?
    case Tick(to) =>
      && s.now <= to && s.projection.None?
      && Before(to, s.timers.timeout) && Before(to, s.timers.force) && Before(to, s.timers.abandon) && Before(to, s.timers.reaper)
  }

  /** How the run begins, after the directory was made and the environment accepted. */
  datatype Spawn = Aborted | Throws | Spawned(stdin: bool)

  function Fresh(start: nat): Run {
    Run(start, start, Streams(0, 0, [], [], false, false, false), Faults(false, Fine, false),
        Life(false, false, false, false, false, false), Timers(Off, Off, Off, Off), Group(false, false, false), None, 0, [])
  }

  function Begin(c: Config, start: nat, spawn: Spawn): Run {
    var s := Fresh(start);
    if !spawn.Spawned? then Settle(c, s.(faults := s.faults.(spawnFailed := true)), None)
    else
      var t := s.(group := s.group.(tracked := c.group), timers := s.timers.(timeout := Armed(start + c.timeout)));
      if spawn.stdin then t else RequestTermination(c, t.(faults := t.faults.(stdin := Unavailable)))
  }

  /** The state after a list of events, each possible where it happens. */
  ghost predicate Reaches(c: Config, s: Run, es: seq<Event>, last: Run)
    decreases |es|
  {
    if es == [] then s == last else Enabled(c, s, es[0]) && Reaches(c, Handle(c, s, es[0]), es[1..], last)
  }

  // ---------- Invariants ----------

  function Count(acts: seq<Act>, f: Act -> bool): nat {
    if acts == [] then 0 else Count(acts[..|acts| - 1], f) + (if f(acts[|acts| - 1]) then 1 else 0)
  }

  predicate IsResolved(a: Act) { a.Resolved? }

  predicate IsCleanup(a: Act) { a.CleanedUp? }

  predicate IsProbe(a: Act) { a.Probed? }

  /** Nothing acts on a closed run but the reaping of its process group: no timeout, no SIGTERM, no kill of the child. */
  ghost predicate QuietAfterClose(acts: seq<Act>) {
    forall i, j :: 0 <= i < j < |acts| && acts[i].Closed? ==> !acts[j].TimeoutSeen? && !acts[j].TermSent? && !acts[j].ChildKillSent?
  }

  /** What a result carries, from what the settled run kept: nothing when the run failed, only the reason when its
      directory could not be removed, and otherwise exactly the kept output and whether the run timed out. */
  predicate ResultOk(s: Run, r: CliResult, failed: bool) {
    if failed then r.stdout == [] && (r.stderr.Fixed? || r.stderr == Captured([]))
    else if s.faults.cleanupFailed then r == FailClosed(SANDBOX_CLEANUP)
    else r.stdout == s.io.stdout && r.stderr == Captured(s.io.stderr) && r.timedOut == s.life.timedOut
  }

  /** Each probe that found processes is followed at once by the group kill. */
  ghost predicate ProbesAnswered(acts: seq<Act>) {
    forall i :: 0 <= i < |acts| && acts[i] == Probed(false) ==> i + 1 < |acts| && acts[i + 1] == GroupKillSent
  }

  predicate FlagInv(c: Config, s: Run) {
    && s.life.finalized == s.life.settled
    && (s.life.killEscalated ==> s.life.killRequested)
    && IoInv(c, s.io)
    && GroupInv(c, s)
    && (s.life.settled && !s.timers.timeout.Off? ==> Ended(c, s))
  }

  /** A termination would do nothing any more, or reaches no group. */
  predicate Ended(c: Config, s: Run) {
    c.group ==> s.life.killRequested || s.life.closeObserved
  }

  predicate IoInv(c: Config, io: Streams) {
    && io.outBytes <= c.maxStdout && io.errBytes <= c.maxStderr
    && |io.stdout| <= io.outBytes && |io.stderr| <= io.errBytes
    && (io.downloadObserved ==> io.stdout == [] && io.stderr == [])
  }

  predicate GroupInv(c: Config, s: Run) {
    && (s.group.reaped ==> s.group.started)
    && (s.life.killRequested && c.group <==> s.group.started)
    && s.group.tracked == (c.group && Owned(s))
  }

  /** A group is tracked until its run ends, or, when its termination began before that, until it was reaped. */
  predicate Owned(s: Run) {
    if s.group.started then !s.group.reaped else !s.life.finalized
  }

  /** Which timer the run waits for, and how far away it can be. */
  ghost predicate TimeInv(c: Config, s: Run) {
    && s.start <= s.now
    && TimersStarted(s)
    && (s.projection.Some? || !s.life.closeObserved || s.life.settled)
    && (!s.life.settled && !s.life.closeObserved ==> Waiting(c, s))
    && (s.life.closeObserved && !s.life.settled ==> s.now <= s.start + c.timeout + 2 * c.grace)
    && (s.group.started && !s.group.reaped ==> s.timers.reaper.Armed? && s.now <= s.timers.reaper.at)
    && (s.group.started ==> !s.timers.reaper.Off? && s.timers.reaper.at <= s.start + c.timeout + c.grace)
  }

  predicate Waiting(c: Config, s: Run) {
    if !s.life.killRequested then s.timers.timeout == Armed(s.start + c.timeout) && s.now <= s.timers.timeout.at
    else if !s.life.killEscalated then s.timers.force.Armed? && s.now <= s.timers.force.at <= s.start + c.timeout + c.grace
    else s.timers.abandon.Armed? && s.now <= s.timers.abandon.at <= s.start + c.timeout + 2 * c.grace
  }

  // ---------- The log ----------

  lemma CountSnoc(acts: seq<Act>, a: Act, f: Act -> bool)
    ensures Count(acts + [a], f) == Count(acts, f) + (if f(a) then 1 else 0)
  {
    assert (acts + [a])[..|acts|] == acts;
  }

  /** Everything the log invariant says of the list alone. */
  ghost predicate ActsOk(acts: seq<Act>, resolved: nat, cleaned: nat, probed: nat, closed: bool) {
    && Count(acts, IsResolved) == resolved && Count(acts, IsCleanup) == cleaned && Count(acts, IsProbe) == probed
    && QuietAfterClose(acts) && ProbesAnswered(acts)
    && (closed <==> exists a <- acts :: a.Closed?)
  }

  lemma AddAct(acts: seq<Act>, a: Act, resolved: nat, cleaned: nat, probed: nat, closed: bool)
    requires ActsOk(acts, resolved, cleaned, probed, closed)
    requires closed ==> !a.TimeoutSeen? && !a.TermSent? && !a.ChildKillSent?
    requires a != Probed(false)
    ensures ActsOk(acts + [a], resolved + (if a.Resolved? then 1 else 0), cleaned + (if a.CleanedUp? then 1 else 0),
                   probed + (if a.Probed? then 1 else 0), closed || a.Closed?)
  {
    hide Count;
    CountSnoc(acts, a, IsResolved);
    CountSnoc(acts, a, IsCleanup);
    CountSnoc(acts, a, IsProbe);
    var next := acts + [a];
    assert a in next;
    assert forall b <- acts :: b in next;
    forall i, j | 0 <= i < j < |next| && next[i].Closed? ensures !next[j].TimeoutSeen? && !next[j].TermSent? && !next[j].ChildKillSent? {
      assert acts[i] in acts;
    }
  }

  lemma AddProbeAndKill(acts: seq<Act>, resolved: nat, cleaned: nat, probed: nat, closed: bool)
    requires ActsOk(acts, resolved, cleaned, probed, closed)
    ensures ActsOk(acts + [Probed(false), GroupKillSent], resolved, cleaned, probed + 1, closed)
  {
    hide Count;
    var p := Probed(false);
    CountSnoc(acts, p, IsResolved);
    CountSnoc(acts, p, IsCleanup);
    CountSnoc(acts, p, IsProbe);
    CountSnoc(acts + [p], GroupKillSent, IsResolved);
    CountSnoc(acts + [p], GroupKillSent, IsCleanup);
    CountSnoc(acts + [p], GroupKillSent, IsProbe);
    var next := acts + [p, GroupKillSent];
    assert next == acts + [p] + [GroupKillSent];
    assert forall b <- acts :: b in next;
    forall i, j | 0 <= i < j < |next| && next[i].Closed? ensures !next[j].TimeoutSeen? && !next[j].TermSent? && !next[j].ChildKillSent? {
      assert i < |acts|;
    }
  }

  function One(b: bool): nat {
    if b then 1 else 0
  }

  ghost predicate StateLog(s: Run) {
    && ActsOk(s.acts, One(s.life.settled), One(s.life.finalized), One(s.group.reaped), s.life.closeObserved)
    && s.cleanups == One(s.life.finalized)
  }

  lemma SettleLog(c: Config, s: Run, code: Option<int>)
    requires StateLog(s) && s.life.finalized == s.life.settled && IoInv(c, s.io)
    ensures StateLog(Settle(c, s, code))
  {
    hide ActsOk;
    if !s.life.settled {
      var f := Finalize(c, s.(life := s.life.(settled := true)));
      AddAct(s.acts, CleanedUp, 0, 0, One(s.group.reaped), s.life.closeObserved);
      AddAct(f.acts, Resolved(FinishResult(f, code), ContainmentFailed(f)), 0, 1, One(s.group.reaped), s.life.closeObserved);
    }
  }

  lemma ReapLog(c: Config, s: Run, gone: bool)
    requires StateLog(s)
    ensures StateLog(ReapGroup(c, s, gone))
  {
    hide ActsOk;
    if c.group && !s.group.reaped {
      if gone {
        AddAct(s.acts, Probed(true), One(s.life.settled), One(s.life.finalized), 0, s.life.closeObserved);
      } else {
        AddProbeAndKill(s.acts, One(s.life.settled), One(s.life.finalized), 0, s.life.closeObserved);
      }
    }
  }

  lemma OneActLog(s: Run, a: Act)
    requires StateLog(s) && (s.life.closeObserved ==> !a.TimeoutSeen? && !a.TermSent? && !a.ChildKillSent?)
    requires !a.Probed? && !a.Resolved? && !a.CleanedUp?
    ensures ActsOk(s.acts + [a], One(s.life.settled), One(s.life.finalized), One(s.group.reaped), s.life.closeObserved || a.Closed?)
  {
    hide ActsOk;
    AddAct(s.acts, a, One(s.life.settled), One(s.life.finalized), One(s.group.reaped), s.life.closeObserved);
  }

  lemma RequestLog(c: Config, s: Run)
    requires StateLog(s)
    ensures StateLog(RequestTermination(c, s))
  {
    hide ActsOk;
    if !s.life.closeObserved {
      OneActLog(s, TermSent);
    }
  }

  lemma GraceLog(c: Config, s: Run, gone: bool)
    requires StateLog(s)
    ensures StateLog(OnGrace(c, s, gone))
  {
    hide ActsOk, ReapGroup;
    var u := s.(timers := s.timers.(force := Clear(s.timers.force)).(abandon := Armed(s.now + c.grace)), life := s.life.(killEscalated := true));
    ReapLog(c, u, gone);
    if !s.life.closeObserved {
      OneActLog(u, ChildKillSent);
    }
  }

  lemma TimeoutLog(c: Config, s: Run)
    requires StateLog(s)
    ensures StateLog(OnTimeout(c, s))
  {
    hide ActsOk, RequestTermination;
    if !s.life.closeObserved {
      OneActLog(s, TimeoutSeen);
      RequestLog(c, s.(timers := s.timers.(timeout := Clear(s.timers.timeout)), life := s.life.(timedOut := true), acts := s.acts + [TimeoutSeen]));
    }
  }

  lemma AppendLog(c: Config, s: Run, isStdout: bool, chunk: seq<Byte>, marked: bool)
    requires StateLog(s)
    ensures StateLog(Append(c, s, isStdout, chunk, marked))
  {
    hide ActsOk, RequestTermination, ContainmentFailed;
    RequestLog(c, s.(io := if isStdout then s.io.(outOverflowed := true, stdout := []) else s.io.(errOverflowed := true, stderr := [])));
    RequestLog(c, s.(io := s.io.(downloadObserved := true, stdout := [], stderr := [])));
  }

  lemma HandleLog(c: Config, s: Run, e: Event)
    requires StateLog(s) && FlagInv(c, s) && Enabled(c, s, e)
    ensures StateLog(Handle(c, s, e))
  {
    hide ActsOk, Settle, RequestTermination, ReapGroup, Append, OnGrace, OnTimeout, GroupInv;
    match e
    case Data(isStdout, chunk, marked) => AppendLog(c, s, isStdout, chunk, marked);
    case Error => SettleLog(c, s.(faults := s.faults.(spawnFailed := true)), None);
    case Close(code) => OneActLog(s, Closed);
    case Immediate => SettleLog(c, s.(projection := None), s.projection.value);
    case TimeoutFires => TimeoutLog(c, s);
    case GraceFires(gone) => GraceLog(c, s, gone);
    case ReaperFires(gone) => ReapLog(c, s.(timers := s.timers.(reaper := Clear(s.timers.reaper))), gone);
    case AbandonFires => SettleLog(c, s.(timers := s.timers.(abandon := Clear(s.timers.abandon))), None);
    case Abort => RequestLog(c, s);
    case StdinError => RequestLog(c, s.(faults := s.faults.(stdin := Delivery)));
    case Tick(to) =>
  }

  // ---------- Results ----------

  /** A result was given only by a settled run, and fits what it kept. */
  ghost predicate Results(s: Run) {
    forall a <- s.acts :: a.Resolved? ==> s.life.settled && ResultOk(s, a.result, a.failed)
  }

  /** Nothing the result depends on changes. */
  ghost predicate Frozen(s: Run, t: Run) {
    && (s.life.settled ==> t.life.settled && t.io == s.io && t.life.timedOut == s.life.timedOut
                           && t.faults.cleanupFailed == s.faults.cleanupFailed)
    && forall a <- t.acts :: a.Resolved? ==> a in s.acts
  }

  lemma FrozenResults(s: Run, t: Run)
    requires Results(s) && Frozen(s, t)
    ensures Results(t)
  {
  }

  lemma SettleResults(c: Config, s: Run, code: Option<int>)
    requires Results(s) && IoInv(c, s.io) && s.life.finalized == s.life.settled
    ensures Results(Settle(c, s, code))
  {
  }

  lemma RequestFrozen(c: Config, s: Run)
    ensures Frozen(s, RequestTermination(c, s))
  {
  }

  lemma AppendFrozen(c: Config, s: Run, isStdout: bool, chunk: seq<Byte>, marked: bool)
    ensures Frozen(s, Append(c, s, isStdout, chunk, marked))
  {
  }

  lemma ReapFrozen(c: Config, s: Run, gone: bool)
    ensures Frozen(s, ReapGroup(c, s, gone))
  {
  }

  lemma HandleResults(c: Config, s: Run, e: Event)
    requires Results(s) && FlagInv(c, s) && Enabled(c, s, e)
    ensures Results(Handle(c, s, e))
  {
    hide ResultOk, Settle, RequestTermination, ReapGroup, Append, IoInv, GroupInv, ContainmentFailed;
    var next := Handle(c, s, e);
    match e
    case Data(isStdout, chunk, marked) => AppendFrozen(c, s, isStdout, chunk, marked); FrozenResults(s, next);
    case Error => 
      var t := s.(faults := s.faults.(spawnFailed := true));
      FrozenResults(s, t);
      SettleResults(c, t, None);
    case Close(_) => FrozenResults(s, next);
    case Immediate =>
      var t := s.(projection := None);
      FrozenResults(s, t);
      SettleResults(c, t, s.projection.value);
    case TimeoutFires =>
      var t := s.(timers := s.timers.(timeout := Clear(s.timers.timeout)));
      RequestFrozen(c, t.(life := s.life.(timedOut := true), acts := s.acts + [TimeoutSeen]));
      FrozenResults(s, next);
    case GraceFires(gone) =>
      var t := s.(timers := s.timers.(force := Clear(s.timers.force)));
      ReapFrozen(c, t.(life := s.life.(killEscalated := true), timers := t.timers.(abandon := Armed(s.now + c.grace))), gone);
      FrozenResults(s, next);
    case ReaperFires(gone) =>
      ReapFrozen(c, s.(timers := s.timers.(reaper := Clear(s.timers.reaper))), gone);
      FrozenResults(s, next);
    case AbandonFires =>
      var t := s.(timers := s.timers.(abandon := Clear(s.timers.abandon)));
      FrozenResults(s, t);
      SettleResults(c, t, None);
    case Abort => RequestFrozen(c, s); FrozenResults(s, next);
    case StdinError =>
      RequestFrozen(c, s.(faults := s.faults.(stdin := Delivery)));
      FrozenResults(s, next);
    case Tick(_) => FrozenResults(s, next);
  }

  // ---------- Flags and timers ----------

  lemma SettleFlags(c: Config, s: Run, code: Option<int>)
    requires FlagInv(c, s) && (s.timers.timeout.Off? || Ended(c, s))
    ensures FlagInv(c, Settle(c, s, code))
  {
    hide FinishResult, IoInv;
  }

  lemma RequestFlags(c: Config, s: Run)
    requires FlagInv(c, s) && (s.life.settled ==> Ended(c, s))
    ensures FlagInv(c, RequestTermination(c, s))
  {
    hide IoInv;
  }

  lemma ReapFlags(c: Config, s: Run, gone: bool)
    requires FlagInv(c, s) && s.group.started
    ensures FlagInv(c, ReapGroup(c, s, gone))
  {
    hide IoInv;
  }

  /** Changes the invariant does not see. */
  lemma FlagsSame(c: Config, s: Run, t: Run)
    requires FlagInv(c, s) && IoInv(c, t.io) && t.group == s.group
    requires t.life.settled == s.life.settled && t.life.finalized == s.life.finalized && t.life.killRequested == s.life.killRequested
    requires t.life.killEscalated ==> t.life.killRequested
    requires t.timers.timeout.Off? == s.timers.timeout.Off? && (s.life.closeObserved ==> t.life.closeObserved)
    ensures FlagInv(c, t)
  {
    hide IoInv;
  }

  lemma AppendFlags(c: Config, s: Run, isStdout: bool, chunk: seq<Byte>, marked: bool)
    requires FlagInv(c, s)
    ensures FlagInv(c, Append(c, s, isStdout, chunk, marked))
  {
    var over := s.(io := if isStdout then s.io.(outOverflowed := true, stdout := []) else s.io.(errOverflowed := true, stderr := []));
    var wiped := s.(io := s.io.(downloadObserved := true, stdout := [], stderr := []));
    FlagsSame(c, s, over);
    FlagsSame(c, s, wiped);
    if !s.life.settled {
      RequestFlags(c, over);
      RequestFlags(c, wiped);
    }
    var next := Append(c, s, isStdout, chunk, marked);
    hide RequestTermination, GroupInv;
    if !s.io.downloadObserved && next.life == s.life && next.group == s.group && IoInv(c, next.io) {
      FlagsSame(c, s, next);
    }
  }

  lemma HandleFlags(c: Config, s: Run, e: Event)
    requires FlagInv(c, s) && TimeInv(c, s) && Enabled(c, s, e)
    ensures FlagInv(c, Handle(c, s, e))
  {
    hide FinishResult, IoInv, GroupInv, Settle, RequestTermination, ReapGroup, Append;
    match e
    case Data(isStdout, chunk, marked) => AppendFlags(c, s, isStdout, chunk, marked);
    case Error =>
      var t := s.(faults := s.faults.(spawnFailed := true));
      FlagsSame(c, s, t);
      SettleFlags(c, t, None);
    case Close(code) => FlagsSame(c, s, OnClose(s, code));
    case Immediate =>
      var t := s.(projection := None);
      FlagsSame(c, s, t);
      SettleFlags(c, t, s.projection.value);
    case TimeoutFires =>
      var t := s.(timers := s.timers.(timeout := Clear(s.timers.timeout)));
      var u := t.(life := s.life.(timedOut := true), acts := s.acts + [TimeoutSeen]);
      FlagsSame(c, s, t);
      FlagsSame(c, s, u);
      if !s.life.settled {
        RequestFlags(c, u);
      }
    case GraceFires(gone) => GraceFlags(c, s, gone);
    case ReaperFires(gone) => ReaperFlags(c, s, gone);
    case AbandonFires =>
      var t := s.(timers := s.timers.(abandon := Clear(s.timers.abandon)));
      FlagsSame(c, s, t);
      SettleFlags(c, t, None);
    case Abort => RequestFlags(c, s);
    case StdinError =>
      var t := s.(faults := s.faults.(stdin := Delivery));
      FlagsSame(c, s, t);
      RequestFlags(c, t);
    case Tick(to) => FlagsSame(c, s, s.(now := to));
  }

  /** The timers of a termination exist only once it was requested, and only `close` defers a projection. */
  ghost predicate TimersStarted(s: Run) {
    && (!s.timers.abandon.Off? ==> s.life.killEscalated)
    && (s.projection.Some? ==> s.life.closeObserved)
    && (!s.timers.force.Off? ==> s.life.killRequested)
    && (!s.timers.reaper.Off? ==> s.group.started)
  }

  lemma GraceFlags(c: Config, s: Run, gone: bool)
    requires FlagInv(c, s) && TimersStarted(s) && !s.timers.force.Off?
    ensures FlagInv(c, OnGrace(c, s, gone))
  {
    hide IoInv, ReapGroup;
    var t := s.(timers := s.timers.(force := Clear(s.timers.force)));
    FlagsSame(c, s, t);
    var u := t.(life := s.life.(killEscalated := true), timers := t.timers.(abandon := Armed(s.now + c.grace)));
    FlagsSame(c, s, u);
    if c.group {
      ReapFlags(c, u, gone);
    }
    FlagsSame(c, u, u.(acts := u.acts + [ChildKillSent]));
  }

  lemma ReaperFlags(c: Config, s: Run, gone: bool)
    requires FlagInv(c, s) && TimersStarted(s) && !s.timers.reaper.Off?
    ensures FlagInv(c, OnReaper(c, s, gone))
  {
    hide IoInv, ReapGroup;
    var t := s.(timers := s.timers.(reaper := Clear(s.timers.reaper)));
    FlagsSame(c, s, t);
    ReapFlags(c, t, gone);
  }

  predicate FromChild(e: Event) {
    e.Data? || e.Error? || e.Close? || e.Immediate? || e.StdinError? || e.Abort?
  }

  lemma HandleChildTime(c: Config, s: Run, e: Event)
    requires FlagInv(c, s) && TimeInv(c, s) && Enabled(c, s, e) && FromChild(e)
    ensures TimeInv(c, Handle(c, s, e))
  {
    hide FinishResult, IoInv, OnTimeout, OnGrace, OnReaper, OnAbandon;
  }

  lemma HandleTimerTime(c: Config, s: Run, e: Event)
    requires FlagInv(c, s) && TimeInv(c, s) && Enabled(c, s, e) && !FromChild(e)
    ensures TimeInv(c, Handle(c, s, e))
  {
    hide FinishResult, IoInv, Append, OnError, OnClose, OnImmediate, OnStdinError;
  }

  lemma HandleTime(c: Config, s: Run, e: Event)
    requires FlagInv(c, s) && TimeInv(c, s) && Enabled(c, s, e)
    ensures TimeInv(c, Handle(c, s, e))
  {
    hide *;
    if FromChild(e) {
      HandleChildTime(c, s, e);
    } else {
      HandleTimerTime(c, s, e);
    }
  }

  lemma NotSpawnedKeeps(c: Config, start: nat)
    ensures var s := Settle(c, Fresh(start).(faults := Faults(true, Fine, false)), None); StateLog(s) && FlagInv(c, s) && TimeInv(c, s) && Results(s)
  {
    var s := Fresh(start).(faults := Faults(true, Fine, false));
    assert StateLog(s);
    SettleLog(c, s, None);
    hide ActsOk, FinishResult, StateLog;
    var t := Settle(c, s, None);
    assert FlagInv(c, t);
  }

  lemma SpawnedKeeps(c: Config, start: nat, stdin: Stdin) returns (s: Run)
    ensures s == Fresh(start).(group := Group(false, false, c.group), timers := Timers(Armed(start + c.timeout), Off, Off, Off),
                               faults := Faults(false, stdin, false))
    ensures StateLog(s) && FlagInv(c, s) && TimeInv(c, s) && Results(s)
  {
    s := Fresh(start).(group := Group(false, false, c.group), timers := Timers(Armed(start + c.timeout), Off, Off, Off),
                       faults := Faults(false, stdin, false));
  }

  lemma RequestTime(c: Config, s: Run)
    requires FlagInv(c, s) && TimeInv(c, s) && (s.life.settled ==> Ended(c, s))
    ensures TimeInv(c, RequestTermination(c, s))
  {
    hide IoInv;
  }

  lemma BeginKeeps(c: Config, start: nat, spawn: Spawn)
    ensures var s := Begin(c, start, spawn); StateLog(s) && FlagInv(c, s) && TimeInv(c, s) && Results(s)
  {
    hide StateLog, FlagInv, TimeInv, Results, Frozen, Settle, RequestTermination;
    if !spawn.Spawned? {
      NotSpawnedKeeps(c, start);
    } else {
      var s := SpawnedKeeps(c, start, if spawn.stdin then Fine else Unavailable);
      RequestLog(c, s);
      RequestFlags(c, s);
      RequestTime(c, s);
      RequestFrozen(c, s);
      FrozenResults(s, RequestTermination(c, s));
    }
  }

  lemma {:induction false} RunKeeps(c: Config, s: Run, es: seq<Event>, last: Run)
    requires StateLog(s) && FlagInv(c, s) && TimeInv(c, s) && Results(s) && Reaches(c, s, es, last)
    ensures StateLog(last) && FlagInv(c, last) && TimeInv(c, last) && Results(last)
    decreases |es|
  {
    hide StateLog, FlagInv, TimeInv, Results, Handle, Enabled;
    if es != [] {
      HandleResults(c, s, es[0]);
      HandleLog(c, s, es[0]);
      HandleFlags(c, s, es[0]);
      HandleTime(c, s, es[0]);
      RunKeeps(c, Handle(c, s, es[0]), es[1..], last);
    }
  }

  // ---------- Main results ----------

  /** In every interleaving: the run resolves at most once and cleans its directory up exactly as often; a closed run
      sees no timeout, SIGTERM or kill of the child any more; every byte count stays within its bound; and a
      result carries what was kept, or nothing when the run failed or its directory could not be removed. */
  lemma EveryRunIsContained(c: Config, start: nat, spawn: Spawn, es: seq<Event>, last: Run)
    requires Reaches(c, Begin(c, start, spawn), es, last)
    ensures Count(last.acts, IsResolved) == Count(last.acts, IsCleanup) == last.cleanups == One(last.life.settled)
    ensures QuietAfterClose(last.acts)
    ensures last.io.outBytes <= c.maxStdout && last.io.errBytes <= c.maxStderr
    ensures |last.io.stdout| <= last.io.outBytes && |last.io.stderr| <= last.io.errBytes
    ensures forall a <- last.acts :: a.Resolved? ==> ResultOk(last, a.result, a.failed)
  {
    hide Begin, TimeInv, ResultOk, Handle, Enabled, GroupInv;
    BeginKeeps(c, start, spawn);
    RunKeeps(c, Begin(c, start, spawn), es, last);
  }

  /** When timers fire, a run is settled once two grace periods after its timeout are over. */
  lemma EveryRunSettlesInTime(c: Config, start: nat, spawn: Spawn, es: seq<Event>, last: Run)
    requires Reaches(c, Begin(c, start, spawn), es, last)
    requires last.now > start + c.timeout + 2 * c.grace
    ensures last.life.settled && Count(last.acts, IsResolved) == 1
  {
    BeginKeeps(c, start, spawn);
    RunKeeps(c, Begin(c, start, spawn), es, last);
    StartSame(c, Begin(c, start, spawn), es, last);
  }

  lemma {:induction false} StartSame(c: Config, s: Run, es: seq<Event>, last: Run)
    requires Reaches(c, s, es, last)
    ensures last.start == s.start
    decreases |es|
  {
    hide Enabled;
    if es != [] {
      StartKept(c, s, es[0]);
      StartSame(c, Handle(c, s, es[0]), es[1..], last);
    }
  }

  lemma StartKept(c: Config, s: Run, e: Event)
    requires Enabled(c, s, e)
    ensures Handle(c, s, e).start == s.start
  {
    hide FinishResult;
  }

  /** A process group whose termination began is probed at most once; found alive it gets SIGKILL; it leaves exit-hook
      tracking exactly then, also when `close` comes first; and one grace period after the timeout it was probed. */
  lemma GroupIsReaped(c: Config, start: nat, spawn: Spawn, es: seq<Event>, last: Run)
    requires Reaches(c, Begin(c, start, spawn), es, last)
    ensures Count(last.acts, IsProbe) == One(last.group.reaped) && ProbesAnswered(last.acts)
    ensures last.group.started ==> (last.group.tracked <==> !last.group.reaped)
    ensures last.group.started && last.now > start + c.timeout + c.grace ==> last.group.reaped
    ensures last.group.started && !last.group.reaped ==> last.timers.reaper.Armed? && last.now <= last.timers.reaper.at
  {
    BeginKeeps(c, start, spawn);
    RunKeeps(c, Begin(c, start, spawn), es, last);
    StartSame(c, Begin(c, start, spawn), es, last);
  }
}
