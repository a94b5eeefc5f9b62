/** One run of the contained CLI runner as the source writes it: flags, timers and handlers over them
    (cli-runner.ts:387-768), each handler tied to an event of `CliRunner`. */
module CliRun {
  import opened Options
  import opened CliRunner

  class ContainedRun {
    const config: Config
    const start: nat
    var now: nat
    var io: Streams
    var faults: Faults
    var life: Life
    var timers: Timers
    /** Its `tracked` flag is the run's entry of `liveProcessGroups`. */
    var group: Group
    var projection: Option<Option<int>>
    var cleanupAttempts: nat
    ghost var acts: seq<Act>

    ghost function View(): Run
      reads this
    {
      Run(now, start, io, faults, life, timers, group, projection, cleanupAttempts, acts)
    }

    constructor (config: Config, start: nat)
      ensures View() == Fresh(start) && this.config == config && this.start == start
    {
      this.config, this.start, now := config, start, start;
      io, faults := Streams(0, 0, [], [], false, false, false), Faults(false, Fine, false);
      life, timers := Life(false, false, false, false, false, false), Timers(Off, Off, Off, Off);
      group, projection, cleanupAttempts, acts := Group(false, false, false), None, 0, [];
    }

    method ClearAllTimers()
      modifies this`timers
      ensures View() == old(View()).(timers := ClearTimers(old(View()).timers))
    {
      timers := timers.(timeout := Clear(timers.timeout));
      timers := timers.(force := Clear(timers.force));
      timers := timers.(abandon := Clear(timers.abandon));
    }

    method FinalizeOnce()
      modifies this
      ensures View() == Finalize(config, old(View()))
    {
      if life.finalized {
        return;
      }
      life := life.(finalized := true);
      ClearAllTimers();
      if !group.started {
        group := group.(tracked := false);
      }
      cleanupAttempts := cleanupAttempts + 1;
      faults := faults.(cleanupFailed := config.cleanupThrows);
      acts := acts + [CleanedUp];
    }

    method SettleOnce(code: Option<int>)
      modifies this
      ensures View() == Settle(config, old(View()), code)
    {
      if life.settled {
        return;
      }
      life := life.(settled := true);
      FinalizeOnce();
      acts := acts + [Resolved(FinishResult(View(), code), ContainmentFailed(View()))];
    }

    method Reap(gone: bool)
      modifies this
      ensures View() == ReapGroup(config, old(View()), gone)
    {
      if !config.group || group.reaped {
        return;
      }
      group := group.(reaped := true);
      acts := acts + (if gone then [Probed(true)] else [Probed(false), GroupKillSent]);
      group := group.(tracked := false);
    }

    method Terminate()
      modifies this
      ensures View() == RequestTermination(config, old(View()))
    {
      if life.killRequested || life.closeObserved {
        return;
      }
      life := life.(killRequested := true);
      acts := acts + [TermSent];
      if config.group {
        group := group.(started := true);
        timers := timers.(reaper := Armed(now + config.grace));
      }
      timers := timers.(force := Armed(now + config.grace));
    }

    /** Spawning, after the abort check; `None` when the spawn throws. */
    method Launch(spawn: Spawn)
      requires View() == Fresh(start)
      modifies this
      ensures View() == Begin(config, start, spawn)
    {
      if spawn.Aborted? || spawn.Throws? {
        faults := faults.(spawnFailed := true);
        SettleOnce(None);
        return;
      }
      if config.group {
        group := group.(tracked := true);
      }
      timers := timers.(timeout := Armed(now + config.timeout));
      if !spawn.stdin {
        faults := faults.(stdin := Unavailable);
        Terminate();
      }
    }

    method HandleData(isStdout: bool, chunk: seq<Byte>, marked: bool)
      modifies this
      ensures View() == Append(config, old(View()), isStdout, chunk, marked)
    {
      if life.settled || (if isStdout then io.outOverflowed else io.errOverflowed)
         || faults.spawnFailed || io.outOverflowed || io.errOverflowed || io.downloadObserved || faults.stdin != Fine {
        return;
      }
      var limit := if isStdout then config.maxStdout else config.maxStderr;
      var total := (if isStdout then io.outBytes else io.errBytes) + |chunk|;
      if total > limit {
        if isStdout {
          io := io.(outOverflowed := true);
          io := io.(stdout := []);
        } else {
          io := io.(errOverflowed := true);
          io := io.(stderr := []);
        }
        Terminate();
        return;
      }
      if marked {
        io := io.(downloadObserved := true);
        io := io.(stdout := []);
        io := io.(stderr := []);
        Terminate();
        return;
      }
      if isStdout {
        io := io.(outBytes := total);
        io := io.(stdout := io.stdout + chunk);
      } else {
        io := io.(errBytes := total);
        io := io.(stderr := io.stderr + chunk);
      }
    }

    method HandleError()
      modifies this
      ensures View() == OnError(config, old(View()))
    {
      if life.closeObserved {
        return;
      }
      faults := faults.(spawnFailed := true);
      SettleOnce(None);
    }

    method HandleClose(code: Option<int>)
      modifies this
      ensures View() == OnClose(old(View()), code)
    {
      life := life.(closeObserved := true);
      ClearAllTimers();
      projection := Some(code);
      acts := acts + [Closed];
    }

    method Project()
      requires projection.Some?
      modifies this
      ensures View() == OnImmediate(config, old(View()))
    {
      var code := projection.value;
      projection := None;
      if life.settled {
        return;
      }
      SettleOnce(code);
    }

    method TimeoutCallback()
      modifies this
      ensures View() == OnTimeout(config, old(View()))
    {
      timers := timers.(timeout := Clear(timers.timeout));
      if life.closeObserved || life.settled {
        return;
      }
      life := life.(timedOut := true);
      acts := acts + [TimeoutSeen];
      Terminate();
    }

    method GraceCallback(gone: bool)
      modifies this
      ensures View() == OnGrace(config, old(View()), gone)
    {
      timers := timers.(force := Clear(timers.force));
      if life.closeObserved || life.settled || life.killEscalated {
        return;
      }
      life := life.(killEscalated := true);
      if config.group {
        Reap(gone);
      } else {
        acts := acts + [ChildKillSent];
      }
      timers := timers.(abandon := Armed(now + config.grace));
    }

    method ReaperCallback(gone: bool)
      modifies this
      ensures View() == OnReaper(config, old(View()), gone)
    {
      timers := timers.(reaper := Clear(timers.reaper));
      Reap(gone);
    }

    method AbandonCallback()
      modifies this
      ensures View() == OnAbandon(config, old(View()))
    {
      timers := timers.(abandon := Clear(timers.abandon));
      if life.closeObserved || life.settled {
        return;
      }
      SettleOnce(None);
    }

    method RecordStdinFailure()
      modifies this
      ensures View() == OnStdinError(config, old(View()))
    {
      if faults.stdin != Fine || !config.input {
        return;
      }
      faults := faults.(stdin := Delivery);
      Terminate();
    }
  }
}
