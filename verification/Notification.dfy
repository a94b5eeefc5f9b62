/** One owner notification: the guild channel first, the owner's DM as the only fallback
    (packages/adapter-discord/src/notification.ts:184-213, 242-350). */
module Notification {

  /** What became of one `send` call. A send that timed out or failed unclassified may still have created the message. */
  datatype Send = NotCalled | InFlight | Confirmed | Refused | RateLimited | Unsure

  datatype Outcome = Sent(viaDm: bool) | NotSent | Uncertain

  /** How the caller's check settled. */
  datatype Check = Pending | Resolved(sent: bool) | Rejected(failure: Send)

  /** Which of the check and its deadline settled first. */
  datatype Winner = Nobody | Attempt | Deadline

  datatype Stage = Choosing | Direct | Racing | Awaiting | Dm | Finished(outcome: Outcome)

  /** `started` and `expired` are the flags of `sendThroughRecheck`; `calls` counts the callback's invocations. */
  datatype State = State(
    stage: Stage, started: bool, expired: bool, calls: nat, check: Check, winner: Winner, channel: Send, dm: Send)

  datatype Event =
    | NoChannel                    // no channel target, not admitted, or not resolved: nothing was sent
    | ChannelGivenUp               // resolution timed out, or the text does not fit
    | DirectSend                   // a channel send with no check to run through
    | CheckBegins
    | CallbackRuns                 // the check invokes the callback
    | CallbackRunsLate             // the check invokes the callback although it has settled
    | ChannelEnds(result: Send)
    | CheckSettles(verdict: Check)
    | DeadlineFires
    | Continue                     // the code after an `await` runs
    | DmGivenUp
    | DmSend
    | DmEnds(result: Send)

  function Init(): State {
    State(Choosing, false, false, 0, Pending, Nobody, NotCalled, NotCalled)
  }

  predicate Failed(s: Send) {
    s.Refused? || s.RateLimited? || s.Unsure?
  }

  predicate Ended(s: Send) {
    s.Confirmed? || Failed(s)
  }

  /** The message may exist on the platform. */
  predicate MayExist(s: Send) {
    s.InFlight? || s.Confirmed? || s.Unsure?
  }

  // ---------- The steps ----------

  /** The callback: a check past its deadline starts nothing. */
  function RunCallback(s: State): State {
    if s.expired then s.(calls := s.calls + 1)
    else s.(calls := s.calls + 1, started := true, channel := InFlight)
  }

  /** After a channel failure: uncertain is final, a rate limit is reported, a definite refusal falls back to the DM. */
  function AfterChannelFailure(s: State, failure: Send): State {
    match failure
    case Unsure => s.(stage := Finished(Uncertain))
    case RateLimited => s.(stage := Finished(NotSent))
    case _ => s.(stage := Dm)
  }

  /** The check's own result decides: its error propagates once the send started, otherwise the channel is withheld. */
  function AfterCheck(s: State): State {
    match s.check
    case Rejected(failure) => if s.started then AfterChannelFailure(s, failure) else s.(stage := Dm)
    case Resolved(sent) => if sent then s.(stage := Finished(Sent(false))) else s.(stage := Dm)
    case Pending => s
  }

  function AfterRace(s: State): State {
    if s.winner.Deadline? then
      if s.started then s.(stage := Awaiting) else s.(expired := true, stage := Dm)
    else AfterCheck(s)
  }

  function AfterDirect(s: State): State {
    if s.channel.Confirmed? then s.(stage := Finished(Sent(false))) else AfterChannelFailure(s, s.channel)
  }

  function AfterDm(s: State): State {
    s.(stage := Finished(if s.dm.Confirmed? then Sent(true) else if s.dm.Unsure? then Uncertain else NotSent))
  }

  function DoContinue(s: State): State {
    match s.stage
    case Direct => AfterDirect(s)
    case Racing => AfterRace(s)
    case Awaiting => AfterCheck(s)
    case Dm => AfterDm(s)
    case _ => s
  }

  /** The code goes on only when what it awaits has settled. */
  predicate CanContinue(s: State) {
    match s.stage
    case Direct => Ended(s.channel)
    case Racing => !s.winner.Nobody?
    case Awaiting => !s.check.Pending?
    case Dm => Ended(s.dm)
    case _ => false
  }

  /** A truthful check: it settles once, after the send it started; it reports a send only when the send was confirmed and
      none only when it ran no callback; a failed send's error is the one it rejects with. */
  predicate Truthful(s: State, result: Check) {
    && s.check.Pending? && !result.Pending? && !s.channel.InFlight?
    && (result.Resolved? ==> if result.sent then s.channel.Confirmed? else s.calls == 0)
    && (result.Rejected? ==> Failed(result.failure) && !s.channel.Confirmed? && (Failed(s.channel) ==> result.failure == s.channel))
  }

  predicate Enabled(s: State, e: Event) {
    match e
    case NoChannel => s.stage.Choosing?
    case ChannelGivenUp => s.stage.Choosing?
    case DirectSend => s.stage.Choosing?
    case CheckBegins => s.stage.Choosing?
    case CallbackRuns => CheckBegun(s) && s.check.Pending? && s.calls == 0
    case CallbackRunsLate => CheckBegun(s) && !s.check.Pending? && s.calls == 0
    case ChannelEnds(r) => s.channel.InFlight? && Ended(r)
    case CheckSettles(r) => CheckBegun(s) && Truthful(s, r)
    case DeadlineFires => s.stage.Racing? && s.winner.Nobody?
    case Continue => CanContinue(s)
    case DmGivenUp => s.stage.Dm? && s.dm.NotCalled?
    case DmSend => s.stage.Dm? && s.dm.NotCalled?
    case DmEnds(r) => s.dm.InFlight? && Ended(r)
  }

  /** A check took part in this delivery: it may act at any time afterwards. */
  predicate CheckBegun(s: State) {
    s.stage.Racing? || s.stage.Awaiting? || !s.winner.Nobody?
  }

  function Step(s: State, e: Event): State
    requires Enabled(s, e)
  {
    match e
    case NoChannel => s.(stage := Dm)
    case ChannelGivenUp => s.(stage := Finished(NotSent))
    case DirectSend => s.(stage := Direct, channel := InFlight)
    case CheckBegins => s.(stage := Racing)
    case CallbackRuns => RunCallback(s)
    case CallbackRunsLate => RunCallback(s)
    case ChannelEnds(r) => s.(channel := r)
    case CheckSettles(r) => s.(check := r, winner := if s.winner.Nobody? then Attempt else s.winner)
    case DeadlineFires => s.(winner := Deadline)
    case Continue => DoContinue(s)
    case DmGivenUp => s.(stage := Finished(NotSent))
    case DmSend => s.(dm := InFlight)
    case DmEnds(r) => s.(dm := r)
  }

  datatype Reached = Impossible | At(state: State)

  function After(events: seq<Event>): Reached {
    if events == [] then At(Init())
    else
      match After(events[..|events| - 1])
      case Impossible => Impossible
      case At(p) => if Enabled(p, events[|events| - 1]) then At(Step(p, events[|events| - 1])) else Impossible
  }

  /** The events are a possible interleaving, and `s` is where it leads. */
  predicate Run(events: seq<Event>, s: State) {
    After(events) == At(s)
  }

  // ---------- The invariant ----------

  /** The channel may still create a message. */
  predicate ChannelOpen(s: State) {
    MayExist(s.channel) || (CheckBegun(s) && s.check.Pending? && s.calls == 0 && !s.expired)
  }

  ghost predicate Inv(s: State) {
    && (s.stage.Choosing? ==> s == Init())
    && (s.stage.Direct? ==> !s.channel.NotCalled? && !CheckBegun(s) && s.dm.NotCalled?)
    && (s.stage.Racing? || s.stage.Awaiting? ==> s.dm.NotCalled? && !s.expired)
    && (s.stage.Awaiting? ==> s.started && s.winner.Deadline?)
    && (s.started ==> s.calls == 1 && !s.channel.NotCalled? && !s.expired && CheckBegun(s))
    && (!s.started && CheckBegun(s) ==> s.channel.NotCalled?)
    && (s.calls == 0 ==> !s.started) && (s.calls > 0 && !s.started ==> s.expired)
    && (s.winner.Attempt? ==> !s.check.Pending?)
    && (s.winner.Nobody? ==> s.check.Pending?)
    && (s.check.Resolved? ==> if s.check.sent then s.channel.Confirmed? else s.calls == 0 || s.expired)
    && (s.check.Rejected? && s.started ==> s.check.failure == s.channel && Failed(s.channel))
    && (s.stage.Dm? || !s.dm.NotCalled? ==> s.channel.NotCalled? || s.channel.Refused?)
    && (s.stage.Dm? ==> !ChannelOpen(s))
    && (!s.dm.NotCalled? ==> !ChannelOpen(s))
    && (s.stage.Finished? ==> Honest(s, s.stage.outcome))
  }

  /** What the reported outcome says about the platform. */
  predicate Honest(s: State, o: Outcome) {
    match o
    case Sent(viaDm) => if viaDm then s.dm.Confirmed? && !ChannelOpen(s) else s.channel.Confirmed? && s.dm.NotCalled?
    case NotSent => !ChannelOpen(s) && !MayExist(s.dm)
    case Uncertain => (s.channel.Unsure? && s.dm.NotCalled?) || (s.dm.Unsure? && !ChannelOpen(s))
  }

  /** A callback that comes late and still starts a send. */
  predicate LateAt(s: State, e: Event) {
    e.CallbackRunsLate? && !s.expired
  }

  lemma StepKeeps(s: State, e: Event)
    requires Inv(s) && Enabled(s, e) && !LateAt(s, e)
    ensures Inv(Step(s, e))
  {
  }

  /** Some late callback of the run came before the deadline had expired. */
  ghost predicate LateStart(events: seq<Event>) {
    exists n :: 0 <= n < |events| && LateAfter(events[..n], events[n])
  }

  predicate LateAfter(before: seq<Event>, e: Event) {
    After(before).At? && LateAt(After(before).state, e)
  }

  lemma LateBefore(events: seq<Event>)
    requires events != [] && LateStart(events[..|events| - 1])
    ensures LateStart(events)
  {
    var front := events[..|events| - 1];
    var n :| 0 <= n < |front| && LateAfter(front[..n], front[n]);
    assert events[..n] == front[..n];
  }

  lemma {:induction false} RunKeeps(events: seq<Event>, s: State)
    requires Run(events, s) && !LateStart(events)
    ensures Inv(s)
    decreases |events|
  {
    hide Inv, Step, Enabled, Init, LateAt;
    if events == [] {
      InitKeeps();
    } else {
      var n := |events| - 1;
      var p := After(events[..n]).state;
      if LateStart(events[..n]) {
        LateBefore(events);
      }
      RunKeeps(events[..n], p);
      assert !LateAfter(events[..n], events[n]);
      StepKeeps(p, events[n]);
    }
  }

  lemma InitKeeps()
    ensures Inv(Init())
  {
  }

  // ---------- Main results ----------

  /** At most one message may exist, over every interleaving of the check, its deadline and the sends; and the outcome is
      honest: SENT was confirmed, NOT_SENT means no message exists or can still come to exist, UNCERTAIN means one may. */
  lemma AtMostOneMessage(events: seq<Event>, s: State)
    requires Run(events, s) && !LateStart(events)
    ensures !(MayExist(s.channel) && MayExist(s.dm))
    ensures !s.dm.NotCalled? ==> !ChannelOpen(s)
    ensures s.stage.Finished? ==> Honest(s, s.stage.outcome)
  {
    RunKeeps(events, s);
  }

  /** The DM is tried only after a definite refusal, or after a channel send that never started and cannot start any more. */
  lemma DmOnlyAfterRefusal(events: seq<Event>, s: State)
    requires Run(events, s) && !LateStart(events) && Enabled(s, DmSend)
    ensures s.channel.NotCalled? || s.channel.Refused?
    ensures s.channel.NotCalled? && CheckBegun(s) ==> s.expired || !s.check.Pending?
  {
    RunKeeps(events, s);
  }

  // ---------- When a second message can follow ----------

  /** Both messages may exist. */
  predicate Doubled(s: State) {
    MayExist(s.channel) && MayExist(s.dm)
  }

  /** The check keeps the text from the channel: withheld, or definitely refused there. */
  predicate Withheld(check: Check) {
    (check.Resolved? && !check.sent) || (check.Rejected? && check.failure.Refused?)
  }

  /** The DM has not been called, and the code can still come to call it. */
  predicate DmAhead(s: State) {
    s.dm.NotCalled? &&
    match s.stage
    case Choosing => true
    case Racing => if s.check.Pending? then s.calls == 0 else Withheld(s.check) || (s.winner.Attempt? && !s.started)
    case Awaiting => Withheld(s.check)
    case Dm => true
    case _ => false
  }

  /** Both messages may exist already; or the channel's may and the DM can still be called; or the callback has not run and
      its wait has not expired, while the DM may exist or can still be called. */
  predicate Endangered(s: State) {
    || Doubled(s)
    || (MayExist(s.channel) && DmAhead(s))
    || (s.calls == 0 && !s.expired && (s.stage.Choosing? || CheckBegun(s)) && (MayExist(s.dm) || DmAhead(s)))
  }

  /** What every run keeps, whenever the callback runs. */
  ghost predicate FlagsOk(s: State) {
    && (s.stage.Choosing? ==> s == Init())
    && (s.stage.Direct? ==> !CheckBegun(s) && s.dm.NotCalled?)
    && (s.stage.Racing? || s.stage.Awaiting? ==> s.dm.NotCalled? && !s.expired)
    && (s.stage.Awaiting? ==> s.started && s.winner.Deadline?)
    && (s.started ==> s.calls > 0 && !s.expired)
    && (CheckBegun(s) && !s.channel.NotCalled? ==> s.calls > 0)
    && (CheckBegun(s) && s.calls > 0 && !s.expired ==> s.started)
    && (s.winner.Attempt? ==> !s.check.Pending?)
    && (s.winner.Nobody? ==> s.check.Pending?)
    && (s.check.Resolved? && s.check.sent ==> s.calls > 0)
    && (s.check.Rejected? ==> Failed(s.check.failure))
    && (CheckBegun(s) && s.check.Pending? && !s.stage.Racing? && !s.stage.Awaiting? ==> s.expired)
    && (!s.dm.NotCalled? ==> s.stage.Dm? || s.stage.Finished?)
    && (s.stage.Dm? && !CheckBegun(s) ==> !MayExist(s.channel))
  }

  lemma StepFlags(s: State, e: Event)
    requires FlagsOk(s) && Enabled(s, e)
    ensures FlagsOk(Step(s, e))
  {
  }

  lemma {:induction false} RunFlags(events: seq<Event>, s: State)
    requires Run(events, s)
    ensures FlagsOk(s)
    decreases |events|
  {
    hide FlagsOk, Step, Enabled, Init;
    if events == [] {
      InitFlags();
    } else {
      var p := After(events[..|events| - 1]).state;
      RunFlags(events[..|events| - 1], p);
      StepFlags(p, events[|events| - 1]);
    }
  }

  lemma InitFlags()
    ensures FlagsOk(Init())
  {
  }

  /** No step leads into danger. */
  lemma StaysSafe(s: State, e: Event)
    requires FlagsOk(s) && Enabled(s, e) && Endangered(Step(s, e))
    ensures Endangered(s)
  {
  }

  /** The states a run leads to stay possible as it goes on. */
  lemma {:induction false} SafeFrom(events: seq<Event>, s: State, more: seq<Event>, t: State)
    requires Run(events, s) && Run(events + more, t) && Endangered(t)
    ensures Endangered(s)
    decreases |more|
  {
    hide Step, Enabled, Endangered, FlagsOk;
    if more == [] {
      assert events + more == events;
    } else {
      var n := |more| - 1;
      assert (events + more)[..|events + more| - 1] == events + more[..n] && (events + more)[|events + more| - 1] == more[n];
      var p := After(events + more[..n]).state;
      RunFlags(events + more[..n], p);
      StaysSafe(p, more[n]);
      SafeFrom(events, s, more[..n], p);
    }
  }

  /** The next step towards a second message. */
  function Worst(s: State): Event {
    if s.stage.Choosing? then CheckBegins
    else if MayExist(s.dm) then CallbackRunsLate
    else if MayExist(s.channel) then if s.stage.Dm? then DmSend else Continue
    else if s.check.Pending? then CheckSettles(Resolved(false))
    else if s.stage.Racing? && s.winner.Attempt? then Continue
    else CallbackRunsLate
  }

  function Distance(s: State): nat {
    if Doubled(s) then 0
    else if s.stage.Choosing? then 6
    else if s.stage.Racing? && s.check.Pending? then 5
    else (if MayExist(s.channel) || MayExist(s.dm) then 0 else 1) + (if s.stage.Racing? then 3 else if s.stage.Awaiting? then 2 else 1)
  }

  lemma WorstStep(s: State)
    requires FlagsOk(s) && Endangered(s) && !Doubled(s)
    ensures var e := Worst(s); Enabled(s, e) && Endangered(Step(s, e)) && Distance(Step(s, e)) < Distance(s)
  {
  }

  lemma {:induction false} DangerHappens(events: seq<Event>, s: State) returns (more: seq<Event>, t: State)
    requires Run(events, s) && Endangered(s)
    ensures Run(events + more, t) && Doubled(t)
    decreases Distance(s)
  {
    hide After, Step, Enabled, Endangered, FlagsOk, Worst, Doubled;
    if Doubled(s) {
      more, t := [], s;
      assert events + more == events;
    } else {
      RunFlags(events, s);
      WorstStep(s);
      var next := Extend(events, s, Worst(s));
      var rest;
      rest, t := DangerHappens(events + [Worst(s)], next);
      more := [Worst(s)] + rest;
      assert events + more == events + [Worst(s)] + rest;
    }
  }

  /** The run goes on with `more` to a state in which both messages may exist. */
  ghost predicate Doubles(events: seq<Event>, more: seq<Event>, t: State) {
    Run(events + more, t) && Doubled(t)
  }

  /** From every reachable state, some continuation makes a second message exactly when the state is endangered. */
  lemma SecondMessageExactly(events: seq<Event>, s: State)
    requires Run(events, s)
    ensures (exists more, t :: Doubles(events, more, t)) <==> Endangered(s)
  {
    hide After, Endangered;
    if Endangered(s) {
      var more, t := DangerHappens(events, s);
      assert Doubles(events, more, t);
    }
    forall more, t | Doubles(events, more, t) ensures Endangered(s) {
      assert Endangered(t) by {
        DoubledIsDanger(t);
      }
      SafeFrom(events, s, more, t);
    }
  }

  lemma DoubledIsDanger(s: State)
    requires Doubled(s)
    ensures Endangered(s)
  {
  }

  /** A late callback's second message: the check refused, the DM went out, then the check sent to the channel after all. */
  lemma LateCallbackSendsTwice() returns (events: seq<Event>, s: State)
    ensures Run(events, s) && LateStart(events)
    ensures s.stage == Finished(Sent(true)) && MayExist(s.channel) && MayExist(s.dm)
  {
    hide After;
    Start();
    var s1 := Extend([], Init(), CheckBegins);
    assert [] + [CheckBegins] == [CheckBegins];
    var s2 := Extend([CheckBegins], s1, CheckSettles(Resolved(false)));
    var e2 := [CheckBegins, CheckSettles(Resolved(false))];
    assert [CheckBegins] + [CheckSettles(Resolved(false))] == e2;
    var s3 := Extend(e2, s2, Continue);
    var s4 := Extend(e2 + [Continue], s3, DmSend);
    var s5 := Extend(e2 + [Continue] + [DmSend], s4, DmEnds(Confirmed));
    var s6 := Extend(e2 + [Continue] + [DmSend] + [DmEnds(Confirmed)], s5, Continue);
    events := e2 + [Continue] + [DmSend] + [DmEnds(Confirmed)] + [Continue] + [CallbackRunsLate];
    s := Extend(e2 + [Continue] + [DmSend] + [DmEnds(Confirmed)] + [Continue], s6, CallbackRunsLate);
    assert events[|events| - 1] == CallbackRunsLate;
  }

  lemma Start()
    ensures Run([], Init())
  {
  }

  lemma Extend(events: seq<Event>, s: State, e: Event) returns (next: State)
    requires Run(events, s) && Enabled(s, e)
    ensures Run(events + [e], next) && next == Step(s, e)
  {
    next := Step(s, e);
    assert (events + [e])[..|events|] == events;
  }

  // ---------- The source's flags ----------

  /** One delivery, as the closures of `sendThroughRecheck` and `tryChannel` update it. */
  class OwnerDelivery {
    var stage: Stage
    var started: bool
    var expired: bool
    var calls: nat
    var check: Check
    var winner: Winner
    var channel: Send
    var dm: Send

    function View(): State
      reads this
    {
      State(stage, started, expired, calls, check, winner, channel, dm)
    }

    constructor ()
      ensures View() == Init()
    {
      stage, started, expired, calls := Choosing, false, false, 0;
      check, winner, channel, dm := Pending, Nobody, NotCalled, NotCalled;
    }

    /** The callback handed to the check; false stands for its deadline error. */
    method Callback() returns (sends: bool)
      requires Enabled(View(), CallbackRuns) || Enabled(View(), CallbackRunsLate)
      modifies this
      ensures View() == RunCallback(old(View())) && sends == !expired
    {
      calls := calls + 1;
      if expired {
        return false;
      }
      started := true;
      channel := InFlight;
      return true;
    }

    /** What follows the race between the check and its deadline. */
    method AfterTheRace()
      requires stage.Racing? && CanContinue(View()) && (winner.Attempt? ==> !check.Pending?)
      modifies this
      ensures View() == Step(old(View()), Continue)
    {
      if winner.Deadline? {
        if !started {
          expired := true;
          stage := Dm;
          return;
        }
        stage := Awaiting;
        return;
      }
      TakeVerdict();
    }

    method TakeVerdict()
      requires !check.Pending?
      modifies this`stage
      ensures View() == AfterCheck(old(View()))
    {
      if check.Rejected? {
        if !started {
          stage := Dm;
        } else {
          ChannelFailed(check.failure);
        }
      } else {
        stage := if check.sent then Finished(Sent(false)) else Dm;
      }
    }

    method ChannelFailed(failure: Send)
      modifies this`stage
      ensures View() == AfterChannelFailure(old(View()), failure)
    {
      if failure.Unsure? {
        stage := Finished(Uncertain);
      } else if failure.RateLimited? {
        stage := Finished(NotSent);
      } else {
        stage := Dm;
      }
    }

    method AfterDmSend()
      requires stage.Dm? && CanContinue(View())
      modifies this`stage
      ensures View() == Step(old(View()), Continue)
    {
      if dm.Confirmed? {
        stage := Finished(Sent(true));
      } else if dm.Unsure? {
        stage := Finished(Uncertain);
      } else {
        stage := Finished(NotSent);
      }
    }
  }
}
