/** Power states and tickers (src/system/common/power-manager, src/system/common/ticker). */
module Tickers {
  import opened Wrappers

  // ---------------------------------------------------------------- power

  /** TStates.UP is 0 and TStates.DOWN is 1. */
  datatype State = UP | DOWN

  datatype Power = Power(state: State, pending: Option<State>)

  const OFF := Power(DOWN, None)

  datatype PowerCall = GoingUp | GoingDown | Commit | Rollback

  function Switch(p: Power, s: State): Result<Power> {
    if p.pending.Some? || s == p.state then Err else Ok(p.(pending := Some(s)))
  }

  function PowerStep(p: Power, c: PowerCall): Result<Power> {
    match c
    case GoingUp => Switch(p, UP)
    case GoingDown => Switch(p, DOWN)
    case Commit => if p.pending.None? then Err else Ok(Power(p.pending.value, None))
    case Rollback => if p.pending.None? then Err else Ok(p.(pending := None))
  }

  /** isRunning: up, and `!pendingState`, which is true for null and also for UP, the number 0. */
  predicate IsRunning(p: Power) { p.state == UP && (p.pending.None? || p.pending.value == UP) }

  predicate PowerOk(p: Power) { p.pending != Some(p.state) }

  function PowerRun(p: Power, calls: seq<PowerCall>): Power
    decreases |calls|
  {
    if calls == [] then p
    else
      var next := PowerStep(p, calls[0]);
      PowerRun(if next.Ok? then next.value else p, calls[1..])
  }

  lemma {:induction false} PowerRunOk(p: Power, calls: seq<PowerCall>)
    requires PowerOk(p)
    ensures PowerOk(PowerRun(p, calls))
    decreases |calls|
  {
    if calls != [] {
      var next := PowerStep(p, calls[0]);
      PowerRunOk(if next.Ok? then next.value else p, calls[1..]);
    }
  }

  /** After any calls, the pending state differs from the current one, so that the falsy test of isRunning means
      exactly "up with nothing pending". */
  lemma RunningMeansUpAndSettled(calls: seq<PowerCall>)
    ensures var p := PowerRun(OFF, calls);
      p.pending != Some(p.state) && (IsRunning(p) <==> p == Power(UP, None))
  {
    PowerRunOk(OFF, calls);
  }

  /** Every transition that the state allows does happen: without one under way, a manager can only go to the other state
      and gets there by a commit, or back by a rollback; with one under way, it cannot start another. */
  lemma TransitionsExact(calls: seq<PowerCall>, target: State)
    ensures var p := PowerRun(OFF, calls);
      var go := if target == UP then GoingUp else GoingDown;
      && (PowerStep(p, go).Ok? <==> p.pending == None && p.state != target)
      && (PowerStep(p, go).Ok? ==>
            var p1 := PowerStep(p, go).value;
            && p1 == Power(p.state, Some(target))
            && PowerStep(p1, Commit) == Ok(Power(target, None)) && PowerStep(p1, Rollback) == Ok(p))
      && (PowerStep(p, Commit).Err? <==> p.pending == None) && (PowerStep(p, Rollback).Err? <==> p.pending == None)
  {
    PowerRunOk(OFF, calls);
  }

  class PowerManager {
    var state: State
    var pendingState: Option<State>

    function View(): Power
      reads this
    {
      Power(state, pendingState)
    }

    constructor ()
      ensures View() == OFF
    {
      state, pendingState := DOWN, None;
    }

    method SwitchState(s: State) returns (thrown: bool)
      modifies this
      ensures var r := Switch(old(View()), s);
        thrown == r.Err? && View() == if r.Ok? then r.value else old(View())
    {
      if pendingState.Some? { return true; }
      if s == state { return true; }
      pendingState := Some(s);
      return false;
    }

    method Commit() returns (thrown: bool)
      modifies this
      ensures var r := PowerStep(old(View()), PowerCall.Commit);
        thrown == r.Err? && View() == if r.Ok? then r.value else old(View())
    {
      if pendingState.None? { return true; }
      state := pendingState.value;
      pendingState := None;
      return false;
    }

    method Rollback() returns (thrown: bool)
      modifies this
      ensures var r := PowerStep(old(View()), PowerCall.Rollback);
        thrown == r.Err? && View() == if r.Ok? then r.value else old(View())
    {
      if pendingState.None? { return true; }
      pendingState := None;
      return false;
    }
  }

  // ---------------------------------------------------------------- tickers

  datatype Timer = Timeout(h: nat) | Interval(h: nat)

  /** The fields of a ticker, the timers the runtime holds for it, and how often a tick function has run. */
  datatype Timing = Timing(
    power: Power, timeout: Option<nat>, interval: Option<nat>, hasNextFn: bool,
    live: set<Timer>, handles: nat, ran: nat)

  /** Calls on the ticker, and the expiry of a timer. */
  datatype Call = NextTick | NextTickFn | RunTimer | Quit | Expire(t: Timer)

  const CREATED := Timing(Power(DOWN, Some(UP)), None, None, false, {}, 0, 0)

  predicate CanStart(t: Timing) { t.power.pending == Some(UP) || IsRunning(t.power) }

  function Started(t: Timing): Power {
    if t.power.pending == Some(UP) then Power(UP, None) else t.power
  }

  /** Throws, and changes nothing, when a timer field is set. */
  function DoNextTick(t: Timing): Timing {
    if t.timeout.Some? || t.interval.Some? || !CanStart(t) then t
    else t.(power := Started(t), timeout := Some(t.handles), live := t.live + {Timeout(t.handles)},
            handles := t.handles + 1)
  }

  function DoRunTimer(t: Timing): Timing {
    if t.timeout.Some? || t.interval.Some? || !CanStart(t) then t
    else t.(power := Started(t), interval := Some(t.handles), live := t.live + {Interval(t.handles)},
            handles := t.handles + 1)
  }

  /** quit: before the first tick it only gives up starting; otherwise it clears the timers, keeping the fields. */
  function DoQuit(t: Timing): Timing {
    if t.power.pending == Some(UP) then t.(power := t.power.(pending := None))
    else if Switch(t.power, DOWN).Err? then t
    else
      var cleared := t.live - (if t.timeout.Some? then {Timeout(t.timeout.value)} else {})
                            - (if t.interval.Some? then {Interval(t.interval.value)} else {});
      t.(live := cleared, power := OFF)
  }

  function OnTick(t: Timing): Timing {
    if IsRunning(t.power) then t.(hasNextFn := false, ran := t.ran + 1) else t
  }

  function DoExpire(t: Timing, x: Timer): Timing {
    if x !in t.live then t
    else if x.Timeout? then OnTick(t.(live := t.live - {x}, timeout := None))
    else OnTick(t)
  }

  function Step(t: Timing, c: Call): Timing {
    match c
    case NextTick => DoNextTick(t)
    case NextTickFn => DoNextTick(t.(hasNextFn := true))
    case RunTimer => DoRunTimer(t)
    case Quit => DoQuit(t)
    case Expire(x) => DoExpire(t, x)
  }

  function Run(t: Timing, calls: seq<Call>): Timing
    decreases |calls|
  {
    if calls == [] then t else Run(Step(t, calls[0]), calls[1..])
  }

  function FieldTimers(t: Timing): set<Timer> {
    (if t.timeout.Some? then {Timeout(t.timeout.value)} else {})
    + (if t.interval.Some? then {Interval(t.interval.value)} else {})
  }

  predicate TickerOk(t: Timing) {
    && !(t.timeout.Some? && t.interval.Some?)
    && (|| (t.power == Power(DOWN, Some(UP)) && t.live == {} == FieldTimers(t))
        || (t.power == Power(UP, None) && t.live == FieldTimers(t))
        || (t.power == OFF && t.live == {}))
  }

  lemma StepKeepsOk(t: Timing, c: Call)
    requires TickerOk(t)
    ensures TickerOk(Step(t, c))
    ensures t.power == OFF ==> Step(t, c).power == OFF && Step(t, c).ran == t.ran
    ensures c == Quit ==> Step(t, c).power == OFF && Step(t, c).ran == t.ran
  {
    match c
    case NextTick =>
    case NextTickFn =>
    case RunTimer =>
    case Quit =>
    case Expire(x) =>
  }

  lemma {:induction false} RunKeepsOk(t: Timing, calls: seq<Call>)
    requires TickerOk(t)
    ensures TickerOk(Run(t, calls))
    ensures t.power == OFF ==> Run(t, calls).power == OFF && Run(t, calls).ran == t.ran
    decreases |calls|
  {
    if calls != [] {
      StepKeepsOk(t, calls[0]);
      RunKeepsOk(Step(t, calls[0]), calls[1..]);
    }
  }

  /** For every sequence of calls and expiries, at most one timer is live. */
  lemma AtMostOneTimer(calls: seq<Call>, a: Timer, b: Timer)
    requires a in Run(CREATED, calls).live && b in Run(CREATED, calls).live
    ensures a == b
  {
    RunKeepsOk(CREATED, calls);
  }

  /** After quit no tick function runs any more and no timer is live, whatever is called later. */
  lemma NoTickAfterQuit(before: seq<Call>, later: seq<Call>)
    ensures var t := Step(Run(CREATED, before), Quit);
      Run(t, later).ran == t.ran && Run(t, later).live == {}
  {
    RunKeepsOk(CREATED, before);
    StepKeepsOk(Run(CREATED, before), Quit);
    RunKeepsOk(Step(Run(CREATED, before), Quit), later);
  }

  // ---------------------------------------------------------------- ticks do happen

  function Expiries(x: Timer, n: nat): seq<Call> { seq(n, _ => Expire(x)) }

  /** A ticker that was not quit and has no timer starts one on nextTick; its expiry runs one tick function and leaves
      the ticker ready for the next. With a timer set, nextTick changes nothing. */
  lemma NextTickTicks(calls: seq<Call>)
    ensures var t := Run(CREATED, calls);
      if t.power == OFF || t.timeout.Some? || t.interval.Some? then Step(t, NextTick) == t
      else
        var t1 := Step(t, NextTick);
        && t1.power == Power(UP, None) && t1.live == {Timeout(t.handles)} && t1.ran == t.ran
        && var t2 := Step(t1, Expire(Timeout(t.handles)));
          t2.ran == t.ran + 1 && t2.live == {} && t2.timeout == None && t2.power == Power(UP, None) && !t2.hasNextFn
  {
    RunKeepsOk(CREATED, calls);
  }

  /** Quitting a running ticker clears its timer and takes it down; quitting one that never ticked gives up starting. The
      fields, the remembered function included, stay as they are, and a second quit changes nothing. */
  lemma QuitExactly(calls: seq<Call>)
    ensures var t := Run(CREATED, calls);
      Step(t, Quit) == t.(power := Power(DOWN, None), live := {})
  {
    RunKeepsOk(CREATED, calls);
  }

  /** A function given to nextTickFn is kept until a tick runs, whether the timer could be started or not. */
  lemma NextTickFnKept(calls: seq<Call>)
    ensures var t := Run(CREATED, calls);
      Step(t, NextTickFn) == Step(t, NextTick).(hasNextFn := true)
  {
  }

  /** An interval runs a tick function on each of its expiries, as often as they come, until quit. */
  lemma IntervalTicks(calls: seq<Call>, n: nat)
    requires var t := Run(CREATED, calls); t.power != OFF && t.timeout.None? && t.interval.None?
    ensures var t := Run(CREATED, calls);
      var t1 := Step(t, RunTimer);
      var x := Interval(t.handles);
      && t1.live == {x} && t1.ran == t.ran
      && Run(t1, Expiries(x, n)).ran == t.ran + n && Run(t1, Expiries(x, n)).live == {x}
  {
    RunKeepsOk(CREATED, calls);
    var t := Run(CREATED, calls);
    var t1 := Step(t, RunTimer);
    IntervalRuns(t1, Interval(t.handles), n);
  }

  lemma {:induction false} IntervalRuns(t: Timing, x: Timer, n: nat)
    requires t.power == Power(UP, None) && x.Interval? && t.live == {x}
    ensures Run(t, Expiries(x, n)).ran == t.ran + n && Run(t, Expiries(x, n)).live == {x}
    decreases n
  {
    if n > 0 {
      assert Expiries(x, n)[1..] == Expiries(x, n - 1);
      IntervalRuns(Step(t, Expire(x)), x, n - 1);
    }
  }

  class Ticker {
    const powerManager: PowerManager
    var onNextTickFn: bool
    var timeout: Option<nat>
    var interval: Option<nat>
    var live: set<Timer>
    var handles: nat
    var ran: nat

    function View(): Timing
      reads this, powerManager
    {
      Timing(powerManager.View(), timeout, interval, onNextTickFn, live, handles, ran)
    }

    constructor ()
      ensures View() == CREATED && fresh(powerManager)
    {
      powerManager := new PowerManager();
      onNextTickFn, timeout, interval, live, handles, ran := false, None, None, {}, 0, 0;
      new;
      var _ := powerManager.SwitchState(UP);
    }

    method NextTick() returns (thrown: bool)
      modifies this, powerManager
      ensures View() == DoNextTick(old(View()))
      ensures thrown == (old(timeout).Some? || old(interval).Some?)
    {
      if timeout.Some? || interval.Some? { return true; }
      if powerManager.pendingState == Some(UP) || IsRunning(powerManager.View()) {
        if powerManager.pendingState == Some(UP) { var _ := powerManager.Commit(); }
        timeout := Some(handles);
        live := live + {Timeout(handles)};
        handles := handles + 1;
      }
      return false;
    }

    method NextTickFn() returns (thrown: bool)
      modifies this, powerManager
      ensures View() == Step(old(View()), Call.NextTickFn)
      ensures thrown == (old(timeout).Some? || old(interval).Some?)
    {
      onNextTickFn := true;
      thrown := NextTick();
    }

    method RunTimer() returns (thrown: bool)
      modifies this, powerManager
      ensures View() == DoRunTimer(old(View()))
      ensures thrown == (old(timeout).Some? || old(interval).Some?)
    {
      if interval.Some? || timeout.Some? { return true; }
      if powerManager.pendingState == Some(UP) || IsRunning(powerManager.View()) {
        if powerManager.pendingState == Some(UP) { var _ := powerManager.Commit(); }
        interval := Some(handles);
        live := live + {Interval(handles)};
        handles := handles + 1;
      }
      return false;
    }

    method Quit() returns (thrown: bool)
      modifies this, powerManager
      ensures View() == DoQuit(old(View()))
      ensures thrown == (old(powerManager.pendingState) != Some(UP) && Switch(old(powerManager.View()), DOWN).Err?)
    {
      if powerManager.pendingState == Some(UP) {
        thrown := powerManager.Rollback();
      } else {
        thrown := powerManager.SwitchState(DOWN);
        if thrown { return true; }
        if timeout.Some? { live := live - {Timeout(timeout.value)}; }
        if interval.Some? { live := live - {Interval(interval.value)}; }
        thrown := powerManager.Commit();
      }
    }

    /** A timer of the runtime fires its callback. */
    method OnTimer(x: Timer)
      modifies this
      ensures View() == DoExpire(old(View()), x)
    {
      if x in live {
        if x.Timeout? {
          live := live - {x};
          timeout := None;
        }
        if IsRunning(powerManager.View()) {
          onNextTickFn := false;
          ran := ran + 1;
        }
      }
    }
  }
}
