/**
 * How often one delivery is settled (src/system/consumer/consumer.ts, handleConsume). The protocol assumes once.
 * The code does not enforce it: the callback has no guard and the catch branch leaves the timer running.
 * This module proves exactly for which handlers the assumption holds.
 */
module ConsumeCallback {
  import opened Wrappers
  import opened Messages
  import opened Redis
  import opened Handlers

  /** The variables of one handleConsume call, and the settlements it has requested. */
  datatype State = State(isTimeout: bool, timer: bool, settled: nat)

  /** The handler calls back, while the consumer is running or not; the handler throws; the timeout elapses. */
  datatype Happening = Callback(running: bool) | Throw | Elapse

  function Start(armed: bool): State { State(false, armed, 0) }

  function React(s: State, h: Happening): State {
    match h
    case Callback(running) => if !running || s.isTimeout then s else s.(timer := false, settled := s.settled + 1)
    case Throw => s.(settled := s.settled + 1)
    case Elapse => if s.timer then State(true, false, s.settled + 1) else s
  }

  /** The object form. */
  class Delivery {
    var isTimeout: bool
    var timer: bool
    var settled: nat

    function View(): State
      reads this
    {
      State(isTimeout, timer, settled)
    }

    constructor (consumeTimeout: int)
      ensures View() == Start(consumeTimeout != 0)
    {
      isTimeout, timer, settled := false, consumeTimeout != 0, 0;
    }

    method OnConsumed(running: bool)
      modifies this
      ensures View() == React(old(View()), Callback(running))
    {
      if running && !isTimeout {
        if timer { timer := false; }
        settled := settled + 1;
      }
    }

    method OnError()
      modifies this
      ensures View() == React(old(View()), Throw)
    {
      settled := settled + 1;
    }

    /** Runs only if the timer was not cleared. */
    method OnTimeout()
      modifies this
      ensures View() == React(old(View()), Elapse)
    {
      if timer {
        isTimeout := true;
        timer := false;
        settled := settled + 1;
      }
    }
  }

  /** What a user's handler does: calls back some times before returning, perhaps throws, calls back later. */
  datatype Handler = Handler(early: nat, throws: bool, late: nat)

  function Min(a: nat, b: nat): nat { if a <= b then a else b }

  function Left(n: nat, used: nat): nat { if used <= n then n - used else 0 }

  /** n callbacks, of which the first `up` find the consumer running. */
  function Calls(s: State, n: nat, up: nat): State
    decreases n
  {
    if n == 0 then s else Calls(React(s, Callback(up > 0)), n - 1, Left(up, 1))
  }

  /** One schedule: the consumer is running for the first `up` callbacks; the timeout elapses after `before` of the
      late calls, or not at all. */
  function Play(h: Handler, armed: bool, elapse: Option<nat>, up: nat): State {
    var s1 := Calls(Start(armed), h.early, up);
    var s2 := if h.throws then React(s1, Throw) else s1;
    var up2 := Left(up, h.early);
    match elapse
    case None => Calls(s2, h.late, up2)
    case Some(before) =>
      var n := Min(before, h.late);
      Calls(React(Calls(s2, n, up2), Elapse), h.late - n, Left(up2, n))
  }

  lemma {:induction false} CallsClosed(s: State, n: nat, up: nat)
    ensures var k := Min(n, up);
      Calls(s, n, up) == if s.isTimeout || k == 0 then s else s.(timer := false, settled := s.settled + k)
    decreases n
  {
    if n > 0 { CallsClosed(React(s, Callback(up > 0)), n - 1, Left(up, 1)); }
  }

  /** The handlers for which a delivery is settled at most once under every schedule. */
  predicate SettlesOnce(h: Handler, armed: bool) {
    h.early + h.late + (if h.throws then 1 else 0) <= 1 && !(h.throws && armed)
  }

  lemma PlayClosed(h: Handler, armed: bool, elapse: Option<nat>, up: nat)
    ensures var n := if elapse.None? then h.late else Min(elapse.value, h.late);
      var calls := Min(h.early + n, up);
      var fired := elapse.Some? && armed && calls == 0;
      Play(h, armed, elapse, up).settled ==
        (if fired then 1 else Min(h.early + h.late, up)) + (if h.throws then 1 else 0)
  {
    var s1 := Calls(Start(armed), h.early, up);
    CallsClosed(Start(armed), h.early, up);
    var s2 := if h.throws then React(s1, Throw) else s1;
    var up2 := Left(up, h.early);
    if elapse.None? {
      CallsClosed(s2, h.late, up2);
    } else {
      var n := Min(elapse.value, h.late);
      CallsClosed(s2, n, up2);
      CallsClosed(React(Calls(s2, n, up2), Elapse), h.late - n, Left(up2, n));
    }
  }

  /** A delivery is settled at most once, whenever the timeout elapses and the consumer goes down, if and only if the
      handler calls back at most once, does not also throw, and does not throw at all when a consume timeout is set. */
  lemma OnceExactly(h: Handler, armed: bool)
    ensures (forall elapse, up :: Play(h, armed, elapse, up).settled <= 1) <==> SettlesOnce(h, armed)
  {
    if SettlesOnce(h, armed) {
      forall elapse, up ensures Play(h, armed, elapse, up).settled <= 1 { PlayClosed(h, armed, elapse, up); }
    } else {
      PlayClosed(h, armed, None, h.early + h.late);
      PlayClosed(h, armed, Some(0), 0);
    }
  }

  /** Under every schedule, such a delivery is settled exactly once if the handler calls back on a running consumer,
      throws, or the timeout elapses, and otherwise not at all. */
  lemma SettledExactly(h: Handler, armed: bool, elapse: Option<nat>, up: nat)
    requires SettlesOnce(h, armed)
    ensures Play(h, armed, elapse, up).settled ==
      if (h.early + h.late > 0 && up > 0) || h.throws || (armed && elapse.Some?) then 1 else 0
  {
    PlayClosed(h, armed, elapse, up);
  }

  /** Why it matters: a second acknowledgement, after the consumer has taken its next message, acknowledges that
      message, which nobody has processed. */
  lemma SecondSettlementHitsNextDelivery(db: Db, c: ConsumerId, q: Queue, m: Record)
    requires At(db, Processing(c)) == [m] && At(db, Pending(q)) != []
    ensures var s := At(db, Pending(q));
      var db1 := Dequeue(Acknowledge(db, c, q), c, q);
      At(Acknowledge(db1, c, q), Acknowledged(q)) == At(db, Acknowledged(q)) + [m] + [s[|s| - 1]]
  {
  }
}
