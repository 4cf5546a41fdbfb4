/**
 * When a scheduled message fires next (src/system/message-manager/handlers/schedule.handler.ts).
 *
 * CRON parsing is abstract: `slot` is the next time the message's CRON expression matches after `now`.
 */
module Scheduler {
  import opened Wrappers
  import opened Messages

  datatype Kind = ByDelay | ByCron | ByRepeat | Done

  /** The message after its counters were updated, and the time it is scheduled for; 0 when nothing is left. */
  datatype Plan = Plan(record: Record, at: int, kind: Kind)

  function CronAt(r: Record, slot: int): int { if r.job.cron.Some? then slot else 0 }

  function RepeatAt(r: Record, now: int): int {
    if r.job.repeat != 0 && r.repeatCount + 1 <= r.job.repeat then now + r.job.period.GetOr(0) else 0
  }

  /** getNextScheduledTimestamp. */
  function Next(r: Record, now: int, slot: int): Plan {
    if !IsSchedulable(r) then Plan(r, 0, Done)
    else if r.delay.GetOr(0) != 0 && !r.delayed then
      Plan(r.(delayed := true), now + r.delay.value, ByDelay)
    else
      var cronAt := CronAt(r, slot);
      var repeatAt := RepeatAt(r, now);
      if repeatAt != 0 && cronAt != 0 && repeatAt < cronAt && r.cronFired then
        Plan(r.(repeatCount := r.repeatCount + 1), repeatAt, ByRepeat)
      else if cronAt != 0 then
        Plan(r.(repeatCount := 0, cronFired := true), cronAt, ByCron)
      else if repeatAt != 0 then
        Plan(r.(repeatCount := r.repeatCount + 1), repeatAt, ByRepeat)
      else
        Plan(r, 0, Done)
  }

  /** The same on the mutable message. */
  method GetNextScheduledTimestamp(message: Message, now: int, slot: int) returns (at: int)
    modifies message
    ensures var p := Next(old(message.Json()), now, slot);
      at == p.at && message.Json() == p.record
  {
    if message.cron.Some? || message.delay.Some? || message.repeat > 0 {
      if message.delay.Some? && message.delay.value != 0 && !message.delayed {
        message.delayed := true;
        return now + message.delay.value;
      }
      var cronTimestamp := if message.cron.Some? then slot else 0;
      var repeatTimestamp := 0;
      if message.repeat != 0 {
        var newCount := message.repeatCount + 1;
        if newCount <= message.repeat {
          if message.period.Some? && message.period.value != 0 {
            repeatTimestamp := now + message.period.value;
          } else {
            repeatTimestamp := now;
          }
        }
      }
      if repeatTimestamp != 0 && cronTimestamp != 0 {
        if repeatTimestamp < cronTimestamp && message.cronFired {
          message.repeatCount := message.repeatCount + 1;
          return repeatTimestamp;
        }
      }
      if cronTimestamp != 0 {
        message.repeatCount := 0;
        message.cronFired := true;
        return cronTimestamp;
      }
      if repeatTimestamp != 0 {
        message.repeatCount := message.repeatCount + 1;
        return repeatTimestamp;
      }
    }
    return 0;
  }

  /** The copy that the schedule tick publishes: serialised before the counters move on. */
  function Published(r: Record, now: int): Record { r.(publishedAt := Some(now)) }

  /** The same for an entry that was parsed from the schedule. */
  function Republished(r: Record, now: int): Record { Published(Restored(r), now) }

  // ---------------------------------------------------------------- whole runs of one message

  /** A firing of a due entry: how late it happens, and how far away the next CRON slot then is. */
  datatype Tick = Tick(lag: nat, wait: nat)

  datatype Firing = Firing(at: int, slot: int, plan: Plan)

  function Fire(r: Record, due: int, t: Tick): Firing {
    var now := due + t.lag;
    Firing(now, now + 1 + t.wait, Next(Republished(r, now), now, now + 1 + t.wait))
  }

  /** Fires the entry once per tick until it leaves the schedule. */
  function Run(r: Record, due: int, ticks: seq<Tick>): seq<Firing>
    decreases |ticks|
  {
    if ticks == [] then []
    else
      var f := Fire(r, due, ticks[0]);
      [f] + if f.plan.at == 0 then [] else Run(f.plan.record, f.plan.at, ticks[1..])
  }

  /** Produced at `now`: the system fields are reset, then the first time is computed. */
  predicate Fresh(r: Record) {
    !r.delayed && !r.cronFired && r.repeatCount == 0
  }

  function Min(a: int, b: int): int { if a <= b then a else b }

  /** How often a message without CRON is published: once for the delay and once per repeat. */
  function Total(r: Record): nat {
    (if r.delay.Some? then 1 else 0) + if r.job.repeat > 0 then r.job.repeat else 0
  }

  /** Firings left of an entry that is in the schedule, the pending one included. */
  function Remaining(r: Record): int {
    1 + if r.job.repeat > 0 then r.job.repeat - r.repeatCount else 0
  }

  /** What holds of every entry of a message without CRON once it is in the schedule. */
  predicate InSchedule(r: Record) {
    && WellFormed(r) && !r.job.cron.Some?
    && (r.delay.Some? ==> r.delayed)
    && (r.job.repeat > 0 ==> r.repeatCount <= r.job.repeat)
  }

  /** A schedulable message is always accepted: its first time lies in the future or is now, never 0,
      so `schedule` never answers false and drops it. */
  lemma ScheduleAccepts(r: Record, now: int, slot: int)
    requires WellFormed(r) && Fresh(r) && IsSchedulable(r) && 0 < now < slot
    ensures Next(r, now, slot).at >= now
    ensures !r.job.cron.Some? ==>
      InSchedule(Next(r, now, slot).record) && Remaining(Next(r, now, slot).record) == Total(r)
  {
  }

  /** Whatever else is set, a fresh message with a delay waits exactly for its delay first, and nothing but the mark
      that the delay is spent changes. */
  lemma DelayFirst(r: Record, now: int, slot: int)
    requires WellFormed(r) && Fresh(r) && r.delay.Some?
    ensures Next(r, now, slot) == Plan(r.(delayed := true), now + r.delay.value, ByDelay)
  {
  }

  /** Without a delay, the first time is the next CRON slot, or, without CRON, one period from now. */
  lemma FirstWithoutDelay(r: Record, now: int, slot: int)
    requires WellFormed(r) && Fresh(r) && IsSchedulable(r) && r.delay.None? && 0 < now < slot
    ensures Next(r, now, slot).at == if r.job.cron.Some? then slot else now + r.job.period.GetOr(0)
  {
  }

  /** One firing of an entry without CRON: it either leaves the schedule with nothing remaining, or is
      re-armed at least one period later with one firing less to go. */
  lemma FireStep(r: Record, now: int, slot: int)
    requires InSchedule(r) && now > 0
    ensures var p := Next(Republished(r, now), now, slot);
      if Remaining(r) == 1 then p.at == 0 && p.record == Republished(r, now)
      else p.at == now + r.job.period.GetOr(0) && p.kind == ByRepeat
           && InSchedule(p.record) && Remaining(p.record) == Remaining(r) - 1
           && p.record.job.period == r.job.period
  {
  }

  /** Counting and termination: fired k times, an entry without CRON has published min(k, Remaining) times,
      is out of the schedule exactly when all of them happened, and two consecutive publications are at
      least the period apart. */
  lemma {:induction false} RunCount(r: Record, due: int, ticks: seq<Tick>)
    requires InSchedule(r) && due > 0
    ensures Remaining(r) >= 1
    ensures |Run(r, due, ticks)| == Min(|ticks|, Remaining(r))
    ensures forall i :: 0 <= i < |Run(r, due, ticks)| ==>
      Run(r, due, ticks)[i].at >= due && (Run(r, due, ticks)[i].plan.at == 0 <==> i + 1 == Remaining(r))
    ensures forall i :: 0 < i < |Run(r, due, ticks)| ==>
      Run(r, due, ticks)[i].at - Run(r, due, ticks)[i - 1].at >= r.job.period.GetOr(0)
    decreases |ticks|
  {
    if ticks != [] {
      var f := Fire(r, due, ticks[0]);
      FireStep(r, f.at, f.slot);
      if f.plan.at != 0 {
        var rest := Run(f.plan.record, f.plan.at, ticks[1..]);
        RunCount(f.plan.record, f.plan.at, ticks[1..]);
        assert Run(r, due, ticks) == [f] + rest;
      }
    }
  }

  /** From production on: a message without CRON is published exactly Total(r) times if its due entries keep
      being fired: N times for repeat N, once for a delay, N + 1 times for a delay with repeat N. */
  lemma PublishedExactly(r: Record, now: int, slot: int, ticks: seq<Tick>)
    requires WellFormed(r) && Fresh(r) && IsSchedulable(r) && !r.job.cron.Some? && 0 < now < slot
    ensures var p := Next(r, now, slot);
      && |Run(p.record, p.at, ticks)| == Min(|ticks|, Total(r))
      && (|ticks| >= Total(r) ==> Run(p.record, p.at, ticks)[Total(r) - 1].plan.at == 0)
  {
    ScheduleAccepts(r, now, slot);
    var p := Next(r, now, slot);
    RunCount(p.record, p.at, ticks);
  }

  // ---------------------------------------------------------------- CRON, alone or with repeat

  function Kinds(fs: seq<Firing>): seq<Kind> { seq(|fs|, i requires 0 <= i < |fs| => fs[i].plan.kind) }

  function Repeats(r: Record): nat { if r.job.repeat > 0 then r.job.repeat else 0 }

  predicate CronEntry(r: Record) {
    r.job.cron.Some? && WellFormed(r) && r.repeatCount <= Repeats(r) && (r.repeatCount > 0 ==> r.cronFired)
  }

  /** One computation for a CRON message: it is never dropped; a repeat is planned only after the first CRON
      slot was, strictly before the next slot, and counts one more; a CRON slot resets the count. */
  lemma CronStep(r: Record, now: int, slot: int)
    requires CronEntry(r) && 0 < now < slot
    ensures var p := Next(r, now, slot);
      && p.at >= now && CronEntry(p.record) && p.record.job.repeat == r.job.repeat
      && (p.kind == ByDelay ==> p.record.repeatCount == r.repeatCount && p.record.cronFired == r.cronFired)
      && (p.kind == ByCron ==> p.at == slot && p.record.repeatCount == 0 && p.record.cronFired)
      && (p.kind == ByRepeat ==> p.at < slot && r.cronFired && p.record.cronFired
                                 && p.record.repeatCount == r.repeatCount + 1 <= Repeats(r))
      && p.kind != Done
  {
  }

  predicate DelaySpent(r: Record) { r.delay.Some? ==> r.delayed }

  /** A CRON entry whose delay is spent gets a repeat, exactly one period from now, if and only if a CRON slot has been
      scheduled before, fewer than N repeats were since, and that time is before the next slot; it gets the slot
      otherwise. */
  lemma CronRepeatExactly(r: Record, now: int, slot: int)
    requires CronEntry(r) && DelaySpent(r) && 0 < now < slot
    ensures var p := Next(r, now, slot);
      var again := now + r.job.period.GetOr(0);
      && DelaySpent(p.record) && p.record.job == r.job
      && (p.kind == ByRepeat <==> r.cronFired && r.repeatCount < Repeats(r) && again < slot)
      && (p.kind == ByRepeat ==> p.at == again && p.record.repeatCount == r.repeatCount + 1 && p.record.cronFired)
      && (p.kind != ByRepeat ==> p.kind == ByCron && p.at == slot && p.record.repeatCount == 0 && p.record.cronFired)
  {
  }

  /** All kinds in [i, j) are repeats. */
  predicate AllRepeats(ks: seq<Kind>, i: nat, j: nat)
    requires i <= j <= |ks|
  {
    forall m :: i <= m < j ==> ks[m] == ByRepeat
  }

  /** Unfolds one firing of a CRON entry. */
  lemma CronUnfold(r: Record, due: int, ticks: seq<Tick>) returns (f: Firing, rest: seq<Firing>)
    requires CronEntry(r) && due > 0 && ticks != []
    ensures f == Fire(r, due, ticks[0]) && f.at >= due && f.slot > f.at
    ensures rest == Run(f.plan.record, f.plan.at, ticks[1..])
    ensures Run(r, due, ticks) == [f] + rest
    ensures Kinds(Run(r, due, ticks)) == [f.plan.kind] + Kinds(rest)
    ensures f.plan.at >= f.at && CronEntry(f.plan.record) && Repeats(f.plan.record) == Repeats(r)
    ensures f.plan.kind == ByRepeat ==>
      f.plan.at < f.slot && r.cronFired && f.plan.record.repeatCount == r.repeatCount + 1
    ensures f.plan.kind == ByDelay ==> f.plan.record.cronFired == r.cronFired
    ensures f.plan.kind != Done
  {
    f := Fire(r, due, ticks[0]);
    CronStep(Republished(r, f.at), f.at, f.slot);
    rest := Run(f.plan.record, f.plan.at, ticks[1..]);
  }

  /** A CRON message stays in the schedule for ever, its count never exceeds N, and every repeat falls
      strictly before the next CRON slot. */
  lemma {:induction false} CronStaysScheduled(r: Record, due: int, ticks: seq<Tick>)
    requires CronEntry(r) && due > 0
    ensures |Run(r, due, ticks)| == |ticks|
    ensures forall f :: f in Run(r, due, ticks) ==>
      && f.plan.at >= f.at && f.plan.kind != Done && f.plan.record.repeatCount <= Repeats(r)
      && (f.plan.kind == ByRepeat ==> f.plan.at < f.slot)
    decreases |ticks|
  {
    if ticks != [] {
      var f, rest := CronUnfold(r, due, ticks);
      CronStaysScheduled(f.plan.record, f.plan.at, ticks[1..]);
    }
  }

  /** Between two CRON slots at most N repeats are scheduled: no window of consecutive repeats is longer. */
  lemma {:induction false} CronWindow(r: Record, due: int, ticks: seq<Tick>, i: nat, j: nat)
    requires CronEntry(r) && due > 0
    requires i <= j <= |Run(r, due, ticks)| && AllRepeats(Kinds(Run(r, due, ticks)), i, j)
    ensures j - i <= Repeats(r)
    ensures i == 0 ==> j + r.repeatCount <= Repeats(r)
    decreases |ticks|
  {
    if i < j {
      var f, rest := CronUnfold(r, due, ticks);
      var ks, ks' := Kinds(Run(r, due, ticks)), Kinds(rest);
      var i' := if i == 0 then 0 else i - 1;
      assert forall m :: i' <= m < j - 1 ==> ks'[m] == ks[m + 1];
      CronWindow(f.plan.record, f.plan.at, ticks[1..], i', j - 1);
      if i == 0 { assert ks[0] == ByRepeat; }
    }
  }

  /** No repeat is scheduled before the first CRON slot is. */
  lemma {:induction false} CronFirst(r: Record, due: int, ticks: seq<Tick>, j: nat)
    requires CronEntry(r) && due > 0 && !r.cronFired
    requires j < |Run(r, due, ticks)| && Kinds(Run(r, due, ticks))[j] == ByRepeat
    ensures exists i :: 0 <= i < j && Kinds(Run(r, due, ticks))[i] == ByCron
    decreases |ticks|
  {
    var f, rest := CronUnfold(r, due, ticks);
    var ks, ks' := Kinds(Run(r, due, ticks)), Kinds(rest);
    if f.plan.kind == ByCron {
      assert ks[0] == ByCron;
    } else {
      assert ks'[j - 1] == ks[j];
      CronFirst(f.plan.record, f.plan.at, ticks[1..], j - 1);
      var i :| 0 <= i < j - 1 && ks'[i] == ByCron;
      assert ks[i + 1] == ByCron;
    }
  }

  // ---------------------------------------------------------------- CRON runs, exactly

  /** The repeats scheduled since the last CRON slot, before position i of the trace; `count` stands before it. */
  function Since(ks: seq<Kind>, i: nat, count: nat): nat
    requires i <= |ks|
  {
    if i == 0 then count else if ks[i - 1] == ByRepeat then Since(ks, i - 1, count) + 1 else 0
  }

  /** A CRON slot was scheduled before position i; `fired` tells for the time before the trace. */
  predicate SlotBefore(ks: seq<Kind>, i: nat, fired: bool)
    requires i <= |ks|
  {
    fired || exists j :: 0 <= j < i && ks[j] == ByCron
  }

  lemma {:induction false} SinceCons(k: Kind, ks: seq<Kind>, i: nat, count: nat)
    requires i <= |ks|
    ensures Since([k] + ks, i + 1, count) == Since(ks, i, if k == ByRepeat then count + 1 else 0)
  {
    if i > 0 {
      SinceCons(k, ks, i - 1, count);
      assert ([k] + ks)[i] == ks[i - 1];
    }
  }

  lemma SlotBeforeCons(k: Kind, ks: seq<Kind>, i: nat, fired: bool)
    requires i <= |ks|
    ensures SlotBefore([k] + ks, i + 1, fired) <==> SlotBefore(ks, i, fired || k == ByCron)
  {
    var all := [k] + ks;
    if SlotBefore(ks, i, fired || k == ByCron) && !fired {
      if k == ByCron {
        assert all[0] == ByCron;
      } else {
        var j :| 0 <= j < i && ks[j] == ByCron;
        assert all[j + 1] == ByCron;
      }
    }
    if SlotBefore(all, i + 1, fired) && !fired && k != ByCron {
      var j :| 0 <= j < i + 1 && all[j] == ByCron;
      assert ks[j - 1] == ByCron;
    }
  }

  /** Over any run, each firing of a CRON entry schedules a repeat, one period later, if and only if a slot was scheduled
      before, fewer than N repeats were since, and the repeat falls before the next slot; otherwise it schedules the
      slot. So repeats go on until N are reached or no more fits. */
  lemma {:induction false} CronRunExactly(r: Record, due: int, ticks: seq<Tick>, i: nat)
    requires CronEntry(r) && DelaySpent(r) && due > 0 && i < |Run(r, due, ticks)|
    ensures var fs := Run(r, due, ticks);
      var ks := Kinds(fs);
      var again := fs[i].at + r.job.period.GetOr(0);
      && (ks[i] == ByRepeat <==>
            SlotBefore(ks, i, r.cronFired) && Since(ks, i, r.repeatCount) < Repeats(r) && again < fs[i].slot)
      && fs[i].plan.at == (if ks[i] == ByRepeat then again else fs[i].slot)
      && (ks[i] != ByRepeat ==> ks[i] == ByCron)
    decreases |ticks|
  {
    var f, rest := CronUnfold(r, due, ticks);
    CronRepeatExactly(Republished(r, f.at), f.at, f.slot);
    if i > 0 {
      var next := f.plan.record;
      CronRunExactly(next, f.plan.at, ticks[1..], i - 1);
      SinceCons(f.plan.kind, Kinds(rest), i - 1, r.repeatCount);
      SlotBeforeCons(f.plan.kind, Kinds(rest), i - 1, r.cronFired);
      assert Run(r, due, ticks)[i] == rest[i - 1] && Kinds(Run(r, due, ticks))[i] == Kinds(rest)[i - 1];
    }
  }

  /** A window of repeats that a CRON slot ends is full: it has N repeats, or one more would not have fallen before the
      slot. */
  lemma CronWindowFull(r: Record, due: int, ticks: seq<Tick>, i: nat, j: nat)
    requires CronEntry(r) && DelaySpent(r) && due > 0 && 0 < i <= j < |Run(r, due, ticks)|
    requires var ks := Kinds(Run(r, due, ticks));
      ks[i - 1] == ByCron && AllRepeats(ks, i, j) && ks[j] == ByCron
    ensures var f := Run(r, due, ticks)[j];
      j - i == Repeats(r) || f.at + r.job.period.GetOr(0) >= f.slot
  {
    CronRunExactly(r, due, ticks, j);
    var ks := Kinds(Run(r, due, ticks));
    SinceWindow(ks, i, j, r.repeatCount);
    CronWindow(r, due, ticks, i, j);
  }

  lemma {:induction false} SinceWindow(ks: seq<Kind>, i: nat, j: nat, count: nat)
    requires 0 < i <= j <= |ks| && ks[i - 1] == ByCron && AllRepeats(ks, i, j)
    ensures Since(ks, j, count) == j - i
  {
    if i < j { SinceWindow(ks, i, j - 1, count); }
  }

  /** i periods after t. */
  function Later(t: int, period: int, i: nat): int
    decreases i
  {
    if i == 0 then t else Later(t + period, period, i - 1)
  }

  lemma {:induction false} LaterClosed(t: int, period: int, i: nat)
    ensures Later(t, period, i) == t + i * period
    decreases i
  {
    if i > 0 { LaterClosed(t + period, period, i - 1); }
  }

  /** n is as many repeats as are allowed and fall before the slot. */
  predicate AsManyAsFit(r: Record, t: int, slot: int, n: nat) {
    var p := r.job.period.GetOr(0);
    && r.repeatCount + n <= Repeats(r) && Later(t, p, n) < slot
    && (r.repeatCount + n == Repeats(r) || Later(t, p, n + 1) >= slot)
  }

  /** Every firing happens when it is due, and the next slot stays where it is. */
  predicate OnTime(ticks: seq<Tick>, t: int, period: int, slot: int) {
    forall i :: 0 <= i < |ticks| ==> ticks[i].lag == 0 && ticks[i].wait == slot - 1 - Later(t, period, i)
  }

  /** When every firing is on time, the repeats after a CRON slot at t are exactly as many as are allowed and fit before
      the next slot; they come one period apart, and then the slot follows. */
  lemma {:induction false} CronRepeatsFit(r: Record, t: int, slot: int, n: nat, ticks: seq<Tick>)
    requires CronEntry(r) && DelaySpent(r) && r.cronFired && 0 < t < slot && AsManyAsFit(r, t, slot, n)
    requires |ticks| == n + 1 && OnTime(ticks, t, r.job.period.GetOr(0), slot)
    ensures var fs := Run(r, t, ticks);
      && |fs| == n + 1
      && (forall i: nat :: i < n ==>
            fs[i].plan.kind == ByRepeat && fs[i].plan.at == Later(t, r.job.period.GetOr(0), i + 1))
      && fs[n].plan.kind == ByCron && fs[n].plan.at == slot
    decreases n
  {
    var p := r.job.period.GetOr(0);
    var f, rest := FirstOnTime(r, t, slot, n, ticks);
    if n > 0 {
      CronRepeatsFit(f.plan.record, t + p, slot, n - 1, ticks[1..]);
      var fs := Run(r, t, ticks);
      forall i: nat | i < n ensures fs[i].plan.kind == ByRepeat && fs[i].plan.at == Later(t, p, i + 1) {
        if i > 0 { assert fs[i] == rest[i - 1]; }
      }
    }
  }

  lemma {:induction false} FitExists(r: Record, t: int, slot: int) returns (n: nat)
    requires CronEntry(r) && r.cronFired && t < slot
    ensures AsManyAsFit(r, t, slot, n)
    decreases Repeats(r) - r.repeatCount
  {
    var p := r.job.period.GetOr(0);
    if r.repeatCount == Repeats(r) || t + p >= slot {
      n := 0;
      assert Later(t, p, 1) == Later(t + p, p, 0) == t + p;
    } else {
      var m := FitExists(r.(repeatCount := r.repeatCount + 1), t + p, slot);
      n := m + 1;
    }
  }

  lemma FirstOnTime(r: Record, t: int, slot: int, n: nat, ticks: seq<Tick>) returns (f: Firing, rest: seq<Firing>)
    requires CronEntry(r) && DelaySpent(r) && r.cronFired && 0 < t < slot && AsManyAsFit(r, t, slot, n)
    requires |ticks| == n + 1 && OnTime(ticks, t, r.job.period.GetOr(0), slot)
    ensures Run(r, t, ticks) == [f] + rest
    ensures n == 0 ==> f.plan.kind == ByCron && f.plan.at == slot && rest == []
    ensures n > 0 ==>
      var x, p := f.plan.record, r.job.period.GetOr(0);
      && f.plan.kind == ByRepeat && f.plan.at == t + p == Later(t, p, 1) && t + p < slot
      && rest == Run(x, t + p, ticks[1..]) && OnTime(ticks[1..], t + p, p, slot)
      && x.job == r.job && CronEntry(x) && DelaySpent(x) && x.cronFired && AsManyAsFit(x, t + p, slot, n - 1)
  {
    var p := r.job.period.GetOr(0);
    assert ticks[0].lag == 0 && ticks[0].wait == slot - 1 - Later(t, p, 0);
    f, rest := CronUnfold(r, t, ticks);
    CronRepeatExactly(Republished(r, t), t, slot);
    assert Later(t, p, 1) == Later(t + p, p, 0) == t + p;
    if n > 0 {
      LaterMonotone(t + p, p, n - 1);
      forall i | 0 <= i < |ticks[1..]|
        ensures ticks[1..][i].lag == 0 && ticks[1..][i].wait == slot - 1 - Later(t + p, p, i)
      {
        assert ticks[1..][i] == ticks[i + 1];
      }
    } else {
      assert ticks[1..] == [];
    }
  }

  lemma {:induction false} LaterMonotone(t: int, period: int, i: nat)
    requires period >= 0
    ensures Later(t, period, i) >= t
    decreases i
  {
    if i > 0 { LaterMonotone(t + period, period, i - 1); }
  }

  /** The three facts from production on; the first computation is entry 0 of the trace. */
  lemma CronFromProduction(r: Record, now: int, slot: int, ticks: seq<Tick>)
    requires WellFormed(r) && Fresh(r) && r.job.cron.Some? && 0 < now < slot
    ensures var p := Next(r, now, slot);
      var ks := [p.kind] + Kinds(Run(p.record, p.at, ticks));
      && |ks| == |ticks| + 1 && Done !in ks
      && (forall i: nat, j: nat :: i <= j <= |ks| && AllRepeats(ks, i, j) ==> j - i <= Repeats(r))
      && (forall j :: 0 <= j < |ks| && ks[j] == ByRepeat ==> exists i :: 0 <= i < j && ks[i] == ByCron)
  {
    CronStep(r, now, slot);
    var p := Next(r, now, slot);
    var run := Run(p.record, p.at, ticks);
    var ks := [p.kind] + Kinds(run);
    CronStaysScheduled(p.record, p.at, ticks);
    forall i: nat, j: nat | i <= j <= |ks| && AllRepeats(ks, i, j)
      ensures j - i <= Repeats(r)
    {
      if i < j {
        assert ks[0] != ByRepeat;
        assert ks[i] == ByRepeat;
        assert forall m :: i - 1 <= m < j - 1 ==> Kinds(run)[m] == ks[m + 1];
        CronWindow(p.record, p.at, ticks, i - 1, j - 1);
      }
    }
    forall j | 0 <= j < |ks| && ks[j] == ByRepeat
      ensures exists i :: 0 <= i < j && ks[i] == ByCron
    {
      if p.kind == ByCron {
        assert ks[0] == ByCron;
      } else {
        assert Kinds(run)[j - 1] == ks[j];
        CronFirst(p.record, p.at, ticks, j - 1);
        var i :| 0 <= i < j - 1 && Kinds(run)[i] == ByCron;
        assert ks[i + 1] == ByCron;
      }
    }
  }
}
