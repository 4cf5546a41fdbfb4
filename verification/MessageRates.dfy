/** The rate window of a consumer (src/system/consumer/consumer-message-rate.ts). */
module MessageRates {
  const SLOTS := 1000
  const WINDOW := 5

  function Sum(s: seq<nat>): nat {
    if s == [] then 0 else s[0] + Sum(s[1..])
  }

  lemma {:induction false} SumConcat(a: seq<nat>, b: seq<nat>)
    ensures Sum(a + b) == Sum(a) + Sum(b)
  {
    if a == [] {
      assert a + b == b;
    } else {
      assert (a + b)[1..] == a[1..] + b;
      SumConcat(a[1..], b);
    }
  }

  lemma {:induction false} SumIncrement(s: seq<nat>, i: nat)
    requires i < |s|
    ensures Sum(s[i := s[i] + 1]) == Sum(s) + 1
  {
    if i > 0 {
      assert s[i := s[i] + 1][1..] == s[1..][i - 1 := s[i] + 1];
      SumIncrement(s[1..], i - 1);
    }
  }

  lemma {:induction false} SumZeros(s: seq<nat>)
    requires forall i :: 0 <= i < |s| ==> s[i] == 0
    ensures Sum(s) == 0
  {
    if s != [] { SumZeros(s[1..]); }
  }

  datatype Counter = Processing | Acknowledged | Unacknowledged

  datatype Fields = Fields(processing: nat, acknowledged: nat, unacknowledged: nat)

  function Zeros(n: nat): seq<nat> { seq(n, _ => 0) }

  /** Slots of the three counters and the idle window, newest last. */
  datatype Rate = Rate(processing: seq<nat>, acknowledged: seq<nat>, unacknowledged: seq<nat>, idle: seq<bool>)

  const FRESH := Rate(Zeros(SLOTS), Zeros(SLOTS), Zeros(SLOTS), seq(WINDOW, _ => false))

  predicate RateOk(r: Rate) {
    |r.processing| == |r.acknowledged| == |r.unacknowledged| == SLOTS && |r.idle| == WINDOW
  }

  datatype Op = Increment(c: Counter, slot: nat) | Report

  function Bump(s: seq<nat>, i: nat): seq<nat> { if i < |s| then s[i := s[i] + 1] else s }

  function Reading(r: Rate): Fields { Fields(Sum(r.processing), Sum(r.acknowledged), Sum(r.unacknowledged)) }

  function Step(r: Rate, op: Op): Rate {
    match op
    case Increment(Processing, i) => r.(processing := Bump(r.processing, i))
    case Increment(Acknowledged, i) => r.(acknowledged := Bump(r.acknowledged, i))
    case Increment(Unacknowledged, i) => r.(unacknowledged := Bump(r.unacknowledged, i))
    case Report =>
      Rate(Zeros(SLOTS), Zeros(SLOTS), Zeros(SLOTS),
           if r.idle == [] then [] else r.idle[1..] + [Reading(r) == Fields(0, 0, 0)])
  }

  function Run(r: Rate, ops: seq<Op>): Rate
    decreases |ops|
  {
    if ops == [] then r else Run(Step(r, ops[0]), ops[1..])
  }

  /** The rates reported during a run. */
  function Reports(r: Rate, ops: seq<Op>): seq<Fields>
    decreases |ops|
  {
    if ops == [] then []
    else (if ops[0].Report? then [Reading(r)] else []) + Reports(Step(r, ops[0]), ops[1..])
  }

  /** Calls that incremented a slot of counter c; getMilliseconds gives a slot below 1000. */
  function Increments(ops: seq<Op>, c: Counter): nat {
    if ops == [] then 0
    else (if ops[0].Increment? && ops[0].c == c && ops[0].slot < SLOTS then 1 else 0) + Increments(ops[1..], c)
  }

  function Of(f: Fields, c: Counter): nat {
    match c
    case Processing => f.processing
    case Acknowledged => f.acknowledged
    case Unacknowledged => f.unacknowledged
  }

  function TotalReported(fs: seq<Fields>, c: Counter): nat {
    if fs == [] then 0 else Of(fs[0], c) + TotalReported(fs[1..], c)
  }

  lemma StepSums(r: Rate, op: Op, c: Counter)
    requires RateOk(r)
    ensures RateOk(Step(r, op))
    ensures Of(Reading(Step(r, op)), c) ==
      if op.Report? then 0
      else Of(Reading(r), c) + if op.c == c && op.slot < SLOTS then 1 else 0
  {
    match op
    case Increment(k, i) =>
      if i < SLOTS {
        SumIncrement(r.processing, i);
        SumIncrement(r.acknowledged, i);
        SumIncrement(r.unacknowledged, i);
      }
    case Report => SumZeros(Zeros(SLOTS));
  }

  /** Nothing is lost or counted twice: over any run the increments of a counter are what was reported plus what is
      left in the slots. */
  lemma {:induction false} Conservation(r: Rate, ops: seq<Op>, c: Counter)
    requires RateOk(r)
    ensures RateOk(Run(r, ops))
    ensures Of(Reading(r), c) + Increments(ops, c)
            == TotalReported(Reports(r, ops), c) + Of(Reading(Run(r, ops)), c)
    decreases |ops|
  {
    if ops != [] {
      StepSums(r, ops[0], c);
      Conservation(Step(r, ops[0]), ops[1..], c);
      if ops[0].Report? {
        assert Reports(r, ops)[1..] == Reports(Step(r, ops[0]), ops[1..]);
      } else {
        assert Reports(r, ops) == Reports(Step(r, ops[0]), ops[1..]);
      }
    }
  }

  predicate Idle(r: Rate) { forall i :: 0 <= i < |r.idle| ==> r.idle[i] }

  function Flags(fs: seq<Fields>): seq<bool> { seq(|fs|, i requires 0 <= i < |fs| => fs[i] == Fields(0, 0, 0)) }

  function Last(s: seq<bool>): seq<bool>
    requires |s| >= WINDOW
  {
    s[|s| - WINDOW..]
  }

  lemma ShiftWindow(idle: seq<bool>, flag: bool, rest: seq<bool>)
    requires |idle| == WINDOW
    ensures Last(idle[1..] + [flag] + rest) == Last(idle + ([flag] + rest))
  {
    assert idle[1..] + [flag] + rest == (idle + ([flag] + rest))[1..];
  }

  lemma FlagsCons(f: Fields, fs: seq<Fields>)
    ensures Flags([f] + fs) == [f == Fields(0, 0, 0)] + Flags(fs)
  {
  }

  /** The window always holds the flags of the last five reports, padded with false. */
  lemma {:induction false} WindowIsLastFive(r: Rate, ops: seq<Op>)
    requires RateOk(r)
    ensures Run(r, ops).idle == Last(r.idle + Flags(Reports(r, ops)))
    decreases |ops|
  {
    if ops == [] {
      assert r.idle + Flags(Reports(r, ops)) == r.idle;
    } else {
      var r' := Step(r, ops[0]);
      var later := Reports(r', ops[1..]);
      StepSums(r, ops[0], Processing);
      WindowIsLastFive(r', ops[1..]);
      if ops[0].Report? {
        FlagsCons(Reading(r), later);
        ShiftWindow(r.idle, Reading(r) == Fields(0, 0, 0), Flags(later));
      } else {
        assert Reports(r, ops) == later;
      }
    }
  }

  /** The consumer is reported idle exactly when at least five reports were made and the last five were all zero. */
  lemma IdleExactly(ops: seq<Op>)
    ensures var flags := Flags(Reports(FRESH, ops));
      Idle(Run(FRESH, ops)) <==> |flags| >= WINDOW && forall i :: |flags| - WINDOW <= i < |flags| ==> flags[i]
  {
    WindowIsLastFive(FRESH, ops);
    var flags := Flags(Reports(FRESH, ops));
    var all := FRESH.idle + flags;
    var idle := Run(FRESH, ops).idle;
    assert forall i :: 0 <= i < WINDOW ==> idle[i] == all[|flags| + i];
    if |flags| < WINDOW {
      assert !idle[0];
    } else {
      assert forall k :: |flags| <= k < |flags| + WINDOW ==> all[k] == flags[k - WINDOW];
      if Idle(Run(FRESH, ops)) {
        forall i | |flags| - WINDOW <= i < |flags| ensures flags[i] {
          assert idle[i - (|flags| - WINDOW)];
        }
      }
    }
  }

  /** reduce and fill of one counter's cells, in place. */
  method Drain(cells: array<nat>) returns (rate: nat)
    modifies cells
    ensures rate == Sum(old(cells[..]))
    ensures forall i :: 0 <= i < cells.Length ==> cells[i] == 0
  {
    rate := 0;
    for i := 0 to cells.Length
      invariant cells[..] == old(cells[..])
      invariant rate == Sum(cells[..i])
    {
      assert cells[..i + 1] == cells[..i] + [cells[i]];
      SumConcat(cells[..i], [cells[i]]);
      rate := rate + cells[i];
    }
    assert cells[..cells.Length] == cells[..];
    for i := 0 to cells.Length
      invariant forall j :: 0 <= j < i ==> cells[j] == 0
    {
      cells[i] := 0;
    }
  }

  class ConsumerMessageRate {
    const processingSlots: array<nat>
    const acknowledgedSlots: array<nat>
    const unacknowledgedSlots: array<nat>
    var idleStack: seq<bool>

    ghost predicate Valid()
      reads this, processingSlots, acknowledgedSlots, unacknowledgedSlots
    {
      && processingSlots != acknowledgedSlots && processingSlots != unacknowledgedSlots
      && acknowledgedSlots != unacknowledgedSlots && RateOk(View())
    }

    ghost function View(): Rate
      reads this, processingSlots, acknowledgedSlots, unacknowledgedSlots
    {
      Rate(processingSlots[..], acknowledgedSlots[..], unacknowledgedSlots[..], idleStack)
    }

    constructor ()
      ensures Valid() && View() == FRESH
      ensures fresh(processingSlots) && fresh(acknowledgedSlots) && fresh(unacknowledgedSlots)
    {
      processingSlots := new nat[SLOTS](_ => 0);
      acknowledgedSlots := new nat[SLOTS](_ => 0);
      unacknowledgedSlots := new nat[SLOTS](_ => 0);
      idleStack := seq(WINDOW, _ => false);
    }

    method IncrementProcessingSlot(slot: nat)
      requires Valid() && slot < SLOTS
      modifies processingSlots
      ensures Valid() && View() == Step(old(View()), Increment(Processing, slot))
    {
      processingSlots[slot] := processingSlots[slot] + 1;
    }

    method IncrementAcknowledgedSlot(slot: nat)
      requires Valid() && slot < SLOTS
      modifies acknowledgedSlots
      ensures Valid() && View() == Step(old(View()), Increment(Acknowledged, slot))
    {
      acknowledgedSlots[slot] := acknowledgedSlots[slot] + 1;
    }

    method IncrementUnacknowledgedSlot(slot: nat)
      requires Valid() && slot < SLOTS
      modifies unacknowledgedSlots
      ensures Valid() && View() == Step(old(View()), Increment(Unacknowledged, slot))
    {
      unacknowledgedSlots[slot] := unacknowledgedSlots[slot] + 1;
    }

    /** getRateFields with the idle check of the test environment. */
    method GetRateFields() returns (rates: Fields, idle: bool)
      requires Valid()
      modifies this, processingSlots, acknowledgedSlots, unacknowledgedSlots
      ensures Valid() && View() == Step(old(View()), Report)
      ensures rates == Reading(old(View())) && (idle <==> Idle(View()))
    {
      var p := Drain(processingSlots);
      var a := Drain(acknowledgedSlots);
      var u := Drain(unacknowledgedSlots);
      assert processingSlots[..] == Zeros(SLOTS);
      assert acknowledgedSlots[..] == Zeros(SLOTS);
      assert unacknowledgedSlots[..] == Zeros(SLOTS);
      rates := Fields(p, a, u);
      idleStack := idleStack + [rates == Fields(0, 0, 0)];
      idleStack := idleStack[1..];
      assert View() == Step(old(View()), Report);
      idle := forall i :: 0 <= i < |idleStack| ==> idleStack[i];
    }
  }
}
