/**
 * Deliveries over whole runs: how often a message is handed to consumers, and how each delivery ends. Everything is
 * counted as events of the run and looked up in the lists at its end.
 */
module Deliveries {
  import opened Wrappers
  import opened Messages
  import opened Redis
  import opened Scheduler
  import opened Handlers
  import opened Protocol
  import opened StoreInvariant
  import opened ProtocolInvariant
  import opened ProtocolTheorems
  import opened RunCounts

  // ---------------------------------------------------------------- events

  /** The event hands the message to a consumer. */
  ghost predicate Delivers(w: World, e: Event, id: Id)
    requires Enabled(w, e)
  {
    e.step.DequeueBy?
    && var s := At(w.db, Pending(w.consumers[e.step.c].queue)); s[|s| - 1].id == id
  }

  /** The event acknowledges the message. */
  ghost predicate Acknowledges(w: World, e: Event, id: Id)
    requires Enabled(w, e)
  {
    e.step.Settle? && e.step.outcome.Ack? && w.consumers[e.step.c].phase.m.id == id
  }

  ghost function Dequeues(w: World, es: seq<Event>, id: Id): nat
    requires IsRun(w, es)
    decreases |es|
  {
    if es == [] then 0
    else (if Delivers(w, es[0], id) then 1 else 0) + Dequeues(Apply(w, es[0]), es[1..], id)
  }

  ghost function Acknowledgements(w: World, es: seq<Event>, id: Id): nat
    requires IsRun(w, es)
    decreases |es|
  {
    if es == [] then 0
    else (if Acknowledges(w, es[0], id) then 1 else 0) + Acknowledgements(Apply(w, es[0]), es[1..], id)
  }

  function AsNat(b: bool): nat { if b then 1 else 0 }

  // ---------------------------------------------------------------- where the message is

  predicate InProcessing(h: History, id: Id) { id in h.place && h.place[id].InList? && h.place[id].k.Processing? }

  predicate InAcknowledged(h: History, id: Id) { id in h.place && h.place[id].InList? && h.place[id].k.Acknowledged? }

  /** The message is not periodic, if it was produced at all. */
  predicate Single(h: History, id: Id) { id in h.origin ==> !IsPeriodic(h.origin[id]) }

  /** What a step does to one message: dequeued, failed, acknowledged. */
  ghost predicate Balanced(h: History, h': History, id: Id, delivered: bool, failed: bool, acknowledged: bool) {
    && AsNat(InProcessing(h', id)) + AsNat(failed) + AsNat(acknowledged) == AsNat(InProcessing(h, id)) + AsNat(delivered)
    && AsNat(InAcknowledged(h', id)) == AsNat(InAcknowledged(h, id)) + AsNat(acknowledged)
  }

  lemma PlaceOf(w: World, k: Key, r: Record, id: Id)
    requires Inv(w) && r in At(w.db, k) && Single(w.hist, id) && r.id == id
    ensures !IsPeriodic(r) && id in w.hist.place && w.hist.place[id] == InList(k)
  {
    assert RecordOk(w.hist, k, r);
    FoundMeansOnlyThere(w.db, w.hist, k, r);
  }

  lemma DequeueBalanced(w: World, c: ConsumerId, id: Id)
    requires Inv(w) && Single(w.hist, id)
    requires c in w.consumers && At(w.db, Pending(w.consumers[c].queue)) != []
    ensures var s := At(w.db, Pending(w.consumers[c].queue));
      Balanced(w.hist, DoDequeue(w, c).hist, id, s[|s| - 1].id == id, false, false)
  {
    var q := w.consumers[c].queue;
    var m := At(w.db, Pending(q))[|At(w.db, Pending(q))| - 1];
    if m.id == id { PlaceOf(w, Pending(q), m, id); }
  }

  lemma FailBalanced(w: World, c: ConsumerId, m: Record, cause: UnackCause, now: int, id: Id)
    requires Inv(w) && Single(w.hist, id) && c in w.consumers && (At(w.db, Processing(c)) in {[], [m]})
    ensures Balanced(w.hist, FailDelivery(w, c, m, cause, now).hist, id, false,
                     m.id == id && At(w.db, Processing(c)) != [], false)
  {
    if At(w.db, Processing(c)) == [m] {
      if m.id == id { PlaceOf(w, Processing(c), m, id); }
      FailedBalanced(w.hist, m, Route(m, cause, now), w.consumers[c].queue, id);
    }
  }

  lemma FailedBalanced(h: History, m: Record, d: Destination, q: Queue, id: Id)
    requires m.id == id ==> !IsPeriodic(m) && InProcessing(h, id)
    ensures Balanced(h, Failed(h, m, d, q), id, false, m.id == id, false)
  {
    assert !Target(d, q).Processing? && !Target(d, q).Acknowledged?;
  }

  lemma AckBalanced(w: World, c: ConsumerId, now: int, id: Id)
    requires Inv(w) && Single(w.hist, id) && c in w.consumers && w.consumers[c].phase.Handling?
    ensures Balanced(w.hist, DoSettle(w, c, Ack, now).hist, id, false, false, w.consumers[c].phase.m.id == id)
  {
    var m := w.consumers[c].phase.m;
    assert m.id == id ==> !IsPeriodic(m) && InProcessing(w.hist, id) by {
      DeliveryInList(w, c);
      if m.id == id { PlaceOf(w, Processing(c), m, id); }
    }
    AcknowledgedBalanced(w.hist, m, w.consumers[c].queue, id);
  }

  lemma AcknowledgedBalanced(h: History, m: Record, q: Queue, id: Id)
    requires m.id == id ==> !IsPeriodic(m) && InProcessing(h, id)
    ensures Balanced(h, Placed(h, m, InList(Acknowledged(q))), id, false, false, m.id == id)
  {
  }

  lemma ProduceBalanced(w: World, m: Record, q: Queue, now: int, slot: int, id: Id)
    requires Tracked(w.hist) && m.id !in w.hist.origin
    ensures Balanced(w.hist, DoProduce(w, m, q, now, slot).hist, id, false, false, false)
  {
    var r := Produced(m, q);
    assert m.id !in w.hist.place;
    CreatedBalanced(w.hist, r, Scheduled, id);
    CreatedBalanced(w.hist, r, InList(Pending(q)), id);
  }

  lemma CreatedBalanced(h: History, r: Record, p: Place, id: Id)
    requires r.id !in h.place && (p.InList? ==> p.k.Pending?)
    ensures Balanced(h, Created(h, r, p), id, false, false, false)
  {
  }

  lemma FireBalanced(w: World, i: nat, now: int, slot: int, id: Id)
    requires Inv(w) && Single(w.hist, id) && i < |w.dueBatch|
    ensures Balanced(w.hist, DoDueFire(w, i, now, slot).hist, id, false, false, false)
  {
    var r := w.dueBatch[i];
    assert r.id == id ==> id in w.hist.place && w.hist.place[id] == Scheduled by {
      if r.id == id { DueIsScheduled(w, r, id); }
    }
    FiredBalanced(w.hist, r, id);
    var h' := DoDueFire(w, i, now, slot).hist;
    assert h' == w.hist || h' == Fired(w.hist, r);
  }

  lemma DueIsScheduled(w: World, r: Record, id: Id)
    requires Inv(w) && Single(w.hist, id) && r in w.dueBatch && r.id == id
    ensures id in w.hist.place && w.hist.place[id] == Scheduled
  {
    assert DueEntry(w.db, r, w.now);
    assert EntryOk(w.hist, id, r, w.db.due[id]);
  }

  lemma FiredBalanced(h: History, r: Record, id: Id)
    requires r.id == id ==> id in h.place && h.place[id] == Scheduled
    ensures Balanced(h, Fired(h, r), id, false, false, false)
  {
  }

  // ---------------------------------------------------------------- batches

  predicate SamePlace(h: History, h': History, id: Id) {
    (id in h'.place <==> id in h.place) && (id in h.place ==> h'.place[id] == h.place[id])
  }

  ghost predicate Holds(batch: seq<Record>, id: Id) { exists r :: r in batch && r.id == id }

  /** A batch leaves a message where it is, or moves it out of the list it was read from. */
  lemma {:induction false} RequeuedPlaces(h: History, batch: seq<Record>, id: Id)
    ensures var h' := Requeued(h, batch);
      || SamePlace(h, h', id)
      || (Holds(batch, id) && id in h'.place && h'.place[id].InList? && h'.place[id].k.Pending?)
    decreases |batch|
  {
    if batch != [] {
      var r := batch[0];
      var h1 := if r.queue.None? then h else Placed(h, r, InList(Pending(r.queue.value)));
      RequeuedPlaces(h1, batch[1..], id);
      assert r in batch && forall x :: x in batch[1..] ==> x in batch;
    }
  }

  lemma {:induction false} DelayedPlaces(h: History, batch: seq<Record>, id: Id)
    ensures var h' := Delayed(h, batch);
      || SamePlace(h, h', id)
      || (Holds(batch, id) && id in h'.place && h'.place[id] == Scheduled)
    decreases |batch|
  {
    if batch != [] {
      var r := batch[0];
      DelayedPlaces(Placed(h, r, Scheduled), batch[1..], id);
      assert r in batch && forall x :: x in batch[1..] ==> x in batch;
    }
  }

  lemma BatchBalanced(w: World, k: Key, batch: seq<Record>, h': History, id: Id)
    requires Inv(w) && Single(w.hist, id) && (k.Requeue? || k.Delay?) && BatchOk(w.db, k, batch)
    requires (k.Requeue? && h' == Requeued(w.hist, batch)) || (k.Delay? && h' == Delayed(w.hist, batch))
    ensures Balanced(w.hist, h', id, false, false, false)
  {
    if k.Requeue? { RequeuedPlaces(w.hist, batch, id); } else { DelayedPlaces(w.hist, batch, id); }
    if r :| r in batch && r.id == id { PlaceOf(w, k, r, id); }
  }

  lemma CommitBalanced(w: World, e: Event, id: Id)
    requires Inv(w) && Enabled(w, e) && Single(w.hist, id) && (e.step.RequeueCommit? || e.step.DelayCommit?)
    ensures Balanced(w.hist, Apply(w, e).hist, id, false, false, false)
  {
    var h' := Apply(w, e).hist;
    if e.step.RequeueCommit? {
      BatchBalanced(w, Requeue, w.requeueBatch, Requeued(w.hist, w.requeueBatch), id);
      assert h' == w.hist || h' == Requeued(w.hist, w.requeueBatch);
    } else {
      BatchBalanced(w, Delay, w.delayBatch, Delayed(w.hist, w.delayBatch), id);
      assert h' == w.hist || h' == Delayed(w.hist, w.delayBatch);
    }
  }

  // ---------------------------------------------------------------- every step

  lemma QuietStepKeepsHistory(w: World, e: Event)
    requires Enabled(w, e) && !MayFail(e.step) && !e.step.Produce? && !e.step.DequeueBy?
    requires !e.step.RequeueCommit? && !e.step.DelayCommit? && !e.step.DueFire?
    ensures Apply(w, e).hist == w.hist
  {
  }

  lemma FailingStepBalanced(w: World, e: Event, id: Id)
    requires Inv(w) && Enabled(w, e) && Single(w.hist, id) && MayFail(e.step)
    ensures Balanced(w.hist, Apply(w, e).hist, id, false, Fails(w, e, id), Acknowledges(w, e, id))
  {
    var v := w.(now := e.now);
    GrowsKeepsWorkers(w, v);
    match e.step
    case Receive(c) =>
      DeliveryInList(v, c);
      FailBalanced(v, c, w.consumers[c].phase.m, TTL_EXPIRED, e.now, id);
    case Settle(c, o) =>
      DeliveryInList(v, c);
      if o.Ack? { AckBalanced(v, c, e.now, id); } else {
        FailBalanced(v, c, w.consumers[c].phase.m, o.cause, e.now, id);
      }
    case GcRetry(t) =>
      assert TaskOk(w.gc[t], At(w.db, Processing(w.gc[t].c)));
      FailBalanced(v, w.gc[t].c, w.gc[t].m, RECOVERY, e.now, id);
  }

  lemma MovingStepBalanced(w: World, e: Event, id: Id)
    requires Inv(w) && Enabled(w, e) && Single(w.hist, id)
    requires e.step.Produce? || e.step.DequeueBy? || e.step.DueFire?
    ensures Balanced(w.hist, Apply(w, e).hist, id, Delivers(w, e, id), false, false)
  {
    var v := w.(now := e.now);
    assert Inv(v) by {
      GrowsKeepsWorkers(w, v);
    }
    match e.step
    case Produce(m, q) => ProduceBalanced(v, m, q, e.now, e.slot, id);
    case DequeueBy(c) => DequeueBalanced(v, c, id);
    case DueFire(i) => FireBalanced(v, i, e.now, e.slot, id);
  }

  /** Every step keeps the account of a message's deliveries. */
  lemma StepBalanced(w: World, e: Event, id: Id)
    requires Inv(w) && Enabled(w, e) && Single(w.hist, id)
    ensures Balanced(w.hist, Apply(w, e).hist, id, Delivers(w, e, id), Fails(w, e, id), Acknowledges(w, e, id))
  {
    if MayFail(e.step) {
      FailingStepBalanced(w, e, id);
    } else if e.step.Produce? || e.step.DequeueBy? || e.step.DueFire? {
      MovingStepBalanced(w, e, id);
    } else if e.step.RequeueCommit? || e.step.DelayCommit? {
      CommitBalanced(w, e, id);
    } else {
      QuietStepKeepsHistory(w, e);
    }
  }

  lemma StepKeepsOrigin(w: World, e: Event, id: Id)
    requires Enabled(w, e) && id in w.hist.origin
    ensures id in Apply(w, e).hist.origin && Apply(w, e).hist.origin[id] == w.hist.origin[id]
  {
    if e.step.Produce? {
      assert e.step.m.id != id;
    } else if !e.step.DueFire? {
      if MayFail(e.step) { MoveKeepsCounts(w, e); } else { QuietStepCounts(w, e); }
    }
  }

  lemma {:induction false} RunKeepsOrigin(w: World, es: seq<Event>, id: Id)
    requires IsRun(w, es) && id in w.hist.origin
    ensures id in After(w, es).hist.origin && After(w, es).hist.origin[id] == w.hist.origin[id]
    decreases |es|
  {
    if es != [] {
      StepKeepsOrigin(w, es[0], id);
      RunKeepsOrigin(Apply(w, es[0]), es[1..], id);
    }
  }

  lemma {:induction false} RunBalanced(w: World, es: seq<Event>, id: Id)
    requires Inv(w) && IsRun(w, es) && Single(After(w, es).hist, id)
    ensures AsNat(InProcessing(After(w, es).hist, id)) + Failures(w, es, id) + Acknowledgements(w, es, id)
            == AsNat(InProcessing(w.hist, id)) + Dequeues(w, es, id)
    ensures AsNat(InAcknowledged(After(w, es).hist, id)) == AsNat(InAcknowledged(w.hist, id)) + Acknowledgements(w, es, id)
    decreases |es|
  {
    if es != [] {
      if id in w.hist.origin { RunKeepsOrigin(w, es, id); }
      StepBalanced(w, es[0], id);
      StepKeepsInv(w, es[0]);
      RunBalanced(Apply(w, es[0]), es[1..], id);
    }
  }

  // ---------------------------------------------------------------- whole runs

  ghost predicate BeingProcessed(db: Db, id: Id) { exists c :: Count(At(db, Processing(c)), id) == 1 }

  ghost predicate Settled(db: Db, id: Id) { exists q :: Count(At(db, Acknowledged(q)), id) == 1 }

  lemma PlacesAreLists(w: World, id: Id)
    requires Inv(w) && id in w.hist.origin && Single(w.hist, id)
    ensures InProcessing(w.hist, id) <==> BeingProcessed(w.db, id)
    ensures InAcknowledged(w.hist, id) <==> Settled(w.db, id)
  {
    var p := w.hist.place[id];
    if p.InList? { assert Count(At(w.db, p.k), id) == 1; }
  }

  /** Each delivery ends once: in any run, the deliveries of a non-periodic message are those that failed, the one that
      was acknowledged, and the one under way. It is acknowledged at most once, and then it is in an acknowledged list
      for good. */
  lemma DeliveryBalance(es: seq<Event>, id: Id)
    requires IsRun(Init(), es)
    requires var o := After(Init(), es).hist.origin; id in o && !IsPeriodic(o[id])
    ensures var db := After(Init(), es).db;
      && Dequeues(Init(), es, id) ==
           Failures(Init(), es, id) + Acknowledgements(Init(), es, id) + AsNat(BeingProcessed(db, id))
      && Acknowledgements(Init(), es, id) == AsNat(Settled(db, id))
  {
    InitInv();
    RunBalanced(Init(), es, id);
    RunKeepsInv(Init(), es);
    PlacesAreLists(After(Init(), es), id);
  }

  /** A message under way or acknowledged has an attempt to spare. */
  lemma FailuresBelowLimit(w: World, id: Id)
    requires Inv(w) && id in w.hist.origin && Single(w.hist, id) && w.hist.origin[id].job.retryThreshold != 0
    requires InProcessing(w.hist, id) || InAcknowledged(w.hist, id)
    ensures FailuresOf(w.hist, id) < Limit(w.hist.origin[id].job.retryThreshold)
  {
    var k := w.hist.place[id].k;
    assert Count(At(w.db, k), id) == 1;
    CountPositive(At(w.db, k), id);
    var r :| r in At(w.db, k) && r.id == id;
    assert RecordOk(w.hist, k, r);
  }

  /** In any run a non-periodic message with threshold t > 0 is delivered at most t times, over first deliveries, retries
      at once, retries after a delay and recoveries from crashes together; with a negative threshold once. */
  lemma DeliveriesBounded(es: seq<Event>, id: Id)
    requires IsRun(Init(), es)
    requires var o := After(Init(), es).hist.origin;
      id in o && !IsPeriodic(o[id]) && o[id].job.retryThreshold != 0
    ensures Dequeues(Init(), es, id) <= Limit(After(Init(), es).hist.origin[id].job.retryThreshold)
  {
    var w := After(Init(), es);
    InitInv();
    RunBalanced(Init(), es, id);
    RunCountsEvents(Init(), es, id);
    RunKeepsInv(Init(), es);
    FailuresOverRun(es, id);
    if InProcessing(w.hist, id) || InAcknowledged(w.hist, id) { FailuresBelowLimit(w, id); }
  }
}
