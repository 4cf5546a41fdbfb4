/**
 * Counting over whole runs, without the protocol's bookkeeping: the failures and publications of a message are
 * events of the run, and the copies of a message are counted in the lists themselves.
 */
module RunCounts {
  import opened Wrappers
  import opened Messages
  import opened Redis
  import opened Scheduler
  import opened Handlers
  import opened Protocol
  import opened StoreInvariant
  import opened ProtocolInvariant
  import opened ProtocolTheorems
  import opened Sums

  // ---------------------------------------------------------------- events of a run

  /** The event ends a delivery of the message without acknowledging it. */
  ghost predicate Fails(w: World, e: Event, id: Id)
    requires Enabled(w, e)
  {
    match e.step
    case Receive(c) => w.consumers[c].phase.m.id == id && HasExpired(w.consumers[c].phase.m, e.now)
    case Settle(c, o) => w.consumers[c].phase.m.id == id && o.Unack?
    case GcRetry(t) => w.gc[t].m.id == id && At(w.db, Processing(w.gc[t].c)) != []
    case _ => false
  }

  /** The event publishes the message from the schedule. */
  ghost predicate Publishes(w: World, e: Event, id: Id)
    requires Enabled(w, e)
  {
    e.step.DueFire? && w.dueBatch[e.step.i].id == id
  }

  ghost function Failures(w: World, es: seq<Event>, id: Id): nat
    requires IsRun(w, es)
    decreases |es|
  {
    if es == [] then 0
    else (if Fails(w, es[0], id) then 1 else 0) + Failures(Apply(w, es[0]), es[1..], id)
  }

  ghost function Publications(w: World, es: seq<Event>, id: Id): nat
    requires IsRun(w, es)
    decreases |es|
  {
    if es == [] then 0
    else (if Publishes(w, es[0], id) then 1 else 0) + Publications(Apply(w, es[0]), es[1..], id)
  }

  // ---------------------------------------------------------------- the bookkeeping counts events

  function FailuresOf(h: History, id: Id): nat { if id in h.failures then h.failures[id] else 0 }

  function PublishedOf(h: History, id: Id): nat { if id in h.published then h.published[id] else 0 }

  lemma {:induction false} RequeuedKeepsCounts(h: History, batch: seq<Record>)
    ensures var h' := Requeued(h, batch);
      h'.failures == h.failures && h'.published == h.published && h'.origin == h.origin
    decreases |batch|
  {
    if batch != [] {
      if batch[0].queue.None? {
        RequeuedKeepsCounts(h, batch[1..]);
      } else {
        RequeuedKeepsCounts(Placed(h, batch[0], InList(Pending(batch[0].queue.value))), batch[1..]);
      }
    }
  }

  lemma {:induction false} DelayedKeepsCounts(h: History, batch: seq<Record>)
    ensures var h' := Delayed(h, batch);
      h'.failures == h.failures && h'.published == h.published && h'.origin == h.origin
    decreases |batch|
  {
    if batch != [] {
      DelayedKeepsCounts(Placed(h, batch[0], Scheduled), batch[1..]);
    }
  }

  lemma FailedCounts(h: History, r: Record, d: Destination, q: Queue, id: Id)
    ensures var h' := Failed(h, r, d, q);
      FailuresOf(h', id) == FailuresOf(h, id) + (if r.id == id then 1 else 0) && PublishedOf(h', id) == PublishedOf(h, id)
  {
  }

  lemma FailingStepCounts(w: World, e: Event, id: Id)
    requires ConsumersOk(w.db, w.consumers) && Enabled(w, e) && MayFail(e.step)
    ensures FailuresOf(Apply(w, e).hist, id) == FailuresOf(w.hist, id) + if Fails(w, e, id) then 1 else 0
    ensures PublishedOf(Apply(w, e).hist, id) == PublishedOf(w.hist, id)
  {
    if e.step.GcRetry? {
      var task := w.gc[e.step.t];
      FailedCounts(w.hist, task.m, Route(task.m, RECOVERY, e.now), w.consumers[task.c].queue, id);
    } else {
      var c := e.step.c;
      var q, m := w.consumers[c].queue, w.consumers[c].phase.m;
      DeliveryInList(w, c);
      if e.step.Receive? {
        FailedCounts(w.hist, m, Route(m, TTL_EXPIRED, e.now), q, id);
      } else if e.step.outcome.Unack? {
        FailedCounts(w.hist, m, Route(m, e.step.outcome.cause, e.now), q, id);
      }
    }
  }

  lemma QuietStepCounts(w: World, e: Event)
    requires Enabled(w, e) && !e.step.Produce? && !e.step.DueFire? && !MayFail(e.step)
    ensures var h := Apply(w, e).hist;
      h.failures == w.hist.failures && h.published == w.hist.published && h.origin == w.hist.origin
  {
    if e.step.RequeueCommit? {
      RequeuedKeepsCounts(w.hist, w.requeueBatch);
    } else if e.step.DelayCommit? {
      DelayedKeepsCounts(w.hist, w.delayBatch);
    }
  }

  lemma CreatedCounts(h: History, r: Record, p: Place, id: Id)
    requires Tracked(h) && r.id !in h.origin
    ensures var h' := Created(h, r, p);
      FailuresOf(h', id) == FailuresOf(h, id) && PublishedOf(h', id) == PublishedOf(h, id)
  {
    assert r.id !in h.failures.Keys && r.id !in h.published.Keys;
  }

  lemma ProduceStepCounts(w: World, e: Event, id: Id)
    requires Tracked(w.hist) && Enabled(w, e) && e.step.Produce?
    ensures FailuresOf(Apply(w, e).hist, id) == FailuresOf(w.hist, id)
    ensures PublishedOf(Apply(w, e).hist, id) == PublishedOf(w.hist, id)
  {
    var r := Produced(e.step.m, e.step.q);
    ProducedIsFresh(e.step.m, e.step.q);
    CreatedCounts(w.hist, r, Scheduled, id);
    CreatedCounts(w.hist, r, InList(Pending(e.step.q)), id);
  }

  lemma FireStepCounts(w: World, e: Event, id: Id)
    requires Enabled(w, e) && e.step.DueFire?
    requires FireEntry(w.db, w.dueBatch[e.step.i], e.now, e.slot).Ok?
    ensures FailuresOf(Apply(w, e).hist, id) == FailuresOf(w.hist, id)
    ensures PublishedOf(Apply(w, e).hist, id) == PublishedOf(w.hist, id) + if Publishes(w, e, id) then 1 else 0
  {
    assert Apply(w, e).hist == Fired(w.hist, w.dueBatch[e.step.i]);
  }

  /** The failures and publications a step adds to the bookkeeping are the events it is. */
  lemma StepCounts(w: World, e: Event, id: Id)
    requires Inv(w) && Enabled(w, e)
    ensures FailuresOf(Apply(w, e).hist, id) == FailuresOf(w.hist, id) + if Fails(w, e, id) then 1 else 0
    ensures PublishedOf(Apply(w, e).hist, id) == PublishedOf(w.hist, id) + if Publishes(w, e, id) then 1 else 0
  {
    if MayFail(e.step) {
      FailingStepCounts(w, e, id);
    } else if e.step.Produce? {
      ProduceStepCounts(w, e, id);
    } else if e.step.DueFire? {
      FireNeverFails(w, e);
      FireStepCounts(w, e, id);
    } else {
      QuietStepCounts(w, e);
    }
  }

  lemma DeliveryInList(w: World, c: ConsumerId)
    requires ConsumersOk(w.db, w.consumers) && c in w.consumers
    requires w.consumers[c].phase.Received? || w.consumers[c].phase.Handling?
    ensures At(w.db, Processing(c)) == [w.consumers[c].phase.m]
  {
    assert ConsumerOk(w.consumers[c], At(w.db, Processing(c)));
  }

  lemma FireNeverFails(w: World, e: Event)
    requires Inv(w) && Enabled(w, e) && e.step.DueFire?
    ensures FireEntry(w.db, w.dueBatch[e.step.i], e.now, e.slot).Ok? && w.dueBatch[e.step.i].queue.Some?
  {
    var v := w.(now := e.now);
    GrowsKeepsWorkers(w, v);
    DueFireKeeps(v, e.step.i, e.now, e.slot);
  }

  lemma {:induction false} RunCountsEvents(w: World, es: seq<Event>, id: Id)
    requires Inv(w) && IsRun(w, es)
    ensures FailuresOf(After(w, es).hist, id) == FailuresOf(w.hist, id) + Failures(w, es, id)
    ensures PublishedOf(After(w, es).hist, id) == PublishedOf(w.hist, id) + Publications(w, es, id)
    decreases |es|
  {
    if es != [] {
      StepCounts(w, es[0], id);
      StepKeepsInv(w, es[0]);
      RunCountsEvents(Apply(w, es[0]), es[1..], id);
    }
  }

  /** In any run whatsoever, a non-periodic message with threshold t > 0 has at most t deliveries that end without
      an acknowledgement; with a negative threshold at most one. */
  lemma FailuresOverRun(es: seq<Event>, id: Id)
    requires IsRun(Init(), es)
    requires var o := After(Init(), es).hist.origin;
      id in o && !IsPeriodic(o[id]) && o[id].job.retryThreshold != 0
    ensures Failures(Init(), es, id) <= Limit(After(Init(), es).hist.origin[id].job.retryThreshold)
  {
    var w := After(Init(), es);
    InitInv();
    RunCountsEvents(Init(), es, id);
    assert Reachable(w);
    RetryBound(w, id);
  }

  /** In any run, a periodic message without CRON is published at most Total times, and exactly Total times once it
      has left the schedule. */
  lemma PublicationsOverRun(es: seq<Event>, id: Id)
    requires IsRun(Init(), es)
    requires var o := After(Init(), es).hist.origin;
      id in o && IsPeriodic(o[id]) && o[id].job.cron.None?
    ensures var w := After(Init(), es);
      && Publications(Init(), es, id) <= Total(w.hist.origin[id])
      && (Publications(Init(), es, id) == Total(w.hist.origin[id]) <==> id !in w.db.bodies)
  {
    var w := After(Init(), es);
    InitInv();
    RunCountsEvents(Init(), es, id);
    assert Reachable(w);
    PublicationCount(w, id);
  }

  // ---------------------------------------------------------------- copies of periodic messages

  function CountOf(id: Id): seq<Record> -> int { (s: seq<Record>) => Count(s, id) }

  /** All copies of a message, over all lists of the store. */
  ghost function TotalCopies(db: Db, id: Id): int { SumBy(db.lists, CountOf(id)) }

  lemma TotalPut(db: Db, k: Key, s: seq<Record>, id: Id)
    ensures TotalCopies(Put(db, k, s), id) == TotalCopies(db, id) - Count(At(db, k), id) + Count(s, id)
  {
    SumByUpdate(db.lists, CountOf(id), k, s);
  }

  lemma TotalRPush(db: Db, k: Key, r: Record, id: Id)
    ensures TotalCopies(RPush(db, k, r), id) == TotalCopies(db, id) + if r.id == id then 1 else 0
  {
    TotalPut(db, k, At(db, k) + [r], id);
    CountConcat(At(db, k), [r], id);
  }

  lemma TotalLPush(db: Db, k: Key, r: Record, id: Id)
    ensures TotalCopies(LPush(db, k, r), id) == TotalCopies(db, id) + if r.id == id then 1 else 0
  {
    TotalPut(db, k, [r] + At(db, k), id);
    CountConcat([r], At(db, k), id);
  }

  /** A move between lists, equal ones included, changes no total. */
  lemma TotalRPopLPush(db: Db, from: Key, to: Key, id: Id)
    ensures TotalCopies(RPopLPush(db, from, to), id) == TotalCopies(db, id)
  {
    var s := At(db, from);
    if s != [] {
      var r := s[|s| - 1];
      CountConcat(s[..|s| - 1], [r], id);
      assert s == s[..|s| - 1] + [r];
      TotalPut(db, from, s[..|s| - 1], id);
      TotalLPush(RPop(db, from), to, r, id);
    }
  }

  lemma TotalLMove(db: Db, from: Key, to: Key, id: Id)
    ensures TotalCopies(LMoveLeftRight(db, from, to), id) == TotalCopies(db, id)
  {
    var s := At(db, from);
    if s != [] {
      TotalPut(db, from, s[1..], id);
      TotalRPush(LPop(db, from), to, s[0], id);
    }
  }

  lemma TotalMoveFailed(db: Db, c: ConsumerId, q: Queue, d: Destination, id: Id)
    ensures TotalCopies(MoveFailed(db, c, q, d), id) == TotalCopies(db, id)
  {
    match d
    case ToDeadLetter(_) => TotalLMove(db, Processing(c), DeadLetter(q), id);
    case ToDelay => TotalRPopLPush(db, Processing(c), Delay, id);
    case ToRequeue => TotalRPopLPush(db, Processing(c), Requeue, id);
  }

  /** Removing a record of another message changes no total of this one. */
  lemma TotalLRemOther(db: Db, k: Key, r: Record, id: Id)
    requires r.id != id
    ensures TotalCopies(LRem(db, k, r), id) == TotalCopies(db, id)
  {
    TotalPut(db, k, Without(At(db, k), r), id);
    if r in At(db, k) {
      OneMoreWithout(At(db, k), r);
    } else {
      WithoutAbsent(At(db, k), r);
    }
  }

  lemma {:induction false} TotalRequeueBatch(db: Db, batch: seq<Record>, id: Id)
    requires RequeueBatch(db, batch).Ok? && forall r :: r in batch ==> r.id != id
    ensures TotalCopies(RequeueBatch(db, batch).value, id) == TotalCopies(db, id)
    decreases |batch|
  {
    if batch != [] {
      var r := batch[0];
      TotalLRemOther(db, Requeue, r, id);
      TotalLPush(LRem(db, Requeue, r), Pending(r.queue.value), Retried(r), id);
      TotalRequeueBatch(RequeueOne(db, r), batch[1..], id);
    }
  }

  lemma {:induction false} TotalDelayBatch(db: Db, batch: seq<Record>, now: int, slot: int, id: Id)
    requires DelayBatch(db, batch, now, slot).Ok? && forall r :: r in batch ==> r.id != id
    ensures TotalCopies(DelayBatch(db, batch, now, slot).value, id) == TotalCopies(db, id)
    decreases |batch|
  {
    if batch != [] {
      var r := batch[0];
      TotalLRemOther(db, Delay, r, id);
      var one := DelayOne(db, r, now, slot).value;
      assert one.lists == LRem(db, Delay, r).lists;
      TotalDelayBatch(one, batch[1..], now, slot, id);
    }
  }

  /** Every publication of a periodic message is in exactly one list: the copies add up to the publications. */
  ghost predicate CopiesOk(w: World, id: Id) {
    if id in w.hist.origin then
      IsPeriodic(w.hist.origin[id]) ==> TotalCopies(w.db, id) == PublishedOf(w.hist, id)
    else TotalCopies(w.db, id) == 0
  }

  /** A message held in a retry batch is not periodic, so it is not the one counted. */
  lemma BatchIsNotPeriodic(w: World, k: Key, batch: seq<Record>, id: Id, r: Record)
    requires Inv(w) && (k.Requeue? || k.Delay?) && BatchOk(w.db, k, batch) && r in batch
    requires id in w.hist.origin ==> IsPeriodic(w.hist.origin[id])
    ensures r.id != id
  {
    assert RecordOk(w.hist, k, r);
  }

  /** A fresh message that is scheduled has no copy yet; one that is pending at once is not periodic. */
  lemma CreatedCopies(w: World, w': World, r: Record, p: Place, id: Id)
    requires Tracked(w.hist) && r.id !in w.hist.origin && w'.hist == Created(w.hist, r, p) && CopiesOk(w, id)
    requires TotalCopies(w'.db, id) == TotalCopies(w.db, id) || (r.id == id && !IsPeriodic(r))
    ensures CopiesOk(w', id)
  {
    CreatedCounts(w.hist, r, p, id);
    assert r.id !in w.hist.published.Keys;
  }

  lemma ProduceCopies(w: World, m: Record, q: Queue, now: int, slot: int, id: Id)
    requires Tracked(w.hist) && m.id !in w.hist.origin && CopiesOk(w, id)
    ensures CopiesOk(DoProduce(w, m, q, now, slot), id)
  {
    var r := Produced(m, q);
    var w' := DoProduce(w, m, q, now, slot);
    if !IsSchedulable(r) {
      TotalRPush(w.db, Pending(q), Published(r, now), id);
      CreatedCopies(w, w', r, InList(Pending(q)), id);
    } else if Schedule(w.db, r, now, slot).1 {
      assert w'.db.lists == w.db.lists;
      CreatedCopies(w, w', r, Scheduled, id);
    }
  }

  lemma TotalFire(db: Db, r: Record, now: int, slot: int, id: Id)
    requires FireEntry(db, r, now, slot).Ok?
    ensures TotalCopies(FireEntry(db, r, now, slot).value, id) == TotalCopies(db, id) + if r.id == id then 1 else 0
  {
    var q := r.queue.value;
    TotalRPush(db, Pending(q), Republished(r, now), id);
    assert FireEntry(db, r, now, slot).value.lists == RPush(db, Pending(q), Republished(r, now)).lists;
  }

  lemma DueIsProduced(w: World, i: nat)
    requires Inv(w) && i < |w.dueBatch|
    ensures w.dueBatch[i].id in w.hist.origin
  {
    var r := w.dueBatch[i];
    assert r in w.dueBatch;
    assert DueEntry(w.db, r, w.now);
    assert EntryOk(w.hist, r.id, r, w.db.due[r.id]);
  }

  lemma FiredCopies(w: World, e: Event, id: Id)
    requires Enabled(w, e) && e.step.DueFire? && CopiesOk(w, id)
    requires FireEntry(w.db, w.dueBatch[e.step.i], e.now, e.slot).Ok? && w.dueBatch[e.step.i].id in w.hist.origin
    ensures CopiesOk(Apply(w, e), id)
  {
    var r := w.dueBatch[e.step.i];
    TotalFire(w.db, r, e.now, e.slot, id);
    FireStepCounts(w, e, id);
    assert Fired(w.hist, r).origin == w.hist.origin;
  }

  lemma FireCopies(w: World, e: Event, id: Id)
    requires Inv(w) && Enabled(w, e) && e.step.DueFire? && CopiesOk(w, id)
    ensures CopiesOk(Apply(w, e), id)
  {
    FireNeverFails(w, e);
    DueIsProduced(w, e.step.i);
    FiredCopies(w, e, id);
  }

  predicate MovesOne(s: Step) { s.DequeueBy? || s.Receive? || s.Settle? || s.GcRetry? }

  lemma MoveCopies(w: World, e: Event, id: Id)
    requires Enabled(w, e) && MovesOne(e.step)
    ensures TotalCopies(Apply(w, e).db, id) == TotalCopies(w.db, id)
  {
    if e.step.GcRetry? {
      var task := w.gc[e.step.t];
      TotalMoveFailed(w.db, task.c, w.consumers[task.c].queue, Route(task.m, RECOVERY, e.now), id);
    } else {
      var c := e.step.c;
      var q := w.consumers[c].queue;
      if e.step.DequeueBy? {
        TotalRPopLPush(w.db, Pending(q), Processing(c), id);
      } else if e.step.Receive? {
        TotalMoveFailed(w.db, c, q, Route(w.consumers[c].phase.m, TTL_EXPIRED, e.now), id);
      } else if e.step.outcome.Ack? {
        TotalLMove(w.db, Processing(c), Acknowledged(q), id);
      } else {
        TotalMoveFailed(w.db, c, q, Route(w.consumers[c].phase.m, e.step.outcome.cause, e.now), id);
      }
    }
  }

  lemma FailureKeepsCounts(w: World, c: ConsumerId, m: Record, cause: UnackCause, now: int)
    requires c in w.consumers
    ensures var h := FailDelivery(w, c, m, cause, now).hist;
      h.origin == w.hist.origin && h.published == w.hist.published
  {
  }

  lemma MoveKeepsCounts(w: World, e: Event)
    requires Enabled(w, e) && MayFail(e.step)
    ensures Apply(w, e).hist.origin == w.hist.origin && Apply(w, e).hist.published == w.hist.published
  {
    var v := w.(now := e.now);
    match e.step
    case Receive(c) => FailureKeepsCounts(v, c, w.consumers[c].phase.m, TTL_EXPIRED, e.now);
    case Settle(c, o) => if o.Unack? { FailureKeepsCounts(v, c, w.consumers[c].phase.m, o.cause, e.now); }
    case GcRetry(t) => FailureKeepsCounts(v, w.gc[t].c, w.gc[t].m, RECOVERY, e.now);
  }

  lemma CommitCopies(w: World, e: Event, id: Id)
    requires Inv(w) && Enabled(w, e) && (e.step.RequeueCommit? || e.step.DelayCommit?)
    requires id in w.hist.origin ==> IsPeriodic(w.hist.origin[id])
    ensures TotalCopies(Apply(w, e).db, id) == TotalCopies(w.db, id)
  {
    if e.step.RequeueCommit? {
      forall r | r in w.requeueBatch ensures r.id != id { BatchIsNotPeriodic(w, Requeue, w.requeueBatch, id, r); }
      if RequeueBatch(w.db, w.requeueBatch).Ok? { TotalRequeueBatch(w.db, w.requeueBatch, id); }
    } else {
      forall r | r in w.delayBatch ensures r.id != id { BatchIsNotPeriodic(w, Delay, w.delayBatch, id, r); }
      if DelayBatch(w.db, w.delayBatch, e.now, e.slot).Ok? {
        TotalDelayBatch(w.db, w.delayBatch, e.now, e.slot, id);
      }
    }
  }

  /** A deletion of the GC worker finds the list empty; no other step changes a list. */
  lemma QuietCopies(w: World, e: Event, id: Id)
    requires GcOk(w.db, w.consumers, w.gc) && Enabled(w, e) && !e.step.Produce? && !e.step.DueFire? && !MovesOne(e.step)
    requires !e.step.RequeueCommit? && !e.step.DelayCommit?
    ensures TotalCopies(Apply(w, e).db, id) == TotalCopies(w.db, id)
  {
    if e.step.GcDelete? {
      var c := w.gc[e.step.t].c;
      assert TaskOk(w.gc[e.step.t], At(w.db, Processing(c)));
      TotalPut(w.db, Processing(c), [], id);
    } else {
      assert Apply(w, e).db.lists == w.db.lists;
    }
  }

  lemma StepCopies(w: World, e: Event, id: Id)
    requires Inv(w) && Enabled(w, e) && CopiesOk(w, id)
    ensures CopiesOk(Apply(w, e), id)
  {
    if e.step.Produce? {
      ProduceCopies(w.(now := e.now), e.step.m, e.step.q, e.now, e.slot, id);
    } else if e.step.DueFire? {
      FireCopies(w, e, id);
    } else {
      if MayFail(e.step) { MoveKeepsCounts(w, e); } else { QuietStepCounts(w, e); }
      if MovesOne(e.step) {
        MoveCopies(w, e, id);
      } else if e.step.RequeueCommit? || e.step.DelayCommit? {
        if id in w.hist.origin ==> IsPeriodic(w.hist.origin[id]) { CommitCopies(w, e, id); }
      } else {
        QuietCopies(w, e, id);
      }
    }
  }

  lemma {:induction false} RunCopies(w: World, es: seq<Event>, id: Id)
    requires Inv(w) && IsRun(w, es) && CopiesOk(w, id)
    ensures CopiesOk(After(w, es), id)
    decreases |es|
  {
    if es != [] {
      StepCopies(w, es[0], id);
      StepKeepsInv(w, es[0]);
      RunCopies(Apply(w, es[0]), es[1..], id);
    }
  }

  /** Conservation of periodic messages: after any run, the copies of a periodic message in all lists together are
      exactly its publications in the run; none is lost and none is duplicated. */
  lemma PeriodicConservation(es: seq<Event>, id: Id)
    requires IsRun(Init(), es)
    requires var o := After(Init(), es).hist.origin; id in o && IsPeriodic(o[id])
    ensures TotalCopies(After(Init(), es).db, id) == Publications(Init(), es, id)
  {
    InitInv();
    assert CopiesOk(Init(), id);
    RunCopies(Init(), es, id);
    RunCountsEvents(Init(), es, id);
  }
}
