/** What the protocol guarantees in every reachable state and over every run. */
module ProtocolTheorems {
  import opened Wrappers
  import opened Messages
  import opened Redis
  import opened Scheduler
  import opened Handlers
  import opened Protocol
  import opened StoreInvariant
  import opened ProtocolInvariant

  /** Copies of a message at a place of the store. */
  function Copies(db: Db, id: Id, p: Place): nat {
    match p
    case InList(k) => Count(At(db, k), id)
    case Scheduled => if id in db.bodies then 1 else 0
  }

  /** No loss and no duplication: every produced non-periodic message is exactly once in exactly one of pending,
      a processing list, requeue, delay, the schedule, acknowledged and dead-letter, whatever was interleaved
      and wherever consumers and workers crashed. */
  lemma Conservation(w: World, id: Id)
    requires Reachable(w) && id in w.hist.origin && !IsPeriodic(w.hist.origin[id])
    ensures exists p :: Copies(w.db, id, p) == 1 && forall p' :: p' != p ==> Copies(w.db, id, p') == 0
  {
    ReachableInv(w);
    var p := w.hist.place[id];
    assert Copies(w.db, id, p) == 1 by {
      if p.InList? { assert Count(At(w.db, p.k), id) == 1; }
    }
    forall p' | p' != p ensures Copies(w.db, id, p') == 0 {
      if p'.InList? { assert Count(At(w.db, p'.k), id) == 0; }
    }
  }

  /** Wherever a message is, it is the message that was produced, for the queue it was produced for. */
  lemma ContentsKept(w: World, k: Key, r: Record)
    requires Reachable(w) && r in At(w.db, k)
    ensures r.id in w.hist.origin && SameJob(r, w.hist.origin[r.id]) && r.queue.Some?
    ensures k.Pending? || k.Acknowledged? || k.DeadLetter? ==> r.queue == Some(k.q)
    ensures k.Processing? ==> k.c in w.consumers && r.queue == Some(w.consumers[k.c].queue)
  {
    ReachableInv(w);
    assert RecordOk(w.hist, k, r);
    if k.Processing? {
      assert At(w.db, Processing(k.c)) != [];
      assert ConsumerOk(w.consumers[k.c], At(w.db, Processing(k.c)));
    }
  }

  /** A processing list never holds more than one message, and a message is never with two consumers. */
  lemma OneDeliveryAtATime(w: World, c: ConsumerId, c': ConsumerId, r: Record, r': Record)
    requires Reachable(w) && r in At(w.db, Processing(c)) && r' in At(w.db, Processing(c'))
    ensures |At(w.db, Processing(c))| == 1
    ensures c != c' && !IsPeriodic(r) ==> r.id != r'.id
  {
    ReachableInv(w);
    assert At(w.db, Processing(c)) != [];
    assert ConsumerOk(w.consumers[c], At(w.db, Processing(c)));
    CountMember(At(w.db, Processing(c')), r');
    if !IsPeriodic(r) { FoundMeansOnlyThere(w.db, w.hist, Processing(c), r); }
  }

  /** The two-phase recovery loses nothing: when the GC worker deletes a processing list, the list is empty,
      so the deletion changes no list at all. */
  lemma GcDeletesOnlyEmptyLists(w: World, e: Event)
    requires Reachable(w) && Enabled(w, e) && e.step.GcDelete?
    ensures At(w.db, Processing(w.gc[e.step.t].c)) == []
    ensures forall k :: At(Apply(w, e).db, k) == At(w.db, k)
  {
    ReachableInv(w);
    assert TaskOk(w.gc[e.step.t], At(w.db, Processing(w.gc[e.step.t].c)));
  }

  /** One pass of the GC worker: read the head, move it, delete the list. */
  function GcPass(t: nat, c: ConsumerId, now: int, slot: int): seq<Event> {
    [Event(GcInspect(t, c), now, slot), Event(GcRetry(t), now, slot), Event(GcDelete(t), now, slot)]
  }

  lemma RunOfThree(w: World, es: seq<Event>)
    requires |es| == 3 && Enabled(w, es[0])
    requires Enabled(Apply(w, es[0]), es[1]) && Enabled(Apply(Apply(w, es[0]), es[1]), es[2])
    ensures IsRun(w, es) && After(w, es) == Apply(Apply(Apply(w, es[0]), es[1]), es[2])
  {
    var w1 := Apply(w, es[0]);
    var w2 := Apply(w1, es[1]);
    var w3 := Apply(w2, es[2]);
    assert es[1..][0] == es[1] && es[1..][1..][0] == es[2] && es[1..][1..][1..] == [];
    assert IsRun(w3, []) && After(w3, []) == w3;
    assert IsRun(w2, es[1..][1..]) && After(w2, es[1..][1..]) == w3;
    assert IsRun(w1, es[1..]) && After(w1, es[1..]) == w3;
  }

  lemma GcPassRuns(w: World, c: ConsumerId, t: nat, m: Record, now: int, slot: int)
    requires c in w.consumers && w.consumers[c].phase.Dead? && At(w.db, Processing(c)) == [m]
    requires t !in w.gc && w.now <= now && 0 < now < slot
    ensures IsRun(w, GcPass(t, c, now, slot))
    ensures After(w, GcPass(t, c, now, slot)).db
            == DeleteProcessingQueue(MoveFailed(w.db, c, w.consumers[c].queue, Route(m, RECOVERY, now)), c)
  {
    var es := GcPass(t, c, now, slot);
    var w1 := Apply(w, es[0]);
    assert w1 == w.(now := now, gc := w.gc[t := Inspected(c, m)]);
    var w2 := Apply(w1, es[1]);
    assert w2.gc == w1.gc[t := Emptied(c)] && w2.now == now;
    assert w2.db == MoveFailed(w.db, c, w.consumers[c].queue, Route(m, RECOVERY, now));
    RunOfThree(w, es);
  }

  lemma DeadListIndexed(w: World, c: ConsumerId)
    requires Reachable(w) && c in w.consumers && At(w.db, Processing(c)) != []
    ensures At(w.db, Processing(c)) == [At(w.db, Processing(c))[0]] && c in w.db.index
  {
    ReachableInv(w);
    assert ConsumerOk(w.consumers[c], At(w.db, Processing(c)));
  }

  /** No message is stranded: a dead consumer whose list holds a message is in the index, and one pass of the GC
      worker over it takes the message where `retry` routes it and clears the list and the index entry. */
  lemma RecoveryCompletes(w: World, c: ConsumerId, t: nat, now: int, slot: int)
    requires Reachable(w) && c in w.consumers && w.consumers[c].phase.Dead? && At(w.db, Processing(c)) != []
    requires t !in w.gc && w.now <= now && 0 < now < slot
    ensures var m := At(w.db, Processing(c))[0];
      && c in w.db.index && IsRun(w, GcPass(t, c, now, slot))
      && var db' := After(w, GcPass(t, c, now, slot)).db;
        && m in At(db', Target(Route(m, RECOVERY, now), w.consumers[c].queue))
        && At(db', Processing(c)) == [] && c !in db'.index
  {
    var m := At(w.db, Processing(c))[0];
    DeadListIndexed(w, c);
    GcPassRuns(w, c, t, m, now, slot);
    MovedFailed(w.db, c, w.consumers[c].queue, m, Route(m, RECOVERY, now));
  }

  /** What the GC worker read is still the head of the list when it moves it, or another recovery task has
      moved it already; then the move does nothing. */
  lemma GcMovesWhatItRead(w: World, t: nat)
    requires Reachable(w) && t in w.gc && w.gc[t].Inspected?
    ensures At(w.db, Processing(w.gc[t].c)) == [w.gc[t].m] || At(w.db, Processing(w.gc[t].c)) == []
  {
    ReachableInv(w);
    assert TaskOk(w.gc[t], At(w.db, Processing(w.gc[t].c)));
  }

  /** The message a consumer works on is the one its processing list holds, so that a settlement, which pops
      the list without looking, settles that message. */
  lemma SettlementHitsTheDelivery(w: World, c: ConsumerId)
    requires Reachable(w) && c in w.consumers
    ensures w.consumers[c].phase.Idle? ==> At(w.db, Processing(c)) == []
    ensures w.consumers[c].phase.Handling? || w.consumers[c].phase.Received? ==>
      At(w.db, Processing(c)) == [w.consumers[c].phase.m]
  {
    ReachableInv(w);
    assert ConsumerOk(w.consumers[c], At(w.db, Processing(c)));
  }

  /** Retry accounting: the failures of a message are its stored attempts, plus one while it waits in requeue,
      delay or dead-letter. */
  lemma RetryAccounting(w: World, k: Key, r: Record)
    requires Reachable(w) && r in At(w.db, k) && !IsPeriodic(r)
    ensures r.id in w.hist.failures
    ensures w.hist.failures[r.id] == r.attempts + if k.Requeue? || k.Delay? || k.DeadLetter? then 1 else 0
  {
    ReachableInv(w);
    assert RecordOk(w.hist, k, r);
  }

  /** A non-periodic message with threshold t > 0 fails at most t times over immediate, delayed and recovery
      retries together; with a negative threshold at most once. */
  lemma RetryBound(w: World, id: Id)
    requires Reachable(w) && id in w.hist.origin && !IsPeriodic(w.hist.origin[id])
    requires w.hist.origin[id].job.retryThreshold != 0
    ensures id in w.hist.failures && w.hist.failures[id] <= Limit(w.hist.origin[id].job.retryThreshold)
  {
    ReachableInv(w);
    var p := w.hist.place[id];
    if p.Scheduled? {
      assert EntryOk(w.hist, id, w.db.bodies[id], w.db.due[id]);
    } else {
      assert Count(At(w.db, p.k), id) == 1;
      CountPositive(At(w.db, p.k), id);
      var r :| r in At(w.db, p.k) && r.id == id;
      assert RecordOk(w.hist, p.k, r);
    }
  }

  /** A message dead-lettered for its threshold t has failed exactly t times and is stored with t - 1 attempts;
      with a negative threshold it has failed once. A threshold of 0 never dead-letters. */
  lemma ThresholdExact(w: World, q: Queue, r: Record)
    requires Reachable(w) && r in At(w.db, DeadLetter(q)) && !IsPeriodic(r)
    requires r.id in w.hist.cause && w.hist.cause[r.id] == THRESHOLD
    ensures r.id in w.hist.failures && r.job.retryThreshold != 0
    ensures w.hist.failures[r.id] == Limit(r.job.retryThreshold) == r.attempts + 1
  {
    ReachableInv(w);
    assert RecordOk(w.hist, DeadLetter(q), r);
  }

  /** Periodic messages are never re-queued and never delayed, so that a retry never overwrites their entry in
      the schedule. */
  lemma PeriodicNeverRetried(w: World, r: Record)
    requires Reachable(w) && (r in At(w.db, Requeue) || r in At(w.db, Delay))
    ensures !IsPeriodic(r) && r.id !in w.db.bodies
  {
    ReachableInv(w);
    var k := if r in At(w.db, Requeue) then Requeue else Delay;
    assert RecordOk(w.hist, k, r);
    FoundMeansOnlyThere(w.db, w.hist, k, r);
  }

  /** Publications of a periodic message without CRON, in every state: never more than its total, and it has
      left the schedule exactly when it has been published that often. A CRON message never leaves. */
  lemma PublicationCount(w: World, id: Id)
    requires Reachable(w) && id in w.hist.origin && IsPeriodic(w.hist.origin[id])
    ensures id in w.hist.published
    ensures var o := w.hist.origin[id];
      if o.job.cron.Some? then id in w.db.bodies && id in w.db.due
      else w.hist.published[id] <= Total(o)
           && (id in w.db.bodies <==> w.hist.published[id] < Total(o))
           && (id in w.db.bodies <==> id in w.db.due)
  {
    ReachableInv(w);
    assert CountOk(w.db, w.hist, id);
    if id in w.db.bodies {
      assert EntryOk(w.hist, id, w.db.bodies[id], w.db.due[id]);
    }
  }

  /** No worker ever stops on an error: every message has a queue, setScheduledDelay never throws, every due id
      has its body, and every produced message is accepted. */
  lemma WorkersNeverFail(w: World, e: Event)
    requires Reachable(w) && Enabled(w, e)
    ensures RequeueBatch(w.db, w.requeueBatch).Ok?
    ensures DelayBatch(w.db, w.delayBatch, e.now, e.slot).Ok?
    ensures e.step.DueBodies? ==> Bodies(w.db, w.dueIds).Ok?
    ensures e.step.DueFire? ==> FireEntry(w.db, w.dueBatch[e.step.i], e.now, e.slot).Ok?
    ensures e.step.Produce? ==> e.step.m.id in Apply(w, e).hist.origin
  {
    ReachableInv(w);
    RequeueBatchKeeps(w.db, w.hist, w.requeueBatch);
    DelayBatchKeeps(w.db, w.hist, w.delayBatch, e.now, e.slot);
    var v := w.(now := e.now);
    GrowsKeepsWorkers(w, v);
    if e.step.DueBodies? {
      DueBodiesKeeps(v, Apply(w, e));
    } else if e.step.DueFire? {
      DueFireKeeps(v, e.step.i, e.now, e.slot);
    } else if e.step.Produce? {
      ProduceKeeps(v, e.step.m, e.step.q, e.now, e.slot);
    }
  }

  /** A delayed message is published no earlier than its delay after it was scheduled; for a retry of a message
      with a retry delay, that delay is the retry delay. */
  lemma DelayRespected(w: World, k: Key, r: Record)
    requires Reachable(w) && r in At(w.db, k) && !IsPeriodic(r) && r.scheduledAt.Some?
    ensures r.delay.Some? && r.publishedAt.Some? && r.publishedAt.value - r.scheduledAt.value >= r.delay.value
    ensures r.attempts > 0 && r.job.retryDelay != 0 ==> r.delay.value == r.job.retryDelay >= 1000
  {
    ReachableInv(w);
    assert RecordOk(w.hist, k, r);
  }

  /** The time to live is over. */
  predicate TtlOver(r: Record, now: int) { r.job.ttl != 0 && r.job.createdAt + r.job.ttl <= now }

  predicate Hopeless(r: Record, now: int) { IsPeriodic(r) || TtlOver(r, now) || ThresholdExceeded(r) }

  /** A failed delivery is dead-lettered exactly when the message is periodic, its time to live is over or its
      threshold is reached; otherwise it is retried, after a delay exactly when it has a retry delay. */
  lemma FailureRouting(w: World, c: ConsumerId, m: Record, cause: UnackCause, now: int)
    requires Reachable(w) && At(w.db, Processing(c)) == [m] && (cause == TTL_EXPIRED ==> HasExpired(m, now))
    ensures Route(m, cause, now).ToDeadLetter? <==> Hopeless(m, now)
    ensures Hopeless(m, now) ==>
      Route(m, cause, now) == ToDeadLetter(if TtlOver(m, now) then EXPIRED else if IsPeriodic(m) then PERIODIC else THRESHOLD)
    ensures !Hopeless(m, now) ==> (Route(m, cause, now).ToDelay? <==> m.job.retryDelay >= 1000)
  {
    ReachableInv(w);
    assert m in At(w.db, Processing(c));
    assert RecordOk(w.hist, Processing(c), m);
  }

  predicate MayFail(s: Step) { s.Receive? || s.Settle? || s.GcRetry? }

  /** Steps that settle nothing leave the acknowledged and dead-letter lists alone. */
  lemma OtherStepsKeepFinal(w: World, e: Event, k: Key)
    requires Enabled(w, e) && !MayFail(e.step) && Final(k)
    ensures At(Apply(w, e).db, k) == At(w.db, k)
  {
    if e.step.RequeueCommit? {
      if RequeueBatch(w.db, w.requeueBatch).Ok? { RequeueBatchFrame(w.db, w.requeueBatch, k); }
    } else if e.step.DelayCommit? {
      if DelayBatch(w.db, w.delayBatch, e.now, e.slot).Ok? {
        DelayBatchFrame(w.db, w.delayBatch, e.now, e.slot, k);
      }
    } else if e.step.Produce? {
      ProduceFrame(w.(now := e.now), e.step.m, e.step.q, e.now, e.slot, k);
    } else if e.step.DueFire? {
      FireFinal(w.db, w.dueBatch[e.step.i], e.now, e.slot, k);
    }
  }

  lemma ProduceFrame(w: World, m: Record, q: Queue, now: int, slot: int, k: Key)
    requires !k.Pending?
    ensures At(DoProduce(w, m, q, now, slot).db, k) == At(w.db, k)
  {
  }

  lemma FireFinal(db: Db, r: Record, now: int, slot: int, k: Key)
    requires !k.Pending?
    ensures var fired := FireEntry(db, r, now, slot); fired.Ok? ==> At(fired.value, k) == At(db, k)
  {
  }

  /** Only a failed delivery of a hopeless message enters a dead-letter list, and only by itself. */
  lemma DeadLetterJustified(w: World, e: Event, q: Queue)
    requires Reachable(w) && Enabled(w, e)
    ensures var s, s' := At(w.db, DeadLetter(q)), At(Apply(w, e).db, DeadLetter(q));
      s' != s ==> exists m :: s' == s + [m] && Hopeless(m, e.now)
  {
    if !MayFail(e.step) {
      OtherStepsKeepFinal(w, e, DeadLetter(q));
    } else if e.step.GcRetry? {
      var task := w.gc[e.step.t];
      GcMovesWhatItRead(w, e.step.t);
      FailedIntoDeadLetter(w, task.c, task.m, RECOVERY, e.now, q);
    } else {
      var c := e.step.c;
      SettlementHitsTheDelivery(w, c);
      if e.step.Receive? {
        FailedIntoDeadLetter(w, c, w.consumers[c].phase.m, TTL_EXPIRED, e.now, q);
      } else if e.step.outcome.Unack? {
        FailedIntoDeadLetter(w, c, w.consumers[c].phase.m, e.step.outcome.cause, e.now, q);
      }
    }
  }

  lemma FailedIntoDeadLetter(w: World, c: ConsumerId, m: Record, cause: UnackCause, now: int, q: Queue)
    requires Reachable(w) && c in w.consumers && (At(w.db, Processing(c)) == [m] || At(w.db, Processing(c)) == [])
    ensures var s, s' := At(w.db, DeadLetter(q)), At(FailDelivery(w, c, m, cause, now).db, DeadLetter(q));
      s' != s && (cause == TTL_EXPIRED ==> HasExpired(m, now)) ==> s' == s + [m] && Hopeless(m, now)
  {
    if At(w.db, Processing(c)) == [m] && (cause == TTL_EXPIRED ==> HasExpired(m, now)) {
      FailureRouting(w, c, m, cause, now);
    }
  }

  /** A handler is never given a message whose time to live is over. */
  lemma ExpiredNeverHandled(w: World, e: Event)
    requires Reachable(w) && Enabled(w, e) && e.step.Receive?
    ensures var m := w.consumers[e.step.c].phase.m;
      && (Apply(w, e).consumers[e.step.c].phase == Handling(m) <==> !TtlOver(m, e.now))
      && (Apply(w, e).consumers[e.step.c].phase == Idle <==> TtlOver(m, e.now))
  {
    SettlementHitsTheDelivery(w, e.step.c);
    var m := w.consumers[e.step.c].phase.m;
    ReachableInv(w);
    assert m in At(w.db, Processing(e.step.c));
    assert RecordOk(w.hist, Processing(e.step.c), m);
  }

  // ---------------------------------------------------------------- settled messages stay settled

  predicate Final(k: Key) { k.Acknowledged? || k.DeadLetter? }

  lemma {:induction false} RequeueBatchFrame(db: Db, batch: seq<Record>, k: Key)
    requires Final(k) && RequeueBatch(db, batch).Ok?
    ensures At(RequeueBatch(db, batch).value, k) == At(db, k)
    decreases |batch|
  {
    if batch != [] {
      RequeueBatchFrame(RequeueOne(db, batch[0]), batch[1..], k);
    }
  }

  lemma MoveFailedFinal(db: Db, c: ConsumerId, q: Queue, d: Destination, k: Key)
    requires Final(k)
    ensures At(db, k) <= At(MoveFailed(db, c, q, d), k)
  {
  }

  /** No step takes a message out of an acknowledged or dead-letter list, or reorders it. */
  lemma StepKeepsFinal(w: World, e: Event, k: Key)
    requires Enabled(w, e) && Final(k)
    ensures At(w.db, k) <= At(Apply(w, e).db, k)
  {
    if !MayFail(e.step) {
      OtherStepsKeepFinal(w, e, k);
    } else if e.step.GcRetry? {
      var task := w.gc[e.step.t];
      MoveFailedFinal(w.db, task.c, w.consumers[task.c].queue, Route(task.m, RECOVERY, e.now), k);
    } else {
      var c := e.step.c;
      var q, m := w.consumers[c].queue, w.consumers[c].phase.m;
      if e.step.Receive? {
        MoveFailedFinal(w.db, c, q, Route(m, TTL_EXPIRED, e.now), k);
      } else if e.step.outcome.Unack? {
        MoveFailedFinal(w.db, c, q, Route(m, e.step.outcome.cause, e.now), k);
      }
    }
  }

  lemma {:induction false} RunKeepsFinal(w: World, es: seq<Event>, k: Key)
    requires IsRun(w, es) && Final(k)
    ensures At(w.db, k) <= At(After(w, es).db, k)
    decreases |es|
  {
    if es != [] {
      StepKeepsFinal(w, es[0], k);
      RunKeepsFinal(Apply(w, es[0]), es[1..], k);
    }
  }

  /** Once acknowledged or dead-lettered, a non-periodic message is never delivered again: after any
      continuation it is in no processing list and not pending. */
  lemma SettledForGood(w: World, es: seq<Event>, k: Key, r: Record, k': Key)
    requires Reachable(w) && IsRun(w, es) && Final(k) && r in At(w.db, k) && !IsPeriodic(r)
    requires k' != k
    ensures r in At(After(w, es).db, k) && Count(At(After(w, es).db, k'), r.id) == 0
  {
    var w' := After(w, es);
    ReachableInv(w);
    RunKeepsInv(w, es);
    RunKeepsFinal(w, es, k);
    FoundMeansOnlyThere(w'.db, w'.hist, k, r);
  }
}
