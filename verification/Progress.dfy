/**
 * What does happen: production, delivery and each worker's tick, from every reachable state, with the exact state that
 * follows. The invariant says what never goes wrong; these theorems say that messages move on.
 */
module Progress {
  import opened Wrappers
  import opened Messages
  import opened Redis
  import opened Scheduler
  import opened Handlers
  import opened Protocol
  import opened StoreInvariant
  import opened ProtocolInvariant
  import opened ProtocolTheorems
  import opened Deliveries
  import opened MessageManager

  lemma RunOfTwo(w: World, e0: Event, e1: Event)
    requires Enabled(w, e0) && Enabled(Apply(w, e0), e1)
    ensures IsRun(w, [e0, e1]) && After(w, [e0, e1]) == Apply(Apply(w, e0), e1)
  {
    var w1 := Apply(w, e0);
    var w2 := Apply(w1, e1);
    var es := [e0, e1];
    assert es[1..][0] == e1 && es[1..][1..] == [];
    assert IsRun(w2, []) && After(w2, []) == w2;
    assert IsRun(w1, es[1..]) && After(w1, es[1..]) == w2;
  }

  // ---------------------------------------------------------------- production

  /** The message as its producer built it, for queue q. */
  predicate AsBuilt(r: Record, m: Record, q: Queue) {
    r.id == m.id && r.job == m.job && r.body == m.body && r.priority == m.priority && r.delay == m.delay
    && r.queue == Some(q) && r.attempts == 0 && !r.expired
  }

  /** The first time of a schedulable message: after its delay, or at the next CRON slot, or one period from now. */
  function FirstTime(m: Record, now: int, slot: int): int {
    if m.delay.Some? then now + m.delay.value
    else if m.job.cron.Some? then slot
    else now + m.job.period.GetOr(0)
  }

  /** The message is in the schedule, due at its first time, and in no list; nothing else changed. */
  ghost predicate EntersSchedule(db: Db, db': Db, m: Record, q: Queue, now: int, slot: int) {
    && m.id in db'.bodies && AsBuilt(db'.bodies[m.id], m, q) && db'.bodies[m.id].scheduledAt == Some(now)
    && db' == db.(due := db.due[m.id := FirstTime(m, now, slot)], bodies := db.bodies[m.id := db'.bodies[m.id]])
    && forall k :: Count(At(db', k), m.id) == 0
  }

  /** The message is the newest of its pending list, published now; nothing else changed. */
  ghost predicate EntersPending(db: Db, db': Db, m: Record, q: Queue, now: int) {
    && db' == db.(lists := db'.lists) && (forall k :: k != Pending(q) ==> At(db', k) == At(db, k))
    && exists x :: At(db', Pending(q)) == At(db, Pending(q)) + [x]
                   && AsBuilt(x, m, q) && x.publishedAt == Some(now) && x.scheduledAt == None
  }

  lemma ScheduleEnters(db: Db, m: Record, q: Queue, now: int, slot: int)
    requires WellFormed(m) && IsSchedulable(Produced(m, q)) && 0 < now < slot
    requires forall k :: Count(At(db, k), m.id) == 0
    ensures Schedule(db, Produced(m, q), now, slot).1
    ensures EntersSchedule(db, Schedule(db, Produced(m, q), now, slot).0, m, q, now, slot)
  {
    var r := Produced(m, q);
    ProducedIsFresh(m, q);
    ScheduleAccepts(r, now, slot);
    if m.delay.Some? { DelayFirst(r, now, slot); } else { FirstWithoutDelay(r, now, slot); }
    NextAsBuilt(r, m, q, now, slot);
    var db' := Schedule(db, r, now, slot).0;
    assert forall k :: At(db', k) == At(db, k);
  }

  lemma NextAsBuilt(r: Record, m: Record, q: Queue, now: int, slot: int)
    requires AsBuilt(r, m, q)
    ensures AsBuilt(Next(r, now, slot).record, m, q)
  {
  }

  lemma PendingEnters(db: Db, m: Record, q: Queue, now: int)
    ensures EntersPending(db, RPush(db, Pending(q), Published(Produced(m, q), now)), m, q, now)
  {
    var x := Published(Produced(m, q), now);
    assert AsBuilt(x, m, q) && x.publishedAt == Some(now) && x.scheduledAt == None;
  }

  /** From every state with the invariant, every well-formed message with a fresh id is taken. With a delay, CRON or repeat
      it is in the schedule, due at its first time, and in no list; any other message is the newest of its pending list,
      published now. Nothing else changes. */
  lemma ProduceExactly(w: World, m: Record, q: Queue, now: int, slot: int)
    requires Inv(w) && WellFormed(m) && m.id !in w.hist.origin && w.now <= now && 0 < now < slot
    ensures var e := Event(Produce(m, q), now, slot);
      && Enabled(w, e)
      && var w' := Apply(w, e);
        && m.id in w'.hist.origin && AsBuilt(w'.hist.origin[m.id], m, q)
        && if m.delay.Some? || m.job.cron.Some? || m.job.repeat > 0 then
             EntersSchedule(w.db, w'.db, m, q, now, slot)
           else EntersPending(w.db, w'.db, m, q, now)
  {
    NowhereYet(w.db, w.hist, m.id);
    ProduceFrom(w.(now := now), m, q, now, slot);
  }

  lemma ProduceFrom(w: World, m: Record, q: Queue, now: int, slot: int)
    requires WellFormed(m) && 0 < now < slot && forall k :: Count(At(w.db, k), m.id) == 0
    ensures var w' := DoProduce(w, m, q, now, slot);
      && m.id in w'.hist.origin && AsBuilt(w'.hist.origin[m.id], m, q)
      && if m.delay.Some? || m.job.cron.Some? || m.job.repeat > 0 then
           EntersSchedule(w.db, w'.db, m, q, now, slot)
         else EntersPending(w.db, w'.db, m, q, now)
  {
    if IsSchedulable(Produced(m, q)) {
      ScheduleEnters(w.db, m, q, now, slot);
    } else {
      PendingEnters(w.db, m, q, now);
    }
  }

  /** In every run, what is remembered of a message is what its Produce event says, whatever happens later. */
  lemma {:induction false} OriginIsProduced(w: World, es: seq<Event>, i: nat)
    requires Inv(w) && IsRun(w, es) && i < |es| && es[i].step.Produce?
    ensures var m, o := es[i].step.m, After(w, es).hist.origin;
      m.id in o && AsBuilt(o[m.id], m, es[i].step.q)
    decreases |es|
  {
    var e, w1 := es[0], Apply(w, es[0]);
    if i == 0 {
      ProduceExactly(w, e.step.m, e.step.q, e.now, e.slot);
      RunKeepsOrigin(w1, es[1..], e.step.m.id);
    } else {
      StepKeepsInv(w, e);
      OriginIsProduced(w1, es[1..], i - 1);
    }
  }

  /** And every message that is remembered was produced by an event of the run. */
  lemma {:induction false} OriginOnlyProduced(w: World, es: seq<Event>, id: Id)
    requires IsRun(w, es) && id in After(w, es).hist.origin && id !in w.hist.origin
    ensures exists e :: e in es && e.step.Produce? && e.step.m.id == id
    decreases |es|
  {
    var e, w1 := es[0], Apply(w, es[0]);
    if id in w1.hist.origin {
      NewOrigin(w, e, id);
      assert e in es;
    } else {
      OriginOnlyProduced(w1, es[1..], id);
    }
  }

  lemma NewOrigin(w: World, e: Event, id: Id)
    requires Enabled(w, e) && id in Apply(w, e).hist.origin && id !in w.hist.origin
    ensures e.step.Produce? && e.step.m.id == id
  {
    if !e.step.Produce? && !e.step.DueFire? {
      if MayFail(e.step) { RunCounts.MoveKeepsCounts(w, e); } else { RunCounts.QuietStepCounts(w, e); }
    }
  }

  // ---------------------------------------------------------------- deliveries

  /** Where a failed message goes: to the end of the dead-letter list if hopeless, else to the head of delay if it has a
      retry delay, else to the head of requeue. */
  ghost predicate FailsOver(db: Db, db': Db, q: Queue, m: Record, now: int) {
    if Hopeless(m, now) then At(db', DeadLetter(q)) == At(db, DeadLetter(q)) + [m]
    else if m.job.retryDelay != 0 then At(db', Delay) == [m] + At(db, Delay)
    else At(db', Requeue) == [m] + At(db, Requeue)
  }

  lemma MoveFailsOver(db: Db, c: ConsumerId, q: Queue, m: Record, cause: UnackCause, now: int)
    requires At(db, Processing(c)) == [m] && !m.expired && (cause == TTL_EXPIRED ==> TtlOver(m, now))
    ensures var db' := MoveFailed(db, c, q, Route(m, cause, now));
      FailsOver(db, db', q, m, now) && At(db', Processing(c)) == []
  {
  }

  /** A message in processing has not been marked as expired. */
  lemma ProcessedNotExpired(w: World, k: Key, m: Record)
    requires Inv(w) && m in At(w.db, k)
    ensures !m.expired
  {
    assert RecordOk(w.hist, k, m);
  }

  lemma DequeueTakes(w: World, c: ConsumerId, now: int, slot: int)
    requires c in w.consumers && w.consumers[c].phase.Idle? && At(w.db, Processing(c)) == []
    requires At(w.db, Pending(w.consumers[c].queue)) != [] && w.now <= now && 0 < now < slot
    ensures var q, e := w.consumers[c].queue, Event(DequeueBy(c), now, slot);
      var s := At(w.db, Pending(q));
      && Enabled(w, e)
      && var w' := Apply(w, e);
        && c in w'.consumers && w'.consumers[c] == Consumer(q, Received(s[|s| - 1])) && w'.now == now
        && At(w'.db, Processing(c)) == [s[|s| - 1]] && At(w'.db, Pending(q)) == s[..|s| - 1]
        && At(w'.db, DeadLetter(q)) == At(w.db, DeadLetter(q))
  {
  }

  lemma ReceiveDecides(w: World, c: ConsumerId, m: Record, now: int, slot: int)
    requires c in w.consumers && w.consumers[c].phase == Received(m) && At(w.db, Processing(c)) == [m] && !m.expired
    requires w.now <= now && 0 < now < slot
    ensures var q, e := w.consumers[c].queue, Event(Receive(c), now, slot);
      && Enabled(w, e)
      && var w' := Apply(w, e);
        && c in w'.consumers && At(w'.db, Pending(q)) == At(w.db, Pending(q))
        && if TtlOver(m, now) then
             && w'.consumers[c].phase == Idle && At(w'.db, Processing(c)) == []
             && At(w'.db, DeadLetter(q)) == At(w.db, DeadLetter(q)) + [m]
           else w'.consumers[c].phase == Handling(m) && At(w'.db, Processing(c)) == [m]
  {
    if TtlOver(m, now) { MoveFailsOver(w.db, c, w.consumers[c].queue, m, TTL_EXPIRED, now); }
  }

  /** An idle consumer takes the last message of its pending list. If its time to live is over, it goes to the dead-letter
      list at once; otherwise the handler gets it. */
  lemma TakeCompletes(w: World, c: ConsumerId, now: int, slot: int)
    requires Inv(w) && c in w.consumers && w.consumers[c].phase.Idle? && w.now <= now && 0 < now < slot
    requires At(w.db, Pending(w.consumers[c].queue)) != []
    ensures var q := w.consumers[c].queue;
      var s := At(w.db, Pending(q));
      var m := s[|s| - 1];
      var es := [Event(DequeueBy(c), now, slot), Event(Receive(c), now, slot)];
      && IsRun(w, es)
      && var w' := After(w, es);
        && c in w'.consumers && At(w'.db, Pending(q)) == s[..|s| - 1]
        && if TtlOver(m, now) then
             && w'.consumers[c].phase == Idle && At(w'.db, Processing(c)) == []
             && At(w'.db, DeadLetter(q)) == At(w.db, DeadLetter(q)) + [m]
           else w'.consumers[c].phase == Handling(m) && At(w'.db, Processing(c)) == [m]
  {
    var q := w.consumers[c].queue;
    var m := At(w.db, Pending(q))[|At(w.db, Pending(q))| - 1];
    var e0, e1 := Event(DequeueBy(c), now, slot), Event(Receive(c), now, slot);
    assert ConsumerOk(w.consumers[c], At(w.db, Processing(c)));
    ProcessedNotExpired(w, Pending(q), m);
    DequeueTakes(w, c, now, slot);
    ReceiveDecides(Apply(w, e0), c, m, now, slot);
    RunOfTwo(w, e0, e1);
  }

  /** A settlement takes the message where it belongs and leaves the consumer idle with an empty list: to the end of the
      acknowledged list, or where failed messages go. */
  lemma SettleCompletes(w: World, c: ConsumerId, o: Outcome, now: int, slot: int)
    requires Inv(w) && c in w.consumers && w.consumers[c].phase.Handling? && w.now <= now && 0 < now < slot
    requires o.Unack? ==> o.cause in {UNACKNOWLEDGED, CAUGHT_ERROR, TIMEOUT}
    ensures var q, m := w.consumers[c].queue, w.consumers[c].phase.m;
      var e := Event(Settle(c, o), now, slot);
      && Enabled(w, e)
      && var w' := Apply(w, e);
        && c in w'.consumers && w'.consumers[c] == Consumer(q, Idle) && At(w'.db, Processing(c)) == []
        && if o.Ack? then At(w'.db, Acknowledged(q)) == At(w.db, Acknowledged(q)) + [m]
           else FailsOver(w.db, w'.db, q, m, now)
  {
    var q, m := w.consumers[c].queue, w.consumers[c].phase.m;
    assert At(w.db, Processing(c)) == [m] by {
      assert ConsumerOk(w.consumers[c], At(w.db, Processing(c)));
    }
    ProcessedNotExpired(w, Processing(c), m);
    if o.Unack? { MoveFailsOver(w.db, c, q, m, o.cause, now); }
  }

  // ---------------------------------------------------------------- the requeue worker

  /** The record one failed attempt later; a dropped body has come back as null. */
  function OneAttemptMore(r: Record): Record { r.(attempts := r.attempts + 1, body := Some(BodyOf(r))) }

  /** How many messages a tick takes of a list. */
  function TickSize(s: seq<Record>): nat { if |s| <= 100 then |s| else 100 }

  lemma {:induction false} RequeueBatchMoves(db: Db, batch: seq<Record>)
    requires batch <= At(db, Requeue) && RequeueBatch(db, batch).Ok?
    ensures var db' := RequeueBatch(db, batch).value;
      && At(db', Requeue) == At(db, Requeue)[|batch|..]
      && (forall q, x :: x in At(db, Pending(q)) ==> x in At(db', Pending(q)))
      && (forall r :: r in batch ==> r.queue.Some? && OneAttemptMore(r) in At(db', Pending(r.queue.value)))
    decreases |batch|
  {
    if batch != [] {
      var r, s := batch[0], At(db, Requeue);
      var db1 := RequeueOne(db, r);
      assert s[0] == r && At(db1, Requeue) == s[1..];
      assert OneAttemptMore(r) in At(db1, Pending(r.queue.value));
      assert batch[1..] <= s[1..];
      RequeueBatchMoves(db1, batch[1..]);
      assert s[1..][|batch| - 1..] == s[|batch|..];
    }
  }

  /** A prefix of a list without duplicates: what it holds is not in the rest. */
  lemma OnlyInPrefix(s: seq<Record>, n: nat, r: Record)
    requires n <= |s| && r in s[..n] && Count(s, r.id) <= 1
    ensures Count(s[n..], r.id) == 0
  {
    assert s == s[..n] + s[n..];
    CountConcat(s[..n], s[n..], r.id);
    CountMember(s[..n], r);
  }

  lemma OnceListed(w: World, k: Key, r: Record)
    requires Inv(w) && (k.Requeue? || k.Delay?) && r in At(w.db, k)
    ensures Count(At(w.db, k), r.id) <= 1 && r.queue.Some?
  {
    assert RecordOk(w.hist, k, r);
    OnceInRetryList(w.db, w.hist, k, r);
  }

  function RequeueTickEvents(now: int, slot: int): seq<Event> {
    [Event(RequeueRead, now, slot), Event(RequeueCommit, now, slot)]
  }

  lemma RequeueTickRuns(w: World, now: int, slot: int)
    requires Inv(w) && w.requeueBatch == [] && w.now <= now && 0 < now < slot
    ensures IsRun(w, RequeueTickEvents(now, slot))
    ensures RequeueBatch(w.db, FirstN(At(w.db, Requeue), BATCH)) == Ok(After(w, RequeueTickEvents(now, slot)).db)
    ensures After(w, RequeueTickEvents(now, slot)).requeueBatch == []
  {
    var batch := FirstN(At(w.db, Requeue), BATCH);
    ReadBatchOk(w.db, w.hist, Requeue);
    RequeueBatchKeeps(w.db, w.hist, batch);
    RunOfTwo(w, Event(RequeueRead, now, slot), Event(RequeueCommit, now, slot));
  }

  /** From every reachable state in which the requeue worker holds no batch, a tick takes the first messages of the list,
      at most a hundred, and puts each back into its pending list with one attempt more; the rest of the list stays. */
  lemma RequeueTickCompletes(w: World, now: int, slot: int)
    requires Reachable(w) && w.requeueBatch == [] && w.now <= now && 0 < now < slot
    ensures var s, n := At(w.db, Requeue), TickSize(At(w.db, Requeue));
      && IsRun(w, RequeueTickEvents(now, slot))
      && var w' := After(w, RequeueTickEvents(now, slot));
        && w'.requeueBatch == [] && At(w'.db, Requeue) == s[n..]
        && forall i :: 0 <= i < n ==>
             && s[i].queue.Some? && OneAttemptMore(s[i]) in At(w'.db, Pending(s[i].queue.value))
             && Count(At(w'.db, Requeue), s[i].id) == 0
  {
    ReachableInv(w);
    RequeueTickRuns(w, now, slot);
    var s, n := At(w.db, Requeue), TickSize(At(w.db, Requeue));
    var batch := FirstN(s, BATCH);
    assert batch == s[..n];
    RequeueBatchMoves(w.db, batch);
    forall i | 0 <= i < n ensures s[i] in batch && Count(s[n..], s[i].id) == 0 {
      assert s[i] in s && batch[i] == s[i];
      OnceListed(w, Requeue, s[i]);
      OnlyInPrefix(s, n, s[i]);
    }
  }

  // ---------------------------------------------------------------- the delay worker

  /** The schedule entry of a delayed retry. */
  predicate WaitsForRetry(db: Db, r: Record, now: int) {
    && r.id in db.bodies && r.id in db.due && db.due[r.id] == now + r.job.retryDelay
    && db.bodies[r.id] ==
         OneAttemptMore(r).(delay := Some(r.job.retryDelay), delayed := true, scheduledAt := Some(now))
  }

  lemma DelayOneMoves(db: Db, h: History, r: Record, now: int, slot: int)
    requires StoreOk(db, h) && At(db, Delay) != [] && At(db, Delay)[0] == r && 0 < now < slot
    ensures DelayOne(db, r, now, slot).Ok?
    ensures var db' := DelayOne(db, r, now, slot).value;
      At(db', Delay) == At(db, Delay)[1..] && WaitsForRetry(db', r, now)
  {
    DelayNeverFails(db, h, r, now, slot);
  }

  lemma StillWaits(db: Db, db': Db, r: Record, now: int)
    requires WaitsForRetry(db, r, now) && OnlyDelay(db, db')
    ensures WaitsForRetry(db', r, now)
  {
  }

  lemma {:induction false} DelayBatchMoves(db: Db, h: History, batch: seq<Record>, now: int, slot: int)
    requires StoreOk(db, h) && BatchOk(db, Delay, batch) && batch <= At(db, Delay) && 0 < now < slot
    ensures DelayBatch(db, batch, now, slot).Ok?
    ensures At(DelayBatch(db, batch, now, slot).value, Delay) == At(db, Delay)[|batch|..]
    ensures forall r :: r in batch ==> WaitsForRetry(DelayBatch(db, batch, now, slot).value, r, now)
    decreases |batch|
  {
    if batch != [] {
      var r, s := batch[0], At(db, Delay);
      DelayOneMoves(db, h, r, now, slot);
      DelayOneKeepsStore(db, h, r, now, slot);
      var db1, h1 := DelayOne(db, r, now, slot).value, Placed(h, r, Scheduled);
      assert BatchOk(db1, Delay, batch[1..]) by {
        DelayOneFrame(db, h, r, now, slot);
        BatchTail(db, db1, Delay, batch);
      }
      DelayBatchMoves(db1, h1, batch[1..], now, slot);
      var db' := DelayBatch(db1, batch[1..], now, slot).value;
      assert WaitsForRetry(db', r, now) by {
        DelayBatchKeeps(db1, h1, batch[1..], now, slot);
        StillWaits(db1, db', r, now);
      }
      assert s[1..][|batch| - 1..] == s[|batch|..];
    }
  }

  function DelayTickEvents(now: int, slot: int): seq<Event> {
    [Event(DelayRead, now, slot), Event(DelayCommit, now, slot)]
  }

  lemma DelayTickRuns(w: World, now: int, slot: int)
    requires Inv(w) && w.delayBatch == [] && w.now <= now && 0 < now < slot
    ensures IsRun(w, DelayTickEvents(now, slot))
    ensures DelayBatch(w.db, FirstN(At(w.db, Delay), BATCH), now, slot) == Ok(After(w, DelayTickEvents(now, slot)).db)
    ensures After(w, DelayTickEvents(now, slot)).delayBatch == []
  {
    var batch := FirstN(At(w.db, Delay), BATCH);
    ReadBatchOk(w.db, w.hist, Delay);
    DelayBatchKeeps(w.db, w.hist, batch, now, slot);
    RunOfTwo(w, Event(DelayRead, now, slot), Event(DelayCommit, now, slot));
  }

  /** From every reachable state in which the delay worker holds no batch, a tick takes the first messages of the list, at
      most a hundred, and puts each into the schedule, due exactly its retry delay later, with one attempt more; the rest
      of the list stays. */
  lemma DelayTickCompletes(w: World, now: int, slot: int)
    requires Reachable(w) && w.delayBatch == [] && w.now <= now && 0 < now < slot
    ensures var s, n := At(w.db, Delay), TickSize(At(w.db, Delay));
      && IsRun(w, DelayTickEvents(now, slot))
      && var w' := After(w, DelayTickEvents(now, slot));
        && w'.delayBatch == [] && At(w'.db, Delay) == s[n..]
        && forall i :: 0 <= i < n ==>
             s[i].job.retryDelay >= 1000 && WaitsForRetry(w'.db, s[i], now) && Count(At(w'.db, Delay), s[i].id) == 0
  {
    ReachableInv(w);
    DelayTickRuns(w, now, slot);
    var s, n := At(w.db, Delay), TickSize(At(w.db, Delay));
    var batch := FirstN(s, BATCH);
    assert batch == s[..n];
    ReadBatchOk(w.db, w.hist, Delay);
    DelayBatchMoves(w.db, w.hist, batch, now, slot);
    forall i | 0 <= i < n
      ensures s[i] in batch && s[i].job.retryDelay >= 1000 && Count(s[n..], s[i].id) == 0
    {
      assert s[i] in s && batch[i] == s[i];
      assert RecordOk(w.hist, Delay, s[i]);
      OnceListed(w, Delay, s[i]);
      OnlyInPrefix(s, n, s[i]);
    }
  }

  // ---------------------------------------------------------------- the schedule worker

  /** The id is in the schedule and its time has come. */
  predicate IsDue(db: Db, id: Id, now: int) { id in db.due && db.due[id] <= now }

  /** ids lists the due ids, each once. */
  ghost predicate ListsDue(db: Db, ids: seq<Id>, now: int) {
    Distinct(ids) && forall id :: id in ids <==> IsDue(db, id, now)
  }

  lemma {:induction false} ListIds(s: set<Id>) returns (ids: seq<Id>)
    ensures Distinct(ids) && forall id :: id in ids <==> id in s
    decreases s
  {
    if s == {} {
      ids := [];
    } else {
      var id :| id in s;
      var rest := ListIds(s - {id});
      ids := [id] + rest;
    }
  }

  /** There is always such a list. */
  lemma DueListed(db: Db, now: int) returns (ids: seq<Id>)
    ensures ListsDue(db, ids, now)
  {
    ids := ListIds(set id | id in db.due && db.due[id] <= now);
  }

  /** What one firing leaves of the entry: a message without CRON is gone after its last firing, and waits exactly a period
      otherwise; a CRON message waits a period for a repeat or for the next slot. */
  predicate Rearmed(r: Record, db: Db, now: int, slot: int) {
    var again := now + r.job.period.GetOr(0);
    if r.job.cron.Some? then
      && r.id in db.bodies && r.id in db.due
      && db.due[r.id] == (if r.cronFired && r.repeatCount < Repeats(r) && again < slot then again else slot)
    else if Remaining(r) == 1 then r.id !in db.bodies && r.id !in db.due
    else r.id in db.bodies && r.id in db.due && db.due[r.id] == again && Remaining(db.bodies[r.id]) == Remaining(r) - 1
  }

  /** The copy that is published: the entry as it was stored, with the time of publication. */
  function PublishedCopy(r: Record, now: int): Record { r.(publishedAt := Some(now), body := Some(BodyOf(r))) }

  /** Entries that can be fired. */
  ghost predicate Fireable(db: Db, h: History, batch: seq<Record>) {
    && db.due.Keys == db.bodies.Keys && DistinctRecords(batch)
    && forall r :: r in batch ==> r.id in db.bodies && db.bodies[r.id] == r && EntryOk(h, r.id, r, db.due[r.id])
  }

  lemma FiredEntry(db: Db, h: History, r: Record, now: int, slot: int)
    requires db.due.Keys == db.bodies.Keys && r.id in db.bodies && EntryOk(h, r.id, r, db.due[r.id]) && 0 < now < slot
    ensures r.queue.Some? && FireEntry(db, r, now, slot).Ok?
    ensures var db' := FireEntry(db, r, now, slot).value;
      && (forall k :: At(db', k) == At(db, k) + if k == Pending(r.queue.value) then [PublishedCopy(r, now)] else [])
      && db'.due.Keys == db'.bodies.Keys && Rearmed(r, db', now, slot)
      && SameEntriesBut(db, db', {r.id})
  {
    FireEntryShape(db, r, now, slot);
    if r.job.cron.Some? {
      CronRepeatExactly(Republished(r, now), now, slot);
    } else {
      FireStep(r, now, slot);
    }
    assert Republished(r, now) == PublishedCopy(r, now);
  }

  /** The schedule has the same entries, except those of the ids. */
  ghost predicate SameEntriesBut(db: Db, db': Db, ids: set<Id>) {
    forall id :: id !in ids ==>
      && (id in db'.bodies <==> id in db.bodies) && (id in db'.due <==> id in db.due)
      && (id in db.bodies ==> db'.bodies[id] == db.bodies[id]) && (id in db.due ==> db'.due[id] == db.due[id])
  }

  lemma RestFireable(db: Db, db': Db, h: History, batch: seq<Record>)
    requires batch != [] && Fireable(db, h, batch) && SameEntriesBut(db, db', {batch[0].id})
    requires db'.due.Keys == db'.bodies.Keys
    ensures Fireable(db', h, batch[1..])
  {
    forall r | r in batch[1..]
      ensures r.id in db'.bodies && db'.bodies[r.id] == r && EntryOk(h, r.id, r, db'.due[r.id])
    {
      var i :| 0 <= i < |batch[1..]| && batch[1..][i] == r;
      assert batch[i + 1] == r && r in batch && batch[0].id != r.id;
    }
  }

  /** The copies that a batch adds to list k, in order. */
  function NewCopies(batch: seq<Record>, k: Key, now: int): seq<Record> {
    if batch == [] then []
    else (if batch[0].queue.Some? && k == Pending(batch[0].queue.value) then [PublishedCopy(batch[0], now)] else [])
         + NewCopies(batch[1..], k, now)
  }

  ghost function Ids(batch: seq<Record>): set<Id> { set r | r in batch :: r.id }

  /** A whole batch: every list gains exactly the copies of its entries, every entry is re-armed or gone, and no other
      entry changes. */
  lemma {:induction false} FireBatchExactly(db: Db, h: History, batch: seq<Record>, now: int, slot: int)
    requires Fireable(db, h, batch) && 0 < now < slot
    ensures var (db', thrown) := FireBatch(db, batch, now, slot);
      && !thrown && (forall k :: At(db', k) == At(db, k) + NewCopies(batch, k, now))
      && (forall r :: r in batch ==> Rearmed(r, db', now, slot))
      && SameEntriesBut(db, db', Ids(batch))
    decreases |batch|
  {
    if batch != [] {
      var r, rest := batch[0], batch[1..];
      assert r in batch;
      FiredEntry(db, h, r, now, slot);
      var db1 := FireEntry(db, r, now, slot).value;
      RestFireable(db, db1, h, batch);
      FireBatchExactly(db1, h, rest, now, slot);
      FirstAndRest(db, db1, FireBatch(db1, rest, now, slot).0, batch, now, slot);
    }
  }

  lemma FirstAndRest(db: Db, db1: Db, db': Db, batch: seq<Record>, now: int, slot: int)
    requires batch != [] && DistinctRecords(batch) && batch[0].queue.Some?
    requires forall k :: At(db1, k) == At(db, k) + if k == Pending(batch[0].queue.value) then [PublishedCopy(batch[0], now)] else []
    requires forall k :: At(db', k) == At(db1, k) + NewCopies(batch[1..], k, now)
    requires Rearmed(batch[0], db1, now, slot) && forall r :: r in batch[1..] ==> Rearmed(r, db', now, slot)
    requires SameEntriesBut(db, db1, {batch[0].id}) && SameEntriesBut(db1, db', Ids(batch[1..]))
    ensures forall k :: At(db', k) == At(db, k) + NewCopies(batch, k, now)
    ensures forall r :: r in batch ==> Rearmed(r, db', now, slot)
    ensures SameEntriesBut(db, db', Ids(batch))
  {
    var first := batch[0];
    assert first.id !in Ids(batch[1..]) by {
      forall r | r in batch[1..] ensures r.id != first.id {
        var i :| 0 <= i < |batch[1..]| && batch[1..][i] == r;
        assert batch[i + 1] == r;
      }
    }
    forall r | r in batch ensures Rearmed(r, db', now, slot) {
      if r !in batch[1..] { assert r == first; }
    }
    assert first in batch && forall r :: r in batch[1..] ==> r in batch;
  }

  function ScheduleTickEvents(ids: seq<Id>, now: int, slot: int): seq<Event> {
    [Event(DueIds(ids), now, slot), Event(DueBodies, now, slot)] + Fires(|ids|, now, slot)
  }

  lemma EntryStored(w: World, id: Id)
    requires Inv(w) && id in w.db.due
    ensures id in w.db.bodies && w.db.due[id] > 0 && w.db.bodies[id].id == id && w.db.bodies[id].queue.Some?
    ensures EntryOk(w.hist, id, w.db.bodies[id], w.db.due[id])
  {
    assert id in w.db.bodies.Keys;
  }

  lemma BodiesExactly(db: Db, ids: seq<Id>)
    requires forall id :: id in ids ==> id in db.bodies
    ensures Bodies(db, ids).Ok? && |Bodies(db, ids).value| == |ids|
    ensures forall i :: 0 <= i < |ids| ==> ids[i] in db.bodies && Bodies(db, ids).value[i] == db.bodies[ids[i]]
  {
    assert forall i :: 0 <= i < |ids| ==> ids[i] in ids;
  }

  lemma FetchRuns(w: World, ids: seq<Id>, now: int, slot: int)
    requires w.dueIds == [] && w.dueBatch == [] && w.now <= now && 0 < now < slot && Distinct(ids)
    requires forall id :: id in ids <==> id in w.db.due && 0 <= w.db.due[id] <= now
    requires Bodies(w.db, ids).Ok?
    ensures var es := [Event(DueIds(ids), now, slot), Event(DueBodies, now, slot)];
      IsRun(w, es) && After(w, es) == w.(now := now, dueBatch := Bodies(w.db, ids).value)
  {
    RunOfTwo(w, Event(DueIds(ids), now, slot), Event(DueBodies, now, slot));
  }

  /** Fetching gives the stored body of each due id, one for one. */
  lemma FetchExactly(w: World, ids: seq<Id>, now: int, slot: int)
    requires Inv(w) && w.dueIds == [] && w.dueBatch == [] && w.now <= now && 0 < now < slot && ListsDue(w.db, ids, now)
    ensures var es := [Event(DueIds(ids), now, slot), Event(DueBodies, now, slot)];
      && IsRun(w, es)
      && var w' := After(w, es);
        && w' == w.(now := now, dueBatch := w'.dueBatch) && |w'.dueBatch| == |ids|
        && forall i :: 0 <= i < |ids| ==>
             ids[i] in w.db.bodies && w'.dueBatch[i] == w.db.bodies[ids[i]] && w'.dueBatch[i].id == ids[i]
  {
    forall id | id in w.db.due ensures id in w.db.bodies && 0 < w.db.due[id] && w.db.bodies[id].id == id {
      EntryStored(w, id);
    }
    assert forall id :: id in ids <==> IsDue(w.db, id, now);
    assert forall id :: id in ids <==> id in w.db.due && 0 <= w.db.due[id] <= now;
    BodiesExactly(w.db, ids);
    FetchRuns(w, ids, now, slot);
    assert forall i :: 0 <= i < |ids| ==> ids[i] in ids;
  }

  lemma {:induction false} RunConcat(w: World, a: seq<Event>, b: seq<Event>)
    requires IsRun(w, a) && IsRun(After(w, a), b)
    ensures IsRun(w, a + b) && After(w, a + b) == After(After(w, a), b)
    decreases |a|
  {
    if a == [] {
      assert a + b == b;
    } else {
      assert (a + b)[1..] == a[1..] + b;
      RunConcat(Apply(w, a[0]), a[1..], b);
    }
  }

  lemma {:induction false} CopiesCount(batch: seq<Record>, k: Key, now: int, id: Id)
    requires DistinctRecords(batch) && forall r :: r in batch ==> r.queue.Some?
    ensures forall r :: r in batch && r.id == id ==>
      && Count(NewCopies(batch, k, now), id) == (if k == Pending(r.queue.value) then 1 else 0)
      && (k == Pending(r.queue.value) ==> PublishedCopy(r, now) in NewCopies(batch, k, now))
    ensures id !in Ids(batch) ==> Count(NewCopies(batch, k, now), id) == 0
  {
    if batch != [] {
      var first, rest := batch[0], batch[1..];
      assert first in batch && forall r :: r in rest ==> r in batch;
      CopiesCount(rest, k, now, id);
      assert forall r :: r in batch ==> r == first || r in rest;
      var mine := if k == Pending(first.queue.value) then [PublishedCopy(first, now)] else [];
      CountConcat(mine, NewCopies(rest, k, now), id);
      forall r | r in rest ensures r.id != first.id {
        var i :| 0 <= i < |rest| && rest[i] == r;
        assert batch[i + 1] == r;
      }
    }
  }

  /** A tick of the schedule worker with the due ids in any order. */
  lemma ScheduleTickRuns(w: World, ids: seq<Id>, now: int, slot: int) returns (batch: seq<Record>)
    requires Inv(w) && w.dueIds == [] && w.dueBatch == [] && w.now <= now && 0 < now < slot && ListsDue(w.db, ids, now)
    ensures IsRun(w, ScheduleTickEvents(ids, now, slot))
    ensures var w' := After(w, ScheduleTickEvents(ids, now, slot));
      w'.dueBatch == [] && (w'.db, false) == FireBatch(w.db, batch, now, slot)
    ensures |batch| == |ids| && Fireable(w.db, w.hist, batch)
    ensures forall i :: 0 <= i < |ids| ==> ids[i] in w.db.bodies && batch[i] == w.db.bodies[ids[i]] && batch[i].id == ids[i]
  {
    var fetch := [Event(DueIds(ids), now, slot), Event(DueBodies, now, slot)];
    FetchExactly(w, ids, now, slot);
    var w2 := After(w, fetch);
    batch := w2.dueBatch;
    RunKeepsInv(w, fetch);
    FireBatchFrom(w2, now, slot);
    RunConcat(w, fetch, Fires(|ids|, now, slot));
    forall r | r in batch ensures r.id in w.db.bodies && w.db.bodies[r.id] == r && EntryOk(w.hist, r.id, r, w.db.due[r.id]) {
      var i :| 0 <= i < |batch| && batch[i] == r;
      assert ids[i] in w.db.bodies;
    }
  }

  /** What a tick does for the message and list in question. */
  ghost predicate TickDone(db: Db, db': Db, now: int, slot: int, id: Id, k: Key) {
    if IsDue(db, id, now) then
      && id in db.bodies && db.bodies[id].id == id && db.bodies[id].queue.Some?
      && var r := db.bodies[id];
        && Count(At(db', k), id) == Count(At(db, k), id) + (if k == Pending(r.queue.value) then 1 else 0)
        && PublishedCopy(r, now) in At(db', Pending(r.queue.value)) && Rearmed(r, db', now, slot)
    else
      && Count(At(db', k), id) == Count(At(db, k), id)
      && (id in db'.bodies <==> id in db.bodies) && (id in db'.due <==> id in db.due)
      && (id in db.bodies ==> db'.bodies[id] == db.bodies[id]) && (id in db.due ==> db'.due[id] == db.due[id])
  }

  lemma BatchDone(db: Db, db': Db, batch: seq<Record>, now: int, slot: int, id: Id, k: Key)
    requires DistinctRecords(batch) && forall r :: r in batch ==> r.id in db.bodies && db.bodies[r.id] == r && r.queue.Some?
    requires IsDue(db, id, now) <==> id in Ids(batch)
    requires forall k :: At(db', k) == At(db, k) + NewCopies(batch, k, now)
    requires forall r :: r in batch ==> Rearmed(r, db', now, slot)
    requires SameEntriesBut(db, db', Ids(batch))
    ensures TickDone(db, db', now, slot, id, k)
  {
    CountConcat(At(db, k), NewCopies(batch, k, now), id);
    CopiesCount(batch, k, now, id);
    if id in Ids(batch) {
      var r :| r in batch && r.id == id;
      CopiesCount(batch, Pending(r.queue.value), now, id);
    }
  }

  /** From every reachable state in which the schedule worker holds nothing, a tick publishes every due entry exactly once,
      into the pending list of its queue, and no other; afterwards the entry is gone or re-armed, and entries that are not
      due are as they were. */
  lemma ScheduleTickCompletes(w: World, ids: seq<Id>, now: int, slot: int, id: Id, k: Key)
    requires Reachable(w) && w.dueIds == [] && w.dueBatch == [] && w.now <= now && 0 < now < slot
    requires ListsDue(w.db, ids, now)
    ensures IsRun(w, ScheduleTickEvents(ids, now, slot))
    ensures After(w, ScheduleTickEvents(ids, now, slot)).dueBatch == []
    ensures TickDone(w.db, After(w, ScheduleTickEvents(ids, now, slot)).db, now, slot, id, k)
  {
    ReachableInv(w);
    var batch := ScheduleTickRuns(w, ids, now, slot);
    FireBatchExactly(w.db, w.hist, batch, now, slot);
    assert id in Ids(batch) <==> id in ids by { BatchIds(batch, ids, id); }
    assert forall r :: r in batch ==> r.queue.Some?;
    BatchDone(w.db, FireBatch(w.db, batch, now, slot).0, batch, now, slot, id, k);
  }

  lemma BatchIds(batch: seq<Record>, ids: seq<Id>, id: Id)
    requires |batch| == |ids| && forall i :: 0 <= i < |ids| ==> batch[i].id == ids[i]
    ensures id in Ids(batch) <==> id in ids
  {
    if id in ids {
      var i :| 0 <= i < |ids| && ids[i] == id;
      assert batch[i] in batch;
    }
    if id in Ids(batch) {
      var r :| r in batch && r.id == id;
      var i :| 0 <= i < |batch| && batch[i] == r;
      assert ids[i] in ids;
    }
  }
}
