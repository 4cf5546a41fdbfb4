/** The invariant of the whole protocol and the proof that every step keeps it. */
module ProtocolInvariant {
  import opened Wrappers
  import opened Messages
  import opened Redis
  import opened Scheduler
  import opened Handlers
  import opened Protocol
  import opened StoreInvariant

  /** A consumer's processing list holds the delivery it is working on, and never more than one message. */
  predicate ConsumerOk(x: Consumer, s: seq<Record>) {
    && |s| <= 1
    && (forall r :: r in s ==> r.queue == Some(x.queue))
    && match x.phase
       case Idle => s == []
       case Received(m) => s == [m]
       case Handling(m) => s == [m]
       case Dead => true
  }

  /** The index lists every consumer that is alive or whose list still holds a message, so that the GC worker
      finds it. */
  ghost predicate ConsumersOk(db: Db, consumers: map<ConsumerId, Consumer>) {
    forall c ::
      if c in consumers then
        ConsumerOk(consumers[c], At(db, Processing(c)))
        && (!consumers[c].phase.Dead? || At(db, Processing(c)) != [] ==> c in db.index)
      else At(db, Processing(c)) == []
  }

  /** What a recovery task remembers of a dead consumer's list is still true, or another task has moved it. */
  predicate TaskOk(task: GcTask, s: seq<Record>) {
    match task
    case Inspected(_, m) => s == [m] || s == []
    case Emptied(_) => s == []
  }

  ghost predicate GcOk(db: Db, consumers: map<ConsumerId, Consumer>, gc: map<nat, GcTask>) {
    forall t :: t in gc ==>
      && gc[t].c in consumers && consumers[gc[t].c].phase.Dead?
      && TaskOk(gc[t], At(db, Processing(gc[t].c)))
  }

  ghost predicate DistinctRecords(batch: seq<Record>) {
    forall i, j :: 0 <= i < j < |batch| ==> batch[i].id != batch[j].id
  }

  /** A batch read from a list is still in the list when it is committed. */
  ghost predicate BatchOk(db: Db, k: Key, batch: seq<Record>) {
    DistinctRecords(batch) && forall r :: r in batch ==> r in At(db, k)
  }

  /** The schedule worker's ids and bodies are still in the schedule, unchanged and due. */
  ghost predicate DueOk(db: Db, ids: seq<Id>, batch: seq<Record>, now: int) {
    && (ids == [] || batch == [])
    && Distinct(ids) && DistinctRecords(batch)
    && (forall id :: id in ids ==> id in db.bodies && id in db.due && db.due[id] <= now)
    && (forall r :: r in batch ==> DueEntry(db, r, now))
  }

  ghost predicate WorkersOk(w: World) {
    BatchOk(w.db, Requeue, w.requeueBatch) && BatchOk(w.db, Delay, w.delayBatch)
    && DueOk(w.db, w.dueIds, w.dueBatch, w.now)
  }

  ghost predicate Inv(w: World) {
    StoreOk(w.db, w.hist) && ConsumersOk(w.db, w.consumers) && GcOk(w.db, w.consumers, w.gc) && WorkersOk(w)
  }

  lemma InitInv()
    ensures Inv(Init())
  {
    assert forall k :: At(EMPTY, k) == [];
  }

  // ---------------------------------------------------------------- frames

  /** Nothing a worker may hold in memory was taken away or changed. */
  ghost predicate Grows(db: Db, db': Db) {
    && (forall k: Key, r :: (k.Requeue? || k.Delay?) && r in At(db, k) ==> r in At(db', k))
    && (forall id :: id in db.bodies ==> id in db'.bodies && db'.bodies[id] == db.bodies[id])
    && (forall id :: id in db.due ==> id in db'.due && db'.due[id] == db.due[id])
  }

  lemma GrowsKeepsWorkers(w: World, w': World)
    requires WorkersOk(w) && Grows(w.db, w'.db) && w.now <= w'.now
    requires w'.requeueBatch == w.requeueBatch && w'.delayBatch == w.delayBatch
    requires w'.dueIds == w.dueIds && w'.dueBatch == w.dueBatch
    ensures WorkersOk(w')
  {
  }

  lemma MoveGrows(db: Db, db': Db, from: Key, to: Key, r: Record, r': Record)
    requires Moved(db, db', from, to, r, r') && !from.Requeue? && !from.Delay?
    ensures Grows(db, db')
  {
  }

  /** Of the processing lists and the index, only c's changed. */
  ghost predicate OnlyProcessing(db: Db, db': Db, c: ConsumerId) {
    && (forall x :: x != c ==> At(db', Processing(x)) == At(db, Processing(x)))
    && (forall x :: x != c ==> (x in db'.index <==> x in db.index))
  }

  lemma ConsumerStep(w: World, w': World, c: ConsumerId)
    requires ConsumersOk(w.db, w.consumers) && GcOk(w.db, w.consumers, w.gc)
    requires c in w.consumers && OnlyProcessing(w.db, w'.db, c) && w'.gc == w.gc
    requires c in w'.consumers && w'.consumers == w.consumers[c := w'.consumers[c]]
    requires ConsumerOk(w'.consumers[c], At(w'.db, Processing(c)))
    requires !w.consumers[c].phase.Dead? && w'.db.index == w.db.index
    ensures ConsumersOk(w'.db, w'.consumers) && GcOk(w'.db, w'.consumers, w'.gc)
  {
  }

  /** Processing lists untouched and consumers untouched. */
  lemma ListsStep(w: World, w': World)
    requires ConsumersOk(w.db, w.consumers) && GcOk(w.db, w.consumers, w.gc)
    requires w'.consumers == w.consumers && w'.gc == w.gc
    requires forall c :: At(w'.db, Processing(c)) == At(w.db, Processing(c))
    requires w'.db.index == w.db.index
    ensures ConsumersOk(w'.db, w'.consumers) && GcOk(w'.db, w'.consumers, w'.gc)
  {
  }

  // ---------------------------------------------------------------- producers and consumers

  /** A new message: the processing lists and whatever workers hold are untouched. */
  lemma NewMessageStep(w: World, w': World)
    requires ConsumersOk(w.db, w.consumers) && GcOk(w.db, w.consumers, w.gc) && WorkersOk(w)
    requires w' == w.(db := w'.db, hist := w'.hist) && StoreOk(w'.db, w'.hist)
    requires forall k: Key :: !k.Pending? ==> At(w'.db, k) == At(w.db, k)
    requires Grows(w.db, w'.db) && w'.db.index == w.db.index
    ensures Inv(w')
  {
    ListsStep(w, w');
    GrowsKeepsWorkers(w, w');
  }

  lemma ProduceKeeps(w: World, m: Record, q: Queue, now: int, slot: int)
    requires Inv(w) && WellFormed(m) && m.id !in w.hist.origin && 0 < now < slot
    ensures Inv(DoProduce(w, m, q, now, slot))
    ensures m.id in DoProduce(w, m, q, now, slot).hist.origin
  {
    var r := Produced(m, q);
    var w' := DoProduce(w, m, q, now, slot);
    if IsSchedulable(r) {
      ScheduleNewKeepsStore(w.db, w.hist, m, q, now, slot);
      var p := Next(r, now, slot);
      var x := p.record.(scheduledAt := Some(now));
      assert w'.db == SetEntry(w.db, r.id, p.at, x);
      NewEntryGrows(w.db, w.hist, r.id, p.at, x);
    } else {
      PublishNewKeepsStore(w.db, w.hist, m, q, now);
      assert w'.db == RPush(w.db, Pending(q), Published(r, now));
    }
    NewMessageStep(w, w');
  }

  lemma NewEntryGrows(db: Db, h: History, id: Id, at: int, x: Record)
    requires ListsOk(db, h) && ScheduleOk(db, h) && id !in h.origin
    ensures Grows(db, SetEntry(db, id, at, x)) && forall k :: At(SetEntry(db, id, at, x), k) == At(db, k)
  {
    NowhereYet(db, h, id);
  }

  lemma StartKeeps(w: World, w': World, c: ConsumerId, q: Queue)
    requires Inv(w) && c !in w.consumers
    requires w' == w.(consumers := w.consumers[c := Consumer(q, Idle)], db := w.db.(index := w.db.index + {c}))
    ensures Inv(w')
  {
    assert forall k :: At(w'.db, k) == At(w.db, k);
    IndexOnly(w.db, w'.db, w.hist);
    GrowsKeepsWorkers(w, w');
  }

  lemma IndexOnly(db: Db, db': Db, h: History)
    requires StoreOk(db, h) && db' == db.(index := db'.index)
    ensures StoreOk(db', h)
  {
    assert forall k :: At(db', k) == At(db, k);
    forall id | id in h.origin ensures CountOk(db', h, id) {
      assert CountOk(db, h, id);
    }
  }

  lemma DequeueKeepsWorkers(w: World, db': Db, c: ConsumerId, q: Queue, m: Record)
    requires WorkersOk(w) && At(w.db, Processing(c)) == []
    requires At(w.db, Pending(q)) != [] && m == At(w.db, Pending(q))[|At(w.db, Pending(q))| - 1]
    requires db' == Dequeue(w.db, c, q)
    ensures WorkersOk(w.(db := db')) && OnlyProcessing(w.db, db', c) && At(db', Processing(c)) == [m]
    ensures db'.index == w.db.index
  {
    RPopLPushMoves(w.db, Pending(q), Processing(c));
    MoveGrows(w.db, db', Pending(q), Processing(c), m, m);
    GrowsKeepsWorkers(w, w.(db := db'));
  }

  lemma DequeueKeeps(w: World, c: ConsumerId)
    requires Inv(w) && c in w.consumers && w.consumers[c].phase.Idle? && At(w.db, Pending(w.consumers[c].queue)) != []
    ensures Inv(DoDequeue(w, c))
  {
    var q := w.consumers[c].queue;
    var s := At(w.db, Pending(q));
    assert ConsumerOk(w.consumers[c], At(w.db, Processing(c)));
    DequeueKeepsStore(w.db, w.hist, c, q);
    DequeueKeepsWorkers(w, Dequeue(w.db, c, q), c, q, s[|s| - 1]);
    assert RecordOk(w.hist, Pending(q), s[|s| - 1]);
    ConsumerStep(w, DoDequeue(w, c), c);
  }

  /** A failed delivery, by the consumer itself or by the GC worker. */
  lemma FailKeeps(w: World, c: ConsumerId, m: Record, cause: UnackCause, now: int)
    requires StoreOk(w.db, w.hist) && WorkersOk(w) && c in w.consumers
    requires At(w.db, Processing(c)) == [m] && m.queue == Some(w.consumers[c].queue)
    ensures var w' := FailDelivery(w, c, m, cause, now);
      && StoreOk(w'.db, w'.hist) && WorkersOk(w')
      && OnlyProcessing(w.db, w'.db, c) && At(w'.db, Processing(c)) == [] && w'.db.index == w.db.index
  {
    var q := w.consumers[c].queue;
    var d := Route(m, cause, now);
    var w' := FailDelivery(w, c, m, cause, now);
    FailKeepsStore(w.db, w.hist, c, q, m, cause, now);
    MovedFailed(w.db, c, q, m, d);
    MoveGrows(w.db, w'.db, Processing(c), Target(d, q), m, m);
    GrowsKeepsWorkers(w, w');
  }

  lemma SettleFailedKeeps(w: World, w': World, c: ConsumerId, m: Record, cause: UnackCause, now: int)
    requires Inv(w) && c in w.consumers
    requires w.consumers[c].phase == Handling(m) || w.consumers[c].phase == Received(m)
    requires w' == SetPhase(FailDelivery(w, c, m, cause, now), c, Idle)
    ensures Inv(w')
  {
    assert ConsumerOk(w.consumers[c], At(w.db, Processing(c)));
    assert m in At(w.db, Processing(c));
    FailKeeps(w, c, m, cause, now);
    ConsumerStep(w, w', c);
  }

  lemma ReceiveKeeps(w: World, c: ConsumerId, now: int)
    requires Inv(w) && c in w.consumers && w.consumers[c].phase.Received?
    ensures Inv(DoReceive(w, c, now))
  {
    var m := w.consumers[c].phase.m;
    var w' := DoReceive(w, c, now);
    if HasExpired(m, now) {
      SettleFailedKeeps(w, w', c, m, TTL_EXPIRED, now);
    } else {
      assert ConsumerOk(w.consumers[c], At(w.db, Processing(c)));
      ConsumerStep(w, w', c);
    }
  }

  lemma AckKeepsParts(w: World, db': Db, c: ConsumerId, q: Queue, m: Record)
    requires StoreOk(w.db, w.hist) && WorkersOk(w)
    requires At(w.db, Processing(c)) == [m] && m.queue == Some(q) && db' == Acknowledge(w.db, c, q)
    ensures StoreOk(db', Placed(w.hist, m, InList(Acknowledged(q))))
    ensures WorkersOk(w.(db := db')) && OnlyProcessing(w.db, db', c) && At(db', Processing(c)) == []
    ensures db'.index == w.db.index
  {
    AcknowledgeKeepsStore(w.db, w.hist, c, q, m);
    LMoveMoves(w.db, Processing(c), Acknowledged(q));
    MoveGrows(w.db, db', Processing(c), Acknowledged(q), m, m);
    GrowsKeepsWorkers(w, w.(db := db'));
  }

  lemma AckKeeps(w: World, c: ConsumerId, now: int)
    requires Inv(w) && c in w.consumers && w.consumers[c].phase.Handling?
    ensures Inv(DoSettle(w, c, Ack, now))
  {
    var m := w.consumers[c].phase.m;
    var q := w.consumers[c].queue;
    assert ConsumerOk(w.consumers[c], At(w.db, Processing(c)));
    assert m in At(w.db, Processing(c));
    AckKeepsParts(w, Acknowledge(w.db, c, q), c, q, m);
    ConsumerStep(w, DoSettle(w, c, Ack, now), c);
  }

  lemma SettleKeeps(w: World, c: ConsumerId, o: Outcome, now: int)
    requires Inv(w) && c in w.consumers && w.consumers[c].phase.Handling?
    ensures Inv(DoSettle(w, c, o, now))
  {
    match o
    case Ack => AckKeeps(w, c, now);
    case Unack(cause) => SettleFailedKeeps(w, DoSettle(w, c, o, now), c, w.consumers[c].phase.m, cause, now);
  }

  lemma CrashKeeps(w: World, c: ConsumerId)
    requires Inv(w) && c in w.consumers
    ensures Inv(SetPhase(w, c, Dead))
  {
    assert ConsumerOk(w.consumers[c], At(w.db, Processing(c)));
  }

  // ---------------------------------------------------------------- the GC worker

  lemma GcInspectKeeps(w: World, w': World, t: nat, c: ConsumerId)
    requires Inv(w) && c in w.consumers && w.consumers[c].phase.Dead?
    requires var s := At(w.db, Processing(c));
      w' == w.(gc := w.gc[t := if s == [] then Emptied(c) else Inspected(c, s[0])])
    ensures Inv(w')
  {
    assert ConsumerOk(w.consumers[c], At(w.db, Processing(c)));
  }

  /** A move or a deletion of a dead consumer's list leaves it empty; every task on it stays right. */
  lemma GcStep(w: World, w': World, c: ConsumerId)
    requires ConsumersOk(w.db, w.consumers) && GcOk(w.db, w.consumers, w.gc)
    requires c in w.consumers && w.consumers[c].phase.Dead?
    requires OnlyProcessing(w.db, w'.db, c) && At(w'.db, Processing(c)) == []
    requires w'.consumers == w.consumers
    requires forall t :: t in w'.gc ==> (t in w.gc && w'.gc[t] == w.gc[t]) || w'.gc[t] == Emptied(c)
    ensures ConsumersOk(w'.db, w'.consumers) && GcOk(w'.db, w'.consumers, w'.gc)
  {
  }

  /** The move of a recovery task empties the list, or finds it empty and does nothing. */
  lemma GcMoveKeeps(w: World, c: ConsumerId, m: Record, now: int)
    requires StoreOk(w.db, w.hist) && WorkersOk(w) && c in w.consumers
    requires At(w.db, Processing(c)) == [] || (At(w.db, Processing(c)) == [m] && m.queue == Some(w.consumers[c].queue))
    ensures var w' := FailDelivery(w, c, m, RECOVERY, now);
      && StoreOk(w'.db, w'.hist) && WorkersOk(w')
      && OnlyProcessing(w.db, w'.db, c) && At(w'.db, Processing(c)) == [] && w'.db.index == w.db.index
  {
    if At(w.db, Processing(c)) == [] {
      assert FailDelivery(w, c, m, RECOVERY, now) == w;
    } else {
      FailKeeps(w, c, m, RECOVERY, now);
    }
  }

  lemma GcRetryKeeps(w: World, t: nat, now: int)
    requires Inv(w) && t in w.gc && w.gc[t].Inspected? && w.gc[t].c in w.consumers
    ensures Inv(DoGcRetry(w, t, now))
  {
    var c, m := w.gc[t].c, w.gc[t].m;
    assert TaskOk(w.gc[t], At(w.db, Processing(c)));
    assert ConsumerOk(w.consumers[c], At(w.db, Processing(c)));
    GcMoveKeeps(w, c, m, now);
    var v := FailDelivery(w, c, m, RECOVERY, now);
    var w' := v.(gc := w.gc[t := Emptied(c)]);
    GcStep(w, w', c);
    GrowsKeepsWorkers(v, w');
  }

  lemma GcDeleteKeeps(w: World, t: nat)
    requires Inv(w) && t in w.gc && w.gc[t].Emptied?
    ensures Inv(w.(db := DeleteProcessingQueue(w.db, w.gc[t].c), gc := w.gc - {t}))
  {
    var c := w.gc[t].c;
    var w' := w.(db := DeleteProcessingQueue(w.db, c), gc := w.gc - {t});
    assert TaskOk(w.gc[t], At(w.db, Processing(c)));
    DeleteEmptyKeepsStore(w.db, w.hist, c);
    GcStep(w, w', c);
    GrowsKeepsWorkers(w, w');
  }

  // ---------------------------------------------------------------- the requeue worker

  /** Ids that occur once give batches of distinct messages. */
  lemma {:induction false} PrefixDistinct(s: seq<Record>, n: nat)
    requires n <= |s| && forall r :: r in s ==> Count(s, r.id) <= 1
    ensures DistinctRecords(s[..n])
  {
    forall i, j | 0 <= i < j < n ensures s[i].id != s[j].id {
      var a, b := s[..j], s[j..];
      assert s == a + b;
      CountConcat(a, b, s[i].id);
      assert s[i] in a && s[j] in b;
      CountMember(a, s[i]);
      CountMember(b, s[j]);
      assert s[i] in s;
    }
  }

  /** The retry lists hold each message at most once. */
  lemma OnceInRetryList(db: Db, h: History, k: Key, r: Record)
    requires Tracked(h) && OnePlace(db, h) && RecordOk(h, k, r) && (k.Requeue? || k.Delay?)
    ensures Count(At(db, k), r.id) <= 1
  {
    assert r.id in h.place;
  }

  lemma FirstNOk(db: Db, k: Key, n: nat)
    requires forall r :: r in At(db, k) ==> Count(At(db, k), r.id) <= 1
    ensures BatchOk(db, k, FirstN(At(db, k), n))
  {
    var s := At(db, k);
    PrefixDistinct(s, |FirstN(s, n)|);
    assert s[..|s|] == s;
  }

  lemma ReadBatchOk(db: Db, h: History, k: Key)
    requires Tracked(h) && OnePlace(db, h) && ListsOk(db, h) && (k.Requeue? || k.Delay?)
    ensures BatchOk(db, k, FirstN(At(db, k), BATCH))
  {
    forall r | r in At(db, k) ensures Count(At(db, k), r.id) <= 1 {
      OnceInRetryList(db, h, k, r);
    }
    FirstNOk(db, k, BATCH);
  }

  lemma BatchTail(db: Db, db': Db, k: Key, batch: seq<Record>)
    requires BatchOk(db, k, batch) && batch != []
    requires forall x :: x in At(db, k) ==> x in At(db', k) || x == batch[0]
    ensures BatchOk(db', k, batch[1..])
  {
    forall r | r in batch[1..] ensures r in At(db', k) {
      var i :| 0 <= i < |batch[1..]| && batch[1..][i] == r;
      assert batch[0].id != batch[i + 1].id;
    }
  }

  /** Committing a batch: never fails, keeps the store, touches no processing list, no delay list and no
      schedule entry. */
  lemma {:induction false} RequeueBatchKeeps(db: Db, h: History, batch: seq<Record>)
    requires StoreOk(db, h) && BatchOk(db, Requeue, batch)
    ensures RequeueBatch(db, batch).Ok?
    ensures var db' := RequeueBatch(db, batch).value;
      && StoreOk(db', Requeued(h, batch))
      && db'.due == db.due && db'.bodies == db.bodies && db'.index == db.index && At(db', Delay) == At(db, Delay)
      && forall c :: At(db', Processing(c)) == At(db, Processing(c))
    decreases |batch|
  {
    if batch != [] {
      var r := batch[0];
      RequeueOneKeepsStore(db, h, r);
      RequeueOneMoves(db, r);
      var db1 := RequeueOne(db, r);
      BatchTail(db, db1, Requeue, batch);
      RequeueBatchKeeps(db1, Placed(h, r, InList(Pending(r.queue.value))), batch[1..]);
    }
  }

  lemma RequeueCommitKeeps(w: World, w': World)
    requires Inv(w) && RequeueBatch(w.db, w.requeueBatch).Ok?
    requires w' == w.(db := RequeueBatch(w.db, w.requeueBatch).value, hist := Requeued(w.hist, w.requeueBatch),
                      requeueBatch := [])
    ensures Inv(w')
  {
    RequeueBatchKeeps(w.db, w.hist, w.requeueBatch);
    ListsStep(w, w');
  }

  // ---------------------------------------------------------------- the delay worker

  lemma PostponeFrame(db: Db, r: Record, at: int, x: Record)
    requires r in At(db, Delay) && r.id !in db.bodies && r.id !in db.due
    ensures var db' := SetEntry(LRem(db, Delay, r), r.id, at, x);
      OnlyDelay(db, db') && (forall y :: y in At(db, Delay) ==> y in At(db', Delay) || y == r)
  {
    OneMoreWithout(At(db, Delay), r);
  }

  lemma NotScheduled(db: Db, h: History, r: Record)
    requires StoreOk(db, h) && r in At(db, Delay)
    ensures r.id !in db.bodies && r.id !in db.due
  {
    assert RecordOk(h, Delay, r);
    CountMember(At(db, Delay), r);
    assert r.id in h.place;
  }

  /** What one message of a delay batch changes. */
  lemma DelayOneFrame(db: Db, h: History, r: Record, now: int, slot: int)
    requires StoreOk(db, h) && r in At(db, Delay) && 0 < now < slot
    ensures DelayOne(db, r, now, slot).Ok?
    ensures var db' := DelayOne(db, r, now, slot).value;
      OnlyDelay(db, db') && (forall y :: y in At(db, Delay) ==> y in At(db', Delay) || y == r)
  {
    var at, x := now + r.job.retryDelay, Postponed(r).(delayed := true, scheduledAt := Some(now));
    assert DelayOne(db, r, now, slot) == Ok(SetEntry(LRem(db, Delay, r), r.id, at, x)) by {
      DelayNeverFails(db, h, r, now, slot);
    }
    assert r.id !in db.bodies && r.id !in db.due by {
      NotScheduled(db, h, r);
    }
    PostponeFrame(db, r, at, x);
  }

  /** Lists other than the delay list are untouched, and the schedule only gained entries. */
  ghost predicate OnlyDelay(db: Db, db': Db) {
    && (forall k: Key :: !k.Delay? ==> At(db', k) == At(db, k)) && db'.index == db.index
    && (forall id :: id in db.bodies ==> id in db'.bodies && db'.bodies[id] == db.bodies[id])
    && (forall id :: id in db.due ==> id in db'.due && db'.due[id] == db.due[id])
  }

  lemma OnlyDelayTrans(a: Db, b: Db, c: Db)
    requires OnlyDelay(a, b) && OnlyDelay(b, c)
    ensures OnlyDelay(a, c)
  {
  }

  /** Committing a batch of delayed messages: never fails and only adds schedule entries. */
  lemma {:induction false} DelayBatchKeeps(db: Db, h: History, batch: seq<Record>, now: int, slot: int)
    requires StoreOk(db, h) && BatchOk(db, Delay, batch) && 0 < now < slot
    ensures DelayBatch(db, batch, now, slot).Ok?
    ensures StoreOk(DelayBatch(db, batch, now, slot).value, Delayed(h, batch))
    ensures OnlyDelay(db, DelayBatch(db, batch, now, slot).value)
    decreases |batch|
  {
    if batch != [] {
      var r := batch[0];
      DelayOneKeepsStore(db, h, r, now, slot);
      DelayOneFrame(db, h, r, now, slot);
      var db1 := DelayOne(db, r, now, slot).value;
      BatchTail(db, db1, Delay, batch);
      DelayBatchKeeps(db1, Placed(h, r, Scheduled), batch[1..], now, slot);
      OnlyDelayTrans(db, db1, DelayBatch(db1, batch[1..], now, slot).value);
    }
  }

  lemma OnlyDelayKeepsDue(db: Db, db': Db, ids: seq<Id>, batch: seq<Record>, now: int)
    requires DueOk(db, ids, batch, now) && OnlyDelay(db, db')
    ensures DueOk(db', ids, batch, now)
  {
  }

  lemma DelayCommitKeeps(w: World, w': World, now: int, slot: int)
    requires Inv(w) && 0 < now < slot && DelayBatch(w.db, w.delayBatch, now, slot).Ok?
    requires w' == w.(db := DelayBatch(w.db, w.delayBatch, now, slot).value,
                      hist := Delayed(w.hist, w.delayBatch), delayBatch := [])
    ensures Inv(w')
  {
    DelayBatchKeeps(w.db, w.hist, w.delayBatch, now, slot);
    assert forall c :: At(w'.db, Processing(c)) == At(w.db, Processing(c));
    ListsStep(w, w');
    OnlyDelayKeepsDue(w.db, w'.db, w.dueIds, w.dueBatch, w.now);
    assert At(w'.db, Requeue) == At(w.db, Requeue);
  }

  // ---------------------------------------------------------------- the schedule worker

  lemma DueBodiesKeeps(w: World, w': World)
    requires Inv(w) && w.dueBatch == []
    requires var bodies := Bodies(w.db, w.dueIds);
      w' == w.(dueIds := [], dueBatch := if bodies.Err? then [] else bodies.value)
    ensures Inv(w') && Bodies(w.db, w.dueIds).Ok?
  {
    var batch := Bodies(w.db, w.dueIds).value;
    forall r | r in batch ensures DueEntry(w.db, r, w.now) {
      var i :| 0 <= i < |batch| && batch[i] == r;
      assert w.dueIds[i] in w.db.bodies;
      assert EntryOk(w.hist, w.dueIds[i], r, w.db.due[w.dueIds[i]]);
    }
    forall i, j | 0 <= i < j < |batch| ensures batch[i].id != batch[j].id {
      assert EntryOk(w.hist, w.dueIds[i], batch[i], w.db.due[w.dueIds[i]]);
      assert EntryOk(w.hist, w.dueIds[j], batch[j], w.db.due[w.dueIds[j]]);
    }
  }

  /** The rest of a due batch stays due when one of its entries fires. */
  lemma RestStaysDue(db: Db, db': Db, batch: seq<Record>, i: nat, now: int)
    requires i < |batch| && DueOk(db, [], batch, now)
    requires forall id :: id != batch[i].id && id in db.bodies && id in db.due ==>
      id in db'.bodies && id in db'.due && db'.bodies[id] == db.bodies[id] && db'.due[id] == db.due[id]
    ensures DueOk(db', [], batch[..i] + batch[i + 1..], now)
  {
    var rest := batch[..i] + batch[i + 1..];
    forall x | x in rest ensures DueEntry(db', x, now) {
      var j :| 0 <= j < |rest| && rest[j] == x;
      var k := if j < i then j else j + 1;
      assert batch[k] == x && batch[k] in batch;
      assert x.id != batch[i].id;
    }
  }

  lemma FireFrame(db: Db, r: Record, now: int, slot: int)
    requires r.queue.Some? && db.due.Keys == db.bodies.Keys
    ensures FireEntry(db, r, now, slot).Ok?
    ensures var db' := FireEntry(db, r, now, slot).value;
      && (forall k: Key :: !k.Pending? ==> At(db', k) == At(db, k)) && db'.index == db.index
      && (forall id :: id != r.id && id in db.bodies && id in db.due ==>
            id in db'.bodies && id in db'.due && db'.bodies[id] == db.bodies[id] && db'.due[id] == db.due[id])
  {
    FireEntryShape(db, r, now, slot);
  }

  lemma DueFireParts(w: World, w': World, i: nat)
    requires Inv(w) && i < |w.dueBatch|
    requires w' == w.(db := w'.db, hist := w'.hist, dueBatch := w.dueBatch[..i] + w.dueBatch[i + 1..])
    requires StoreOk(w'.db, w'.hist) && w'.db.index == w.db.index
    requires forall k: Key :: !k.Pending? ==> At(w'.db, k) == At(w.db, k)
    requires DueOk(w'.db, [], w'.dueBatch, w'.now)
    ensures Inv(w')
  {
    assert forall c :: At(w'.db, Processing(c)) == At(w.db, Processing(c));
    ListsStep(w, w');
    assert At(w'.db, Requeue) == At(w.db, Requeue) && At(w'.db, Delay) == At(w.db, Delay);
  }

  lemma DueFireKeeps(w: World, i: nat, now: int, slot: int)
    requires Inv(w) && i < |w.dueBatch| && w.now == now && 0 < now < slot
    ensures Inv(DoDueFire(w, i, now, slot))
    ensures FireEntry(w.db, w.dueBatch[i], now, slot).Ok?
  {
    var r := w.dueBatch[i];
    assert r in w.dueBatch;
    FireKeepsStore(w.db, w.hist, r, now, slot);
    FireFrame(w.db, r, now, slot);
    var w' := DoDueFire(w, i, now, slot);
    RestStaysDue(w.db, w'.db, w.dueBatch, i, now);
    DueFireParts(w, w', i);
  }

  // ---------------------------------------------------------------- every step

  /** Every step of every process keeps the invariant. */
  lemma StepKeepsInv(w: World, e: Event)
    requires Inv(w) && Enabled(w, e)
    ensures Inv(Apply(w, e))
  {
    var v := w.(now := e.now);
    assert Inv(v) by {
      GrowsKeepsWorkers(w, v);
    }
    match e.step
    case Produce(m, q) => ProduceKeeps(v, m, q, e.now, e.slot);
    case StartConsumer(c, q) => StartKeeps(v, Apply(w, e), c, q);
    case DequeueBy(c) => DequeueKeeps(v, c);
    case Receive(c) => ReceiveKeeps(v, c, e.now);
    case Settle(c, o) => SettleKeeps(v, c, o, e.now);
    case Crash(c) => CrashKeeps(v, c);
    case GcInspect(t, c) => GcInspectKeeps(v, Apply(w, e), t, c);
    case GcRetry(t) => GcRetryKeeps(v, t, e.now);
    case GcDelete(t) => GcDeleteKeeps(v, t);
    case GcCrash(t) =>
    case RequeueRead => ReadBatchOk(v.db, v.hist, Requeue);
    case RequeueCommit =>
      RequeueBatchKeeps(v.db, v.hist, v.requeueBatch);
      RequeueCommitKeeps(v, Apply(w, e));
    case RequeueCrash =>
    case DelayRead => ReadBatchOk(v.db, v.hist, Delay);
    case DelayCommit =>
      DelayBatchKeeps(v.db, v.hist, v.delayBatch, e.now, e.slot);
      DelayCommitKeeps(v, Apply(w, e), e.now, e.slot);
    case DelayCrash =>
    case DueIds(ids) =>
    case DueBodies => DueBodiesKeeps(v, Apply(w, e));
    case DueFire(i) => DueFireKeeps(v, i, e.now, e.slot);
    case DueCrash =>
  }

  lemma {:induction false} RunKeepsInv(w: World, es: seq<Event>)
    requires Inv(w) && IsRun(w, es)
    ensures Inv(After(w, es))
    decreases |es|
  {
    if es != [] {
      StepKeepsInv(w, es[0]);
      RunKeepsInv(Apply(w, es[0]), es[1..]);
    }
  }

  /** The invariant holds in every reachable state of every interleaving. */
  lemma ReachableInv(w: World)
    requires Reachable(w)
    ensures Inv(w)
  {
    var es :| IsRun(Init(), es) && After(Init(), es) == w;
    InitInv();
    RunKeepsInv(Init(), es);
  }
}
