/**
 * What each handler does to the store, as functions on Db values: the routing of failed messages
 * (src/system/broker.ts) and the handlers and workers that move messages (src/system/message-manager/handlers,
 * src/system/workers). Every function is one atomic command, MULTI or script of the source.
 */
module Handlers {
  import opened Wrappers
  import opened Messages
  import opened Redis
  import opened Scheduler

  datatype UnackCause = TTL_EXPIRED | UNACKNOWLEDGED | CAUGHT_ERROR | TIMEOUT | RECOVERY

  datatype DeadCause = EXPIRED | PERIODIC | THRESHOLD

  datatype Destination = ToDeadLetter(cause: DeadCause) | ToDelay | ToRequeue

  /** Broker.retry: where an unacknowledged message goes. */
  function Route(r: Record, cause: UnackCause, now: int): Destination {
    if cause == TTL_EXPIRED || HasExpired(r, now) then ToDeadLetter(EXPIRED)
    else if IsPeriodic(r) then ToDeadLetter(PERIODIC)
    else if !ThresholdExceeded(r) then if r.job.retryDelay != 0 then ToDelay else ToRequeue
    else ToDeadLetter(THRESHOLD)
  }

  function Target(d: Destination, q: Queue): Key {
    match d
    case ToDeadLetter(_) => DeadLetter(q)
    case ToDelay => Delay
    case ToRequeue => Requeue
  }

  /** The move that carries out a routing decision on a consumer's processing list. */
  function MoveFailed(db: Db, c: ConsumerId, q: Queue, d: Destination): Db {
    match d
    case ToDeadLetter(_) => LMoveLeftRight(db, Processing(c), DeadLetter(q))
    case ToDelay => RPopLPush(db, Processing(c), Delay)
    case ToRequeue => RPopLPush(db, Processing(c), Requeue)
  }

  function Acknowledge(db: Db, c: ConsumerId, q: Queue): Db {
    LMoveLeftRight(db, Processing(c), Acknowledged(q))
  }

  function Dequeue(db: Db, c: ConsumerId, q: Queue): Db {
    RPopLPush(db, Pending(q), Processing(c))
  }

  /** deleteProcessingQueue: one MULTI that drops the list and its index entry, whatever the list holds. */
  function DeleteProcessingQueue(db: Db, c: ConsumerId): Db {
    Put(db, Processing(c), []).(index := db.index - {c})
  }

  /** EnqueueHandler.enqueue without priority. Err: a message without a queue. */
  function Enqueue(db: Db, r: Record, now: int): Result<Db> {
    if r.queue.None? then Err else Ok(RPush(db, Pending(r.queue.value), Published(r, now)))
  }

  function SetEntry(db: Db, id: Id, at: int, r: Record): Db {
    db.(due := db.due[id := at], bodies := db.bodies[id := r])
  }

  function DropEntry(db: Db, id: Id): Db {
    db.(due := db.due - {id}, bodies := db.bodies - {id})
  }

  /** ScheduleHandler.schedule. The flag is the reply: false when no time could be computed, and then
      nothing is stored. */
  function Schedule(db: Db, r: Record, now: int, slot: int): (Db, bool) {
    var p := Next(r, now, slot);
    if p.at > 0 then (SetEntry(db, r.id, p.at, p.record.(scheduledAt := Some(now))), true)
    else (db, false)
  }

  /** Producer.produceMessage after reset and setQueue. */
  function Produced(m: Record, q: Queue): Record { Cleared(m).(queue := Some(q)) }

  /** One MULTI of enqueueScheduledMessages: publish the entry and re-arm or drop it. */
  function FireEntry(db: Db, r: Record, now: int, slot: int): Result<Db> {
    var published := Enqueue(db, Restored(r), now);
    if published.Err? then Err
    else
      var p := Next(Republished(r, now), now, slot);
      Ok(if p.at != 0 then SetEntry(published.value, r.id, p.at, p.record)
         else DropEntry(published.value, r.id))
  }

  /** HMGET of the due ids; Err when a body is missing. */
  function Bodies(db: Db, ids: seq<Id>): Result<seq<Record>> {
    if exists id :: id in ids && id !in db.bodies then Err
    else Ok(seq(|ids|, i requires 0 <= i < |ids| && ids[i] in db.bodies => db.bodies[ids[i]]))
  }

  /** Parsed by a retry worker, one attempt later. */
  function Retried(r: Record): Record { Restored(r).(attempts := r.attempts + 1) }

  /** Part of the requeue worker's MULTI for one message. */
  function RequeueOne(db: Db, r: Record): Db
    requires r.queue.Some?
  {
    LPush(LRem(db, Requeue, r), Pending(r.queue.value), Retried(r))
  }

  /** The requeue worker's MULTI for a batch. Err: a message without a queue stops the worker before EXEC. */
  function RequeueBatch(db: Db, batch: seq<Record>): Result<Db>
    decreases |batch|
  {
    if batch == [] then Ok(db)
    else if batch[0].queue.None? then Err
    else RequeueBatch(RequeueOne(db, batch[0]), batch[1..])
  }

  /** Part of the delay worker's MULTI for one message; Err when setScheduledDelay throws. */
  function DelayOne(db: Db, r: Record, now: int, slot: int): Result<Db> {
    var again := Set(Retried(r), SetDelay(r.job.retryDelay));
    if again.Err? then Err
    else Ok(Schedule(LRem(db, Delay, r), again.value, now, slot).0)
  }

  function DelayBatch(db: Db, batch: seq<Record>, now: int, slot: int): Result<Db>
    decreases |batch|
  {
    if batch == [] then Ok(db)
    else
      var one := DelayOne(db, batch[0], now, slot);
      if one.Err? then Err else DelayBatch(one.value, batch[1..], now, slot)
  }
}
