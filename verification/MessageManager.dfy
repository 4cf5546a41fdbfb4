/**
 * The handlers and workers as operations on a shared store, in the form of the source: each method updates the
 * store and the message object in place and is proved against the functions of Handlers that the protocol steps
 * are made of.
 */
module MessageManager {
  import opened Wrappers
  import opened Messages
  import opened Redis
  import opened Scheduler
  import opened Handlers
  import opened Protocol
  import opened ProtocolInvariant
  import ListAdmin

  /** The schedule tick over a whole batch, one MULTI after the other, up to the first that throws. */
  function FireBatch(db: Db, batch: seq<Record>, now: int, slot: int): (Db, bool)
    decreases |batch|
  {
    if batch == [] then (db, false)
    else
      var one := FireEntry(db, batch[0], now, slot);
      if one.Err? then (db, true) else FireBatch(one.value, batch[1..], now, slot)
  }

  /** A tick as steps of the protocol: the first entry of the batch, again and again. */
  function Fires(n: nat, now: int, slot: int): seq<Event> {
    if n == 0 then [] else [Event(DueFire(0), now, slot)] + Fires(n - 1, now, slot)
  }

  /** Firing the first entry of the batch. */
  lemma FireFirst(w: World, e: Event) returns (w1: World)
    requires Inv(w) && w.now <= e.now && 0 < e.now < e.slot && w.dueBatch != [] && e.step == DueFire(0)
    ensures Enabled(w, e) && w1 == Apply(w, e) && Inv(w1) && w1.now == e.now && w1.dueBatch == w.dueBatch[1..]
    ensures FireEntry(w.db, w.dueBatch[0], e.now, e.slot) == Ok(w1.db)
  {
    w1 := Apply(w, e);
    var v := w.(now := e.now);
    GrowsKeepsWorkers(w, v);
    DueFireKeeps(v, 0, e.now, e.slot);
    assert w.dueBatch[..0] + w.dueBatch[1..] == w.dueBatch[1..];
  }

  /** The run fires the whole batch, as the tick does. */
  ghost predicate FiresAll(w: World, es: seq<Event>, now: int, slot: int) {
    && IsRun(w, es) && After(w, es).dueBatch == []
    && FireBatch(w.db, w.dueBatch, now, slot) == (After(w, es).db, false)
  }

  lemma FiresNone(w: World, now: int, slot: int)
    requires w.dueBatch == []
    ensures FiresAll(w, [], now, slot)
  {
  }

  lemma FiresOneMore(w: World, es: seq<Event>, w1: World, now: int, slot: int)
    requires es != [] && Enabled(w, es[0]) && Apply(w, es[0]) == w1 && FiresAll(w1, es[1..], now, slot)
    requires w.dueBatch != [] && w1.dueBatch == w.dueBatch[1..]
    requires FireEntry(w.db, w.dueBatch[0], now, slot) == Ok(w1.db)
    ensures FiresAll(w, es, now, slot)
  {
  }

  lemma {:induction false} FireBatchFrom(w: World, now: int, slot: int)
    requires Inv(w) && w.now <= now && 0 < now < slot
    ensures FiresAll(w, Fires(|w.dueBatch|, now, slot), now, slot)
    decreases |w.dueBatch|
  {
    var es := Fires(|w.dueBatch|, now, slot);
    if w.dueBatch == [] {
      FiresNone(w, now, slot);
    } else {
      assert es[0] == Event(DueFire(0), now, slot);
      var w1 := FireFirst(w, es[0]);
      FireBatchFrom(w1, now, slot);
      assert es[1..] == Fires(|w1.dueBatch|, now, slot);
      FiresOneMore(w, es, w1, now, slot);
    }
  }

  /** From any reachable state, a tick never throws and is the run of the protocol that fires the whole batch. */
  lemma TickIsDueSteps(w: World, now: int, slot: int)
    requires Reachable(w) && w.now <= now && 0 < now < slot
    ensures FiresAll(w, Fires(|w.dueBatch|, now, slot), now, slot)
  {
    ReachableInv(w);
    FireBatchFrom(w, now, slot);
  }

  class Store {
    var db: Db

    // ------------------------------------------------------------ list commands

    method PopPush(from: Key, to: Key)
      modifies this
      ensures db == RPopLPush(old(db), from, to)
    {
      var s := At(db, from);
      if s != [] {
        db := RPop(db, from);
        db := LPush(db, to, s[|s| - 1]);
      }
    }

    /** lpoprpush by LMOVE where the server has it, by the Lua script otherwise. */
    method LPopRPush(from: Key, to: Key, hasLMove: bool)
      modifies this
      ensures db == LMoveLeftRight(old(db), from, to)
    {
      ScriptIsLMove(db, from, to);
      if hasLMove {
        db := LMoveLeftRight(db, from, to);
      } else if At(db, from) != [] {
        var message := At(db, from)[0];
        db := LRem(db, from, message);
        db := RPush(db, to, message);
      }
    }

    // ------------------------------------------------------------ producer

    method Enqueue(message: Message, now: int) returns (thrown: bool)
      modifies this, message
      ensures var r := Handlers.Enqueue(old(db), old(message.Json()), now);
        thrown == r.Err? && db == (if r.Ok? then r.value else old(db))
        && message.Json() == if thrown then old(message.Json()) else Published(old(message.Json()), now)
    {
      if message.queue.None? { return true; }
      message.publishedAt := Some(now);
      db := RPush(db, Pending(message.queue.value), message.Json());
      return false;
    }

    method Schedule(message: Message, now: int, slot: int) returns (accepted: bool)
      modifies this, message
      ensures (db, accepted) == Handlers.Schedule(old(db), old(message.Json()), now, slot)
      ensures var r := Next(old(message.Json()), now, slot).record;
        message.Json() == if accepted then r.(scheduledAt := Some(now)) else r
    {
      var timestamp := GetNextScheduledTimestamp(message, now, slot);
      if timestamp > 0 {
        message.scheduledAt := Some(now);
        db := SetEntry(db, message.uuid, timestamp, message.Json());
        return true;
      }
      return false;
    }

    /** `running`: the producer is up, or on its way up and then up. The message is reset in any case. */
    method ProduceMessage(message: Message, q: Queue, running: bool, now: int, slot: int) returns (reply: Result<bool>)
      modifies this, message
      ensures var r := Produced(old(message.Json()), q);
        if !running then reply == Err && db == old(db) && message.Json() == r
        else if IsSchedulable(r) then reply.Ok? && (db, reply.value) == Handlers.Schedule(old(db), r, now, slot)
        else reply == Ok(true) && db == RPush(old(db), Pending(q), Published(r, now))
             && message.Json() == Published(r, now)
    {
      message.Reset();
      message.queue := Some(q);
      if !running { return Err; }
      if message.cron.Some? || message.delay.Some? || message.repeat > 0 {
        var accepted := Schedule(message, now, slot);
        reply := Ok(accepted);
      } else {
        var thrown := Enqueue(message, now);
        reply := if thrown then Err else Ok(true);
      }
    }

    // ------------------------------------------------------------ consumer and broker

    /** BRPOPLPUSH; the reply is the message moved, or nothing while the list is empty. */
    method Dequeue(c: ConsumerId, q: Queue) returns (reply: Option<Record>)
      modifies this
      ensures db == Handlers.Dequeue(old(db), c, q)
      ensures var s := At(old(db), Pending(q)); reply == if s == [] then None else Some(s[|s| - 1])
    {
      var s := At(db, Pending(q));
      reply := if s == [] then None else Some(s[|s| - 1]);
      PopPush(Pending(q), Processing(c));
    }

    method Acknowledge(c: ConsumerId, q: Queue, hasLMove: bool)
      modifies this
      ensures db == Handlers.Acknowledge(old(db), c, q)
    {
      LPopRPush(Processing(c), Acknowledged(q), hasLMove);
    }

    /** Broker.retry: routes the message and carries the decision out. */
    method Retry(c: ConsumerId, q: Queue, message: Message, cause: UnackCause, now: int, hasLMove: bool)
      modifies this, message
      ensures db == MoveFailed(old(db), c, q, Route(old(message.Json()), cause, now))
      ensures var r := old(message.Json());
        message.Json() == if cause == TTL_EXPIRED then r else r.(expired := HasExpired(r, now))
    {
      var expired := cause == TTL_EXPIRED;
      if !expired { expired := message.CheckExpired(now); }
      if expired {
        LPopRPush(Processing(c), DeadLetter(q), hasLMove);
      } else if message.cron.Some? || message.repeat > 0 {
        LPopRPush(Processing(c), DeadLetter(q), hasLMove);
      } else if !(message.retryThreshold != 0 && message.attempts + 1 >= message.retryThreshold) {
        if message.retryDelay != 0 {
          PopPush(Processing(c), Delay);
        } else {
          PopPush(Processing(c), Requeue);
        }
      } else {
        LPopRPush(Processing(c), DeadLetter(q), hasLMove);
      }
    }

    // ------------------------------------------------------------ workers

    method DeleteProcessingQueue(c: ConsumerId)
      modifies this
      ensures db == Handlers.DeleteProcessingQueue(old(db), c)
    {
      db := db.(index := db.index - {c});
      db := Put(db, Processing(c), []);
    }

    /** handleOfflineConsumer when nothing happens in between: the head is routed, then the list goes. */
    method HandleOfflineConsumer(c: ConsumerId, q: Queue, now: int, hasLMove: bool)
      modifies this
      ensures var s := At(old(db), Processing(c));
        db == Handlers.DeleteProcessingQueue(
          if s == [] then old(db) else MoveFailed(old(db), c, q, Route(s[0], RECOVERY, now)), c)
    {
      var range := FirstN(At(db, Processing(c)), 1);
      if range != [] {
        var msg := new Message.CreateFrom(range[0], false);
        Retry(c, q, msg, RECOVERY, now, hasLMove);
      }
      DeleteProcessingQueue(c);
    }

    /** One message of a requeue batch: its commands appended to the MULTI; Err when it has no queue. */
    method Resubmit(multi: Db, r: Record) returns (res: Result<Db>)
      ensures res == if r.queue.None? then Err else Ok(RequeueOne(multi, r))
    {
      var message := new Message.CreateFrom(r, false);
      if message.queue.None? { return Err; }
      var queued := LRem(multi, Requeue, r);
      message.IncrAttempts();
      return Ok(LPush(queued, Pending(message.queue.value), message.Json()));
    }

    /** RequeueWorker.onTick. The commands are collected first and executed together, so an error leaves the
        store as it was. */
    method RequeueTick() returns (thrown: bool)
      modifies this
      ensures var done := RequeueBatch(old(db), FirstN(At(old(db), Requeue), BATCH));
        thrown == done.Err? && db == if done.Ok? then done.value else old(db)
    {
      var messages := FirstN(At(db, Requeue), BATCH);
      var multi := db;
      var i := 0;
      while i < |messages|
        invariant 0 <= i <= |messages| && db == old(db)
        invariant RequeueBatch(multi, messages[i..]) == RequeueBatch(old(db), messages)
      {
        assert messages[i..][0] == messages[i] && messages[i..][1..] == messages[i + 1..];
        var queued := Resubmit(multi, messages[i]);
        if queued.Err? { return true; }
        multi := queued.value;
        i := i + 1;
      }
      db := multi;
      return false;
    }

    /** One task of DelayHandler.schedule: its commands appended to the MULTI; Err when a setter throws. */
    method Postpone(multi: Db, r: Record, now: int, slot: int) returns (res: Result<Db>)
      ensures res == DelayOne(multi, r, now, slot)
    {
      var queued := LRem(multi, Delay, r);
      var message := new Message.CreateFrom(r, false);
      message.IncrAttempts();
      var thrown := message.SetScheduledDelay(message.retryDelay);
      if thrown { return Err; }
      var timestamp := GetNextScheduledTimestamp(message, now, slot);
      if timestamp > 0 {
        message.scheduledAt := Some(now);
        queued := SetEntry(queued, message.uuid, timestamp, message.Json());
      }
      return Ok(queued);
    }

    /** DelayHandler.schedule. */
    method DelayTick(now: int, slot: int) returns (thrown: bool)
      modifies this
      ensures var done := DelayBatch(old(db), FirstN(At(old(db), Delay), BATCH), now, slot);
        thrown == done.Err? && db == if done.Ok? then done.value else old(db)
    {
      var messages := FirstN(At(db, Delay), BATCH);
      var multi := db;
      var i := 0;
      while i < |messages|
        invariant 0 <= i <= |messages| && db == old(db)
        invariant DelayBatch(multi, messages[i..], now, slot) == DelayBatch(old(db), messages, now, slot)
      {
        assert messages[i..][0] == messages[i] && messages[i..][1..] == messages[i + 1..];
        var one := Postpone(multi, messages[i], now, slot);
        if one.Err? { return true; }
        multi := one.value;
        i := i + 1;
      }
      db := multi;
      return false;
    }

    /** enqueueScheduledMessages after the bodies were fetched. */
    method FireDue(messages: seq<Record>, now: int, slot: int) returns (thrown: bool)
      modifies this
      ensures (db, thrown) == FireBatch(old(db), messages, now, slot)
    {
      var i := 0;
      while i < |messages|
        invariant 0 <= i <= |messages|
        invariant FireBatch(db, messages[i..], now, slot) == FireBatch(old(db), messages, now, slot)
      {
        assert messages[i..][0] == messages[i] && messages[i..][1..] == messages[i + 1..];
        var message := new Message.CreateFrom(messages[i], false);
        thrown := Enqueue(message, now);
        if thrown { return true; }
        var next := GetNextScheduledTimestamp(message, now, slot);
        if next != 0 {
          db := SetEntry(db, message.uuid, next, message.Json());
        } else {
          db := DropEntry(db, message.uuid);
        }
        i := i + 1;
      }
      return false;
    }

    // ------------------------------------------------------------ administration

    /** deleteListMessageAtSequenceId when nothing happens between the read and the removal. */
    method DeleteAt(from: Key, sequenceId: int, messageId: Id) returns (found: bool)
      modifies this
      ensures var s := At(old(db), from);
        var r := ListAdmin.Delete(s, s, sequenceId, messageId);
        found == r.Ok? && db == if r.Ok? then Put(old(db), from, r.value) else old(db)
    {
      var reply := ListAdmin.ElementAt(At(db, from), sequenceId);
      if reply.None? { return false; }
      var message := new Message.CreateFrom(reply.value, false);
      if message.uuid != messageId { return false; }
      db := LRem(db, from, message.Json());
      return true;
    }

    /** requeueListMessage when nothing happens between the read and the MULTI. */
    method RequeueAt(from: Key, index: int, messageId: Id, q: Queue, now: int) returns (found: bool)
      modifies this
      ensures var r := ListAdmin.RequeueFrom(old(db), old(db), from, index, messageId, q, now);
        found == r.Ok? && db == if r.Ok? then r.value else old(db)
    {
      var reply := ListAdmin.ElementAt(At(db, from), index);
      if reply.None? { return false; }
      var msg := new Message.CreateFrom(reply.value, false);
      if msg.uuid != messageId { return false; }
      db := LRem(db, from, msg.Json());
      var message := new Message.CreateFrom(msg.Json(), true);
      message.queue := Some(q);
      var thrown := Enqueue(message, now);
      return !thrown;
    }
  }
}
