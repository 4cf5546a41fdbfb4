# RedisSMQ: verified model of the delivery protocol

RedisSMQ is a message queue whose producers, consumers and background workers share Redis lists, sorted sets and
hashes. This project models that shared store and every atomic command, MULTI and script on it, and proves what all
interleavings keep.

## What is modelled

- `Messages`: the message record (what is stored as JSON), the mutable message object, its setters and defaults.
- `MessageText`: messages as JSON texts; when a text that is parsed and serialised again is the same text.
- `Redis`: lists under keys, the schedule (sorted set of due times and hash of bodies), the index of processing lists.
- `Scheduler`: `getNextScheduledTimestamp` and whole runs of one scheduled message.
- `Handlers`: the effect of every handler and worker command on the store. `MessageManager` has the same operations as
  methods that update store and message in place, each proved equal to its `Handlers` function.
- `Protocol`: the state machine. A step is one atomic command. What a process holds in memory between commands is
  state: a consumer's delivery, the recovery tasks of the GC worker, the batches that the requeue, delay and schedule
  workers have read and not yet committed. Consumers and workers may crash between any two steps.
- `StoreInvariant`, `ProtocolInvariant`, `ProtocolTheorems`: the global invariant, its proof step by step, and what
  follows for every reachable state and every run.
- `RunCounts`, `Deliveries`: failures, publications, copies and deliveries counted over whole runs, without the
  bookkeeping of the state.
- `Progress`: what does happen: production, delivery and a tick of each worker from every reachable state, with the exact
  state that follows. `Settings`: the fields of a message after any setters and defaults.
- `PendingOrder`: the delivery order of a queue. `PriorityQueue`: the priority queue as sorted set and hash.
- `ConsumeCallback`, `Hypotheses`: exact conditions for the assumptions below.
- `ListAdmin`, `RedisKeys`, `Tickers`, `MessageRates`, `Stats` with `Sums`: browsing and administration of lists, key
  printing and parsing, timers, rate windows, aggregation.

## Assumptions of the protocol model

The source does not enforce these. Where a violation has a definite effect, a lemma states it.

- Ids of produced messages are fresh. Producing one `Message` object twice reuses its id.
- `consume` settles each delivery once. `ConsumeCallback.OnceExactly` gives the exact condition on the user's handler,
  and `ConsumeCallback.SecondSettlementHitsNextDelivery` what a second settlement does.
- A consumer that went down is not started again under its id, and the GC worker acts only on consumers that no longer
  dequeue. `Hypotheses.DeleteKeepsExactly` and `Hypotheses.RecoveryOfLiveConsumerLoses` show the need. Any number of
  GC workers may run at once.
- One requeue, one delay and one schedule worker run at a time: `Hypotheses.TwoRequeueWorkersDuplicate`.
- One namespace. The protocol runs without priorities: `PriorityQueue.RequeueThenPopLoses` shows that the requeue worker
  in priority mode loses messages, and `PriorityQueue.LossExactly` when.
- One clock, never going backwards and positive; the next CRON time lies after the present.

## Where code and documentation differ

- README.md:37-38 speaks of time spent in a queue; the code measures the time to live from the creation of the message
  (src/system/message.ts:314-324), and so does the model.
- tests/scheduling-messages/test00006.test.ts:15-22 expects three publications of a delay with repeat 3; the code
  publishes four (`Scheduler.PublishedExactly`).
- A body that JSON.stringify drops, such as undefined, is missing from the stored text and comes back as null when the
  text is parsed. Deletion and requeue by position then look for another text than the stored one and remove nothing
  (`ListAdmin.DeleteInAnyRun`, `ListAdmin.RequeueInAnyRun`).
- purgePriorityQueue leaves the bodies of the purged messages in the hash (`PriorityQueue.PurgeLeavesBodies`).

## Model

| member | source | states |
|---|---|---|
| `ProtocolTheorems.Conservation` | README.md:35-36 | in every reachable state of every interleaving of producers, consumers, crashes and workers, each produced non-periodic message has exactly one copy in exactly one of pending, a processing list, requeue, delay, the schedule, acknowledged and dead-letter |
| `ProtocolTheorems.ContentsKept` | src/system/message.ts:361-370 | wherever a message is, its id, settings, queue and the body a reader gets are those it was produced with, and it is in the lists of its own queue |
| `ProtocolTheorems.OneDeliveryAtATime` | README.md:36 | a processing list holds at most one message and no non-periodic message is with two consumers |
| `ProtocolTheorems.GcDeletesOnlyEmptyLists` | src/system/workers/gc.worker.ts:67-108 | whenever the recovery deletes a processing list the list is empty, so the deletion changes no list; inspections may follow an outdated reading of the index |
| `ProtocolTheorems.GcMovesWhatItRead` | src/system/workers/gc.worker.ts:76-101 | the head that a recovery task read is still the whole list when it moves it, or another task has moved it and the move does nothing |
| `ProtocolTheorems.DeadListIndexed` | src/system/queue-manager/queue-manager.ts:172-190 | a consumer whose list holds a message is in the index of processing lists |
| `ProtocolTheorems.RecoveryCompletes` | src/system/workers/gc.worker.ts:67-108 | no message is stranded: one pass over a dead consumer takes its message where the routing says and clears list and index entry |
| `ProtocolTheorems.SettlementHitsTheDelivery` | src/system/consumer/consumer.ts:116-151 | the processing list of a consumer is exactly the delivery it works on, so a settlement, which pops without looking, settles that message |
| `ProtocolTheorems.RetryAccounting` | src/system/workers/requeue.worker.ts:38 | failures so far are the stored attempts, plus one in requeue, delay and dead-letter |
| `ProtocolTheorems.RetryBound` | src/system/message.ts:326-332 | a non-periodic message with threshold t > 0 fails at most t times over immediate, delayed and recovery retries; with a negative one at most once |
| `ProtocolTheorems.ThresholdExact` | src/system/broker.ts:151-163 | a message dead-lettered for threshold t > 0 has failed exactly t times and is stored with t - 1 attempts |
| `ProtocolTheorems.FailureRouting` | src/system/broker.ts:87-164 | a failed delivery is dead-lettered if and only if the message is periodic, past its time to live or at its threshold; otherwise it is delayed if and only if it has a retry delay |
| `ProtocolTheorems.DeadLetterJustified` | src/system/broker.ts:94-163 | in any step of any run, a dead-letter list only grows, by one message, which is then periodic, expired or at its threshold |
| `ProtocolTheorems.ExpiredNeverHandled` | src/system/consumer/consumer.ts:153-170 | a received message reaches the handler if and only if its time to live is not over |
| `ProtocolTheorems.PeriodicNeverRetried` | src/system/broker.ts:110-123 | no reachable state has a periodic message in requeue or delay, and messages there have no schedule entry to overwrite |
| `ProtocolTheorems.PublicationCount` | src/system/message-manager/handlers/schedule.handler.ts:107-134 | in every reachable state a periodic message without CRON was published at most its total, and is in the schedule if and only if fewer; a CRON message never leaves |
| `ProtocolTheorems.WorkersNeverFail` | src/system/message-manager/handlers/delay.handler.ts:25-33 | in every reachable state the requeue, delay and schedule batches commit without an error and a produced message is accepted |
| `ProtocolTheorems.DelayRespected` | src/system/message-manager/handlers/delay.handler.ts:28-31 | a delayed message is published no earlier than its delay after scheduling; for a retry with a retry delay that is the retry delay |
| `ProtocolTheorems.StepKeepsFinal` | src/system/message-manager/handlers/processing.handler.ts:58-88 | no step removes or reorders messages of an acknowledged or dead-letter list |
| `ProtocolTheorems.SettledForGood` | src/system/message-manager/handlers/processing.handler.ts:73-88 | once acknowledged or dead-lettered, a non-periodic message stays there and is nowhere else after any continuation |
| `ProtocolInvariant.StepKeepsInv` | src/system/message-manager/handlers/processing.handler.ts:58-115 | every step of every process keeps the global invariant |
| `ProtocolInvariant.ReachableInv` | src/system/workers/gc.worker.ts:159-176 | the invariant holds after every run |
| `ProtocolInvariant.RequeueBatchKeeps` | src/system/workers/requeue.worker.ts:30-50 | a batch read earlier still commits as a whole: one move per message, no processing list, delay list or schedule entry touched |
| `ProtocolInvariant.DelayBatchKeeps` | src/system/message-manager/handlers/delay.handler.ts:23-37 | a delay batch read earlier still commits as a whole and only adds schedule entries |
| `ProtocolInvariant.DueFireKeeps` | src/system/message-manager/handlers/schedule.handler.ts:111-130 | firing one entry of a batch fetched earlier keeps the invariant, the other entries of the batch included |
| `StoreInvariant.FireKeepsStore` | src/system/message-manager/handlers/schedule.handler.ts:111-130 | publishing a due entry and re-arming or dropping it keeps the store consistent and never throws |
| `StoreInvariant.DelayNeverFails` | src/system/message-manager/handlers/delay.handler.ts:28-31 | for a message of the delay list setScheduledDelay does not throw and the entry is due exactly the retry delay later |
| `StoreInvariant.FailKeepsStore` | src/system/message-manager/handlers/processing.handler.ts:58-115 | routing a failed delivery keeps the store consistent |
| `PendingOrder.StepRefines` | src/system/message-manager/handlers/enqueue.handler.ts:197-209 | every step changes a pending list as it changes a stack of published messages above a FIFO of re-queued ones |
| `PendingOrder.RunRefines` | src/system/workers/requeue.worker.ts:31-44 | over any run the pending list is those two lines |
| `PendingOrder.DeliveryOrder` | src/system/message-manager/handlers/dequeue.handler.ts:50-52 | after any run a consumer gets the newest published message, or, only when there is none, the message re-queued first |
| `RunCounts.StepCounts` | src/system/broker.ts:87-164 | a step raises the failure count of exactly the message whose delivery it ends without acknowledgement, and the publication count of exactly the message it publishes from the schedule |
| `RunCounts.RunCountsEvents` | src/system/broker.ts:87-164 | over any run the two counts are the numbers of those events |
| `RunCounts.FailuresOverRun` | src/system/message.ts:326-332 | in any run at most t deliveries of a non-periodic message with threshold t > 0 end without acknowledgement, counted as events of the run |
| `RunCounts.PublicationsOverRun` | src/system/message-manager/handlers/schedule.handler.ts:107-134 | in any run a periodic message without CRON is published at most its total, and exactly its total if and only if it has left the schedule, counted as events of the run |
| `RunCounts.StepCopies` | src/system/message-manager/handlers/schedule.handler.ts:111-130 | every step keeps the number of copies of a periodic message, over all lists, equal to its publications |
| `RunCounts.PeriodicConservation` | src/system/message-manager/handlers/schedule.handler.ts:111-130 | after any run the copies of a periodic message in all lists together are exactly its publications in the run: none lost, none duplicated |
| `Deliveries.StepBalanced` | src/system/consumer/consumer.ts:116-151 | every step keeps the account of a non-periodic message: dequeued equals failed plus acknowledged plus under way |
| `Deliveries.DeliveryBalance` | src/system/consumer/consumer.ts:116-151 | over any run the deliveries of a non-periodic message are its failures, its acknowledgement and the one under way; it is acknowledged at most once, if and only if it is in an acknowledged list |
| `Deliveries.DeliveriesBounded` | src/system/message.ts:326-332 | in any run a non-periodic message with threshold t > 0 is delivered at most t times, crashes and recoveries included; with a negative threshold once |
| `Progress.ProduceExactly` | src/system/producer/producer.ts:23-56 | every well-formed message with a fresh id is taken as it was built; with a delay it is due exactly then and in no list, with CRON or repeat at its first time, any other is the newest of its pending list; nothing else changes |
| `Progress.OriginIsProduced` | src/system/producer/producer.ts:23-28 | in every run, what is remembered of a message has the settings, body, priority, delay and queue of its Produce event |
| `Progress.OriginOnlyProduced` | src/system/producer/producer.ts:23-28 | every message that is remembered was produced by an event of the run |
| `Progress.TakeCompletes` | src/system/consumer/consumer.ts:116-170 | an idle consumer takes the last pending message; the handler gets it if its time to live is not over, else it is dead-lettered at once |
| `Progress.SettleCompletes` | src/system/broker.ts:87-164 | a settlement takes the message to the end of the acknowledged or dead-letter list or the head of delay or requeue, and leaves the consumer idle with an empty list |
| `Progress.RequeueTickCompletes` | src/system/workers/requeue.worker.ts:24-53 | from every reachable state a tick puts the first messages of requeue, at most a hundred, back into their pending lists with one attempt more and leaves the rest |
| `Progress.RequeueTickRuns` | src/system/workers/requeue.worker.ts:24-53 | reading and committing is a run of the protocol and equals the whole tick |
| `Progress.DelayTickCompletes` | src/system/message-manager/handlers/delay.handler.ts:17-41 | from every reachable state a tick puts the first messages of delay, at most a hundred, into the schedule, due exactly their retry delay later, with one attempt more, and leaves the rest |
| `Progress.DelayTickRuns` | src/system/message-manager/handlers/delay.handler.ts:17-41 | reading and committing is a run of the protocol and equals the whole tick |
| `Progress.FetchExactly` | src/system/message-manager/handlers/schedule.handler.ts:137-150 | the fetched batch has the stored body of each due id, one for one |
| `Progress.DueListed` | src/system/message-manager/handlers/schedule.handler.ts:137-139 | the due ids can always be listed |
| `Progress.FireBatchExactly` | src/system/message-manager/handlers/schedule.handler.ts:107-134 | firing a batch adds to every list exactly the copies of its entries, in order, and re-arms or drops each |
| `Progress.ScheduleTickCompletes` | src/system/message-manager/handlers/schedule.handler.ts:100-152 | from every reachable state a tick publishes every due entry exactly once, to its own queue, and no other; it is then gone or re-armed at the exact time, and entries that are not due stay as they were |
| `ConsumeCallback.OnceExactly` | src/system/consumer/consumer.ts:36-93 | a delivery is settled at most once, whenever the timeout elapses and the consumer goes down, if and only if the handler calls back at most once, does not also throw, and does not throw when a consume timeout is set |
| `ConsumeCallback.SettledExactly` | src/system/consumer/consumer.ts:44-92 | under every schedule such a delivery is settled exactly once if the handler calls back on a running consumer, throws, or the timeout elapses, and otherwise not at all |
| `ConsumeCallback.SecondSettlementHitsNextDelivery` | src/system/message-manager/handlers/processing.handler.ts:73-88 | a second acknowledgement after the next dequeue acknowledges the next, unprocessed message |
| `ConsumeCallback.Delivery.constructor` | src/system/consumer/consumer.ts:40-51 | the timer is armed if a consume timeout is set |
| `ConsumeCallback.Delivery.OnConsumed` | src/system/consumer/consumer.ts:52-75 | a callback settles and clears the timer unless the consumer is not running or the timeout came first |
| `ConsumeCallback.Delivery.OnError` | src/system/consumer/consumer.ts:80-92 | the catch branch settles and leaves the timer armed |
| `ConsumeCallback.Delivery.OnTimeout` | src/system/consumer/consumer.ts:46-50 | an armed timer settles once and blocks later callbacks |
| `Hypotheses.RequeueConservesExactly` | src/system/workers/requeue.worker.ts:37-42 | committing a message conserves its copies if and only if it is still in the requeue list; otherwise it adds one |
| `Hypotheses.TwoRequeueWorkersDuplicate` | src/system/workers/requeue.worker.ts:24-53 | two workers committing one batch leave two pending copies |
| `Hypotheses.DeleteKeepsExactly` | src/system/queue-manager/queue-manager.ts:28-34 | deleting a processing list keeps every message if and only if the list is empty |
| `Hypotheses.RecoveryOfLiveConsumerLoses` | src/system/workers/gc.worker.ts:87-101 | a consumer wrongly taken for dead that dequeues between move and deletion loses that message |
| `Scheduler.GetNextScheduledTimestamp` | src/system/message-manager/handlers/schedule.handler.ts:154-212 | the method on the mutable message returns the time and leaves the counters of the specification function |
| `Scheduler.ScheduleAccepts` | src/system/message-manager/handlers/schedule.handler.ts:81-98 | a well-formed schedulable message always gets a time that is not before now, and without CRON its remaining firings are its total |
| `Scheduler.DelayFirst` | src/system/message-manager/handlers/schedule.handler.ts:156-161 | whatever else is set, a fresh message with a delay is due exactly its delay from now, and nothing but the mark of the spent delay changes |
| `Scheduler.FirstWithoutDelay` | src/system/message-manager/handlers/schedule.handler.ts:163-209 | without a delay the first time is the next CRON slot, or, without CRON, one period from now |
| `Scheduler.FireStep` | src/system/message-manager/handlers/schedule.handler.ts:116-128 | one firing without CRON either ends the entry, exactly when one firing was left, or re-arms it one period later with one firing less |
| `Scheduler.RunCount` | src/system/message-manager/handlers/schedule.handler.ts:107-134 | fired k times, an entry has published min(k, remaining) times, ends exactly after the last, with publications at least a period apart |
| `Scheduler.PublishedExactly` | src/system/message-manager/handlers/schedule.handler.ts:154-212 | repeat N is published N times, a delay once, delay with repeat N exactly N + 1 times, after which the entry is gone |
| `Scheduler.CronStep` | src/system/message-manager/handlers/schedule.handler.ts:163-204 | a CRON message always gets a time; a repeat is planned only after the first CRON slot, strictly before the next one, within N |
| `Scheduler.CronStaysScheduled` | src/system/message-manager/handlers/schedule.handler.ts:163-204 | over any run a CRON message stays scheduled, its count never exceeds N and repeats fall before the next slot |
| `Scheduler.CronWindow` | src/system/message-manager/handlers/schedule.handler.ts:185-193 | no more than N repeats are scheduled between two CRON slots |
| `Scheduler.CronFirst` | src/system/message-manager/handlers/schedule.handler.ts:199-201 | no repeat is scheduled before the first CRON slot |
| `Scheduler.CronFromProduction` | src/system/message-manager/handlers/schedule.handler.ts:154-212 | the three CRON facts for the whole trace from production on |
| `Scheduler.CronRepeatExactly` | src/system/message-manager/handlers/schedule.handler.ts:163-209 | a CRON entry gets a repeat, exactly one period from now, if and only if its delay is spent, a slot was scheduled before, fewer than N repeats were since and that time is before the next slot; it gets the slot otherwise |
| `Scheduler.CronRunExactly` | src/system/message-manager/handlers/schedule.handler.ts:163-209 | over any run each firing schedules a repeat if and only if these conditions hold, counted in the trace itself |
| `Scheduler.CronWindowFull` | src/system/message-manager/handlers/schedule.handler.ts:185-201 | repeats between two CRON slots stop only at N or when one more would not fall before the slot |
| `Scheduler.CronRepeatsFit` | src/system/message-manager/handlers/schedule.handler.ts:185-201 | fired on time, the repeats after a CRON slot are exactly as many as are allowed and fit, one period apart, and then the slot follows |
| `Scheduler.FitExists` | src/system/message-manager/handlers/schedule.handler.ts:172-183 | there is such a number |
| `Messages.SetDefaultOptions` | src/system/message.ts:372-392 | each given option is the new value and each absent one keeps the old; the call throws if and only if a given duration is non-zero and under one second; defaults stay valid |
| `Messages.BuiltMessagesAreWellFormed` | src/system/message.ts:97-171 | any sequence of setter calls keeps every duration off or at least one second and the priority in range |
| `Messages.EveryBuiltMessageIsWellFormed` | src/system/message.ts:71-78 | the same from the constructor, after any configuration of defaults |
| `Settings.SetExactly` | src/system/message.ts:97-219 | each setter is accepted or throws as said, sets its own field to the argument and changes no other, except that a new delay is not spent |
| `Settings.SetAllExactly` | src/system/message.ts:97-219 | after any calls every field has the argument of the last accepted call of its setter, or its old value |
| `Settings.OptionsExactly` | src/system/message.ts:372-392 | the same for one call of setDefaultOptions |
| `Settings.ConfigureExactly` | src/system/message.ts:372-392 | after any calls each default is the last accepted option given, or what it was |
| `Settings.NewMessageExactly` | src/system/message.ts:28-78 | a new message has the last accepted or the factory defaults (0, 3, 60000, 0), a null body, no scheduling and no priority, and cleared system fields |
| `Settings.ResetExactly` | src/system/message.ts:80-90 | a reset gives the eight system fields the values of a new message and keeps all others |
| `Messages.GetSetPriority` | src/system/message.ts:334-344 | throws if and only if the default is out of range; otherwise a priority that is set stays, a missing one is filled in, and no other field changes |
| `Messages.Message.constructor` | src/system/message.ts:71-78 | a new message has the defaults and cleared system fields |
| `Messages.Message.CreateFrom` | src/system/message.ts:361-370 | parsing gives back the stored fields, a dropped body as null, cleared if asked |
| `Messages.Message.Reset` | src/system/message.ts:80-90 | clears the eight system fields and nothing else, the scheduling settings included |
| `Messages.Message.IncrAttempts` | src/system/message.ts:178-181 | attempts go up by one and nothing else changes |
| `Messages.Message.CheckExpired` | src/system/message.ts:314-324 | answers whether the time to live is over and remembers a yes |
| `Messages.Message.FillPriority` | src/system/message.ts:334-344 | the method form of filling in the priority |
| `Messages.Message.SetScheduledPeriod` | src/system/message.ts:100-107 | throws for less than a second; otherwise the period is the argument and no other field changes |
| `Messages.Message.SetScheduledDelay` | src/system/message.ts:112-121 | throws for less than a second; otherwise the delay is the argument and not spent, and no other field changes |
| `Messages.Message.SetScheduledCron` | src/system/message.ts:123-128 | sets its field, or throws and changes nothing when the expression does not parse |
| `Messages.Message.SetScheduledRepeat` | src/system/message.ts:130-133 | the repeat is the argument and no other field changes |
| `Messages.Message.SetTTL` | src/system/message.ts:138-144 | throws for less than a second; otherwise the time to live is the argument and no other field changes |
| `Messages.Message.SetConsumeTimeout` | src/system/message.ts:149-155 | throws for less than a second; otherwise the consume timeout is the argument and no other field changes |
| `Messages.Message.SetRetryThreshold` | src/system/message.ts:157-160 | the threshold is the argument and no other field changes |
| `Messages.Message.SetRetryDelay` | src/system/message.ts:165-171 | throws for less than a second; otherwise the retry delay is the argument and no other field changes |
| `Messages.Message.SetPriority` | src/system/message.ts:213-219 | throws outside 0..7; otherwise the priority is the argument and no other field changes |
| `Messages.Message.SetBody` | src/system/message.ts:183-186 | the body is the argument and no other field changes |
| `MessageManager.Store.PopPush` | src/system/redis-client/redis-client.ts:256-258 | moves the tail to the head of the other list, or nothing |
| `MessageManager.Store.LPopRPush` | src/system/redis-client/redis-client.ts:393-407 | with or without LMOVE on the server the head moves to the tail of the other list |
| `MessageManager.Store.Enqueue` | src/system/message-manager/handlers/enqueue.handler.ts:174-211 | stamps and appends to the pending list of the queue; throws without a queue |
| `MessageManager.Store.Schedule` | src/system/message-manager/handlers/schedule.handler.ts:68-98 | stores entry and due time together, or answers false and stores nothing |
| `MessageManager.Store.ProduceMessage` | src/system/producer/producer.ts:23-56 | after reset, a schedulable message is scheduled and any other is pending; a producer that is not running answers with an error and stores nothing |
| `MessageManager.Store.Dequeue` | src/system/message-manager/handlers/dequeue.handler.ts:50-52 | takes the last pending message into the processing list and returns it |
| `MessageManager.Store.Acknowledge` | src/system/message-manager/handlers/processing.handler.ts:73-88 | moves the processing head to the acknowledged list |
| `MessageManager.Store.Retry` | src/system/broker.ts:87-164 | moves the processing message to the list the routing chooses and remembers expiry |
| `MessageManager.Store.DeleteProcessingQueue` | src/system/queue-manager/queue-manager.ts:20-35 | drops the list and its index entry |
| `MessageManager.Store.HandleOfflineConsumer` | src/system/workers/gc.worker.ts:67-108 | routes the head of the list, then drops the list |
| `MessageManager.Store.Resubmit` | src/system/workers/requeue.worker.ts:31-44 | one message of a requeue batch: removed, attempts raised, pending again at the head; throws without a queue |
| `MessageManager.Store.RequeueTick` | src/system/workers/requeue.worker.ts:24-53 | commits the first hundred messages as one batch, or nothing when it throws |
| `MessageManager.Store.Postpone` | src/system/message-manager/handlers/delay.handler.ts:25-33 | one message of a delay batch: removed, counted, scheduled |
| `MessageManager.Store.DelayTick` | src/system/message-manager/handlers/delay.handler.ts:17-41 | commits the first hundred messages as one batch, or nothing when it throws |
| `MessageManager.Store.FireDue` | src/system/message-manager/handlers/schedule.handler.ts:107-134 | publishes the batch entry by entry, re-arming or dropping each, as FireBatch says |
| `MessageManager.TickIsDueSteps` | src/system/message-manager/handlers/schedule.handler.ts:100-134 | from any reachable state the tick over the fetched batch never throws and equals the run of the protocol that fires every entry of it |
| `MessageManager.Store.DeleteAt` | src/system/message-manager/common.ts:23-53 | removes the text of the message found by position and id, parsed and serialised again, or reports it missing |
| `MessageManager.Store.RequeueAt` | src/system/message-manager/handlers/requeue.handler.ts:18-52 | removes that text and makes the message pending with its system fields reset |
| `Redis.ScriptIsLMove` | src/system/redis-client/lua/lpoprpush.lua:3-12 | the script does what LMOVE LEFT RIGHT does for every pair of lists, duplicates and equal keys included |
| `Redis.FirstN` | src/system/workers/requeue.worker.ts:26 | LRANGE 0 n-1 gives the first n elements, or all of a shorter list |
| `Redis.HeadAndTailMovesAgree` | src/system/message-manager/handlers/processing.handler.ts:67-114 | on a list of at most one message moving the head and moving the tail take the same message |
| `PriorityQueue.ScriptIsMulti` | src/system/message-manager/handlers/enqueue.handler.ts:135-172 | the script path and the MULTI path have the same effect |
| `PriorityQueue.OpRefines` | src/system/redis-client/lua/zpushhset.lua:6-8 | every operation on sorted set and hash is the plain map operation on the abstract queue, keeps the two in agreement, and only a pop changes the processing list |
| `PriorityQueue.RunAgrees` | src/system/message-manager/handlers/enqueue.handler.ts:109-172 | over any run every id has a body with that id whose priority, in 0..7, is its score |
| `PriorityQueue.PopDeliversHighest` | src/system/redis-client/lua/zpophgetrpush.lua:4-15 | after any run a pop finds its body and delivers a message of least priority number, least id among equals |
| `PriorityQueue.DrainPossible` | src/system/message-manager/handlers/dequeue.handler.ts:33-48 | any population can be drained |
| `PriorityQueue.DrainContents` | src/system/message-manager/handlers/dequeue.handler.ts:33-48 | draining delivers each pending message once and nothing else |
| `PriorityQueue.DrainSorted` | src/system/message-manager/handlers/dequeue.handler.ts:33-48 | draining delivers in order of priority number, then id |
| `PriorityQueue.LossExactly` | src/system/workers/requeue.worker.ts:39-41 | over any run, the requeue worker included, a pop loses its message if and only if a requeue operation of that run added the member |
| `PriorityQueue.JsonFromRequeue` | src/system/workers/requeue.worker.ts:39-41 | a whole message as member of the sorted set comes from a requeue operation of the run |
| `PriorityQueue.RequeueAddsText` | src/system/workers/requeue.worker.ts:39-41 | the requeue worker adds the message as a member under its own priority, or 4, and neither id nor body |
| `PriorityQueue.RequeueThenPopLoses` | src/system/workers/requeue.worker.ts:39-41 | in priority mode a re-queued message is in no structure after the next pop |
| `PriorityQueue.PurgeLeavesBodies` | src/system/queue-manager/queue-manager.ts:75-83 | a purge leaves every body in the hash; it is clean if and only if nothing was pending |
| `PriorityQueue.RequeueListedMovesOne` | src/system/message-manager/handlers/requeue.handler.ts:29-50 | a requeue with priority adds exactly one reset message, with the given, its own or the normal priority, and keeps the structures in agreement; it fails if and only if the message is not found or the priority is out of range |
| `PriorityQueue.PrioritisedIsGetSet` | src/system/message.ts:334-344 | the priority filled in by an enqueue is the one getSetPriority chooses |
| `PriorityQueue.PriorityStore.ZPushHSet` | src/system/redis-client/lua/zpushhset.lua:6-8 | score and body are stored together |
| `PriorityQueue.PriorityStore.EnqueueWithMulti` | src/system/message-manager/handlers/enqueue.handler.ts:135-151 | body and score are stored together |
| `PriorityQueue.PriorityStore.ZPopHGetRPush` | src/system/redis-client/lua/zpophgetrpush.lua:4-15 | pops a first member with its body into the processing list; without a body the member is gone and the call fails |
| `PriorityQueue.PriorityStore.RequeueMember` | src/system/workers/requeue.worker.ts:31-43 | in priority mode the requeue worker adds the whole message as member and stores no body |
| `PriorityQueue.PriorityStore.DeletePending` | src/system/message-manager/handlers/enqueue.handler.ts:109-133 | removes body and score |
| `PriorityQueue.PriorityStore.PurgeQueue` | src/system/queue-manager/queue-manager.ts:75-83 | empties the sorted set only |
| `ListAdmin.PagesCoverList` | src/system/message-manager/common.ts:102-153 | consecutive pages of any size concatenate to the list with positions |
| `ListAdmin.PageExactly` | src/system/message-manager/common.ts:102-153 | a page has take messages from skip on, or as many as there are, with their positions; parameters out of range are refused |
| `ListAdmin.Lookup` | src/system/message-manager/common.ts:55-78 | the element at the position, counted from the end if negative, if and only if it has the id |
| `ListAdmin.PageEntriesAreFound` | src/system/message-manager/common.ts:55-78 | every pair shown on a page is accepted on the unchanged list |
| `ListAdmin.DeleteRemovesOnlyThatMessage` | src/system/message-manager/common.ts:23-53 | whatever happens between read and removal, at most one message goes, only of the requested id, and one goes if and only if the text serialised again is in the list |
| `ListAdmin.RequeueMovesOne` | src/system/message-manager/handlers/requeue.handler.ts:29-50 | one message enters the pending list with attempts reset, and the number of copies is kept if and only if the text serialised again is in the list |
| `ListAdmin.DeleteWorksExactly` | src/system/message-manager/common.ts:23-53 | on an unchanged list with one such message, the deletion removes it if and only if its body was not dropped; otherwise it reports success and changes nothing |
| `ListAdmin.RequeueWorksExactly` | src/system/message-manager/handlers/requeue.handler.ts:29-50 | on an unchanged store the requeue moves the message if and only if its body was not dropped; otherwise it stays and a second copy is pending |
| `ListAdmin.DeleteInAnyRun` | src/system/message-manager/common.ts:23-53 | in every reachable state a deletion takes one copy away if and only if the message was produced with a body, was scheduled or was retried |
| `ListAdmin.RequeueInAnyRun` | src/system/message-manager/handlers/requeue.handler.ts:29-50 | in every reachable state a requeue of an acknowledged or dead-lettered message keeps the number of copies under the same condition and adds one otherwise |
| `ListAdmin.UndefinedBodyCannotBeDeleted` | src/system/producer/producer.ts:23-28 | a message produced from undefined is pending and found, and deleting it removes nothing |
| `MessageText.AssignKeepsTextExactly` | src/system/message.ts:361-370 | assigning a text to a new object gives the fields of the text in their order if and only if the fields of the new object are the first fields of the text |
| `MessageText.ChangesKeepLayout` | src/system/message.ts:28-78 | every object made from a new one by setters and assignments has the fields of the class in their order |
| `MessageText.ReserialisingKeepsText` | src/system/message.ts:361-370 | for every such object, parsing its text into a new object and serialising again gives the same text if and only if no field that was dropped has a value in the new object |
| `MessageText.ParsedIsRestored` | src/system/message.ts:361-370 | parsing a stored message gives every stored field, and null for a dropped body, whatever the new object was |
| `MessageText.StoredInjective` | src/system/message.ts:306-308 | different messages have different texts |
| `MessageText.StoredTextKeptExactly` | src/system/message.ts:361-370 | parsing and serialising a stored message gives the stored text if and only if the body was not dropped |
| `RedisKeys.SplitJoin` | src/system/common/redis-keys/redis-keys.ts:163-201 | splitting undoes joining for segments without the separator |
| `RedisKeys.JoinNested` | src/system/common/redis-keys/redis-keys.ts:203-212 | joining in two stages gives the flat key |
| `RedisKeys.ExtractPrinted` | src/system/common/redis-keys/redis-keys.ts:121-161 | parsing recovers namespace, type, queue and instance for the kinds 58, 59, 63, 65 (queue), 64, 75, 76, 77, 85 (consumer) and 74 (producer), and gives nothing for any other kind |
| `RedisKeys.PrintedExactly` | src/system/common/redis-keys/redis-keys.ts:47-119 | the segments of every global, queue and instance key |
| `RedisKeys.PrintInjective` | src/system/common/redis-keys/redis-keys.ts:47-119 | different keys are different strings, global ones included |
| `RedisKeys.ValidNames` | src/system/common/redis-keys/redis-keys.ts:228-241 | a name is accepted if and only if it is non-empty and made of letters, digits, - and _, the Kelvin sign and the dotted capital I counting as letters; the result has their lower-case letters and no separator |
| `RedisKeys.NamespaceSetting.constructor` | src/system/common/redis-keys/redis-keys.ts:5 | the namespace starts as default |
| `RedisKeys.NamespaceSetting.SetNamespace` | src/system/common/redis-keys/redis-keys.ts:214-222 | refuses invalid names and the reserved one in any case; otherwise the namespace is the accepted form |
| `Tickers.RunningMeansUpAndSettled` | src/system/common/power-manager/power-manager.ts:12-65 | after any calls pending differs from current, so the falsy test of isRunning means up with nothing pending |
| `Tickers.TransitionsExact` | src/system/common/power-manager/power-manager.ts:12-65 | after any calls a transition can start if and only if none is under way and the target is the other state; a commit ends there, a rollback where it was |
| `Tickers.AtMostOneTimer` | src/system/common/ticker/ticker.ts:48-74 | for every sequence of calls and expiries at most one timer is live |
| `Tickers.NoTickAfterQuit` | src/system/common/ticker/ticker.ts:23-46 | after quit no tick function runs and no timer is live, whatever follows |
| `Tickers.NextTickTicks` | src/system/common/ticker/ticker.ts:23-59 | a ticker that was not quit and has no timer starts one on nextTick, whose expiry runs one tick function and leaves it ready; with a timer nothing changes |
| `Tickers.NextTickFnKept` | src/system/common/ticker/ticker.ts:61-64 | a function given to nextTickFn is kept whether or not a timer starts |
| `Tickers.IntervalTicks` | src/system/common/ticker/ticker.ts:66-74 | an interval runs a tick function on each of its expiries |
| `Tickers.QuitExactly` | src/system/common/ticker/ticker.ts:38-46 | after any calls quit clears the timers and takes the ticker down, keeping all fields |
| `Tickers.PowerManager.constructor` | src/system/common/power-manager/power-manager.ts:8-10 | starts down with nothing pending |
| `Tickers.PowerManager.SwitchState` | src/system/common/power-manager/power-manager.ts:12-22 | sets the pending state or throws |
| `Tickers.PowerManager.Commit` | src/system/common/power-manager/power-manager.ts:52-58 | takes over the pending state or throws |
| `Tickers.PowerManager.Rollback` | src/system/common/power-manager/power-manager.ts:60-65 | drops the pending state or throws |
| `Tickers.Ticker.constructor` | src/system/common/ticker/ticker.ts:16-21 | starts going up without timers |
| `Tickers.Ticker.NextTick` | src/system/common/ticker/ticker.ts:48-59 | starts a timeout if none is set and the ticker may run |
| `Tickers.Ticker.NextTickFn` | src/system/common/ticker/ticker.ts:61-64 | remembers the function, then does the same |
| `Tickers.Ticker.RunTimer` | src/system/common/ticker/ticker.ts:66-74 | starts an interval if none is set and the ticker may run |
| `Tickers.Ticker.Quit` | src/system/common/ticker/ticker.ts:38-46 | gives up starting, or clears the timers and goes down |
| `Tickers.Ticker.OnTimer` | src/system/common/ticker/ticker.ts:30-36 | a live timer runs the tick function only while running |
| `MessageRates.Conservation` | src/system/consumer/consumer-message-rate.ts:49-101 | over any run increments equal reported rates plus what is left in the slots |
| `MessageRates.WindowIsLastFive` | src/system/consumer/consumer-message-rate.ts:35-47 | the window holds the flags of the last five reports |
| `MessageRates.IdleExactly` | src/system/consumer/consumer-message-rate.ts:35-47 | idle is answered if and only if there were at least five reports and the last five were all zero |
| `MessageRates.Drain` | src/system/consumer/consumer-message-rate.ts:50-54 | sums the cells and clears them |
| `MessageRates.ConsumerMessageRate.constructor` | src/system/consumer/consumer-message-rate.ts:12-18 | starts with empty slots and a window that is not idle |
| `MessageRates.ConsumerMessageRate.IncrementProcessingSlot` | src/system/consumer/consumer-message-rate.ts:88-91 | adds one to the slot |
| `MessageRates.ConsumerMessageRate.IncrementAcknowledgedSlot` | src/system/consumer/consumer-message-rate.ts:93-96 | adds one to the slot |
| `MessageRates.ConsumerMessageRate.IncrementUnacknowledgedSlot` | src/system/consumer/consumer-message-rate.ts:98-101 | adds one to the slot |
| `MessageRates.ConsumerMessageRate.GetRateFields` | src/system/consumer/consumer-message-rate.ts:49-73 | returns the three sums, clears the slots and shifts the idle window |
| `Stats.AggregatedRatesAreSums` | src/monitor-server/workers/stats.worker.ts:130-227 | for any rates hash with distinct keys each global rate is the sum of the samples of its kind that are at most a second old, and the sum over all producers or consumers |
| `Stats.SampleExactly` | src/monitor-server/workers/stats.worker.ts:130-212 | what one sample adds to totals and cells, by the number of its kind; an expired one adds nothing |
| `Stats.RatesAreTheSamples` | src/monitor-server/workers/stats.worker.ts:65-227 | each global rate is the sum of its live samples; a producer or consumer is listed if and only if a live sample names it, with the rates of its samples |
| `Stats.OneSampleOneRate` | src/monitor-server/workers/stats.worker.ts:191-212 | with distinct keys the rate of a cell is that of its one live sample |
| `Stats.ExpiredKeys` | src/monitor-server/workers/stats.worker.ts:186-215 | the keys reported are those of the samples older than a second |
| `Stats.SizesGoWhereAsked` | src/monitor-server/workers/stats.worker.ts:229-289 | each reply goes to the queue and field of the key that asked for it, and other queues are left alone |
| `Stats.StatsWorker.HandleItem` | src/monitor-server/workers/stats.worker.ts:199-212 | a fresh sample is counted under the producer or consumer its key names; an expired one is not |
| `Stats.StatsWorker.GetRates` | src/monitor-server/workers/stats.worker.ts:191-227 | all samples are handled and the expired keys collected in order |
| `Stats.StatsWorker.GetQueueSize` | src/monitor-server/workers/stats.worker.ts:229-289 | all replies are stored in the order of the queued commands |

## Left out

- HTTP server, controllers, validation, web UI, logging, worker forking: plumbing around the modelled operations.
- Redis connections, drivers and script loading: only the meaning of the commands is modelled.
- LockManager and ConsumerWorkers: redlock is not part of this model; mutual exclusion of workers is an assumption.
- CRON parsing, uuids and JSON syntax: an abstract next CRON time, numbers as ids whose order stands for the order of
  the uuid texts, records as stored messages. A CRON expression is taken to be non-empty text.
- JavaScript numbers are integers here; NaN, fractions and `Number()` of texts other than plain digits are not modelled.
- Heartbeats: that a consumer counts as dead is an event of the model, not computed from timestamps.
- Admin deletions, purges and re-queues running beside the protocol: they take no common lock with the workers, so
  single placement does not hold there; `ListAdmin` states what each of them does by itself.
- Delivery in priority mode as a protocol with crashes: only the priority structures are modelled.
- Fairness: a requeue list that grows faster than a hundred messages a tick starves its oldest messages.
- Stats.StatsWorker.GetRates: the nested dictionaries of namespaces, queues and instances are one map keyed by all three;
  heartbeats, sanitizing and publishing of the statistics are not modelled.
- RedisKeys.ValidNames: other characters outside ASCII are taken to be their own lower case; none of theirs is ASCII.
- Default options that are set to undefined: a default is a number here, so that only the body can be dropped;
  `MessageText.ReserialisingKeepsText` has the condition for any field.
- MessageManager.Store.DeleteProcessingQueue: the hash of processing lists per queue is not in the store; it is written
  by the modelled code and never read.
- MessageManager.Store.Enqueue: the branch without priority; the other one is `PriorityQueue.PriorityStore.EnqueueWithMulti`
  and `PriorityQueue.PriorityStore.ZPushHSet`.
- MessageManager.Store.Resubmit: the branch without priority; the other one is `PriorityQueue.PriorityStore.RequeueMember`.
- MessageManager.Store.RequeueTick: the worker without priority, as above.
- MessageManager.Store.RequeueAt: the branch without priority; the other one is `PriorityQueue.RequeueListedMovesOne`.
- ListAdmin.RequeueMovesOne: the branch without priority, as above.
- MessageManager.Store.HandleOfflineConsumer: describes an undisturbed pass; interleaved passes are the GcInspect,
  GcRetry and GcDelete steps of `Protocol`. The same holds for the tick methods and the read and commit steps.
