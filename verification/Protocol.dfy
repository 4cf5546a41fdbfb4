/**
 * The delivery protocol as a state machine: producers, consumers that may crash at any point, and the four
 * background workers, sharing one store. A step is one atomic command, MULTI or script; what a process read
 * and holds in memory between two commands is part of the state.
 */
module Protocol {
  import opened Wrappers
  import opened Messages
  import opened Redis
  import opened Scheduler
  import opened Handlers

  /** The MESSAGE_NEXT loop: wait for a message, receive it, run the handler, settle, wait again. */
  datatype Phase = Idle | Received(m: Record) | Handling(m: Record) | Dead

  datatype Consumer = Consumer(queue: Queue, phase: Phase)

  /** A recovery task of the GC worker on one processing list: it has read the head, or the list is cleared
      and the list key is about to be deleted. Several tasks, even on one list, may be under way. */
  datatype GcTask = Inspected(c: ConsumerId, m: Record) | Emptied(c: ConsumerId)

  datatype Place = InList(k: Key) | Scheduled

  /** What happened so far; no step's behaviour depends on it. */
  datatype History = History(
    origin: map<Id, Record>,      // every produced message, as it was after reset and setQueue
    place: map<Id, Place>,        // where each non-periodic message was put last
    failures: map<Id, nat>,       // unacknowledged deliveries
    published: map<Id, nat>,      // publications by the schedule worker
    cause: map<Id, DeadCause>)    // why a message was dead-lettered

  datatype World = World(
    db: Db,
    consumers: map<ConsumerId, Consumer>,
    gc: map<nat, GcTask>,
    requeueBatch: seq<Record>,    // read by the requeue worker, not yet committed
    delayBatch: seq<Record>,      // read by the delay worker, not yet committed
    dueIds: seq<Id>,              // ids the schedule worker found due
    dueBatch: seq<Record>,        // their bodies, not yet fired
    now: int,
    hist: History)

  datatype Outcome = Ack | Unack(cause: UnackCause)

  datatype Step =
    | Produce(m: Record, q: Queue)
    | StartConsumer(c: ConsumerId, q: Queue)
    | DequeueBy(c: ConsumerId)
    | Receive(c: ConsumerId)
    | Settle(c: ConsumerId, outcome: Outcome)
    | Crash(c: ConsumerId)
    | GcInspect(t: nat, c: ConsumerId)
    | GcRetry(t: nat)
    | GcDelete(t: nat)
    | GcCrash(t: nat)
    | RequeueRead
    | RequeueCommit
    | RequeueCrash
    | DelayRead
    | DelayCommit
    | DelayCrash
    | DueIds(ids: seq<Id>)
    | DueBodies
    | DueFire(i: nat)
    | DueCrash

  /** A step, the clock when it happens, and the next CRON slot then. */
  datatype Event = Event(step: Step, now: int, slot: int)

  function Init(): World {
    World(EMPTY, map[], map[], [], [], [], [], 0, History(map[], map[], map[], map[], map[]))
  }

  const BATCH := 100

  ghost predicate Distinct(ids: seq<Id>) {
    forall i, j :: 0 <= i < j < |ids| ==> ids[i] != ids[j]
  }

  // ---------------------------------------------------------------- when a step can happen

  ghost predicate Enabled(w: World, e: Event) {
    && w.now <= e.now && 0 < e.now < e.slot
    && match e.step
       case Produce(m, q) => WellFormed(m) && m.id !in w.hist.origin
       case StartConsumer(c, q) => c !in w.consumers
       case DequeueBy(c) => c in w.consumers && w.consumers[c].phase.Idle? && At(w.db, Pending(w.consumers[c].queue)) != []
       case Receive(c) => c in w.consumers && w.consumers[c].phase.Received?
       case Settle(c, o) => c in w.consumers && w.consumers[c].phase.Handling?
                            && (o.Unack? ==> o.cause in {UNACKNOWLEDGED, CAUGHT_ERROR, TIMEOUT})
       case Crash(c) => c in w.consumers
       case GcInspect(t, c) => t !in w.gc && c in w.consumers && w.consumers[c].phase.Dead?
       case GcRetry(t) => t in w.gc && w.gc[t].Inspected? && w.gc[t].c in w.consumers
       case GcDelete(t) => t in w.gc && w.gc[t].Emptied?
       case GcCrash(t) => true
       case RequeueRead => w.requeueBatch == []
       case RequeueCommit => true
       case RequeueCrash => true
       case DelayRead => w.delayBatch == []
       case DelayCommit => true
       case DelayCrash => true
       case DueIds(ids) => w.dueIds == [] && w.dueBatch == [] && Distinct(ids)
                           && forall id :: id in ids <==> id in w.db.due && 0 <= w.db.due[id] <= e.now
       case DueBodies => w.dueBatch == []
       case DueFire(i) => i < |w.dueBatch|
       case DueCrash => true
  }

  // ---------------------------------------------------------------- bookkeeping

  function Placed(h: History, r: Record, p: Place): History {
    if IsPeriodic(r) then h else h.(place := h.place[r.id := p])
  }

  function Created(h: History, r: Record, p: Place): History {
    Placed(h.(origin := h.origin[r.id := r], failures := h.failures[r.id := 0], published := h.published[r.id := 0]), r, p)
  }

  function Failed(h: History, r: Record, d: Destination, q: Queue): History {
    var n := if r.id in h.failures then h.failures[r.id] + 1 else 1;
    var h' := Placed(h.(failures := h.failures[r.id := n]), r, InList(Target(d, q)));
    if d.ToDeadLetter? then h'.(cause := h'.cause[r.id := d.cause]) else h'
  }

  function Fired(h: History, r: Record): History {
    var n := if r.id in h.published then h.published[r.id] + 1 else 1;
    var h' := h.(published := h.published[r.id := n]);
    if r.queue.Some? then Placed(h', r, InList(Pending(r.queue.value))) else h'
  }

  function Requeued(h: History, batch: seq<Record>): History
    decreases |batch|
  {
    if batch == [] then h
    else if batch[0].queue.None? then Requeued(h, batch[1..])
    else Requeued(Placed(h, batch[0], InList(Pending(batch[0].queue.value))), batch[1..])
  }

  function Delayed(h: History, batch: seq<Record>): History
    decreases |batch|
  {
    if batch == [] then h else Delayed(Placed(h, batch[0], Scheduled), batch[1..])
  }

  // ---------------------------------------------------------------- the steps

  function SetPhase(w: World, c: ConsumerId, p: Phase): World
    requires c in w.consumers
  {
    w.(consumers := w.consumers[c := w.consumers[c].(phase := p)])
  }

  /** Carries out the routing decision for message m, which was read from c's processing list. When the list
      is empty by then the move does nothing and no failure is recorded. */
  function FailDelivery(w: World, c: ConsumerId, m: Record, cause: UnackCause, now: int): World
    requires c in w.consumers
  {
    var q := w.consumers[c].queue;
    var d := Route(m, cause, now);
    w.(db := MoveFailed(w.db, c, q, d),
       hist := if At(w.db, Processing(c)) == [] then w.hist else Failed(w.hist, m, d, q))
  }

  function DoProduce(w: World, m: Record, q: Queue, now: int, slot: int): World {
    var r := Produced(m, q);
    if IsSchedulable(r) then
      var (db, accepted) := Schedule(w.db, r, now, slot);
      if accepted then w.(db := db, hist := Created(w.hist, r, Scheduled)) else w
    else
      w.(db := RPush(w.db, Pending(q), Published(r, now)), hist := Created(w.hist, r, InList(Pending(q))))
  }

  function DoReceive(w: World, c: ConsumerId, now: int): World
    requires c in w.consumers && w.consumers[c].phase.Received?
  {
    var m := w.consumers[c].phase.m;
    if HasExpired(m, now) then SetPhase(FailDelivery(w, c, m, TTL_EXPIRED, now), c, Idle)
    else SetPhase(w, c, Handling(m))
  }

  function DoSettle(w: World, c: ConsumerId, o: Outcome, now: int): World
    requires c in w.consumers && w.consumers[c].phase.Handling?
  {
    var m := w.consumers[c].phase.m;
    match o
    case Ack =>
      SetPhase(w.(db := Acknowledge(w.db, c, w.consumers[c].queue),
                  hist := Placed(w.hist, m, InList(Acknowledged(w.consumers[c].queue)))), c, Idle)
    case Unack(cause) => SetPhase(FailDelivery(w, c, m, cause, now), c, Idle)
  }

  function DoDequeue(w: World, c: ConsumerId): World
    requires c in w.consumers && At(w.db, Pending(w.consumers[c].queue)) != []
  {
    var s := At(w.db, Pending(w.consumers[c].queue));
    var m := s[|s| - 1];
    SetPhase(w.(db := Dequeue(w.db, c, w.consumers[c].queue),
                hist := Placed(w.hist, m, InList(Processing(c)))), c, Received(m))
  }

  function DoGcRetry(w: World, t: nat, now: int): World
    requires t in w.gc && w.gc[t].Inspected? && w.gc[t].c in w.consumers
  {
    var task := w.gc[t];
    FailDelivery(w, task.c, task.m, RECOVERY, now).(gc := w.gc[t := Emptied(task.c)])
  }

  function DoDueFire(w: World, i: nat, now: int, slot: int): World
    requires i < |w.dueBatch|
  {
    var r := w.dueBatch[i];
    var fired := FireEntry(w.db, r, now, slot);
    if fired.Err? then w.(dueBatch := [])
    else w.(db := fired.value, hist := Fired(w.hist, r), dueBatch := w.dueBatch[..i] + w.dueBatch[i + 1..])
  }

  function Apply(w: World, e: Event): World
    requires Enabled(w, e)
  {
    var w := w.(now := e.now);
    match e.step
    case Produce(m, q) => DoProduce(w, m, q, e.now, e.slot)
    case StartConsumer(c, q) =>
      w.(consumers := w.consumers[c := Consumer(q, Idle)], db := w.db.(index := w.db.index + {c}))
    case DequeueBy(c) => DoDequeue(w, c)
    case Receive(c) => DoReceive(w, c, e.now)
    case Settle(c, o) => DoSettle(w, c, o, e.now)
    case Crash(c) => SetPhase(w, c, Dead)
    case GcInspect(t, c) =>
      var s := At(w.db, Processing(c));
      w.(gc := w.gc[t := if s == [] then Emptied(c) else Inspected(c, s[0])])
    case GcRetry(t) => DoGcRetry(w, t, e.now)
    case GcDelete(t) => w.(db := DeleteProcessingQueue(w.db, w.gc[t].c), gc := w.gc - {t})
    case GcCrash(t) => w.(gc := w.gc - {t})
    case RequeueRead => w.(requeueBatch := FirstN(At(w.db, Requeue), BATCH))
    case RequeueCommit =>
      var done := RequeueBatch(w.db, w.requeueBatch);
      if done.Err? then w.(requeueBatch := [])
      else w.(db := done.value, hist := Requeued(w.hist, w.requeueBatch), requeueBatch := [])
    case RequeueCrash => w.(requeueBatch := [])
    case DelayRead => w.(delayBatch := FirstN(At(w.db, Delay), BATCH))
    case DelayCommit =>
      var done := DelayBatch(w.db, w.delayBatch, e.now, e.slot);
      if done.Err? then w.(delayBatch := [])
      else w.(db := done.value, hist := Delayed(w.hist, w.delayBatch), delayBatch := [])
    case DelayCrash => w.(delayBatch := [])
    case DueIds(ids) => w.(dueIds := ids)
    case DueBodies =>
      var bodies := Bodies(w.db, w.dueIds);
      w.(dueIds := [], dueBatch := if bodies.Err? then [] else bodies.value)
    case DueFire(i) => DoDueFire(w, i, e.now, e.slot)
    case DueCrash => w.(dueIds := [], dueBatch := [])
  }

  /** A run: every event is enabled when it happens. */
  ghost predicate IsRun(w: World, es: seq<Event>)
    decreases |es|
  {
    es == [] || (Enabled(w, es[0]) && IsRun(Apply(w, es[0]), es[1..]))
  }

  ghost function After(w: World, es: seq<Event>): World
    requires IsRun(w, es)
    decreases |es|
  {
    if es == [] then w else After(Apply(w, es[0]), es[1..])
  }

  ghost predicate Reachable(w: World) {
    exists es :: IsRun(Init(), es) && After(Init(), es) == w
  }
}
