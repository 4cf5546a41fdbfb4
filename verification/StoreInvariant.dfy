/**
 * What the store and the history satisfy in every reachable state, and the lemmas that show each kind of
 * change to the store keeps it. Consumers and workers come in ProtocolInvariant.
 */
module StoreInvariant {
  import opened Wrappers
  import opened Messages
  import opened Redis
  import opened Scheduler
  import opened Handlers
  import opened Protocol

  // ---------------------------------------------------------------- where messages are

  ghost predicate Tracked(h: History) {
    && h.failures.Keys == h.origin.Keys && h.published.Keys == h.origin.Keys
    && forall id :: id in h.place <==> id in h.origin && !IsPeriodic(h.origin[id])
  }

  /** Every non-periodic message is once where the history says, and nowhere else. */
  ghost predicate OnePlace(db: Db, h: History) {
    && (forall id, k {:trigger Count(At(db, k), id)} ::
          id in h.place ==> Count(At(db, k), id) == if h.place[id] == InList(k) then 1 else 0)
    && (forall id :: id in h.place ==> (id in db.bodies <==> h.place[id] == Scheduled))
  }

  // ---------------------------------------------------------------- what stored records look like

  /** Lists that hold messages whose last delivery failed and whose attempt counter was not yet raised. */
  predicate FailedList(k: Key) { k.Requeue? || k.Delay? || k.DeadLetter? }

  function Limit(t: int): int { if t > 0 then t else 1 }

  /** Failures are the stored attempts, plus one in the lists of failed messages; the threshold bounds them. */
  predicate Accounted(failures: nat, k: Key, r: Record) {
    && failures == r.attempts + (if FailedList(k) then 1 else 0)
    && (r.job.retryThreshold != 0 ==> r.attempts < Limit(r.job.retryThreshold))
    && (k.Requeue? || k.Delay? ==> !ThresholdExceeded(r))
  }

  /** A retry of a message with a retry delay went through the schedule with that delay. */
  predicate RetryDelayed(r: Record) {
    r.attempts > 0 && r.job.retryDelay != 0 ==> r.scheduledAt.Some? && r.delay == Some(r.job.retryDelay)
  }

  /** A copy that came out of the schedule after a delay was published no earlier than the delay after it
      was scheduled. */
  predicate WaitedLongEnough(r: Record) {
    && RetryDelayed(r)
    && (r.scheduledAt.Some? ==>
        r.delay.Some? && r.publishedAt.Some? && r.publishedAt.value >= r.scheduledAt.value + r.delay.value)
  }

  predicate RightQueue(k: Key, r: Record) {
    (k.Pending? || k.Acknowledged? || k.DeadLetter?) ==> r.queue == Some(k.q)
  }

  predicate RetryRouted(k: Key, r: Record) {
    && (k.Requeue? || k.Delay? ==> !IsPeriodic(r))
    && (k.Delay? ==> r.job.retryDelay >= 1000)
    && (k.Requeue? ==> r.job.retryDelay == 0)
  }

  ghost predicate Blamed(h: History, k: Key, r: Record) {
    k.DeadLetter? ==> r.id in h.cause && (h.cause[r.id] == THRESHOLD ==> ThresholdExceeded(r))
  }

  predicate IsJob(h: History, r: Record) {
    && r.id in h.origin && r.id in h.failures && SameJob(r, h.origin[r.id])
    && WellFormed(r) && r.queue.Some? && !r.expired
  }

  /** A body that was dropped when the message was first stored is missing from the copies in the lists until a
      worker has parsed and stored the message again. */
  predicate BodyKept(h: History, r: Record)
    requires r.id in h.origin
  {
    r.body.None? <==> h.origin[r.id].body.None? && !IsSchedulable(h.origin[r.id]) && r.attempts == 0
  }

  ghost predicate RecordOk(h: History, k: Key, r: Record) {
    && IsJob(h, r) && BodyKept(h, r)
    && RightQueue(k, r) && RetryRouted(k, r)
    && (!IsPeriodic(r) ==> Accounted(h.failures[r.id], k, r) && WaitedLongEnough(r) && Blamed(h, k, r))
  }

  ghost predicate ListsOk(db: Db, h: History) {
    forall k, r :: r in At(db, k) ==> RecordOk(h, k, r)
  }

  /** An entry of the schedule. A non-periodic one waits for its delay only; a CRON one never ends. */
  ghost predicate EntryOk(h: History, id: Id, r: Record, due: int) {
    && r.id == id && IsJob(h, r) && due > 0
    && (!IsPeriodic(r) ==>
        && r.delayed && r.delay.Some? && r.scheduledAt.Some? && due == r.scheduledAt.value + r.delay.value
        && h.failures[id] == r.attempts && RetryDelayed(r)
        && (r.attempts == 0 ==> IsSchedulable(h.origin[id]))
        && (r.job.retryThreshold != 0 ==> r.attempts < Limit(r.job.retryThreshold)))
    && (r.job.cron.None? ==> InSchedule(r))
    && (r.job.cron.Some? ==> CronEntry(r) && DelaySpent(r))
  }

  /** Publications so far and publications to come add up, for every periodic message without CRON;
      a CRON message is always in the schedule. */
  ghost predicate CountOk(db: Db, h: History, id: Id) {
    id in h.origin && id in h.published && IsPeriodic(h.origin[id]) ==>
      if h.origin[id].job.cron.Some? then id in db.bodies
      else h.published[id] + (if id in db.bodies then Remaining(db.bodies[id]) else 0) == Total(h.origin[id])
  }

  ghost predicate ScheduleOk(db: Db, h: History) {
    && db.due.Keys == db.bodies.Keys
    && (forall id :: id in db.bodies ==> EntryOk(h, id, db.bodies[id], db.due[id]))
    && (forall id :: id in h.origin ==> CountOk(db, h, id))
  }

  ghost predicate StoreOk(db: Db, h: History) {
    Tracked(h) && OnePlace(db, h) && ListsOk(db, h) && ScheduleOk(db, h)
  }

  /** A non-periodic message found in a list is nowhere else. */
  lemma FoundMeansOnlyThere(db: Db, h: History, k: Key, r: Record)
    requires Tracked(h) && OnePlace(db, h) && ListsOk(db, h) && r in At(db, k) && !IsPeriodic(r)
    ensures r.id in h.place && h.place[r.id] == InList(k) && r.id !in db.bodies
    ensures Count(At(db, k), r.id) == 1 && forall k' :: k' != k ==> Count(At(db, k'), r.id) == 0
  {
    assert RecordOk(h, k, r);
    CountMember(At(db, k), r);
  }

  // ---------------------------------------------------------------- histories that differ in one message

  /** Nothing but the bookkeeping of message id changed. */
  predicate SameBut(h: History, h': History, id: Id) {
    && h'.origin == h.origin
    && h'.failures.Keys == h.failures.Keys && h'.published.Keys == h.published.Keys
    && h.cause.Keys <= h'.cause.Keys
    && (forall x :: x in h.failures && x != id ==> h'.failures[x] == h.failures[x])
    && (forall x :: x in h.cause && x != id ==> h'.cause[x] == h.cause[x])
    && (forall x :: x in h.place && x != id ==> x in h'.place && h'.place[x] == h.place[x])
    && h'.place.Keys == h.place.Keys
  }

  lemma RecordFrame(h: History, h': History, id: Id, k: Key, r: Record)
    requires SameBut(h, h', id) && RecordOk(h, k, r)
    requires r.id != id || IsPeriodic(r)
    ensures RecordOk(h', k, r)
  {
  }

  lemma EntryFrame(h: History, h': History, id: Id, x: Id, r: Record, due: int)
    requires SameBut(h, h', id) && EntryOk(h, x, r, due)
    requires x != id || IsPeriodic(r)
    ensures EntryOk(h', x, r, due)
  {
  }

  /** A periodic and a non-periodic record never share an id. */
  lemma SameKind(h: History, a: Record, b: Record)
    requires IsJob(h, a) && IsJob(h, b) && a.id == b.id
    ensures IsPeriodic(a) == IsPeriodic(b)
  {
  }

  // ---------------------------------------------------------------- moving one message between lists

  /** db' has one message less under `from` (r) and one more under `to` (r', the same message). */
  ghost predicate Moved(db: Db, db': Db, from: Key, to: Key, r: Record, r': Record) {
    && from != to && r.id == r'.id
    && (forall k :: k != from && k != to ==> At(db', k) == At(db, k))
    && OneMore(At(db, from), At(db', from), r)
    && OneMore(At(db', to), At(db, to), r')
    && db'.due == db.due && db'.bodies == db.bodies && db'.index == db.index
  }

  /** After a move out of its only list, no record of the message is left but the one put down. */
  lemma OnlyCopy(db: Db, db': Db, h: History, from: Key, to: Key, r: Record, r': Record, k: Key, x: Record)
    requires Moved(db, db', from, to, r, r') && OnePlace(db, h) && r.id in h.place
    requires x in At(db', k) && x.id == r.id
    ensures k == to && x == r'
  {
    CountMember(At(db, from), r);
    assert h.place[r.id] == InList(from);
    CountMember(At(db', k), x);
    if k == to {
      if x != r' {
        assert x in At(db, to);
        CountMember(At(db, to), x);
      }
    }
  }

  lemma MoveOnePlace(db: Db, db': Db, h: History, h': History, from: Key, to: Key, r: Record, r': Record)
    requires Moved(db, db', from, to, r, r') && OnePlace(db, h)
    requires h'.place == if r.id in h.place then h.place[r.id := InList(to)] else h.place
    ensures OnePlace(db', h')
  {
    assert r.id in h.place ==> h.place[r.id] == InList(from) by {
      CountMember(At(db, from), r);
    }
    forall id, k | id in h'.place
      ensures Count(At(db', k), id) == if h'.place[id] == InList(k) then 1 else 0
    {
      assert Count(At(db, k), id) == if h.place[id] == InList(k) then 1 else 0;
      MovedCount(db, db', from, to, r, r', k, id);
    }
  }

  lemma MovedCount(db: Db, db': Db, from: Key, to: Key, r: Record, r': Record, k: Key, id: Id)
    requires Moved(db, db', from, to, r, r')
    ensures Count(At(db', k), id) ==
      Count(At(db, k), id) + if id != r.id then 0 else if k == from then -1 else if k == to then 1 else 0
  {
  }

  lemma MoveListsOk(db: Db, db': Db, h: History, h': History, from: Key, to: Key, r: Record, r': Record)
    requires Moved(db, db', from, to, r, r') && Tracked(h) && OnePlace(db, h) && ListsOk(db, h)
    requires SameBut(h, h', r.id) && RecordOk(h', to, r')
    ensures ListsOk(db', h')
  {
    assert RecordOk(h, from, r);
    forall k, x | x in At(db', k)
      ensures RecordOk(h', k, x)
    {
      if !(k == to && x == r') {
        assert x in At(db, k);
        assert RecordOk(h, k, x);
        OtherRecord(db, db', h, from, to, r, r', k, x);
        RecordFrame(h, h', r.id, k, x);
      }
    }
  }

  lemma OtherRecord(db: Db, db': Db, h: History, from: Key, to: Key, r: Record, r': Record, k: Key, x: Record)
    requires Moved(db, db', from, to, r, r') && Tracked(h) && OnePlace(db, h) && IsJob(h, r) && IsJob(h, x)
    requires x in At(db', k) && !(k == to && x == r')
    ensures x.id != r.id || IsPeriodic(x)
  {
    if x.id == r.id && !IsPeriodic(x) {
      SameKind(h, x, r);
      OnlyCopy(db, db', h, from, to, r, r', k, x);
    }
  }

  /** The schedule is untouched by list moves and by the bookkeeping of a message that is not in it. */
  lemma ScheduleFrame(db: Db, db': Db, h: History, h': History, r: Record)
    requires ScheduleOk(db, h) && db'.due == db.due && db'.bodies == db.bodies
    requires IsJob(h, r) && (IsPeriodic(r) || r.id !in db.bodies)
    requires SameBut(h, h', r.id) && h'.published == h.published
    ensures ScheduleOk(db', h')
  {
    forall id | id in db'.bodies
      ensures EntryOk(h', id, db'.bodies[id], db'.due[id])
    {
      assert EntryOk(h, id, db.bodies[id], db.due[id]);
      if id == r.id { SameKind(h, r, db.bodies[id]); }
      EntryFrame(h, h', r.id, id, db.bodies[id], db.due[id]);
    }
    forall id | id in h'.origin ensures CountOk(db', h', id) {
      assert CountOk(db, h, id);
    }
  }

  /** Any move of one message keeps the store consistent, if the record put down fits its new list. */
  lemma MoveKeepsStore(db: Db, db': Db, h: History, h': History, from: Key, to: Key, r: Record, r': Record)
    requires StoreOk(db, h) && Moved(db, db', from, to, r, r')
    requires SameBut(h, h', r.id) && h'.published == h.published
    requires h'.place == if r.id in h.place then h.place[r.id := InList(to)] else h.place
    requires RecordOk(h', to, r')
    ensures StoreOk(db', h')
  {
    assert RecordOk(h, from, r);
    CountMember(At(db, from), r);
    MoveOnePlace(db, db', h, h', from, to, r, r');
    MoveListsOk(db, db', h, h', from, to, r, r');
    ScheduleFrame(db, db', h, h', r);
  }

  lemma RPopLPushMoves(db: Db, from: Key, to: Key)
    requires from != to && At(db, from) != []
    ensures var s := At(db, from); var r := s[|s| - 1];
      Moved(db, RPopLPush(db, from, to), from, to, r, r)
      && At(RPopLPush(db, from, to), from) == s[..|s| - 1]
      && At(RPopLPush(db, from, to), to) == [r] + At(db, to)
  {
    var s := At(db, from);
    var r := s[|s| - 1];
    OneMoreRight(s[..|s| - 1], r);
    assert s[..|s| - 1] + [r] == s;
    OneMoreLeft(At(db, to), r);
  }

  lemma LMoveMoves(db: Db, from: Key, to: Key)
    requires from != to && At(db, from) != []
    ensures var r := At(db, from)[0];
      Moved(db, LMoveLeftRight(db, from, to), from, to, r, r)
      && At(LMoveLeftRight(db, from, to), from) == At(db, from)[1..]
      && At(LMoveLeftRight(db, from, to), to) == At(db, to) + [r]
  {
    var s := At(db, from);
    OneMoreLeft(s[1..], s[0]);
    assert [s[0]] + s[1..] == s;
    OneMoreRight(At(db, to), s[0]);
  }

  // ---------------------------------------------------------------- deliveries

  /** A move that is not a failure, whatever the lists. */
  lemma RelocateKeepsStore(db: Db, db': Db, h: History, from: Key, to: Key, r: Record, r': Record)
    requires StoreOk(db, h) && Moved(db, db', from, to, r, r') && SameJob(r, r') && RecordOk(h, to, r')
    ensures StoreOk(db', Placed(h, r, InList(to)))
  {
    assert RecordOk(h, from, r);
    assert r.id in h.place <==> !IsPeriodic(r);
    PlacedHistory(h, r, InList(to));
    assert RecordOk(Placed(h, r, InList(to)), to, r');
    MoveKeepsStore(db, db', h, Placed(h, r, InList(to)), from, to, r, r');
  }

  lemma PlacedHistory(h: History, r: Record, p: Place)
    requires r.id in h.place <==> !IsPeriodic(r)
    ensures var h' := Placed(h, r, p);
      && SameBut(h, h', r.id) && h'.published == h.published
      && h'.place == if r.id in h.place then h.place[r.id := p] else h.place
  {
  }

  /** Taking the last pending message into a processing list. */
  lemma DequeueKeepsStore(db: Db, h: History, c: ConsumerId, q: Queue)
    requires StoreOk(db, h) && At(db, Pending(q)) != []
    ensures var s := At(db, Pending(q));
      StoreOk(Dequeue(db, c, q), Placed(h, s[|s| - 1], InList(Processing(c))))
  {
    var s := At(db, Pending(q));
    var m := s[|s| - 1];
    RPopLPushMoves(db, Pending(q), Processing(c));
    assert RecordOk(h, Pending(q), m);
    RelocateKeepsStore(db, Dequeue(db, c, q), h, Pending(q), Processing(c), m, m);
  }

  lemma AcknowledgeKeepsStore(db: Db, h: History, c: ConsumerId, q: Queue, m: Record)
    requires StoreOk(db, h) && At(db, Processing(c)) == [m] && m.queue == Some(q)
    ensures StoreOk(Acknowledge(db, c, q), Placed(h, m, InList(Acknowledged(q))))
  {
    LMoveMoves(db, Processing(c), Acknowledged(q));
    assert RecordOk(h, Processing(c), m);
    RelocateKeepsStore(db, Acknowledge(db, c, q), h, Processing(c), Acknowledged(q), m, m);
  }

  /** The record of a failed delivery fits the list it is routed to. */
  lemma RoutedFits(h: History, c: ConsumerId, q: Queue, m: Record, cause: UnackCause, now: int)
    requires Tracked(h) && RecordOk(h, Processing(c), m) && m.queue == Some(q)
    ensures var d := Route(m, cause, now);
      RecordOk(Failed(h, m, d, q), Target(d, q), m)
  {
  }

  lemma FailedHistory(h: History, m: Record, d: Destination, q: Queue)
    requires Tracked(h) && IsJob(h, m)
    ensures var h' := Failed(h, m, d, q);
      && SameBut(h, h', m.id) && h'.published == h.published
      && h'.place == if m.id in h.place then h.place[m.id := InList(Target(d, q))] else h.place
  {
    assert m.id in h.place <==> !IsPeriodic(m);
    FailedSameBut(h, m, d, q);
  }

  lemma FailedSameBut(h: History, m: Record, d: Destination, q: Queue)
    requires m.id in h.failures && (m.id in h.place <==> !IsPeriodic(m))
    ensures var h' := Failed(h, m, d, q);
      && SameBut(h, h', m.id) && h'.published == h.published
      && h'.place == if m.id in h.place then h.place[m.id := InList(Target(d, q))] else h.place
  {
  }

  lemma FailedMoveKeepsStore(db: Db, db': Db, h: History, c: ConsumerId, q: Queue, m: Record, cause: UnackCause, now: int)
    requires StoreOk(db, h) && m.queue == Some(q) && RecordOk(h, Processing(c), m)
    requires Moved(db, db', Processing(c), Target(Route(m, cause, now), q), m, m)
    ensures StoreOk(db', Failed(h, m, Route(m, cause, now), q))
  {
    var d := Route(m, cause, now);
    var h' := Failed(h, m, d, q);
    RoutedFits(h, c, q, m, cause, now);
    FailedHistory(h, m, d, q);
    MoveKeepsStore(db, db', h, h', Processing(c), Target(d, q), m, m);
  }

  lemma FailKeepsStore(db: Db, h: History, c: ConsumerId, q: Queue, m: Record, cause: UnackCause, now: int)
    requires StoreOk(db, h) && At(db, Processing(c)) == [m] && m.queue == Some(q)
    ensures var d := Route(m, cause, now);
      StoreOk(MoveFailed(db, c, q, d), Failed(h, m, d, q))
  {
    var d := Route(m, cause, now);
    assert RecordOk(h, Processing(c), m);
    MovedFailed(db, c, q, m, d);
    FailedMoveKeepsStore(db, MoveFailed(db, c, q, d), h, c, q, m, cause, now);
  }

  lemma MovedFailed(db: Db, c: ConsumerId, q: Queue, m: Record, d: Destination)
    requires At(db, Processing(c)) == [m]
    ensures Moved(db, MoveFailed(db, c, q, d), Processing(c), Target(d, q), m, m)
    ensures At(MoveFailed(db, c, q, d), Processing(c)) == []
  {
    if d.ToDeadLetter? {
      LMoveMoves(db, Processing(c), DeadLetter(q));
    } else {
      RPopLPushMoves(db, Processing(c), Target(d, q));
    }
  }

  // ---------------------------------------------------------------- the requeue worker

  lemma RequeueOneMoves(db: Db, r: Record)
    requires r in At(db, Requeue) && r.queue.Some?
    ensures Moved(db, RequeueOne(db, r), Requeue, Pending(r.queue.value), r, Retried(r))
  {
    OneMoreWithout(At(db, Requeue), r);
    OneMoreLeft(At(db, Pending(r.queue.value)), Retried(r));
  }

  lemma RequeueOneKeepsStore(db: Db, h: History, r: Record)
    requires StoreOk(db, h) && r in At(db, Requeue)
    ensures r.queue.Some?
    ensures StoreOk(RequeueOne(db, r), Placed(h, r, InList(Pending(r.queue.value))))
  {
    assert RecordOk(h, Requeue, r);
    var q := r.queue.value;
    RequeueOneMoves(db, r);
    RelocateKeepsStore(db, RequeueOne(db, r), h, Requeue, Pending(q), r, Retried(r));
  }

  // ---------------------------------------------------------------- production

  lemma {:induction false} FreshIdNowhere(s: seq<Record>, id: Id)
    requires forall r :: r in s ==> r.id != id
    ensures Count(s, id) == 0
  {
    CountPositive(s, id);
  }

  /** Adding a message the store has never seen. */
  lemma CreatedFrame(h: History, r: Record, p: Place, k: Key, x: Record)
    requires r.id !in h.origin && RecordOk(h, k, x)
    ensures RecordOk(Created(h, r, p), k, x)
  {
  }

  lemma CreatedTracked(h: History, r: Record, p: Place)
    requires Tracked(h) && r.id !in h.origin
    ensures Tracked(Created(h, r, p))
  {
  }

  lemma CreatedSchedule(db: Db, h: History, r: Record, p: Place, id: Id)
    requires ScheduleOk(db, h) && Tracked(h) && r.id !in h.origin && id in db.bodies
    ensures id != r.id && EntryOk(Created(h, r, p), id, db.bodies[id], db.due[id])
  {
    assert EntryOk(h, id, db.bodies[id], db.due[id]);
  }

  /** What produceMessage makes of a well-formed message. */
  lemma ProducedIsFresh(m: Record, q: Queue)
    requires WellFormed(m)
    ensures var r := Produced(m, q);
      WellFormed(r) && Fresh(r) && r.id == m.id && r.queue == Some(q) && r.attempts == 0 && !r.expired
      && r.scheduledAt.None? && SameJob(r, r)
  {
  }

  /** A message that was never produced is nowhere. */
  lemma NowhereYet(db: Db, h: History, id: Id)
    requires ListsOk(db, h) && ScheduleOk(db, h) && id !in h.origin
    ensures id !in db.bodies && forall k :: Count(At(db, k), id) == 0
  {
    assert id in db.bodies ==> EntryOk(h, id, db.bodies[id], db.due[id]);
    forall k ensures Count(At(db, k), id) == 0 {
      assert forall y :: y in At(db, k) ==> RecordOk(h, k, y);
      FreshIdNowhere(At(db, k), id);
    }
  }

  /** The first record of a new message, in a list or in the schedule. */
  lemma NewOnePlace(db: Db, db': Db, h: History, r: Record, p: Place)
    requires OnePlace(db, h) && Tracked(h) && r.id !in h.origin
    requires r.id !in db.bodies && (forall k :: Count(At(db, k), r.id) == 0)
    requires forall k, id ::
      Count(At(db', k), id) == Count(At(db, k), id) + if id == r.id && p == InList(k) then 1 else 0
    requires db'.bodies.Keys == db.bodies.Keys + if p.Scheduled? then {r.id} else {}
    ensures OnePlace(db', Created(h, r, p))
  {
    var h' := Created(h, r, p);
    assert h'.place == if IsPeriodic(r) then h.place else h.place[r.id := p];
    assert r.id !in h.place;
    forall id, k | id in h'.place
      ensures Count(At(db', k), id) == if h'.place[id] == InList(k) then 1 else 0
    {
      assert Count(At(db', k), id) == Count(At(db, k), id) + if id == r.id && p == InList(k) then 1 else 0;
      if id != r.id { assert Count(At(db, k), id) == if h.place[id] == InList(k) then 1 else 0; }
    }
  }

  lemma PublishedNewRecordOk(h: History, m: Record, q: Queue, now: int)
    requires WellFormed(m) && !IsSchedulable(Produced(m, q))
    ensures RecordOk(Created(h, Produced(m, q), InList(Pending(q))), Pending(q), Published(Produced(m, q), now))
  {
    ProducedIsFresh(m, q);
  }

  /** The other records stay right when a message is created and pending at once. */
  lemma NewListsOk(db: Db, h: History, r: Record, q: Queue, x: Record)
    requires ListsOk(db, h) && r.id !in h.origin && RecordOk(Created(h, r, InList(Pending(q))), Pending(q), x)
    ensures ListsOk(RPush(db, Pending(q), x), Created(h, r, InList(Pending(q))))
  {
    var db', h' := RPush(db, Pending(q), x), Created(h, r, InList(Pending(q)));
    forall k, y | y in At(db', k) ensures RecordOk(h', k, y) {
      if !(k == Pending(q) && y == x) {
        assert RecordOk(h, k, y);
        CreatedFrame(h, r, InList(Pending(q)), k, y);
      }
    }
  }

  lemma CreatedCountOk(db: Db, db': Db, h: History, r: Record, p: Place, id: Id)
    requires Tracked(h) && r.id !in h.origin && id in h.origin && CountOk(db, h, id)
    requires (id in db'.bodies <==> id in db.bodies) && (id in db.bodies ==> db'.bodies[id] == db.bodies[id])
    ensures CountOk(db', Created(h, r, p), id)
  {
  }

  lemma NewScheduleOk(db: Db, h: History, r: Record, q: Queue, x: Record)
    requires ScheduleOk(db, h) && Tracked(h) && r.id !in h.origin && !IsPeriodic(r)
    ensures ScheduleOk(RPush(db, Pending(q), x), Created(h, r, InList(Pending(q))))
  {
    var db', h' := RPush(db, Pending(q), x), Created(h, r, InList(Pending(q)));
    forall id | id in db'.bodies ensures EntryOk(h', id, db'.bodies[id], db'.due[id]) {
      CreatedSchedule(db, h, r, InList(Pending(q)), id);
    }
    forall id | id in h'.origin ensures CountOk(db', h', id) {
      if id != r.id {
        assert CountOk(db, h, id);
        CreatedCountOk(db, db', h, r, InList(Pending(q)), id);
      }
    }
  }

  /** Producing a message without scheduling parameters. */
  lemma PublishNewKeepsStore(db: Db, h: History, m: Record, q: Queue, now: int)
    requires StoreOk(db, h) && WellFormed(m) && m.id !in h.origin && !IsSchedulable(Produced(m, q))
    ensures var r := Produced(m, q);
      StoreOk(RPush(db, Pending(q), Published(r, now)), Created(h, r, InList(Pending(q))))
  {
    var r := Produced(m, q);
    var x := Published(r, now);
    var db', h' := RPush(db, Pending(q), x), Created(h, r, InList(Pending(q)));
    CreatedTracked(h, r, InList(Pending(q)));
    assert OnePlace(db', h') by {
      OneMoreRight(At(db, Pending(q)), x);
      NowhereYet(db, h, r.id);
      NewOnePlace(db, db', h, r, InList(Pending(q)));
    }
    assert ListsOk(db', h') by {
      PublishedNewRecordOk(h, m, q, now);
      NewListsOk(db, h, r, q, x);
    }
    NewScheduleOk(db, h, r, q, x);
  }

  /** Producing a schedulable message: always accepted. */
  lemma ScheduleNewKeepsStore(db: Db, h: History, m: Record, q: Queue, now: int, slot: int)
    requires StoreOk(db, h) && WellFormed(m) && m.id !in h.origin && IsSchedulable(Produced(m, q))
    requires 0 < now < slot
    ensures var r := Produced(m, q);
      Schedule(db, r, now, slot).1 && StoreOk(Schedule(db, r, now, slot).0, Created(h, r, Scheduled))
  {
    var r := Produced(m, q);
    ProducedIsFresh(m, q);
    ScheduleAccepts(r, now, slot);
    var p := Next(r, now, slot);
    NewEntryOk(h, r, now, slot);
    NewEntryKeepsStore(db, h, r, p.record.(scheduledAt := Some(now)), p.at);
  }

  lemma NewEntryOk(h: History, r: Record, now: int, slot: int)
    requires WellFormed(r) && Fresh(r) && IsSchedulable(r) && 0 < now < slot
    requires r.attempts == 0 && r.queue.Some? && !r.expired
    ensures var p := Next(r, now, slot);
      EntryOk(Created(h, r, Scheduled), r.id, p.record.(scheduledAt := Some(now)), p.at)
  {
    ScheduleAccepts(r, now, slot);
    NextSameJob(r, now, slot);
    if r.job.cron.Some? {
      CronStep(r, now, slot);
      if r.delay.Some? { DelayFirst(r, now, slot); } else { CronRepeatExactly(r, now, slot); }
    }
  }

  lemma NewEntryKeepsStore(db: Db, h: History, r: Record, x: Record, at: int)
    requires StoreOk(db, h) && r.id !in h.origin && EntryOk(Created(h, r, Scheduled), r.id, x, at)
    requires r.job.cron.None? ==> Remaining(x) == Total(r)
    ensures StoreOk(SetEntry(db, r.id, at, x), Created(h, r, Scheduled))
  {
    var db', h' := SetEntry(db, r.id, at, x), Created(h, r, Scheduled);
    assert forall k :: At(db', k) == At(db, k);
    CreatedTracked(h, r, Scheduled);
    NowhereYet(db, h, r.id);
    NewOnePlace(db, db', h, r, Scheduled);
    forall k, y | y in At(db', k) ensures RecordOk(h', k, y) {
      assert RecordOk(h, k, y);
      CreatedFrame(h, r, Scheduled, k, y);
    }
    NewEntryScheduleOk(db, h, r, x, at);
  }

  lemma NewEntryScheduleOk(db: Db, h: History, r: Record, x: Record, at: int)
    requires ScheduleOk(db, h) && Tracked(h) && r.id !in h.origin && EntryOk(Created(h, r, Scheduled), r.id, x, at)
    requires r.job.cron.None? ==> Remaining(x) == Total(r)
    ensures ScheduleOk(SetEntry(db, r.id, at, x), Created(h, r, Scheduled))
  {
    var db', h' := SetEntry(db, r.id, at, x), Created(h, r, Scheduled);
    forall id | id in db'.bodies ensures EntryOk(h', id, db'.bodies[id], db'.due[id]) {
      if id != r.id { CreatedSchedule(db, h, r, Scheduled, id); }
    }
    forall id | id in h'.origin ensures CountOk(db', h', id) {
      if id != r.id {
        assert CountOk(db, h, id);
        CreatedCountOk(db, db', h, r, Scheduled, id);
      }
    }
  }

  lemma NextSameJob(r: Record, now: int, slot: int)
    ensures var p := Next(r, now, slot);
      SameJob(p.record, r) && p.record.attempts == r.attempts && p.record.expired == r.expired
      && (WellFormed(r) ==> WellFormed(p.record))
  {
  }

  // ---------------------------------------------------------------- the schedule worker

  /** The entry r as the schedule worker holds it: still what the store has, and due. */
  ghost predicate DueEntry(db: Db, r: Record, now: int) {
    r.id in db.bodies && r.id in db.due && db.bodies[r.id] == r && db.due[r.id] <= now
  }

  /** The copy that is published fits the pending list. */
  lemma FiredCopyFits(h: History, r: Record, due: int, now: int)
    requires Tracked(h) && EntryOk(h, r.id, r, due) && due <= now && 0 < now
    ensures r.queue.Some? && RecordOk(Fired(h, r), Pending(r.queue.value), Republished(r, now))
  {
  }

  /** What the schedule holds for the message after it was fired. */
  lemma FiredEntryFits(h: History, r: Record, due: int, now: int, slot: int)
    requires Tracked(h) && EntryOk(h, r.id, r, due) && 0 < now < slot
    ensures var p := Next(Republished(r, now), now, slot);
      if !IsPeriodic(r) then p.at == 0
      else if r.job.cron.Some? then p.at > 0 && CronEntry(p.record) && DelaySpent(p.record)
      else if p.at == 0 then Remaining(r) == 1
      else p.at > 0 && InSchedule(p.record) && Remaining(p.record) == Remaining(r) - 1
  {
    if r.job.cron.Some? {
      CronStep(Republished(r, now), now, slot);
      CronRepeatExactly(Republished(r, now), now, slot);
    } else {
      FireStep(r, now, slot);
    }
  }

  lemma RearmedEntryOk(h: History, r: Record, due: int, now: int, slot: int)
    requires Tracked(h) && EntryOk(h, r.id, r, due) && 0 < now < slot
    ensures var p := Next(Republished(r, now), now, slot);
      p.at != 0 ==> EntryOk(Fired(h, r), r.id, p.record, p.at)
  {
    FiredEntryFits(h, r, due, now, slot);
    NextSameJob(Republished(r, now), now, slot);
  }

  lemma FiredSameBut(h: History, r: Record)
    requires Tracked(h) && IsJob(h, r)
    ensures SameBut(h, Fired(h, r), r.id) && Tracked(Fired(h, r))
  {
  }

  lemma FireCounts(db: Db, db': Db, q: Queue, x: Record, k: Key, id: Id)
    requires forall k :: At(db', k) == At(RPush(db, Pending(q), x), k)
    ensures Count(At(db', k), id) == Count(At(db, k), id) + if k == Pending(q) && id == x.id then 1 else 0
  {
    CountConcat(At(db, Pending(q)), [x], id);
  }

  lemma FireOnePlace(db: Db, db': Db, h: History, r: Record, q: Queue, x: Record)
    requires OnePlace(db, h) && Tracked(h) && IsJob(h, r) && r.id in db.bodies && r.queue == Some(q) && x.id == r.id
    requires forall k :: At(db', k) == At(RPush(db, Pending(q), x), k)
    requires !IsPeriodic(r) ==> r.id !in db'.bodies
    requires forall id :: id != r.id ==> (id in db'.bodies <==> id in db.bodies)
    ensures OnePlace(db', Fired(h, r))
  {
    var h' := Fired(h, r);
    forall id, k | id in h'.place
      ensures Count(At(db', k), id) == if h'.place[id] == InList(k) then 1 else 0
    {
      FireCounts(db, db', q, x, k, id);
      assert Count(At(db, k), id) == if h.place[id] == InList(k) then 1 else 0;
    }
  }

  lemma FireListsOk(db: Db, db': Db, h: History, h': History, r: Record, q: Queue, x: Record)
    requires ListsOk(db, h) && OnePlace(db, h) && Tracked(h) && r.id in db.bodies
    requires SameBut(h, h', r.id) && RecordOk(h', Pending(q), x)
    requires forall k :: At(db', k) == At(RPush(db, Pending(q), x), k)
    ensures ListsOk(db', h')
  {
    forall k, y | y in At(db', k) ensures RecordOk(h', k, y) {
      if !(k == Pending(q) && y == x) {
        assert y in At(db, k);
        if !IsPeriodic(y) { FoundMeansOnlyThere(db, h, k, y); }
        RecordFrame(h, h', r.id, k, y);
      }
    }
  }

  /** Publications so far and to come still add up after a firing. */
  lemma FireCountOk(db: Db, db': Db, h: History, r: Record, id: Id)
    requires Tracked(h) && IsJob(h, r) && r.id in db.bodies && db.bodies[r.id] == r
    requires id in h.origin && CountOk(db, h, id)
    requires id != r.id ==> (id in db'.bodies <==> id in db.bodies)
    requires id != r.id && id in db.bodies ==> db'.bodies[id] == db.bodies[id]
    requires IsPeriodic(r) && r.job.cron.Some? ==> r.id in db'.bodies
    requires IsPeriodic(r) && r.job.cron.None? ==>
      Remaining(r) - 1 == if r.id in db'.bodies then Remaining(db'.bodies[r.id]) else 0
    ensures CountOk(db', Fired(h, r), id)
  {
    var h' := Fired(h, r);
    assert h'.origin == h.origin;
    if id == r.id {
      assert h'.published[id] == h.published[id] + 1;
    } else {
      assert h'.published[id] == h.published[id];
    }
  }

  lemma FireScheduleOk(db: Db, db': Db, h: History, h': History, r: Record)
    requires ScheduleOk(db, h) && Tracked(h) && IsJob(h, r) && r.id in db.bodies && db.bodies[r.id] == r
    requires h' == Fired(h, r) && SameBut(h, h', r.id)
    requires db'.due.Keys == db'.bodies.Keys
    requires forall id :: id != r.id ==> (id in db'.bodies <==> id in db.bodies)
    requires forall id :: id != r.id && id in db.bodies ==> db'.bodies[id] == db.bodies[id] && db'.due[id] == db.due[id]
    requires r.id in db'.bodies ==> EntryOk(h', r.id, db'.bodies[r.id], db'.due[r.id])
    requires IsPeriodic(r) && r.job.cron.Some? ==> r.id in db'.bodies
    requires IsPeriodic(r) && r.job.cron.None? ==>
      Remaining(r) - 1 == if r.id in db'.bodies then Remaining(db'.bodies[r.id]) else 0
    ensures ScheduleOk(db', h')
  {
    forall id | id in db'.bodies ensures EntryOk(h', id, db'.bodies[id], db'.due[id]) {
      if id != r.id {
        assert EntryOk(h, id, db.bodies[id], db.due[id]);
        EntryFrame(h, h', r.id, id, db.bodies[id], db.due[id]);
      }
    }
    forall id | id in h'.origin ensures CountOk(db', h', id) {
      FireCountOk(db, db', h, r, id);
    }
  }

  lemma FireEntryShape(db: Db, r: Record, now: int, slot: int)
    requires r.queue.Some? && db.due.Keys == db.bodies.Keys
    ensures FireEntry(db, r, now, slot).Ok?
    ensures var p := Next(Republished(r, now), now, slot);
      var db' := FireEntry(db, r, now, slot).value;
      && (forall k :: At(db', k) == At(RPush(db, Pending(r.queue.value), Republished(r, now)), k))
      && db'.due.Keys == db'.bodies.Keys && (r.id in db'.bodies <==> p.at != 0)
      && (p.at != 0 ==> db'.bodies[r.id] == p.record && db'.due[r.id] == p.at)
      && (forall id :: id != r.id ==> (id in db'.bodies <==> id in db.bodies))
      && (forall id :: id != r.id && id in db.bodies ==> db'.bodies[id] == db.bodies[id] && db'.due[id] == db.due[id])
      && db'.index == db.index
  {
  }

  /** Publishing a due entry keeps the store consistent and never fails. */
  lemma FireKeepsStore(db: Db, h: History, r: Record, now: int, slot: int)
    requires StoreOk(db, h) && DueEntry(db, r, now) && 0 < now < slot
    ensures r.queue.Some? && FireEntry(db, r, now, slot).Ok?
    ensures StoreOk(FireEntry(db, r, now, slot).value, Fired(h, r))
  {
    var due := db.due[r.id];
    assert EntryOk(h, r.id, r, due);
    FireEntryShape(db, r, now, slot);
    FiredSameBut(h, r);
    var q := r.queue.value;
    var db', h' := FireEntry(db, r, now, slot).value, Fired(h, r);
    FiredEntryFits(h, r, due, now, slot);
    assert OnePlace(db', h') by {
      FireOnePlace(db, db', h, r, q, Republished(r, now));
    }
    assert ListsOk(db', h') by {
      FiredCopyFits(h, r, due, now);
      FireListsOk(db, db', h, h', r, q, Republished(r, now));
    }
    assert ScheduleOk(db', h') by {
      RearmedEntryOk(h, r, due, now, slot);
      FireScheduleOk(db, db', h, h', r);
    }
  }

  // ---------------------------------------------------------------- the delay worker

  /** The record the delay worker schedules. */
  function Postponed(r: Record): Record {
    Retried(r).(delay := Some(r.job.retryDelay), delayed := false)
  }

  /** Neither setScheduledDelay nor the computation of the time can fail for a message of the delay list. */
  lemma DelayNeverFails(db: Db, h: History, r: Record, now: int, slot: int)
    requires StoreOk(db, h) && r in At(db, Delay) && 0 < now < slot
    ensures DelayOne(db, r, now, slot) ==
      Ok(SetEntry(LRem(db, Delay, r), r.id, now + r.job.retryDelay,
                  Postponed(r).(delayed := true, scheduledAt := Some(now))))
    ensures r.job.retryDelay >= 1000
  {
    assert RecordOk(h, Delay, r);
  }

  lemma DelayOnePlace(db: Db, db': Db, h: History, r: Record)
    requires OnePlace(db, h) && r in At(db, Delay) && !IsPeriodic(r) && r.id in h.place
    requires forall k :: At(db', k) == At(LRem(db, Delay, r), k)
    requires db'.bodies.Keys == db.bodies.Keys + {r.id}
    ensures OnePlace(db', Placed(h, r, Scheduled))
  {
    var h' := Placed(h, r, Scheduled);
    OneMoreWithout(At(db, Delay), r);
    CountMember(At(db, Delay), r);
    forall id, k | id in h'.place
      ensures Count(At(db', k), id) == if h'.place[id] == InList(k) then 1 else 0
    {
      assert Count(At(db, k), id) == if h.place[id] == InList(k) then 1 else 0;
      if id == r.id { assert h.place[id] == InList(Delay); }
    }
  }

  lemma SameCountOk(db: Db, db': Db, h: History, h': History, id: Id)
    requires CountOk(db, h, id) && h'.origin == h.origin && h'.published == h.published
    requires id in h.origin && IsPeriodic(h.origin[id]) ==>
      (id in db'.bodies <==> id in db.bodies) && (id in db.bodies ==> db'.bodies[id] == db.bodies[id])
    ensures CountOk(db', h', id)
  {
  }

  lemma DelayScheduleOk(db: Db, db': Db, h: History, r: Record, x: Record, at: int)
    requires ScheduleOk(db, h) && Tracked(h) && IsJob(h, r) && !IsPeriodic(r) && r.id !in db.bodies
    requires db'.due == db.due[r.id := at] && db'.bodies == db.bodies[r.id := x]
    requires EntryOk(h, r.id, x, at)
    ensures ScheduleOk(db', Placed(h, r, Scheduled))
  {
    var h' := Placed(h, r, Scheduled);
    forall id | id in db'.bodies ensures EntryOk(h', id, db'.bodies[id], db'.due[id]) {
      if id != r.id { assert EntryOk(h, id, db.bodies[id], db.due[id]); }
    }
    forall id | id in h'.origin ensures CountOk(db', h', id) {
      assert CountOk(db, h, id);
      SameCountOk(db, db', h, h', id);
    }
  }

  lemma PostponedEntryOk(h: History, r: Record, now: int)
    requires RecordOk(h, Delay, r) && now > 0
    ensures EntryOk(h, r.id, Postponed(r).(delayed := true, scheduledAt := Some(now)), now + r.job.retryDelay)
  {
  }

  lemma DelayListsOk(db: Db, db': Db, h: History, r: Record)
    requires ListsOk(db, h) && r in At(db, Delay)
    requires forall k :: At(db', k) == At(LRem(db, Delay, r), k)
    ensures ListsOk(db', Placed(h, r, Scheduled))
  {
    OneMoreWithout(At(db, Delay), r);
    forall k, y | y in At(db', k) ensures RecordOk(Placed(h, r, Scheduled), k, y) {
      assert y in At(db, k);
      assert RecordOk(h, k, y);
    }
  }

  /** Moving a message from the delay list into the schedule. */
  lemma PostponeKeepsStore(db: Db, db': Db, h: History, r: Record, x: Record, at: int)
    requires StoreOk(db, h) && r in At(db, Delay) && EntryOk(h, r.id, x, at)
    requires forall k :: At(db', k) == At(LRem(db, Delay, r), k)
    requires db'.due == db.due[r.id := at] && db'.bodies == db.bodies[r.id := x]
    ensures StoreOk(db', Placed(h, r, Scheduled)) && r.id !in db.bodies
  {
    assert RecordOk(h, Delay, r);
    CountMember(At(db, Delay), r);
    assert h.place[r.id] == InList(Delay);
    DelayOnePlace(db, db', h, r);
    DelayListsOk(db, db', h, r);
    DelayScheduleOk(db, db', h, r, x, at);
  }

  lemma DelayOneKeepsStore(db: Db, h: History, r: Record, now: int, slot: int)
    requires StoreOk(db, h) && r in At(db, Delay) && 0 < now < slot
    ensures DelayOne(db, r, now, slot).Ok?
    ensures StoreOk(DelayOne(db, r, now, slot).value, Placed(h, r, Scheduled))
    ensures r.id !in db.bodies
  {
    DelayNeverFails(db, h, r, now, slot);
    assert RecordOk(h, Delay, r);
    PostponedEntryOk(h, r, now);
    PostponeKeepsStore(db, DelayOne(db, r, now, slot).value, h, r,
                       Postponed(r).(delayed := true, scheduledAt := Some(now)), now + r.job.retryDelay);
  }

  /** The delay worker's MULTI touches no other list, whatever it is given. */
  lemma {:induction false} DelayBatchFrame(db: Db, batch: seq<Record>, now: int, slot: int, k: Key)
    requires k != Delay && DelayBatch(db, batch, now, slot).Ok?
    ensures At(DelayBatch(db, batch, now, slot).value, k) == At(db, k)
    decreases |batch|
  {
    if batch != [] {
      var one := DelayOne(db, batch[0], now, slot);
      assert At(one.value, k) == At(db, k);
      DelayBatchFrame(one.value, batch[1..], now, slot, k);
    }
  }

  // ---------------------------------------------------------------- the GC worker

  /** Deleting an empty processing list removes nothing. */
  lemma DeleteEmptyKeepsStore(db: Db, h: History, c: ConsumerId)
    requires StoreOk(db, h) && At(db, Processing(c)) == []
    ensures StoreOk(DeleteProcessingQueue(db, c), h)
    ensures forall k :: At(DeleteProcessingQueue(db, c), k) == At(db, k)
  {
    var db' := DeleteProcessingQueue(db, c);
    assert forall k :: At(db', k) == At(db, k);
    forall id | id in h.origin ensures CountOk(db', h, id) {
      assert CountOk(db, h, id);
    }
  }
}
