/**
 * The order in which pending messages are delivered. The pending list of a queue refines two lines: a stack of
 * published messages on top of a first-in-first-out line of re-queued ones.
 */
module PendingOrder {
  import opened Wrappers
  import opened Messages
  import opened Redis
  import opened Scheduler
  import opened Handlers
  import opened Protocol
  import opened StoreInvariant
  import opened ProtocolInvariant

  /** `requeued` oldest first, `published` newest last. */
  datatype Line = Line(requeued: seq<Record>, published: seq<Record>)

  function Reverse(s: seq<Record>): (r: seq<Record>)
    ensures |r| == |s|
  {
    if s == [] then [] else Reverse(s[1..]) + [s[0]]
  }

  lemma {:induction false} ReverseConcat(a: seq<Record>, b: seq<Record>)
    ensures Reverse(a + b) == Reverse(b) + Reverse(a)
  {
    if a == [] {
      assert a + b == b;
    } else {
      assert (a + b)[1..] == a[1..] + b;
      ReverseConcat(a[1..], b);
    }
  }

  /** The Redis list that represents the two lines: its right end is delivered first. */
  function Flatten(l: Line): seq<Record> { Reverse(l.requeued) + l.published }

  predicate Empty(l: Line) { l.requeued == [] && l.published == [] }

  /** What is delivered next: the newest published message, or, when there is none, the message re-queued first. */
  function Head(l: Line): Record
    requires !Empty(l)
  {
    if l.published != [] then l.published[|l.published| - 1] else l.requeued[0]
  }

  function Tail(l: Line): Line
    requires !Empty(l)
  {
    if l.published != [] then l.(published := l.published[..|l.published| - 1])
    else l.(requeued := l.requeued[1..])
  }

  /** The messages of a requeue batch that belong to q, as they are put back. */
  function Mine(batch: seq<Record>, q: Queue): seq<Record> {
    if batch == [] then []
    else (if batch[0].queue == Some(q) then [Retried(batch[0])] else []) + Mine(batch[1..], q)
  }

  /** What a step does to the two lines of queue q. */
  ghost function LineStep(l: Line, w: World, e: Event, q: Queue): Line
    requires Enabled(w, e)
  {
    match e.step
    case Produce(m, q') =>
      if q' == q && !IsSchedulable(Produced(m, q)) then
        l.(published := l.published + [Published(Produced(m, q), e.now)])
      else l
    case DueFire(i) =>
      if w.dueBatch[i].queue == Some(q) then l.(published := l.published + [Republished(w.dueBatch[i], e.now)]) else l
    case RequeueCommit =>
      if RequeueBatch(w.db, w.requeueBatch).Ok? then l.(requeued := l.requeued + Mine(w.requeueBatch, q)) else l
    case DequeueBy(c) =>
      if w.consumers[c].queue == q && !Empty(l) then Tail(l) else l
    case _ => l
  }

  lemma FlattenEmpty(l: Line)
    ensures Empty(l) <==> Flatten(l) == []
  {
  }

  lemma FlattenTail(l: Line)
    requires !Empty(l)
    ensures var s := Flatten(l); s != [] && s[|s| - 1] == Head(l) && Flatten(Tail(l)) == s[..|s| - 1]
  {
    if l.published == [] {
      assert Reverse(l.requeued) == Reverse(l.requeued[1..]) + [l.requeued[0]];
      assert Flatten(l) == Reverse(l.requeued);
    } else {
      assert Flatten(l)[..|Flatten(l)| - 1] == Reverse(l.requeued) + l.published[..|l.published| - 1];
    }
  }

  lemma {:induction false} RequeueBatchPending(db: Db, batch: seq<Record>, q: Queue)
    requires RequeueBatch(db, batch).Ok?
    ensures At(RequeueBatch(db, batch).value, Pending(q)) == Reverse(Mine(batch, q)) + At(db, Pending(q))
    decreases |batch|
  {
    if batch != [] {
      var r := batch[0];
      var rest := batch[1..];
      var db1 := RequeueOne(db, r);
      RequeueBatchPending(db1, rest, q);
      if r.queue == Some(q) {
        assert At(db1, Pending(q)) == [Retried(r)] + At(db, Pending(q));
        ReverseConcat([Retried(r)], Mine(rest, q));
        assert Reverse([Retried(r)]) == [Retried(r)];
      } else {
        assert At(db1, Pending(q)) == At(db, Pending(q));
        assert Mine(batch, q) == Mine(rest, q);
      }
    }
  }

  lemma MoveFailedPending(db: Db, c: ConsumerId, q: Queue, d: Destination, q': Queue)
    ensures At(MoveFailed(db, c, q, d), Pending(q')) == At(db, Pending(q'))
  {
  }

  lemma FirePending(db: Db, r: Record, now: int, slot: int, q: Queue)
    requires FireEntry(db, r, now, slot).Ok?
    ensures At(FireEntry(db, r, now, slot).value, Pending(q)) ==
      At(db, Pending(q)) + if r.queue == Some(q) then [Republished(r, now)] else []
  {
  }

  lemma ProduceRefines(l: Line, w: World, m: Record, q': Queue, now: int, slot: int, q: Queue)
    requires At(w.db, Pending(q)) == Flatten(l)
    ensures At(DoProduce(w, m, q', now, slot).db, Pending(q)) == Flatten(
      if q' == q && !IsSchedulable(Produced(m, q)) then l.(published := l.published + [Published(Produced(m, q), now)]) else l)
  {
  }

  lemma DequeueRefines(l: Line, db: Db, c: ConsumerId, q': Queue, q: Queue)
    requires At(db, Pending(q)) == Flatten(l) && At(db, Pending(q')) != []
    ensures q' == q ==> !Empty(l)
    ensures At(Dequeue(db, c, q'), Pending(q)) == Flatten(if q' == q then Tail(l) else l)
  {
    FlattenEmpty(l);
    if q' == q { FlattenTail(l); }
  }

  lemma FlattenRequeue(l: Line, more: seq<Record>)
    ensures Flatten(l.(requeued := l.requeued + more)) == Reverse(more) + Flatten(l)
  {
    ReverseConcat(l.requeued, more);
    assert Reverse(more) + (Reverse(l.requeued) + l.published) == (Reverse(more) + Reverse(l.requeued)) + l.published;
  }

  lemma RequeueRefines(l: Line, db: Db, batch: seq<Record>, q: Queue)
    requires At(db, Pending(q)) == Flatten(l) && RequeueBatch(db, batch).Ok?
    ensures At(RequeueBatch(db, batch).value, Pending(q)) == Flatten(l.(requeued := l.requeued + Mine(batch, q)))
  {
    RequeueBatchPending(db, batch, q);
    FlattenRequeue(l, Mine(batch, q));
  }

  /** Steps that do not touch a pending list. */
  predicate Elsewhere(s: Step) { !s.Produce? && !s.DequeueBy? && !s.RequeueCommit? && !s.DueFire? }

  lemma ElsewherePending(w: World, e: Event, q: Queue)
    requires Enabled(w, e) && Elsewhere(e.step)
    ensures At(Apply(w, e).db, Pending(q)) == At(w.db, Pending(q))
  {
    match e.step
    case Receive(c) =>
      MoveFailedPending(w.db, c, w.consumers[c].queue, Route(w.consumers[c].phase.m, TTL_EXPIRED, e.now), q);
    case Settle(c, o) =>
      if o.Unack? {
        MoveFailedPending(w.db, c, w.consumers[c].queue, Route(w.consumers[c].phase.m, o.cause, e.now), q);
      }
    case GcRetry(t) =>
      MoveFailedPending(w.db, w.gc[t].c, w.consumers[w.gc[t].c].queue, Route(w.gc[t].m, RECOVERY, e.now), q);
    case DelayCommit =>
      if DelayBatch(w.db, w.delayBatch, e.now, e.slot).Ok? {
        DelayBatchFrame(w.db, w.delayBatch, e.now, e.slot, Pending(q));
      }
    case _ =>
  }

  /** Every step changes the pending list as it changes the two lines. */
  lemma StepRefines(l: Line, w: World, e: Event, q: Queue)
    requires Enabled(w, e) && At(w.db, Pending(q)) == Flatten(l)
    requires e.step.DueFire? ==> FireEntry(w.db, w.dueBatch[e.step.i], e.now, e.slot).Ok?
    ensures At(Apply(w, e).db, Pending(q)) == Flatten(LineStep(l, w, e, q))
  {
    if Elsewhere(e.step) {
      ElsewherePending(w, e, q);
    } else if e.step.Produce? {
      ProduceRefines(l, w.(now := e.now), e.step.m, e.step.q, e.now, e.slot, q);
    } else if e.step.DequeueBy? {
      DequeueRefines(l, w.db, e.step.c, w.consumers[e.step.c].queue, q);
    } else if e.step.RequeueCommit? {
      if RequeueBatch(w.db, w.requeueBatch).Ok? { RequeueRefines(l, w.db, w.requeueBatch, q); }
    } else {
      FirePending(w.db, w.dueBatch[e.step.i], e.now, e.slot, q);
    }
  }

  ghost function LineAfter(l: Line, w: World, es: seq<Event>, q: Queue): Line
    requires IsRun(w, es)
    decreases |es|
  {
    if es == [] then l else LineAfter(LineStep(l, w, es[0], q), Apply(w, es[0]), es[1..], q)
  }

  /** Over any run the pending list of a queue is its two lines. */
  lemma {:induction false} RunRefines(l: Line, w: World, es: seq<Event>, q: Queue)
    requires Inv(w) && IsRun(w, es) && At(w.db, Pending(q)) == Flatten(l)
    ensures At(After(w, es).db, Pending(q)) == Flatten(LineAfter(l, w, es, q))
    decreases |es|
  {
    if es != [] {
      var e := es[0];
      if e.step.DueFire? {
        GrowsKeepsWorkers(w, w.(now := e.now));
        DueFireKeeps(w.(now := e.now), e.step.i, e.now, e.slot);
      }
      StepRefines(l, w, e, q);
      StepKeepsInv(w, e);
      RunRefines(LineStep(l, w, e, q), Apply(w, e), es[1..], q);
    }
  }

  /** After any run, a consumer that dequeues gets the newest published message of its queue; a re-queued one only
      when no published one is left, and then the one re-queued first. */
  lemma DeliveryOrder(es: seq<Event>, e: Event)
    requires IsRun(Init(), es) && Enabled(After(Init(), es), e) && e.step.DequeueBy?
    ensures var w := After(Init(), es);
      var l := LineAfter(Line([], []), Init(), es, w.consumers[e.step.c].queue);
      !Empty(l) && Apply(w, e).consumers[e.step.c].phase == Received(Head(l))
  {
    var w := After(Init(), es);
    var q := w.consumers[e.step.c].queue;
    InitInv();
    RunRefines(Line([], []), Init(), es, q);
    var l := LineAfter(Line([], []), Init(), es, q);
    FlattenEmpty(l);
    FlattenTail(l);
  }
}
