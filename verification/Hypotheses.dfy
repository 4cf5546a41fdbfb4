/**
 * Why the protocol's assumptions about its environment are needed. The source does not enforce them; each lemma
 * says exactly what a step does when the assumption fails.
 */
module Hypotheses {
  import opened Wrappers
  import opened Messages
  import opened Redis
  import opened Handlers
  import opened StoreInvariant

  function RequeueCopies(db: Db, q: Queue, id: Id): nat { Count(At(db, Requeue), id) + Count(At(db, Pending(q)), id) }

  /** One requeue worker: committing a message conserves its copies if and only if it is still in the requeue list.
      A second worker that read the same batch commits it again, and then a copy is created. */
  lemma RequeueConservesExactly(db: Db, r: Record, q: Queue)
    requires r.queue == Some(q)
    ensures r in At(db, Requeue) ==> RequeueCopies(RequeueOne(db, r), q, r.id) == RequeueCopies(db, q, r.id)
    ensures r !in At(db, Requeue) ==> RequeueCopies(RequeueOne(db, r), q, r.id) == RequeueCopies(db, q, r.id) + 1
  {
    if r in At(db, Requeue) {
      RequeueOneMoves(db, r);
    } else {
      WithoutAbsent(At(db, Requeue), r);
      CountConcat([Retried(r)], At(db, Pending(q)), r.id);
    }
  }

  /** Two requeue workers with the same batch: the message is pending twice. */
  lemma TwoRequeueWorkersDuplicate(db: Db, r: Record, q: Queue)
    requires r.queue == Some(q) && r in At(db, Requeue) && Count(At(db, Requeue), r.id) == 1
    ensures var twice := RequeueOne(RequeueOne(db, r), r);
      Count(At(twice, Pending(q)), r.id) == Count(At(db, Pending(q)), r.id) + 2
  {
    var once := RequeueOne(db, r);
    RequeueOneMoves(db, r);
    if r in At(once, Requeue) {
      CountMember(At(once, Requeue), r);
    }
    RequeueConservesExactly(once, r, q);
    WithoutAbsent(At(once, Requeue), r);
  }

  /** Recovery only of consumers that no longer dequeue: the deletion of a processing list keeps every message if
      and only if the list is empty. */
  lemma DeleteKeepsExactly(db: Db, c: ConsumerId)
    ensures (forall id, k :: Count(At(DeleteProcessingQueue(db, c), k), id) == Count(At(db, k), id))
            <==> At(db, Processing(c)) == []
  {
    var db' := DeleteProcessingQueue(db, c);
    var s := At(db, Processing(c));
    if s != [] {
      CountMember(s, s[0]);
      assert Count(At(db', Processing(c)), s[0].id) == 0;
    } else {
      assert forall k :: At(db', k) == At(db, k);
    }
  }

  /** A consumer taken for dead that dequeues between the move and the deletion loses that message: afterwards it
      is in no list. */
  lemma RecoveryOfLiveConsumerLoses(db: Db, c: ConsumerId, q: Queue, m: Record, d: Destination, k: Key)
    requires At(db, Processing(c)) == [m] && At(db, Pending(q)) != []
    requires var s := At(db, Pending(q));
      var x := s[|s| - 1];
      && x.id != m.id && Count(s, x.id) == 1
      && forall k :: k != Pending(q) ==> Count(At(db, k), x.id) == 0
    ensures var s := At(db, Pending(q));
      Count(At(DeleteProcessingQueue(Dequeue(MoveFailed(db, c, q, d), c, q), c), k), s[|s| - 1].id) == 0
  {
    var x := At(db, Pending(q))[|At(db, Pending(q))| - 1];
    MovedFailed(db, c, q, m, d);
    var db1 := MoveFailed(db, c, q, d);
    assert forall k :: k != Pending(q) ==> Count(At(db1, k), x.id) == 0;
    DequeuedThenDeleted(db1, c, q, k);
  }

  /** A message that is only pending, then dequeued, then deleted with the list it was put in. */
  lemma DequeuedThenDeleted(db: Db, c: ConsumerId, q: Queue, k: Key)
    requires At(db, Pending(q)) != []
    requires var s := At(db, Pending(q));
      var x := s[|s| - 1];
      Count(s, x.id) == 1 && forall k :: k != Pending(q) ==> Count(At(db, k), x.id) == 0
    ensures var s := At(db, Pending(q));
      Count(At(DeleteProcessingQueue(Dequeue(db, c, q), c), k), s[|s| - 1].id) == 0
  {
    RPopLPushMoves(db, Pending(q), Processing(c));
    var db1 := Dequeue(db, c, q);
    var db2 := DeleteProcessingQueue(db1, c);
    if k == Processing(c) {
      assert At(db2, k) == [];
    } else {
      assert At(db2, k) == At(db1, k);
    }
  }
}
