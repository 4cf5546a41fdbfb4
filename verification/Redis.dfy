/**
 * The part of Redis that the queue uses: lists under keys, the schedule (a sorted set of due times and a
 * hash of bodies), and the index of processing lists. A missing list and an empty list are the same.
 */
module Redis {
  import opened Wrappers
  import opened Messages

  type ConsumerId = nat

  datatype Key =
    | Pending(q: Queue)
    | Processing(c: ConsumerId)
    | Requeue
    | Delay
    | Acknowledged(q: Queue)
    | DeadLetter(q: Queue)

  datatype Db = Db(
    lists: map<Key, seq<Record>>,
    due: map<Id, int>,        // keyQueueScheduled: score of each id
    bodies: map<Id, Record>,  // keyScheduledMessages: stored message of each id
    index: set<ConsumerId>)   // keyIndexProcessingQueues

  const EMPTY := Db(map[], map[], map[], {})

  function At(db: Db, k: Key): seq<Record> {
    if k in db.lists then db.lists[k] else []
  }

  function Put(db: Db, k: Key, s: seq<Record>): Db {
    db.(lists := db.lists[k := s])
  }

  // ---------------------------------------------------------------- commands

  function RPush(db: Db, k: Key, r: Record): Db { Put(db, k, At(db, k) + [r]) }

  function LPush(db: Db, k: Key, r: Record): Db { Put(db, k, [r] + At(db, k)) }

  function LPop(db: Db, k: Key): Db
    requires At(db, k) != []
  {
    Put(db, k, At(db, k)[1..])
  }

  function RPop(db: Db, k: Key): Db
    requires At(db, k) != []
  {
    Put(db, k, At(db, k)[..|At(db, k)| - 1])
  }

  /** LMOVE from to LEFT RIGHT. */
  function LMoveLeftRight(db: Db, from: Key, to: Key): Db {
    if At(db, from) == [] then db else RPush(LPop(db, from), to, At(db, from)[0])
  }

  /** RPOPLPUSH from to. */
  function RPopLPush(db: Db, from: Key, to: Key): Db {
    var s := At(db, from);
    if s == [] then db else LPush(RPop(db, from), to, s[|s| - 1])
  }

  /** LREM list 1 r: drops the first element equal to r, if there is one. */
  function Without(s: seq<Record>, r: Record): seq<Record> {
    if s == [] then [] else if s[0] == r then s[1..] else [s[0]] + Without(s[1..], r)
  }

  function LRem(db: Db, k: Key, r: Record): Db { Put(db, k, Without(At(db, k), r)) }

  /** LRANGE list 0 n-1. */
  function FirstN(s: seq<Record>, n: nat): (first: seq<Record>)
    ensures first <= s && (|first| == n || (|first| == |s| < n))
  {
    if |s| <= n then s else s[..n]
  }

  // ---------------------------------------------------------------- the Lua fallback

  /** lpoprpush.lua: read the head, remove one element equal to it, append it to the destination.
      Used for servers without LMOVE. */
  function LPopRPushScript(db: Db, from: Key, to: Key): Db {
    if At(db, from) == [] then db
    else
      var message := At(db, from)[0];
      RPush(LRem(db, from, message), to, message)
  }

  /** The script does what LMOVE LEFT RIGHT does, for every pair of keys, equal ones included, and for
      lists with duplicates. */
  lemma ScriptIsLMove(db: Db, from: Key, to: Key)
    ensures LPopRPushScript(db, from, to) == LMoveLeftRight(db, from, to)
  {
    if At(db, from) != [] {
      assert Without(At(db, from), At(db, from)[0]) == At(db, from)[1..];
    }
  }

  /** On a list of at most one message, moving the head and moving the tail take the same message,
      so acknowledging and re-queuing settle the same delivery. */
  lemma HeadAndTailMovesAgree(db: Db, from: Key, to: Key)
    requires |At(db, from)| <= 1 && from != to
    ensures At(LMoveLeftRight(db, from, to), from) == At(RPopLPush(db, from, to), from) == []
    ensures multiset(At(LMoveLeftRight(db, from, to), to)) == multiset(At(RPopLPush(db, from, to), to))
            == multiset(At(db, to)) + multiset(At(db, from))
  {
    var s := At(db, from);
    if s != [] {
      assert s == [s[0]];
      assert s[1..] == [] && s[..0] == [];
      assert At(LMoveLeftRight(db, from, to), to) == At(db, to) + [s[0]];
      assert At(RPopLPush(db, from, to), to) == [s[0]] + At(db, to);
    }
  }

  // ---------------------------------------------------------------- counting copies of a message

  /** How many elements of s carry this id. */
  function Count(s: seq<Record>, id: Id): nat {
    if s == [] then 0 else (if s[0].id == id then 1 else 0) + Count(s[1..], id)
  }

  lemma {:induction false} CountConcat(a: seq<Record>, b: seq<Record>, id: Id)
    ensures Count(a + b, id) == Count(a, id) + Count(b, id)
  {
    if a == [] {
      assert a + b == b;
    } else {
      assert (a + b)[1..] == a[1..] + b;
      CountConcat(a[1..], b, id);
    }
  }

  lemma {:induction false} CountPositive(s: seq<Record>, id: Id)
    ensures Count(s, id) > 0 <==> exists r :: r in s && r.id == id
  {
    if s != [] {
      CountPositive(s[1..], id);
      if Count(s, id) > 0 && s[0].id != id {
        var r :| r in s[1..] && r.id == id;
        assert r in s;
      }
      if r :| r in s && r.id == id {
        if s[0].id != id {
          assert r in s[1..];
        }
      }
    }
  }

  /** A record that is in the list is counted. */
  lemma CountMember(s: seq<Record>, r: Record)
    requires r in s
    ensures Count(s, r.id) > 0
  {
    CountPositive(s, r.id);
  }

  /** `more` is `less` with one extra element r, wherever that element stands. */
  ghost predicate OneMore(more: seq<Record>, less: seq<Record>, r: Record) {
    && (forall id: Id :: Count(more, id) == Count(less, id) + if id == r.id then 1 else 0)
    && (forall x :: x in more <==> x in less || x == r)
  }

  lemma OneMoreSplit(a: seq<Record>, r: Record, b: seq<Record>)
    ensures OneMore(a + [r] + b, a + b, r)
  {
    forall id: Id
      ensures Count(a + [r] + b, id) == Count(a + b, id) + if id == r.id then 1 else 0
    {
      CountConcat(a + [r], b, id);
      CountConcat(a, [r], id);
      CountConcat(a, b, id);
    }
  }

  lemma OneMoreRight(s: seq<Record>, r: Record)
    ensures OneMore(s + [r], s, r)
  {
    OneMoreSplit(s, r, []);
    assert s + [r] + [] == s + [r] && s + [] == s;
  }

  lemma OneMoreLeft(s: seq<Record>, r: Record)
    ensures OneMore([r] + s, s, r)
  {
    OneMoreSplit([], r, s);
    assert [] + [r] + s == [r] + s && [] + s == s;
  }

  lemma {:induction false} WithoutSplit(s: seq<Record>, r: Record) returns (i: nat)
    requires r in s
    ensures i < |s| && s == s[..i] + [r] + s[i + 1..] && Without(s, r) == s[..i] + s[i + 1..] && r !in s[..i]
  {
    if s[0] == r {
      i := 0;
    } else {
      var t := s[1..];
      var j := WithoutSplit(t, r);
      i := j + 1;
      assert s[..i] == [s[0]] + t[..j];
      assert s[i + 1..] == t[j + 1..];
      assert s == [s[0]] + (t[..j] + [r] + t[j + 1..]);
    }
  }

  lemma {:induction false} WithoutAbsent(s: seq<Record>, r: Record)
    requires r !in s
    ensures Without(s, r) == s
  {
    if s != [] { WithoutAbsent(s[1..], r); }
  }

  lemma OneMoreWithout(s: seq<Record>, r: Record)
    requires r in s
    ensures OneMore(s, Without(s, r), r)
  {
    var i := WithoutSplit(s, r);
    OneMoreSplit(s[..i], r, s[i + 1..]);
  }
}
