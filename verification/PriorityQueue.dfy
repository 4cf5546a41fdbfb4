/**
 * The priority queue: a sorted set of ids scored by priority and a hash of message bodies
 * (src/system/redis-client/lua, src/system/message-manager/handlers/enqueue.handler.ts and dequeue.handler.ts).
 */
module PriorityQueue {
  import opened Wrappers
  import opened Messages
  import opened Redis
  import opened Scheduler
  import opened Handlers
  import ListAdmin

  /** A member of the sorted set is a text: a message id, or, when the requeue worker adds it, a whole message. */
  datatype Member = IdText(id: Id) | JsonText(r: Record)

  /** Order of members with equal scores. A JSON text starts with a brace, which sorts after every uuid. */
  predicate Precedes(a: Member, b: Member) {
    (a.IdText? && b.IdText? && a.id < b.id) || (a.IdText? && b.JsonText?)
  }

  datatype Store = Store(zset: map<Member, int>, hash: map<Id, Record>, processing: seq<Record>)

  /** The reply of ZRANGE 0 0: a least score, and among equal scores a least member. */
  predicate IsFirst(zset: map<Member, int>, m: Member) {
    m in zset && forall x :: x in zset ==> zset[m] < zset[x] || (zset[m] == zset[x] && !Precedes(x, m))
  }

  /** A message with its priority filled in, as every enqueue does. */
  function Prioritised(r: Record): Record { if r.priority.Some? then r else r.(priority := Some(NORMAL)) }

  lemma PrioritisedIsGetSet(r: Record)
    ensures GetSetPriority(r, None) == Ok(Prioritised(r))
  {
  }

  // ---------------------------------------------------------------- operations

  /** zpushhset.lua. */
  function EnqueueScript(s: Store, r: Record): Store {
    var m := Prioritised(r);
    var s1 := s.(zset := s.zset[IdText(r.id) := m.priority.value]);
    s1.(hash := s1.hash[r.id := m])
  }

  /** The MULTI of enqueueMessageWithPriorityMulti: the same two commands in the other order. */
  function EnqueueMulti(s: Store, r: Record): Store {
    var m := Prioritised(r);
    var s1 := s.(hash := s.hash[r.id := m]);
    s1.(zset := s1.zset[IdText(r.id) := m.priority.value])
  }

  datatype Reply = Nothing | Delivered(r: Record) | Failed

  /** zpophgetrpush.lua for the first member m. When the hash has no body for m, RPUSH fails, but the member is
      already removed. */
  function Pop(s: Store, m: Member): (Store, Reply) {
    if m.IdText? && m.id in s.hash then
      var r := s.hash[m.id];
      (Store(s.zset - {m}, s.hash - {m.id}, s.processing + [r]), Delivered(r))
    else
      (s.(zset := s.zset - {m}), Failed)
  }

  function Delete(s: Store, id: Id): Store {
    s.(hash := s.hash - {id}, zset := s.zset - {IdText(id)})
  }

  /** purgePriorityQueue deletes the sorted set only. */
  function Purge(s: Store): Store { s.(zset := map[]) }

  /** The requeue worker in priority mode: the serialised message becomes the member, and no body is stored. */
  function RequeueTick(s: Store, r: Record): Store {
    var m := Prioritised(Retried(r));
    s.(zset := s.zset[JsonText(m) := m.priority.value])
  }

  datatype Op =
    | Script(r: Record) | Multi(r: Record) | PopFirst(m: Member) | PopEmpty | DeleteId(id: Id) | PurgeAll
    | RequeueOp(r: Record)

  ghost predicate Possible(s: Store, op: Op) {
    match op
    case Script(r) => WellFormed(r)
    case Multi(r) => WellFormed(r)
    case RequeueOp(r) => WellFormed(r)
    case PopFirst(m) => IsFirst(s.zset, m)
    case PopEmpty => s.zset == map[]
    case DeleteId(_) => true
    case PurgeAll => true
  }

  function Do(s: Store, op: Op): Store {
    match op
    case Script(r) => EnqueueScript(s, r)
    case Multi(r) => EnqueueMulti(s, r)
    case PopFirst(m) => Pop(s, m).0
    case PopEmpty => s
    case DeleteId(id) => Delete(s, id)
    case PurgeAll => Purge(s)
    case RequeueOp(r) => RequeueTick(s, r)
  }

  ghost predicate IsRun(s: Store, ops: seq<Op>)
    decreases |ops|
  {
    ops == [] || (Possible(s, ops[0]) && IsRun(Do(s, ops[0]), ops[1..]))
  }

  ghost function After(s: Store, ops: seq<Op>): Store
    requires IsRun(s, ops)
    decreases |ops|
  {
    if ops == [] then s else After(Do(s, ops[0]), ops[1..])
  }

  const NOTHING := Store(map[], map[], [])

  // ---------------------------------------------------------------- refinement of one map

  /** The simple queue that the two structures stand for: id to priority and message. */
  function Abstract(s: Store): map<Id, (int, Record)> {
    map id | id in s.hash && IdText(id) in s.zset :: (s.zset[IdText(id)], s.hash[id])
  }

  /** Every id in the sorted set has a body with that id, whose priority is the score, in 0..7. */
  predicate Agrees(s: Store) {
    forall m :: m in s.zset && m.IdText? ==>
      && m.id in s.hash && s.hash[m.id].id == m.id
      && s.hash[m.id].priority == Some(s.zset[m]) && IsPriority(s.zset[m])
  }

  predicate IdsOnly(s: Store) { forall m :: m in s.zset ==> m.IdText? }

  /** The two enqueue paths do the same. */
  lemma ScriptIsMulti(s: Store, r: Record)
    ensures EnqueueScript(s, r) == EnqueueMulti(s, r)
  {
  }

  lemma EnqueueRefines(s: Store, r: Record)
    requires Agrees(s) && WellFormed(r)
    ensures Agrees(EnqueueScript(s, r)) && (IdsOnly(s) ==> IdsOnly(EnqueueScript(s, r)))
    ensures Abstract(EnqueueScript(s, r)) == Abstract(s)[r.id := (Prioritised(r).priority.value, Prioritised(r))]
  {
  }

  lemma PopRefines(s: Store, m: Member)
    requires Agrees(s) && m in s.zset && m.IdText?
    ensures Agrees(Pop(s, m).0) && (IdsOnly(s) ==> IdsOnly(Pop(s, m).0))
    ensures m.id in Abstract(s) && Abstract(Pop(s, m).0) == Abstract(s) - {m.id}
    ensures Pop(s, m).1 == Delivered(Abstract(s)[m.id].1)
  {
  }

  lemma DeleteRefines(s: Store, id: Id)
    requires Agrees(s)
    ensures Agrees(Delete(s, id)) && (IdsOnly(s) ==> IdsOnly(Delete(s, id)))
    ensures Abstract(Delete(s, id)) == Abstract(s) - {id}
  {
  }

  /** What a plain map operation does to the abstract queue. */
  function AbstractOp(a: map<Id, (int, Record)>, op: Op): map<Id, (int, Record)> {
    match op
    case Script(r) => a[r.id := (Prioritised(r).priority.value, Prioritised(r))]
    case Multi(r) => a[r.id := (Prioritised(r).priority.value, Prioritised(r))]
    case PopFirst(m) => if m.IdText? then a - {m.id} else a
    case PopEmpty => a
    case DeleteId(id) => a - {id}
    case PurgeAll => map[]
    case RequeueOp(_) => a
  }

  /** Each operation refines the operation on the abstract queue. */
  lemma OpRefines(s: Store, op: Op)
    requires Agrees(s) && IdsOnly(s) && Possible(s, op) && !op.RequeueOp?
    ensures Agrees(Do(s, op)) && IdsOnly(Do(s, op))
    ensures Abstract(Do(s, op)) == AbstractOp(Abstract(s), op)
    ensures Do(s, op).processing ==
      s.processing + if op.PopFirst? && op.m.id in Abstract(s) then [Abstract(s)[op.m.id].1] else []
  {
    match op
    case Script(r) => EnqueueRefines(s, r);
    case Multi(r) =>
      ScriptIsMulti(s, r);
      EnqueueRefines(s, r);
    case PopFirst(m) => PopRefines(s, m);
    case PopEmpty =>
    case DeleteId(id) => DeleteRefines(s, id);
    case PurgeAll =>
  }

  /** Over any run of enqueues on either path, pops, deletes and purges, the structures agree. */
  lemma {:induction false} RunAgrees(s: Store, ops: seq<Op>)
    requires IsRun(s, ops) && Agrees(s) && IdsOnly(s) && (forall op :: op in ops ==> !op.RequeueOp?)
    ensures Agrees(After(s, ops)) && IdsOnly(After(s, ops))
    decreases |ops|
  {
    if ops != [] {
      OpRefines(s, ops[0]);
      RunAgrees(Do(s, ops[0]), ops[1..]);
    }
  }

  /** A pop never misses its body, and delivers a message of least priority number; among equal priorities, the
      one with the least id. */
  lemma PopDeliversHighest(ops: seq<Op>, m: Member)
    requires IsRun(NOTHING, ops) && (forall op :: op in ops ==> !op.RequeueOp?)
    requires IsFirst(After(NOTHING, ops).zset, m)
    ensures var s := After(NOTHING, ops);
      && Agrees(s) && m.IdText? && m.id in Abstract(s)
      && var (p, r) := Abstract(s)[m.id];
        && Pop(s, m).1 == Delivered(r) && Pop(s, m).0.processing == s.processing + [r]
        && r.id == m.id && r.priority == Some(p)
        && forall id :: id in Abstract(s) && id != m.id ==>
             p < Abstract(s)[id].0 || (p == Abstract(s)[id].0 && m.id < id)
  {
    RunAgrees(NOTHING, ops);
    var s := After(NOTHING, ops);
    forall id | id in Abstract(s) && id != m.id
      ensures s.zset[m] < s.zset[IdText(id)] || (s.zset[m] == s.zset[IdText(id)] && m.id < id)
    {
      assert IdText(id) in s.zset;
    }
  }

  // ---------------------------------------------------------------- requeue by an administrator

  /** requeueListMessage with priority: the message of the list becomes pending with the given priority, or the one it
      has, or NORMAL. Err when it is not found or the priority is invalid. */
  function RequeueListed(list: seq<Record>, s: Store, i: int, id: Id, q: Queue, p: Option<int>, now: int)
    : Result<(seq<Record>, Store)>
  {
    var found := ListAdmin.Lookup(list, i, id);
    if found.Err? then Err
    else
      var m := Restored(found.value);
      var ready := if p.Some? then Set(Produced(m, q), SetPriority(p.value)) else Ok(Produced(m, q));
      if ready.Err? then Err
      else Ok((Without(list, m), EnqueueMulti(s, Published(ready.value, now))))
  }

  /** Exactly one message enters the abstract queue, reset and with a priority in range, and the list loses that message
      if and only if its text, with its body, is there. The call fails if and only if the message is not found at the
      position or the priority is out of range. */
  lemma RequeueListedMovesOne(list: seq<Record>, s: Store, i: int, id: Id, q: Queue, p: Option<int>, now: int)
    requires Agrees(s) && forall r :: r in list ==> WellFormed(r)
    ensures var res := RequeueListed(list, s, i, id, q, p, now);
      var found := ListAdmin.Lookup(list, i, id);
      && (res.Err? <==> found.Err? || (p.Some? && !IsPriority(p.value)))
      && (res.Ok? ==>
            var m, (list', s') := Restored(found.value), res.value;
            && Agrees(s') && (IdsOnly(s) ==> IdsOnly(s'))
            && id in Abstract(s') && Abstract(s') == Abstract(s)[id := Abstract(s')[id]]
            && (if m in list then OneMore(list, list', m) else list' == list)
            && var (score, r) := Abstract(s')[id];
              && r.priority == Some(score) && score == p.GetOr(m.priority.GetOr(NORMAL))
              && r.id == id && r.job == m.job && r.body == m.body && r.queue == Some(q) && r.attempts == 0)
  {
    var res := RequeueListed(list, s, i, id, q, p, now);
    if res.Ok? {
      ListAdmin.LookupMember(list, i, id);
      var m := Restored(ListAdmin.Lookup(list, i, id).value);
      var ready := if p.Some? then Set(Produced(m, q), SetPriority(p.value)) else Ok(Produced(m, q));
      var r := Published(ready.value, now);
      assert WellFormed(r) && r.id == id;
      ScriptIsMulti(s, r);
      EnqueueRefines(s, r);
      if m in list { OneMoreWithout(list, m); } else { WithoutAbsent(list, m); }
    }
  }

  // ---------------------------------------------------------------- draining

  lemma {:induction false} FirstExists(zset: map<Member, int>) returns (m: Member)
    requires zset != map[]
    ensures IsFirst(zset, m)
    decreases |zset|
  {
    var x :| x in zset;
    var rest := zset - {x};
    if rest == map[] {
      m := x;
      assert forall y :: y in zset ==> y in rest || y == x;
    } else {
      var y := FirstExists(rest);
      m := if zset[x] < zset[y] || (zset[x] == zset[y] && Precedes(x, y)) then x else y;
      assert forall z :: z in zset && z != x ==> z in rest;
    }
  }

  /** Popping until the queue is empty delivers `out` in this order. */
  ghost predicate Drains(s: Store, out: seq<Record>)
    decreases |out|
  {
    if out == [] then s.zset == map[]
    else exists m :: IsFirst(s.zset, m) && Pop(s, m).1 == Delivered(out[0]) && Drains(Pop(s, m).0, out[1..])
  }

  /** Strictly ordered by priority number, then by id. */
  predicate InOrder(a: Record, b: Record) {
    a.priority.Some? && b.priority.Some?
    && (a.priority.value < b.priority.value || (a.priority.value == b.priority.value && a.id < b.id))
  }

  /** The first message delivered comes before every message that stays. */
  lemma FirstIsLeast(s: Store, m: Member, id: Id)
    requires Agrees(s) && IdsOnly(s) && IsFirst(s.zset, m) && id in Abstract(Pop(s, m).0)
    ensures m.id in s.hash && InOrder(s.hash[m.id], Abstract(Pop(s, m).0)[id].1)
  {
    assert IdText(id) in s.zset;
  }

  lemma {:induction false} DrainLength(s: Store, out: seq<Record>)
    requires Agrees(s) && IdsOnly(s) && Drains(s, out)
    ensures |out| == |s.zset|
    decreases |out|
  {
    if out != [] {
      var m :| IsFirst(s.zset, m) && Pop(s, m).1 == Delivered(out[0]) && Drains(Pop(s, m).0, out[1..]);
      PopRefines(s, m);
      DrainLength(Pop(s, m).0, out[1..]);
      assert (s.zset - {m}).Keys == s.zset.Keys - {m};
    }
  }

  lemma FirstOrRest(a: map<Id, (int, Record)>, id: Id, out: seq<Record>, r: Record)
    requires id in a && out != [] && out[0] == a[id].1 && a[id].1.id == id
    requires r in out[1..] <==> r.id in a - {id} && (a - {id})[r.id].1 == r
    ensures r in out <==> r.id in a && a[r.id].1 == r
  {
    assert out == [out[0]] + out[1..];
  }

  /** Draining delivers each pending message once, and nothing else. */
  lemma {:induction false} DrainContents(s: Store, out: seq<Record>, r: Record)
    requires Agrees(s) && IdsOnly(s) && Drains(s, out)
    ensures |out| == |s.zset|
    ensures r in out <==> r.id in Abstract(s) && Abstract(s)[r.id].1 == r
    decreases |out|
  {
    DrainLength(s, out);
    if out != [] {
      var m :| IsFirst(s.zset, m) && Pop(s, m).1 == Delivered(out[0]) && Drains(Pop(s, m).0, out[1..]);
      PopRefines(s, m);
      DrainContents(Pop(s, m).0, out[1..], r);
      FirstOrRest(Abstract(s), m.id, out, r);
    }
  }

  /** Draining delivers in non-decreasing priority number, and by id within a priority. */
  lemma {:induction false} DrainSorted(s: Store, out: seq<Record>)
    requires Agrees(s) && IdsOnly(s) && Drains(s, out)
    ensures forall i, j :: 0 <= i < j < |out| ==> InOrder(out[i], out[j])
    decreases |out|
  {
    if out != [] {
      var m :| IsFirst(s.zset, m) && Pop(s, m).1 == Delivered(out[0]) && Drains(Pop(s, m).0, out[1..]);
      var s' := Pop(s, m).0;
      PopRefines(s, m);
      DrainSorted(s', out[1..]);
      forall i, j | 0 <= i < j < |out| ensures InOrder(out[i], out[j]) {
        assert out[j] == out[1..][j - 1] && out[j] in out[1..];
        if i > 0 {
          assert out[i] == out[1..][i - 1];
        } else {
          DrainContents(s', out[1..], out[j]);
          FirstIsLeast(s, m, out[j].id);
        }
      }
    }
  }

  lemma {:induction false} DrainPossible(s: Store) returns (out: seq<Record>)
    requires Agrees(s) && IdsOnly(s)
    ensures Drains(s, out)
    decreases |s.zset|
  {
    if s.zset == map[] {
      out := [];
    } else {
      var m := FirstExists(s.zset);
      PopRefines(s, m);
      assert (s.zset - {m}).Keys == s.zset.Keys - {m};
      var rest := DrainPossible(Pop(s, m).0);
      out := [s.hash[m.id]] + rest;
      assert out[1..] == rest;
    }
  }

  // ---------------------------------------------------------------- where agreement ends

  /** With the requeue worker, ids still have their bodies. */
  lemma {:induction false} RunWithRequeueAgrees(s: Store, ops: seq<Op>)
    requires IsRun(s, ops) && Agrees(s)
    ensures Agrees(After(s, ops))
    decreases |ops|
  {
    if ops != [] {
      RunWithRequeueAgrees(Do(s, ops[0]), ops[1..]);
    }
  }

  /** The member that a tick of the requeue worker adds. */
  function RequeuedMember(r: Record): Member { JsonText(Prioritised(Retried(r))) }

  /** A message text in the sorted set was put there by the requeue worker. */
  lemma {:induction false} JsonFromRequeue(s: Store, ops: seq<Op>, m: Member)
    requires IsRun(s, ops) && m.JsonText? && m in After(s, ops).zset && m !in s.zset
    ensures exists op :: op in ops && op.RequeueOp? && m == RequeuedMember(op.r)
    decreases |ops|
  {
    var s' := Do(s, ops[0]);
    if m in s'.zset {
      assert ops[0] in ops && ops[0].RequeueOp? && m == RequeuedMember(ops[0].r);
    } else {
      JsonFromRequeue(s', ops[1..], m);
    }
  }

  /** Over any run, a pop loses its message exactly when the requeue worker put the member there. */
  lemma LossExactly(ops: seq<Op>, m: Member)
    requires IsRun(NOTHING, ops) && IsFirst(After(NOTHING, ops).zset, m)
    ensures Pop(After(NOTHING, ops), m).1 == Failed <==>
      exists op :: op in ops && op.RequeueOp? && m == RequeuedMember(op.r)
    ensures m.JsonText? ==> Pop(After(NOTHING, ops), m).0.processing == After(NOTHING, ops).processing
                            && m !in Pop(After(NOTHING, ops), m).0.zset
  {
    RunWithRequeueAgrees(NOTHING, ops);
    if m.JsonText? { JsonFromRequeue(NOTHING, ops, m); }
  }

  /** The requeue worker adds the message itself as a member, scored by its priority or 4 without one, and nothing else:
      no id, no body. */
  lemma RequeueAddsText(s: Store, r: Record)
    requires WellFormed(r)
    ensures var m := RequeuedMember(r);
      && m.r.id == r.id && m.r.attempts == r.attempts + 1
      && RequeueTick(s, r) == s.(zset := s.zset[m := if r.priority.Some? then r.priority.value else 4])
      && Abstract(RequeueTick(s, r)) == Abstract(s)
  {
  }

  /** A re-queued message in priority mode is gone after the next pop: in no structure at all. */
  lemma RequeueThenPopLoses(r: Record)
    requires WellFormed(r)
    ensures var j := RequeuedMember(r);
      var ops := [RequeueOp(r), PopFirst(j)];
      IsRun(NOTHING, ops) && After(NOTHING, ops) == NOTHING
  {
    var j := RequeuedMember(r);
    var s := Do(NOTHING, RequeueOp(r));
    assert s.zset == map[j := Prioritised(Retried(r)).priority.value];
    assert IsFirst(s.zset, j);
    var ops := [RequeueOp(r), PopFirst(j)];
    assert ops[1..] == [PopFirst(j)] && ops[1..][1..] == [];
    assert Do(s, PopFirst(j)) == NOTHING;
    assert IsRun(NOTHING, []) && After(NOTHING, []) == NOTHING;
    assert IsRun(s, ops[1..]) && After(s, ops[1..]) == NOTHING;
  }

  /** Bodies without a member. */
  function Orphans(s: Store): set<Id> { set id | id in s.hash && IdText(id) !in s.zset }

  /** A purge leaves every body behind; from a state without orphans it is clean exactly when nothing was
      pending. */
  lemma PurgeLeavesBodies(s: Store)
    requires Agrees(s) && IdsOnly(s) && Orphans(s) == {}
    ensures Orphans(Purge(s)) == s.hash.Keys
    ensures Orphans(Purge(s)) == {} <==> s.zset == map[]
  {
    if s.zset != map[] {
      var m :| m in s.zset;
      assert m.id in s.hash;
      assert m.id in Orphans(Purge(s));
    } else {
      assert Orphans(s) == s.hash.Keys;
    }
  }

  /** The scripts and MULTIs, command by command. */
  class PriorityStore {
    var zset: map<Member, int>
    var hash: map<Id, Record>
    var processing: seq<Record>

    function View(): Store
      reads this
    {
      Store(zset, hash, processing)
    }

    method ZPushHSet(message: Message) returns (thrown: bool)
      modifies this, message
      ensures !thrown && View() == EnqueueScript(old(View()), old(message.Json()))
      ensures message.Json() == Prioritised(old(message.Json()))
    {
      PrioritisedIsGetSet(message.Json());
      thrown := message.FillPriority(None);
      zset := zset[IdText(message.uuid) := message.priority.value];
      hash := hash[message.uuid := message.Json()];
    }

    method EnqueueWithMulti(message: Message) returns (thrown: bool)
      modifies this, message
      ensures !thrown && View() == EnqueueMulti(old(View()), old(message.Json()))
      ensures message.Json() == Prioritised(old(message.Json()))
    {
      PrioritisedIsGetSet(message.Json());
      thrown := message.FillPriority(None);
      hash := hash[message.uuid := message.Json()];
      zset := zset[IdText(message.uuid) := message.priority.value];
    }

    method ZPopHGetRPush() returns (reply: Reply)
      modifies this
      ensures old(zset) == map[] ==> reply == Nothing && View() == old(View())
      ensures old(zset) != map[] ==>
        exists m :: IsFirst(old(zset), m) && (View(), reply) == Pop(old(View()), m)
    {
      if zset == map[] { return Nothing; }
      ghost var first := FirstExists(zset);
      var messageId :| messageId in zset && IsFirst(zset, messageId);
      var message := if messageId.IdText? && messageId.id in hash then Some(hash[messageId.id]) else None;
      zset := zset - {messageId};
      if messageId.IdText? { hash := hash - {messageId.id}; }
      if message.None? {
        assert messageId.IdText? ==> hash == old(hash);
        assert (View(), Failed) == Pop(old(View()), messageId);
        return Failed;
      }
      processing := processing + [message.value];
      assert (View(), Delivered(message.value)) == Pop(old(View()), messageId);
      return Delivered(message.value);
    }

    /** One message of the requeue worker's MULTI in priority mode. */
    method RequeueMember(r: Record) returns (thrown: bool)
      modifies this
      ensures thrown == r.queue.None?
      ensures View() == if thrown then old(View()) else RequeueTick(old(View()), r)
    {
      var message := new Message.CreateFrom(r, false);
      if message.queue.None? { return true; }
      message.IncrAttempts();
      PrioritisedIsGetSet(message.Json());
      var invalid := message.FillPriority(None);
      zset := zset[JsonText(message.Json()) := message.priority.value];
      return false;
    }

    method DeletePending(id: Id)
      modifies this
      ensures View() == Delete(old(View()), id)
    {
      hash := hash - {id};
      zset := zset - {IdText(id)};
    }

    method PurgeQueue()
      modifies this
      ensures View() == Purge(old(View()))
    {
      zset := map[];
    }
  }
}
