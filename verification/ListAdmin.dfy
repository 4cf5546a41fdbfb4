/**
 * Browsing, deleting and re-queuing messages of a list by position and id
 * (src/system/message-manager/common.ts, handlers/requeue.handler.ts).
 */
module ListAdmin {
  import opened Wrappers
  import opened Messages
  import opened Redis
  import opened Scheduler
  import opened Handlers
  import opened Protocol
  import opened StoreInvariant
  import opened ProtocolInvariant

  // ---------------------------------------------------------------- paging

  /** LRANGE list start start+take-1 for start >= 0: clipped to the list. */
  function Slice(s: seq<Record>, start: nat, take: nat): seq<Record> {
    if start >= |s| then [] else if start + take >= |s| then s[start..] else s[start..start + take]
  }

  datatype Item = Item(sequenceId: nat, message: Record)

  function Numbered(s: seq<Record>, from: nat): seq<Item> {
    seq(|s|, i requires 0 <= i < |s| => Item(from + i, s[i]))
  }

  /** getPaginatedListMessages: the parameters are checked only when the list is not empty. */
  function Page(s: seq<Record>, skip: int, take: int): Result<seq<Item>> {
    if s == [] then Ok([])
    else if skip < 0 || take < 1 then Err
    else Ok(Numbered(Slice(s, skip, take), skip))
  }

  /** A page has the messages from `skip` on with their positions, `take` of them or as many as there are; parameters out
      of range are refused. */
  lemma PageExactly(s: seq<Record>, skip: int, take: int)
    ensures var page := Page(s, skip, take);
      && (page.Err? <==> s != [] && (skip < 0 || take < 1))
      && (page.Ok? ==> forall i :: 0 <= i < |page.value| ==>
            i < take && 0 <= skip + i < |s| && page.value[i] == Item(skip + i, s[skip + i]))
      && (page.Ok? && s != [] ==> |page.value| == take || skip + |page.value| >= |s|)
  {
  }

  /** All pages from `skip` on, one after the other. */
  function Pages(s: seq<Record>, skip: nat, take: nat): seq<Item>
    requires take >= 1
    decreases |s| - skip
  {
    if skip >= |s| then []
    else
      var page := Page(s, skip, take);
      (if page.Ok? then page.value else []) + Pages(s, skip + take, take)
  }

  lemma NumberedConcat(a: seq<Record>, b: seq<Record>, from: nat)
    ensures Numbered(a + b, from) == Numbered(a, from) + Numbered(b, from + |a|)
  {
  }

  /** Consecutive pages of any size concatenate to the whole list, each message with its position. */
  lemma {:induction false} PagesCoverList(s: seq<Record>, skip: nat, take: nat)
    requires take >= 1 && skip <= |s|
    ensures Pages(s, skip, take) == Numbered(s[skip..], skip)
    decreases |s| - skip
  {
    if skip < |s| {
      var slice := Slice(s, skip, take);
      if skip + take >= |s| {
        assert Pages(s, skip + take, take) == [];
      } else {
        PagesCoverList(s, skip + take, take);
        assert s[skip..] == slice + s[skip + take..];
        NumberedConcat(slice, s[skip + take..], skip);
      }
    }
  }

  // ---------------------------------------------------------------- lookup and deletion

  /** LRANGE list i i; a negative position counts from the end, as in Redis. */
  function ElementAt(s: seq<Record>, i: int): Option<Record> {
    if 0 <= i < |s| then Some(s[i]) else if i < 0 && |s| + i >= 0 then Some(s[|s| + i]) else None
  }

  /** getListMessageAtSequenceId. Err is MessageNotFoundError. */
  function Lookup(s: seq<Record>, i: int, id: Id): (found: Result<Record>)
    ensures 0 <= i < |s| ==> found == if s[i].id == id then Ok(s[i]) else Err
    ensures -|s| <= i < 0 ==> found == if s[|s| + i].id == id then Ok(s[|s| + i]) else Err
    ensures i < -|s| || i >= |s| ==> found == Err
  {
    match ElementAt(s, i)
    case None => Err
    case Some(r) => if r.id != id then Err else Ok(r)
  }

  /** Every pair of position and id shown on a page is accepted as long as the list is unchanged. */
  lemma PageEntriesAreFound(s: seq<Record>, skip: int, take: int, item: Item)
    requires Page(s, skip, take).Ok? && item in Page(s, skip, take).value
    ensures Lookup(s, item.sequenceId, item.message.id) == Ok(item.message)
  {
    var slice := Slice(s, skip, take);
    var i :| 0 <= i < |slice| && Numbered(slice, skip)[i] == item;
    assert slice[i] == s[skip + i];
  }

  /** deleteListMessageAtSequenceId: the list may change between the read (before) and the LREM (now). The message is
      parsed and LREM gets its text again, which is another one if the body was dropped. */
  function Delete(before: seq<Record>, now: seq<Record>, i: int, id: Id): Result<seq<Record>> {
    var found := Lookup(before, i, id);
    if found.Err? then Err else Ok(Without(now, Restored(found.value)))
  }

  /** Whatever happened in between, a deletion removes at most one message, only of the requested id, and leaves
      the others in order; it removes one exactly when the text of the message read, with its body, is there. */
  lemma DeleteRemovesOnlyThatMessage(before: seq<Record>, now: seq<Record>, i: int, id: Id)
    requires Delete(before, now, i, id).Ok?
    ensures var m := Restored(Lookup(before, i, id).value);
      var s := Delete(before, now, i, id).value;
      && m.id == id
      && (if m in now then exists j :: 0 <= j < |now| && now[j] == m && s == now[..j] + now[j + 1..] else s == now)
  {
    var m := Restored(Lookup(before, i, id).value);
    if m in now {
      var j := WithoutSplit(now, m);
    } else {
      WithoutAbsent(now, m);
    }
  }

  lemma LookupMember(s: seq<Record>, i: int, id: Id)
    requires Lookup(s, i, id).Ok?
    ensures Lookup(s, i, id).value in s && Lookup(s, i, id).value.id == id
  {
  }

  /** A message that is the only one with its id has a text with a body in the list exactly when its own has one. */
  lemma OnlyOneText(s: seq<Record>, m: Record)
    requires m in s && Count(s, m.id) == 1
    ensures Restored(m) in s <==> m.body.Some?
  {
    if Restored(m) in s && m.body.None? {
      var i := WithoutSplit(s, m);
      OneMoreWithout(s, m);
      assert Restored(m) in Without(s, m);
      CountMember(Without(s, m), Restored(m));
    }
  }

  /** On an unchanged list that holds the message once, the deletion, which reports success in any case, removes the
      message if and only if its body was not dropped; otherwise the list stays as it was. */
  lemma DeleteWorksExactly(s: seq<Record>, i: int, id: Id)
    requires Lookup(s, i, id).Ok? && Count(s, id) == 1
    ensures var m := Lookup(s, i, id).value;
      && Delete(s, s, i, id) == Ok(Without(s, Restored(m)))
      && (m.body.Some? ==> Count(Delete(s, s, i, id).value, id) == 0)
      && (m.body.None? ==> Delete(s, s, i, id) == Ok(s))
  {
    LookupMember(s, i, id);
    var m := Lookup(s, i, id).value;
    OnlyOneText(s, m);
    if m.body.Some? {
      OneMoreWithout(s, m);
    } else {
      WithoutAbsent(s, Restored(m));
    }
  }

  // ---------------------------------------------------------------- requeue

  /** requeueListMessage without priority: the read sees `before`, the MULTI sees `db`. */
  function RequeueFrom(before: Db, db: Db, from: Key, i: int, id: Id, q: Queue, now: int): Result<Db> {
    var found := Lookup(At(before, from), i, id);
    if found.Err? then Err
    else
      var m := Restored(found.value);
      Handlers.Enqueue(LRem(db, from, m), Produced(m, q), now)
  }

  function CopiesIn(db: Db, from: Key, q: Queue, id: Id): nat {
    Count(At(db, from), id) + Count(At(db, Pending(q)), id)
  }

  /** If the text of the message read, with its body, is still in the list, exactly one message moves to the end of the
      pending list, its attempts reset; if not, because it was removed in between or its body was dropped, a copy is
      created. So the number of copies is kept if and only if that text is in the list. */
  lemma RequeueMovesOne(before: Db, db: Db, from: Key, i: int, id: Id, q: Queue, now: int)
    requires RequeueFrom(before, db, from, i, id, q, now).Ok? && !from.Pending?
    ensures var m := Restored(Lookup(At(before, from), i, id).value);
      var m' := Published(Produced(m, q), now);
      var db' := RequeueFrom(before, db, from, i, id, q, now).value;
      && m.id == id && m'.id == id && m'.attempts == 0 && m'.job == m.job && m'.body == m.body && m'.queue == Some(q)
      && At(db', Pending(q)) == At(db, Pending(q)) + [m']
      && (m in At(db, from) ==> OneMore(At(db, from), At(db', from), m))
      && (m !in At(db, from) ==> At(db', from) == At(db, from))
      && (CopiesIn(db', from, q, id) == CopiesIn(db, from, q, id) <==> m in At(db, from))
  {
    var m := Restored(Lookup(At(before, from), i, id).value);
    var m' := Published(Produced(m, q), now);
    CountConcat(At(db, Pending(q)), [m'], id);
    if m in At(db, from) {
      OneMoreWithout(At(db, from), m);
    } else {
      WithoutAbsent(At(db, from), m);
    }
  }

  /** On an unchanged store that holds the message once in the list, a requeue keeps the number of copies if and only if
      the body was not dropped; otherwise the message stays where it is and is pending as well. */
  lemma RequeueWorksExactly(db: Db, from: Key, i: int, id: Id, q: Queue, now: int)
    requires Lookup(At(db, from), i, id).Ok? && Count(At(db, from), id) == 1 && !from.Pending?
    ensures var m := Lookup(At(db, from), i, id).value;
      && RequeueFrom(db, db, from, i, id, q, now).Ok?
      && var db' := RequeueFrom(db, db, from, i, id, q, now).value;
        && Count(At(db', Pending(q)), id) == Count(At(db, Pending(q)), id) + 1
        && (m.body.Some? ==> Count(At(db', from), id) == 0)
        && (m.body.None? ==> At(db', from) == At(db, from))
  {
    LookupMember(At(db, from), i, id);
    OnlyOneText(At(db, from), Lookup(At(db, from), i, id).value);
    RequeueMovesOne(db, db, from, i, id, q, now);
    CountConcat(At(db, Pending(q)), [Published(Produced(Restored(Lookup(At(db, from), i, id).value), q), now)], id);
  }

  // ---------------------------------------------------------------- which messages of a run can be deleted

  /** The message was stored with a body, or some worker has parsed and stored it again since. */
  predicate HasText(origin: Record, r: Record) {
    origin.body.Some? || IsSchedulable(origin) || r.attempts > 0
  }

  lemma TextOfRun(w: World, k: Key, r: Record)
    requires Reachable(w) && r in At(w.db, k)
    ensures r.id in w.hist.origin && (r.body.Some? <==> HasText(w.hist.origin[r.id], r))
  {
    ReachableInv(w);
    assert RecordOk(w.hist, k, r);
  }

  /** In every reachable state, deleting a listed message takes exactly one copy away if it was produced with a body,
      was scheduled or was retried; and if none of these holds, nothing at all, although success is reported. */
  lemma DeleteInAnyRun(w: World, k: Key, i: int, id: Id)
    requires Reachable(w) && Lookup(At(w.db, k), i, id).Ok?
    ensures var s, m := At(w.db, k), Lookup(At(w.db, k), i, id).value;
      && id in w.hist.origin && Delete(s, s, i, id).Ok?
      && Count(Delete(s, s, i, id).value, id) == Count(s, id) - (if HasText(w.hist.origin[id], m) then 1 else 0)
      && (!HasText(w.hist.origin[id], m) ==> Delete(s, s, i, id) == Ok(s))
  {
    var s, m := At(w.db, k), Lookup(At(w.db, k), i, id).value;
    LookupMember(s, i, id);
    TextOfRun(w, k, m);
    if m.body.Some? {
      OneMoreWithout(s, m);
    } else {
      ReachableInv(w);
      assert RecordOk(w.hist, k, m);
      assert !IsPeriodic(m);
      FoundMeansOnlyThere(w.db, w.hist, k, m);
      DeleteWorksExactly(s, i, id);
    }
  }

  /** In every reachable state, re-queuing an acknowledged or dead-lettered message moves it under the same condition,
      and otherwise leaves it there with a second copy pending. */
  lemma RequeueInAnyRun(w: World, k: Key, i: int, id: Id, q: Queue, now: int)
    requires Reachable(w) && Lookup(At(w.db, k), i, id).Ok? && (k.Acknowledged? || k.DeadLetter?)
    ensures id in w.hist.origin && RequeueFrom(w.db, w.db, k, i, id, q, now).Ok?
    ensures CopiesIn(RequeueFrom(w.db, w.db, k, i, id, q, now).value, k, q, id) ==
      CopiesIn(w.db, k, q, id) + if HasText(w.hist.origin[id], Lookup(At(w.db, k), i, id).value) then 0 else 1
  {
    var s, m := At(w.db, k), Lookup(At(w.db, k), i, id).value;
    LookupMember(s, i, id);
    TextOfRun(w, k, m);
    RequeueMovesOne(w.db, w.db, k, i, id, q, now);
    if m.body.None? {
      ReachableInv(w);
      assert RecordOk(w.hist, k, m);
      assert !IsPeriodic(m);
      FoundMeansOnlyThere(w.db, w.hist, k, m);
      RequeueWorksExactly(w.db, k, i, id, q, now);
    }
  }

  /** The smallest case: produceMessage(undefined) on an empty store. The message is pending and found at position 0,
      but deleting it there removes nothing. */
  lemma UndefinedBodyCannotBeDeleted(id: Id, created: int, d: Defaults, q: Queue, now: int, slot: int)
    requires ValidDefaults(d) && 0 < now < slot
    ensures var m := NewRecord(id, created, d).(body := None);
      var e := Event(Produce(m, q), now, slot);
      && Enabled(Init(), e)
      && var s := At(Apply(Init(), e).db, Pending(q));
        s == [Published(Produced(m, q), now)] && Lookup(s, 0, id).Ok? && Delete(s, s, 0, id) == Ok(s)
  {
    var m := NewRecord(id, created, d).(body := None);
    var r := Published(Produced(m, q), now);
    assert Count([r], id) == 1;
    DeleteWorksExactly([r], 0, id);
  }
}
