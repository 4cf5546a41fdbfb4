/**
 * Messages as JSON texts (src/system/message.ts): what JSON.stringify writes, what createFromMessage makes of it, and
 * when the text of the new object is the stored text again, which LREM by text depends on.
 */
module MessageText {
  import opened Wrappers
  import opened Messages

  // ---------------------------------------------------------------- ordered fields

  /** The names of the fields of a Message object, and any other name. */
  datatype Name =
    | Body | Priority | Cron | Delay | Period | Repeat | InQueue | PublishedAt | ScheduledAt | CronFired | Attempts
    | RepeatCount | Delayed | Expired | CreatedAt | Uuid | Ttl | RetryDelay | RetryThreshold | ConsumeTimeout
    | Other(name: string)

  /** The fields of an object or of a JSON text, in order. */
  type Fields<V> = seq<(Name, V)>

  function Keys<V>(f: Fields<V>): seq<Name> { seq(|f|, i requires 0 <= i < |f| => f[i].0) }

  predicate DistinctKeys<V>(f: Fields<V>) { forall i, j :: 0 <= i < j < |f| ==> f[i].0 != f[j].0 }

  /** One property of Object.assign: an existing key keeps its position, a new one goes to the end. */
  function Assign1<V>(target: Fields<V>, key: Name, value: V): Fields<V> {
    if target == [] then [(key, value)]
    else if target[0].0 == key then [(key, value)] + target[1..]
    else [target[0]] + Assign1(target[1..], key, value)
  }

  function Assign<V>(target: Fields<V>, source: Fields<V>): Fields<V>
    decreases |source|
  {
    if source == [] then target else Assign(Assign1(target, source[0].0, source[0].1), source[1..])
  }

  lemma {:induction false} Assign1At<V>(target: Fields<V>, j: nat, value: V)
    requires j < |target| && DistinctKeys(target)
    ensures Assign1(target, target[j].0, value) == target[j := (target[j].0, value)]
    decreases |target|
  {
    if j > 0 {
      assert target[0].0 != target[j].0;
      Assign1At(target[1..], j - 1, value);
      assert target[1..][j - 1 := (target[j].0, value)] == target[j := (target[j].0, value)][1..];
    }
  }

  lemma {:induction false} Assign1New<V>(target: Fields<V>, key: Name, value: V)
    requires key !in Keys(target)
    ensures Assign1(target, key, value) == target + [(key, value)]
  {
    if target != [] {
      assert Keys(target)[0] == target[0].0;
      assert Keys(target[1..]) == Keys(target)[1..];
      Assign1New(target[1..], key, value);
    }
  }

  lemma {:induction false} Assign1Keys<V>(target: Fields<V>, key: Name, value: V)
    ensures Keys(Assign1(target, key, value)) == if key in Keys(target) then Keys(target) else Keys(target) + [key]
  {
    if key !in Keys(target) {
      Assign1New(target, key, value);
    } else {
      assert Keys(target)[0] == target[0].0;
      if target[0].0 != key {
        assert Keys(target) == [target[0].0] + Keys(target[1..]);
        Assign1Keys(target[1..], key, value);
      }
    }
  }

  /** Assigning never moves or drops a field. */
  lemma {:induction false} AssignKeys<V>(target: Fields<V>, source: Fields<V>)
    ensures Keys(target) <= Keys(Assign(target, source))
    ensures (forall k :: k in Keys(source) ==> k in Keys(target)) ==> Keys(Assign(target, source)) == Keys(target)
    decreases |source|
  {
    if source != [] {
      Assign1Keys(target, source[0].0, source[0].1);
      AssignKeys(Assign1(target, source[0].0, source[0].1), source[1..]);
      assert Keys(source) == [source[0].0] + Keys(source[1..]);
    }
  }

  // ---------------------------------------------------------------- texts without undefined fields

  function From<V>(f: Fields<V>, n: nat): Fields<V> { if n <= |f| then f[n..] else [] }

  /** Assigning the next field of the text, when the fields so far are those of the text. */
  lemma AssignNext<V>(blank: Fields<V>, stored: Fields<V>, n: nat)
    requires Keys(blank) <= Keys(stored) && DistinctKeys(stored) && n < |stored|
    ensures Assign1(stored[..n] + From(blank, n), stored[n].0, stored[n].1) == stored[..n + 1] + From(blank, n + 1)
  {
    var target := stored[..n] + From(blank, n);
    assert |Keys(blank)| == |blank| && |Keys(stored)| == |stored|;
    forall i | 0 <= i < |target| ensures target[i].0 == stored[i].0 {
      if n <= i { assert blank[i].0 == Keys(blank)[i] == Keys(stored)[i]; }
    }
    if n < |blank| {
      Assign1At(target, n, stored[n].1);
      assert target[n := stored[n]] == stored[..n + 1] + From(blank, n + 1);
    } else {
      assert forall i :: 0 <= i < |Keys(target)| ==> Keys(target)[i] == stored[i].0;
      Assign1New(target, stored[n].0, stored[n].1);
      assert target + [stored[n]] == stored[..n + 1] + From(blank, n + 1);
    }
  }

  lemma {:induction false} AssignPrefix<V>(blank: Fields<V>, stored: Fields<V>, n: nat)
    requires Keys(blank) <= Keys(stored) && DistinctKeys(stored) && n <= |stored|
    ensures Assign(stored[..n] + From(blank, n), stored[n..]) == stored
    decreases |stored| - n
  {
    if n == |stored| {
      assert |blank| == |Keys(blank)| <= |Keys(stored)| == |stored|;
      assert stored[..n] + From(blank, n) == stored && stored[n..] == [];
    } else {
      AssignNext(blank, stored, n);
      assert stored[n..][0] == stored[n] && stored[n..][1..] == stored[n + 1..];
      AssignPrefix(blank, stored, n + 1);
    }
  }

  /** Assigning a text to a new object gives the fields of the text, in their order, if and only if the fields of the
      new object are the first fields of the text. */
  lemma AssignKeepsTextExactly<V>(blank: Fields<V>, stored: Fields<V>)
    requires DistinctKeys(stored)
    ensures Assign(blank, stored) == stored <==> Keys(blank) <= Keys(stored)
  {
    AssignKeys(blank, stored);
    if Keys(blank) <= Keys(stored) {
      AssignPrefix(blank, stored, 0);
      assert stored[..0] + From(blank, 0) == blank && stored[0..] == stored;
    }
  }

  // ---------------------------------------------------------------- objects with undefined fields

  datatype Value = Null | Number(n: int) | Text(t: string) | Flag(b: bool) | QueueName(q: Queue) | Json(json: string)

  /** A live object; a field whose value is undefined is None. */
  type Object = Fields<Option<Value>>

  /** JSON.stringify: undefined fields are dropped. */
  function Stringify(o: Object): Fields<Value> {
    if o == [] then []
    else (if o[0].1.Some? then [(o[0].0, o[0].1.value)] else []) + Stringify(o[1..])
  }

  function Parse(text: Fields<Value>): Object {
    seq(|text|, i requires 0 <= i < |text| => (text[i].0, Some(text[i].1)))
  }

  /** createFromMessage on texts: Object.assign(new Message(), JSON.parse(text)). */
  function CreateFrom(blank: Object, text: Fields<Value>): Object { Assign(blank, Parse(text)) }

  /** Fields of o where they are defined, fields of blank elsewhere. */
  function Merge(o: Object, blank: Object): Object
    requires |o| == |blank|
  {
    seq(|o|, i requires 0 <= i < |o| => if o[i].1.Some? then o[i] else (o[i].0, blank[i].1))
  }

  lemma {:induction false} StringifyKeys(o: Object)
    ensures forall k :: k in Keys(Stringify(o)) ==> k in Keys(o)
  {
    if o != [] {
      StringifyKeys(o[1..]);
      assert Keys(o) == [o[0].0] + Keys(o[1..]);
      var rest := Stringify(o[1..]);
      assert Keys(Stringify(o)) == if o[0].1.Some? then [o[0].0] + Keys(rest) else Keys(rest);
    }
  }

  lemma {:induction false} CreateFromSuffix(o: Object, blank: Object, n: nat)
    requires Keys(o) == Keys(blank) && DistinctKeys(blank) && |o| == |blank| && n <= |o|
    ensures CreateFrom(Merge(o, blank)[..n] + blank[n..], Stringify(o[n..])) == Merge(o, blank)
    decreases |o| - n
  {
    var all := Merge(o, blank);
    var target := all[..n] + blank[n..];
    if n == |o| {
      assert target == all && Stringify(o[n..]) == [];
    } else {
      forall i | 0 <= i < |o| ensures target[i].0 == o[i].0 == blank[i].0 {
        assert Keys(o)[i] == Keys(blank)[i];
      }
      var rest := Stringify(o[n + 1..]);
      assert o[n..][0] == o[n] && o[n..][1..] == o[n + 1..];
      var target' := all[..n + 1] + blank[n + 1..];
      if o[n].1.Some? {
        var text := [(o[n].0, o[n].1.value)] + rest;
        assert Parse(text)[0] == o[n] && Parse(text)[1..] == Parse(rest);
        Assign1At(target, n, o[n].1);
        assert target[n := o[n]] == target';
      } else {
        assert Stringify(o[n..]) == rest;
        assert target == target';
      }
      CreateFromSuffix(o, blank, n + 1);
    }
  }

  /** Storing an object and parsing it into a new object of the same class keeps every defined field; an undefined
      one gets the value of the new object. */
  lemma CreateFromMerges(o: Object, blank: Object)
    requires Keys(o) == Keys(blank) && DistinctKeys(blank)
    ensures |o| == |blank| && CreateFrom(blank, Stringify(o)) == Merge(o, blank)
  {
    assert |Keys(o)| == |o| && |Keys(blank)| == |blank|;
    CreateFromSuffix(o, blank, 0);
    assert Merge(o, blank)[..0] + blank[0..] == blank && o[0..] == o;
  }

  lemma {:induction false} MergeLonger(o: Object, blank: Object)
    requires |o| == |blank|
    ensures |Stringify(Merge(o, blank))| >= |Stringify(o)|
    ensures |Stringify(Merge(o, blank))| == |Stringify(o)| <==>
      forall i :: 0 <= i < |o| && blank[i].1.Some? ==> o[i].1.Some?
  {
    if o != [] {
      MergeLonger(o[1..], blank[1..]);
      assert Merge(o, blank)[1..] == Merge(o[1..], blank[1..]);
      assert forall i :: 0 < i < |o| ==> o[i] == o[1..][i - 1] && blank[i] == blank[1..][i - 1];
      if forall i :: 0 <= i < |o| && blank[i].1.Some? ==> o[i].1.Some? {
        assert forall i :: 0 <= i < |o[1..]| && blank[1..][i].1.Some? ==> o[i + 1].1.Some?;
      }
    }
  }

  // ---------------------------------------------------------------- every object of the class

  /** What the code does to an object: write a field, or assign a stored text to it. */
  datatype Change = Write(key: Name, value: Option<Value>) | Absorb(text: Fields<Value>)

  function Change1(o: Object, c: Change): Object {
    match c
    case Write(key, value) => Assign1(o, key, value)
    case Absorb(text) => CreateFrom(o, text)
  }

  function Changed(o: Object, cs: seq<Change>): Object
    decreases |cs|
  {
    if cs == [] then o else Changed(Change1(o, cs[0]), cs[1..])
  }

  /** The change writes only fields of the class. */
  predicate Within(c: Change, keys: seq<Name>) {
    match c
    case Write(key, _) => key in keys
    case Absorb(text) => forall k :: k in Keys(text) ==> k in keys
  }

  /** Every object made from a new one by setters and assignments has the fields of the class in their order. */
  lemma {:induction false} ChangesKeepLayout(o: Object, cs: seq<Change>)
    requires forall c :: c in cs ==> Within(c, Keys(o))
    ensures Keys(Changed(o, cs)) == Keys(o)
    decreases |cs|
  {
    if cs != [] {
      assert Within(cs[0], Keys(o));
      Change1KeepsLayout(o, cs[0]);
      ChangesKeepLayout(Change1(o, cs[0]), cs[1..]);
    }
  }

  lemma Change1KeepsLayout(o: Object, c: Change)
    requires Within(c, Keys(o))
    ensures Keys(Change1(o, c)) == Keys(o)
  {
    match c
    case Write(key, value) => Assign1Keys(o, key, value);
    case Absorb(text) =>
      assert Keys(Parse(text)) == Keys(text);
      AssignKeys(o, Parse(text));
  }

  /** For every object of a class, however it was made: storing it, parsing it into a new object and serialising
      again gives the stored text if and only if no field that is undefined in it has a value in the new object. */
  lemma ReserialisingKeepsText(o: Object, cs: seq<Change>, blank: Object)
    requires DistinctKeys(blank) && Keys(o) == Keys(blank) && forall c :: c in cs ==> Within(c, Keys(o))
    ensures var made := Changed(o, cs);
      && |made| == |blank|
      && (Stringify(CreateFrom(blank, Stringify(made))) == Stringify(made) <==>
            forall i :: 0 <= i < |made| && blank[i].1.Some? ==> made[i].1.Some?)
  {
    var made := Changed(o, cs);
    ChangesKeepLayout(o, cs);
    CreateFromMerges(made, blank);
    MergeLonger(made, blank);
    if forall i :: 0 <= i < |made| && blank[i].1.Some? ==> made[i].1.Some? {
      assert Merge(made, blank) == made by {
        forall i | 0 <= i < |made| ensures Merge(made, blank)[i] == made[i] {
        }
      }
    }
  }

  // ---------------------------------------------------------------- the Message class

  function OrNull(o: Option<int>): Value { if o.Some? then Number(o.value) else Null }

  /** The fields of a Message object: initialised ones in the order of the class, then those that the constructor
      assigns. */
  const LAYOUT := [Body, Priority, Cron, Delay, Period, Repeat, InQueue, PublishedAt, ScheduledAt, CronFired, Attempts,
                   RepeatCount, Delayed, Expired, CreatedAt, Uuid, Ttl, RetryDelay, RetryThreshold, ConsumeTimeout]

  /** The value of a field; only the body can be undefined. */
  function FieldValue(r: Record, n: Name): Option<Value> {
    match n
    case Body => if r.body.Some? then Some(Json(r.body.value)) else None
    case Priority => Some(OrNull(r.priority))
    case Cron => Some(if r.job.cron.Some? then Text(r.job.cron.value) else Null)
    case Delay => Some(OrNull(r.delay))
    case Period => Some(OrNull(r.job.period))
    case Repeat => Some(Number(r.job.repeat))
    case InQueue => Some(if r.queue.Some? then QueueName(r.queue.value) else Null)
    case PublishedAt => Some(OrNull(r.publishedAt))
    case ScheduledAt => Some(OrNull(r.scheduledAt))
    case CronFired => Some(Flag(r.cronFired))
    case Attempts => Some(Number(r.attempts))
    case RepeatCount => Some(Number(r.repeatCount))
    case Delayed => Some(Flag(r.delayed))
    case Expired => Some(Flag(r.expired))
    case CreatedAt => Some(Number(r.job.createdAt))
    case Uuid => Some(Number(r.id))
    case Ttl => Some(Number(r.job.ttl))
    case RetryDelay => Some(Number(r.job.retryDelay))
    case RetryThreshold => Some(Number(r.job.retryThreshold))
    case ConsumeTimeout => Some(Number(r.job.consumeTimeout))
    case Other(_) => Some(Null)
  }

  function Fieldwise(r: Record): Object {
    seq(|LAYOUT|, i requires 0 <= i < |LAYOUT| => (LAYOUT[i], FieldValue(r, LAYOUT[i])))
  }

  /** The stored text of a message. */
  function Stored(r: Record): Fields<Value> { Stringify(Fieldwise(r)) }

  function Rank(n: Name): nat {
    match n
    case Body => 0
    case Priority => 1
    case Cron => 2
    case Delay => 3
    case Period => 4
    case Repeat => 5
    case InQueue => 6
    case PublishedAt => 7
    case ScheduledAt => 8
    case CronFired => 9
    case Attempts => 10
    case RepeatCount => 11
    case Delayed => 12
    case Expired => 13
    case CreatedAt => 14
    case Uuid => 15
    case Ttl => 16
    case RetryDelay => 17
    case RetryThreshold => 18
    case ConsumeTimeout => 19
    case Other(_) => 20
  }

  lemma LayoutRanks(n: Name)
    requires !n.Other?
    ensures LAYOUT[Rank(n)] == n
  {
  }

  lemma LayoutDistinct(i: nat, j: nat)
    requires i < j < |LAYOUT|
    ensures LAYOUT[i] != LAYOUT[j]
  {
    assert Rank(LAYOUT[i]) == i;
    assert Rank(LAYOUT[j]) == j;
  }

  lemma Layout(r: Record)
    ensures Keys(Fieldwise(r)) == LAYOUT && DistinctKeys(Fieldwise(r))
  {
    forall i, j | 0 <= i < j < |LAYOUT| ensures LAYOUT[i] != LAYOUT[j] {
      LayoutDistinct(i, j);
    }
  }

  /** createFromMessage on a stored message is the function Restored on records, whatever the new object's id, time
      and defaults are: every stored field wins, and a dropped body comes back as null. */
  lemma ParsedIsRestored(r: Record, id: Id, now: int, d: Defaults)
    ensures CreateFrom(Fieldwise(NewRecord(id, now, d)), Stored(r)) == Fieldwise(Restored(r))
  {
    var blank := Fieldwise(NewRecord(id, now, d));
    Layout(r);
    Layout(NewRecord(id, now, d));
    CreateFromMerges(Fieldwise(r), blank);
    forall i | 0 <= i < |LAYOUT| ensures Merge(Fieldwise(r), blank)[i] == Fieldwise(Restored(r))[i] {
      RestoredField(r, NewRecord(id, now, d), LAYOUT[i]);
    }
  }

  lemma RestoredField(r: Record, blank: Record, n: Name)
    requires blank.body == Some(NULL)
    ensures FieldValue(Restored(r), n) == if FieldValue(r, n).Some? then FieldValue(r, n) else FieldValue(blank, n)
  {
  }

  /** The text starts with the first field of the object exactly when that field is defined. */
  lemma FirstDefined(o: Object)
    requires o != [] && DistinctKeys(o)
    ensures o[0].1.Some? <==> Stringify(o) != [] && Stringify(o)[0].0 == o[0].0
    ensures Stringify(o[1..]) == if o[0].1.Some? then Stringify(o)[1..] else Stringify(o)
  {
    var rest := Stringify(o[1..]);
    if o[0].1.Some? {
      assert Stringify(o) == [(o[0].0, o[0].1.value)] + rest;
    } else {
      assert Stringify(o) == rest;
      if rest != [] {
        StringifyKeys(o[1..]);
        assert Keys(rest)[0] == rest[0].0;
        FirstKeyOnce(o, rest[0].0);
      }
    }
  }

  lemma FirstKeyOnce(o: Object, key: Name)
    requires o != [] && DistinctKeys(o) && key in Keys(o[1..])
    ensures key != o[0].0
  {
    var i :| 0 <= i < |Keys(o[1..])| && Keys(o[1..])[i] == key;
    assert o[i + 1].0 == key;
  }

  lemma {:induction false} StringifyInjective(a: Object, b: Object)
    requires Keys(a) == Keys(b) && DistinctKeys(a) && Stringify(a) == Stringify(b)
    ensures a == b
  {
    assert |Keys(a)| == |a| && |Keys(b)| == |b|;
    if a != [] {
      assert forall i :: 0 <= i < |a| ==> Keys(a)[i] == a[i].0 && Keys(b)[i] == b[i].0;
      FirstDefined(a);
      FirstDefined(b);
      assert Keys(a[1..]) == Keys(a)[1..];
      assert Keys(b[1..]) == Keys(b)[1..];
      StringifyInjective(a[1..], b[1..]);
    }
  }

  /** Different messages have different texts, so removing a text from a list is removing a record. */
  lemma StoredInjective(a: Record, b: Record)
    requires Stored(a) == Stored(b)
    ensures a == b
  {
    Layout(a);
    Layout(b);
    StringifyInjective(Fieldwise(a), Fieldwise(b));
    SameFieldsSameJob(a, b);
    SameFieldsSameRest(a, b);
  }

  lemma SameField(a: Record, b: Record, n: Name)
    requires Fieldwise(a) == Fieldwise(b) && !n.Other?
    ensures FieldValue(a, n) == FieldValue(b, n)
  {
    LayoutRanks(n);
    assert Fieldwise(a)[Rank(n)] == Fieldwise(b)[Rank(n)];
  }

  lemma SameFieldsSameJob(a: Record, b: Record)
    requires Fieldwise(a) == Fieldwise(b)
    ensures a.job == b.job
  {
    SameField(a, b, Cron);
    SameField(a, b, Period);
    SameField(a, b, Repeat);
    SameField(a, b, CreatedAt);
    SameField(a, b, Ttl);
    SameField(a, b, RetryDelay);
    SameField(a, b, RetryThreshold);
    SameField(a, b, ConsumeTimeout);
  }

  lemma SameFieldsSameRest(a: Record, b: Record)
    requires Fieldwise(a) == Fieldwise(b)
    ensures a == b.(job := a.job)
  {
    SameField(a, b, Uuid);
    SameField(a, b, Body);
    SameField(a, b, Priority);
    SameField(a, b, Delay);
    SameField(a, b, InQueue);
    SameField(a, b, PublishedAt);
    SameField(a, b, ScheduledAt);
    SameField(a, b, CronFired);
    SameField(a, b, Attempts);
    SameField(a, b, RepeatCount);
    SameField(a, b, Delayed);
    SameField(a, b, Expired);
  }

  /** Parsing a stored message and serialising it again gives the stored text if and only if the body was not
      dropped, which whoever produces the message can tell beforehand. */
  lemma StoredTextKeptExactly(r: Record, id: Id, now: int, d: Defaults)
    ensures Stringify(CreateFrom(Fieldwise(NewRecord(id, now, d)), Stored(r))) == Stored(r) <==> r.body.Some?
  {
    ParsedIsRestored(r, id, now, d);
    if Stored(Restored(r)) == Stored(r) { StoredInjective(Restored(r), r); }
  }
}
