/**
 * What the settings of a message are after any configuration of defaults and any calls of setters, field by field
 * (src/system/message.ts).
 */
module Settings {
  import opened Wrappers
  import opened Messages
  import opened MessageText

  // ---------------------------------------------------------------- setters

  /** The field a setter is for. */
  function FieldOf(s: Setter): Name {
    match s
    case SetPeriod(_) => Period
    case SetDelay(_) => Delay
    case SetCron(_, _) => Cron
    case SetRepeat(_) => Repeat
    case SetTTL(_) => Ttl
    case SetConsumeTimeout(_) => ConsumeTimeout
    case SetRetryThreshold(_) => RetryThreshold
    case SetRetryDelay(_) => RetryDelay
    case SetPriority(_) => Priority
    case SetBody(_) => Body
  }

  /** What the caller passes. */
  function Argument(s: Setter): Option<Value> {
    match s
    case SetPeriod(ms) => Some(Number(ms))
    case SetDelay(ms) => Some(Number(ms))
    case SetCron(e, _) => Some(Text(e))
    case SetRepeat(n) => Some(Number(n))
    case SetTTL(ms) => Some(Number(ms))
    case SetConsumeTimeout(ms) => Some(Number(ms))
    case SetRetryThreshold(n) => Some(Number(n))
    case SetRetryDelay(ms) => Some(Number(ms))
    case SetPriority(p) => Some(Number(p))
    case SetBody(value) => if value.Some? then Some(Json(value.value)) else None
  }

  /** The setter takes the argument: times are at least a second, priorities 0 to 7, CRON expressions parse. */
  predicate Accepted(s: Setter) {
    match s
    case SetPeriod(ms) => ms >= 1000
    case SetDelay(ms) => ms >= 1000
    case SetCron(_, parses) => parses
    case SetTTL(ms) => ms >= 1000
    case SetConsumeTimeout(ms) => ms >= 1000
    case SetRetryDelay(ms) => ms >= 1000
    case SetPriority(p) => 0 <= p <= 7
    case _ => true
  }

  lemma AcceptedExactly(r: Record, s: Setter)
    ensures Set(r, s).Ok? <==> Accepted(s)
  {
  }

  /** One setter: accepted or not as said, its field gets the argument, and no other field changes, except that a new
      delay is not spent yet. */
  lemma SetExactly(r: Record, s: Setter, n: Name)
    ensures Set(r, s).Ok? <==> Accepted(s)
    ensures Accepted(s) ==>
      FieldValue(Set(r, s).value, n) ==
        if n == FieldOf(s) then Argument(s)
        else if n == Delayed && s.SetDelay? then Some(Flag(false))
        else FieldValue(r, n)
  {
    AcceptedExactly(r, s);
    if Accepted(s) {
      FieldSet(r, s);
      if n != FieldOf(s) { OthersKept(r, s, n); }
    }
  }

  lemma FieldSet(r: Record, s: Setter)
    requires Set(r, s).Ok?
    ensures FieldValue(Set(r, s).value, FieldOf(s)) == Argument(s)
  {
  }

  lemma OthersKept(r: Record, s: Setter, n: Name)
    requires Set(r, s).Ok? && n != FieldOf(s)
    ensures FieldValue(Set(r, s).value, n) == if n == Delayed && s.SetDelay? then Some(Flag(false)) else FieldValue(r, n)
  {
  }

  /** The argument of the last accepted call of the field's setter, or what it was before. */
  function LastArgument(calls: seq<Setter>, n: Name, before: Option<Value>): Option<Value> {
    if calls == [] then before
    else
      var last := calls[|calls| - 1];
      if Accepted(last) && FieldOf(last) == n then Argument(last)
      else LastArgument(calls[..|calls| - 1], n, before)
  }

  lemma {:induction false} LastArgumentCons(s: Setter, calls: seq<Setter>, n: Name, before: Option<Value>)
    ensures LastArgument([s] + calls, n, before)
            == LastArgument(calls, n, if Accepted(s) && FieldOf(s) == n then Argument(s) else before)
    decreases |calls|
  {
    var all := [s] + calls;
    if calls == [] {
      assert all[..0] == [];
    } else {
      var front := calls[..|calls| - 1];
      assert all[..|all| - 1] == [s] + front && all[|all| - 1] == calls[|calls| - 1];
      LastArgumentCons(s, front, n, before);
    }
  }

  /** After any calls of setters, accepted or not, every field has the argument of the last accepted call of its setter,
      or its old value. */
  lemma {:induction false} SetAllExactly(r: Record, calls: seq<Setter>, n: Name)
    requires n != Delayed
    ensures FieldValue(SetAll(r, calls), n) == LastArgument(calls, n, FieldValue(r, n))
    decreases |calls|
  {
    if calls != [] {
      var s, rest := calls[0], calls[1..];
      var next := Set(r, s);
      SetExactly(r, s, n);
      SetAllExactly(if next.Ok? then next.value else r, rest, n);
      assert calls == [s] + rest;
      LastArgumentCons(s, rest, n, FieldValue(r, n));
    }
  }

  // ---------------------------------------------------------------- defaults

  datatype Default = DefaultTTL | DefaultRetryDelay | DefaultRetryThreshold | DefaultConsumeTimeout

  function Given(o: Options, f: Default): Option<int> {
    match f
    case DefaultTTL => o.ttl
    case DefaultRetryDelay => o.retryDelay
    case DefaultRetryThreshold => o.retryThreshold
    case DefaultConsumeTimeout => o.consumeTimeout
  }

  /** No time is given that is neither 0 nor at least a second. */
  predicate AcceptedOptions(o: Options) {
    forall f :: f in {DefaultTTL, DefaultRetryDelay, DefaultConsumeTimeout} && Given(o, f).Some? ==>
      Given(o, f).value == 0 || Given(o, f).value >= 1000
  }

  /** The value of the last accepted call that gives this option, or what it was before. */
  function LastGiven(options: seq<Options>, f: Default, before: int): int {
    if options == [] then before
    else
      var last := options[|options| - 1];
      if AcceptedOptions(last) && Given(last, f).Some? then Given(last, f).value
      else LastGiven(options[..|options| - 1], f, before)
  }

  lemma {:induction false} LastGivenCons(o: Options, options: seq<Options>, f: Default, before: int)
    ensures LastGiven([o] + options, f, before)
            == LastGiven(options, f, if AcceptedOptions(o) && Given(o, f).Some? then Given(o, f).value else before)
    decreases |options|
  {
    var all := [o] + options;
    if options == [] {
      assert all[..0] == [];
    } else {
      var front := options[..|options| - 1];
      assert all[..|all| - 1] == [o] + front && all[|all| - 1] == options[|options| - 1];
      LastGivenCons(o, front, f, before);
    }
  }

  function Current(d: Defaults, f: Default): int {
    match f
    case DefaultTTL => d.ttl
    case DefaultRetryDelay => d.retryDelay
    case DefaultRetryThreshold => d.retryThreshold
    case DefaultConsumeTimeout => d.consumeTimeout
  }

  lemma OptionsExactly(d: Defaults, o: Options, f: Default)
    ensures SetDefaultOptions(d, o).Ok? <==> AcceptedOptions(o)
    ensures AcceptedOptions(o) ==>
      Current(SetDefaultOptions(d, o).value, f) == if Given(o, f).Some? then Given(o, f).value else Current(d, f)
  {
    if SetDefaultOptions(d, o).Err? {
      assert TooShort(Given(o, DefaultTTL)) || TooShort(Given(o, DefaultRetryDelay)) || TooShort(Given(o, DefaultConsumeTimeout));
    }
    if !AcceptedOptions(o) {
      var g :| g in {DefaultTTL, DefaultRetryDelay, DefaultConsumeTimeout} && Given(o, g).Some?
        && Given(o, g).value != 0 && Given(o, g).value < 1000;
      assert TooShort(Given(o, g));
    }
  }

  lemma {:induction false} ConfigureExactly(d: Defaults, options: seq<Options>, f: Default)
    ensures Current(Configure(d, options), f) == LastGiven(options, f, Current(d, f))
    decreases |options|
  {
    if options != [] {
      var o, rest := options[0], options[1..];
      var next := SetDefaultOptions(d, o);
      OptionsExactly(d, o, f);
      ConfigureExactly(if next.Ok? then next.value else d, rest, f);
      assert options == [o] + rest;
      LastGivenCons(o, rest, f, Current(d, f));
    }
  }

  /** A new message, after any configuration: its own id and time, each default as it was last accepted or as it came
      from the factory, a null body, no scheduling, no priority and cleared system fields. */
  lemma NewMessageExactly(id: Id, now: int, options: seq<Options>)
    ensures var r := NewRecord(id, now, Configure(FACTORY, options));
      && r.id == id && r.job.createdAt == now
      && r.job.ttl == LastGiven(options, DefaultTTL, 0)
      && r.job.retryDelay == LastGiven(options, DefaultRetryDelay, 60000)
      && r.job.retryThreshold == LastGiven(options, DefaultRetryThreshold, 3)
      && r.job.consumeTimeout == LastGiven(options, DefaultConsumeTimeout, 0)
      && r.body == Some("null") && r.priority == None && !IsSchedulable(r) && r.job.period == None && r.job.repeat == 0
      && r == Cleared(r) && r.queue == None && r.attempts == 0
  {
    ConfigureExactly(FACTORY, options, DefaultTTL);
    ConfigureExactly(FACTORY, options, DefaultRetryDelay);
    ConfigureExactly(FACTORY, options, DefaultRetryThreshold);
    ConfigureExactly(FACTORY, options, DefaultConsumeTimeout);
  }

  // ---------------------------------------------------------------- reset

  /** The fields that the system fills in and reset takes back. */
  predicate IsSystemField(n: Name) {
    n in {InQueue, PublishedAt, ScheduledAt, CronFired, Attempts, RepeatCount, Delayed, Expired}
  }

  /** A reset gives every system field the value of a new message and keeps every other field. */
  lemma ResetExactly(r: Record, n: Name, id: Id, now: int, d: Defaults)
    ensures FieldValue(Cleared(r), n) == if IsSystemField(n) then FieldValue(NewRecord(id, now, d), n) else FieldValue(r, n)
    ensures IsSystemField(n) ==> FieldValue(Cleared(r), n) in {Some(Null), Some(Number(0)), Some(Flag(false))}
  {
  }
}
