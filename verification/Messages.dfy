/**
 * Messages (src/system/message.ts).
 *
 * `Record` is the serialised form of a message: what JSON.stringify stores in Redis and
 * JSON.parse reads back. `Message` is the mutable object the code works on; every method
 * is proved against a function on records.
 */
module Messages {
  import opened Wrappers

  /** A message uuid. The order of the numbers stands for the order of the uuid texts. */
  type Id = nat

  datatype Queue = Queue(ns: string, name: string)

  /** The user's settings that no system operation changes after production. */
  datatype Job = Job(
    createdAt: int,
    ttl: int,
    retryThreshold: int,
    retryDelay: int,
    consumeTimeout: int,
    cron: Option<string>,
    period: Option<int>,
    repeat: int)

  /** A message: its settings, the settings that the system may overwrite, and the system fields.
      The body is the user's value as JSON text; a value that JSON.stringify drops, such as undefined, is None. */
  datatype Record = Record(
    id: Id,
    job: Job,
    body: Option<string>,
    priority: Option<int>,
    delay: Option<int>,
    queue: Option<Queue>,
    publishedAt: Option<int>,
    scheduledAt: Option<int>,
    cronFired: bool,
    attempts: nat,
    repeatCount: nat,
    delayed: bool,
    expired: bool)

  const HIGHEST := 0
  const NORMAL := 4
  const LOWEST := 7

  predicate IsPriority(p: int) { HIGHEST <= p <= LOWEST }

  predicate IsPeriodic(r: Record) { r.job.cron.Some? || r.job.repeat > 0 }

  predicate IsSchedulable(r: Record) { r.job.cron.Some? || r.delay.Some? || r.job.repeat > 0 }

  predicate HasExpired(r: Record, now: int) {
    r.expired || (r.job.ttl != 0 && r.job.createdAt + r.job.ttl - now <= 0)
  }

  /** A threshold of 0 means no limit. */
  predicate ThresholdExceeded(r: Record) {
    r.job.retryThreshold != 0 && r.attempts + 1 >= r.job.retryThreshold
  }

  /** Clears the system fields, the queue included; the user's settings stay. */
  function Cleared(r: Record): Record {
    r.(publishedAt := None, scheduledAt := None, attempts := 0, expired := false, delayed := false,
       cronFired := false, repeatCount := 0, queue := None)
  }

  /** The initial body of every Message object. */
  const NULL := "null"

  /** What getBody gives for a stored message. */
  function BodyOf(r: Record): string { r.body.GetOr(NULL) }

  /** createFromMessage: the stored fields are assigned to a new object, so that a dropped body comes back as null.
      Module MessageText derives this from the texts. */
  function Restored(r: Record): Record { r.(body := Some(BodyOf(r))) }

  /** The two records are stages of one message: same id, same user settings, same body for a reader.
      The scheduling delay is not compared, because a delayed retry overwrites it. */
  predicate SameJob(a: Record, b: Record) {
    a.id == b.id && a.job == b.job && BodyOf(a) == BodyOf(b) && a.queue == b.queue
  }

  /** A duration that is switched off (0) or at least one second. */
  predicate OffOrSecond(n: int) { n == 0 || n >= 1000 }

  /** What the setters and the defaults guarantee about the user's settings. */
  predicate WellFormed(r: Record) {
    && OffOrSecond(r.job.ttl) && OffOrSecond(r.job.retryDelay) && OffOrSecond(r.job.consumeTimeout)
    && (r.delay.Some? ==> r.delay.value >= 1000)
    && (r.job.period.Some? ==> r.job.period.value >= 1000)
    && (r.priority.Some? ==> IsPriority(r.priority.value))
  }

  /** Message.defaultOpts. */
  datatype Defaults = Defaults(consumeTimeout: int, retryThreshold: int, retryDelay: int, ttl: int)

  const FACTORY := Defaults(0, 3, 60000, 0)

  predicate ValidDefaults(d: Defaults) {
    OffOrSecond(d.ttl) && OffOrSecond(d.retryDelay) && OffOrSecond(d.consumeTimeout)
  }

  /** Message.setDefaultOptions: an option that is absent keeps its former value. */
  datatype Options = Options(consumeTimeout: Option<int>, retryThreshold: Option<int>,
                             retryDelay: Option<int>, ttl: Option<int>)

  predicate TooShort(o: Option<int>) { o.Some? && o.value != 0 && o.value < 1000 }

  function SetDefaultOptions(d: Defaults, o: Options): (r: Result<Defaults>)
    ensures ValidDefaults(d) && r.Ok? ==> ValidDefaults(r.value)
    ensures r.Ok? ==> (if o.ttl.Some? then r.value.ttl == o.ttl.value else r.value.ttl == d.ttl)
    ensures r.Ok? ==>
      if o.retryDelay.Some? then r.value.retryDelay == o.retryDelay.value else r.value.retryDelay == d.retryDelay
    ensures r.Ok? ==>
      if o.retryThreshold.Some? then r.value.retryThreshold == o.retryThreshold.value
      else r.value.retryThreshold == d.retryThreshold
    ensures r.Ok? ==>
      if o.consumeTimeout.Some? then r.value.consumeTimeout == o.consumeTimeout.value
      else r.value.consumeTimeout == d.consumeTimeout
    ensures r.Err? <==> TooShort(o.consumeTimeout) || TooShort(o.retryDelay) || TooShort(o.ttl)
  {
    if TooShort(o.consumeTimeout) || TooShort(o.retryDelay) || TooShort(o.ttl) then Err
    else Ok(Defaults(o.consumeTimeout.GetOr(d.consumeTimeout), o.retryThreshold.GetOr(d.retryThreshold),
                     o.retryDelay.GetOr(d.retryDelay), o.ttl.GetOr(d.ttl)))
  }

  function NewRecord(id: Id, now: int, d: Defaults): Record {
    Record(id, Job(now, d.ttl, d.retryThreshold, d.retryDelay, d.consumeTimeout, None, None, 0),
           Some(NULL), None, None, None, None, None, false, 0, 0, false, false)
  }

  /** One call of a public setter. */
  datatype Setter =
    | SetPeriod(ms: int) | SetDelay(ms: int) | SetCron(expression: string, parses: bool) | SetRepeat(n: int)
    | SetTTL(ms: int) | SetConsumeTimeout(ms: int) | SetRetryThreshold(n: int) | SetRetryDelay(ms: int)
    | SetPriority(p: int) | SetBody(value: Option<string>)

  /** The effect of one setter; Err when it throws. */
  function Set(r: Record, s: Setter): Result<Record> {
    match s
    case SetPeriod(ms) => if ms < 1000 then Err else Ok(r.(job := r.job.(period := Some(ms))))
    case SetDelay(ms) => if ms < 1000 then Err else Ok(r.(delay := Some(ms), delayed := false))
    case SetCron(e, parses) => if !parses then Err else Ok(r.(job := r.job.(cron := Some(e))))
    case SetRepeat(n) => Ok(r.(job := r.job.(repeat := n)))
    case SetTTL(ms) => if ms < 1000 then Err else Ok(r.(job := r.job.(ttl := ms)))
    case SetConsumeTimeout(ms) => if ms < 1000 then Err else Ok(r.(job := r.job.(consumeTimeout := ms)))
    case SetRetryThreshold(n) => Ok(r.(job := r.job.(retryThreshold := n)))
    case SetRetryDelay(ms) => if ms < 1000 then Err else Ok(r.(job := r.job.(retryDelay := ms)))
    case SetPriority(p) => if !IsPriority(p) then Err else Ok(r.(priority := Some(p)))
    case SetBody(value) => Ok(r.(body := value))
  }

  /** A whole sequence of setter calls; a call that throws changes nothing. */
  function SetAll(r: Record, calls: seq<Setter>): Record
    decreases |calls|
  {
    if calls == [] then r
    else
      var next := Set(r, calls[0]);
      SetAll(if next.Ok? then next.value else r, calls[1..])
  }

  lemma SetKeepsWellFormed(r: Record, s: Setter)
    requires WellFormed(r)
    ensures var next := Set(r, s); next.Ok? ==> WellFormed(next.value) && next.value.id == r.id
  {
    match s
    case SetPeriod(_) =>
    case SetDelay(_) =>
    case SetCron(_, _) =>
    case SetRepeat(_) =>
    case SetTTL(_) =>
    case SetConsumeTimeout(_) =>
    case SetRetryThreshold(_) =>
    case SetRetryDelay(_) =>
    case SetPriority(_) =>
    case SetBody(_) =>
  }

  /** Every message a user can build is well formed, whatever setters are called on it in whatever order
      and whatever defaults were configured before it was created. */
  lemma {:induction false} BuiltMessagesAreWellFormed(r: Record, calls: seq<Setter>)
    requires WellFormed(r)
    ensures WellFormed(SetAll(r, calls)) && SetAll(r, calls).id == r.id
    decreases |calls|
  {
    if calls != [] {
      var next := Set(r, calls[0]);
      SetKeepsWellFormed(r, calls[0]);
      BuiltMessagesAreWellFormed(if next.Ok? then next.value else r, calls[1..]);
    }
  }

  /** Configuring defaults any number of times and then building a message with any setters. */
  function Configure(d: Defaults, options: seq<Options>): Defaults
    decreases |options|
  {
    if options == [] then d
    else
      var next := SetDefaultOptions(d, options[0]);
      Configure(if next.Ok? then next.value else d, options[1..])
  }

  lemma {:induction false} ConfigureKeepsDefaultsValid(d: Defaults, options: seq<Options>)
    requires ValidDefaults(d)
    ensures ValidDefaults(Configure(d, options))
    decreases |options|
  {
    if options != [] {
      var next := SetDefaultOptions(d, options[0]);
      ConfigureKeepsDefaultsValid(if next.Ok? then next.value else d, options[1..]);
    }
  }

  /** retryDelay is 0 or at least 1000 in every message any program can build. */
  lemma EveryBuiltMessageIsWellFormed(id: Id, now: int, options: seq<Options>, calls: seq<Setter>)
    ensures WellFormed(SetAll(NewRecord(id, now, Configure(FACTORY, options)), calls))
  {
    ConfigureKeepsDefaultsValid(FACTORY, options);
    BuiltMessagesAreWellFormed(NewRecord(id, now, Configure(FACTORY, options)), calls);
  }

  /** Fills in the NORMAL priority when none is set. `default` is the caller's fallback. */
  function GetSetPriority(r: Record, default: Option<int>): (res: Result<Record>)
    ensures res.Ok? <==> IsPriority(default.GetOr(NORMAL))
    ensures res.Ok? ==> res.value.priority.Some? && res.value == r.(priority := res.value.priority)
    ensures res.Ok? && r.priority.Some? ==> res.value == r
    ensures res.Ok? && r.priority.None? ==> res.value.priority == Some(if default.Some? then default.value else 4)
    ensures res.Ok? && WellFormed(r) ==> WellFormed(res.value)
  {
    if !IsPriority(default.GetOr(NORMAL)) then Err
    else if r.priority.Some? then Ok(r)
    else Ok(r.(priority := Some(default.GetOr(NORMAL))))
  }

  /** The mutable object. `Json` is JSON.stringify. */
  class Message {
    const uuid: Id
    const createdAt: int
    var ttl: int
    var retryThreshold: int
    var retryDelay: int
    var consumeTimeout: int
    var body: Option<string>
    var priority: Option<int>
    var cron: Option<string>
    var delay: Option<int>
    var period: Option<int>
    var repeat: int
    var queue: Option<Queue>
    var publishedAt: Option<int>
    var scheduledAt: Option<int>
    var cronFired: bool
    var attempts: nat
    var repeatCount: nat
    var delayed: bool
    var expired: bool

    function Json(): Record
      reads this
    {
      Record(uuid, Job(createdAt, ttl, retryThreshold, retryDelay, consumeTimeout, cron, period, repeat),
             body, priority, delay, queue, publishedAt, scheduledAt, cronFired, attempts, repeatCount, delayed, expired)
    }

    constructor (id: Id, now: int, d: Defaults)
      ensures Json() == NewRecord(id, now, d)
    {
      uuid, createdAt := id, now;
      ttl, retryThreshold, retryDelay, consumeTimeout := d.ttl, d.retryThreshold, d.retryDelay, d.consumeTimeout;
      body, priority, cron, delay, period, repeat := Some(NULL), None, None, None, None, 0;
      queue, publishedAt, scheduledAt := None, None, None;
      cronFired, attempts, repeatCount, delayed, expired := false, 0, 0, false, false;
    }

    /** createFromMessage: parse a stored message, optionally resetting the system fields. */
    constructor CreateFrom(r: Record, reset: bool)
      ensures Json() == if reset then Cleared(Restored(r)) else Restored(r)
    {
      uuid, createdAt := r.id, r.job.createdAt;
      ttl, retryThreshold, retryDelay := r.job.ttl, r.job.retryThreshold, r.job.retryDelay;
      consumeTimeout, body := r.job.consumeTimeout, Some(BodyOf(r));
      priority, cron, delay, period, repeat := r.priority, r.job.cron, r.delay, r.job.period, r.job.repeat;
      queue, publishedAt, scheduledAt := r.queue, r.publishedAt, r.scheduledAt;
      cronFired, attempts, repeatCount, delayed, expired := r.cronFired, r.attempts, r.repeatCount, r.delayed, r.expired;
      new;
      if reset { Reset(); }
    }

    method Reset()
      modifies this`publishedAt, this`scheduledAt, this`attempts, this`expired, this`delayed, this`cronFired,
               this`repeatCount, this`queue
      ensures Json() == Cleared(old(Json()))
      ensures publishedAt == None && scheduledAt == None && queue == None
      ensures attempts == 0 && repeatCount == 0 && !expired && !delayed && !cronFired
    {
      publishedAt := None;
      scheduledAt := None;
      attempts := 0;
      expired := false;
      delayed := false;
      cronFired := false;
      repeatCount := 0;
      queue := None;
      assert unchanged(this`body, this`priority, this`delay, this`ttl, this`retryThreshold, this`retryDelay,
                       this`consumeTimeout, this`cron, this`period, this`repeat);
    }

    method IncrAttempts()
      modifies this`attempts
      ensures Json() == old(Json()).(attempts := old(Json()).attempts + 1)
    {
      attempts := attempts + 1;
    }

    /** Remembers in the object that the message has expired. */
    method CheckExpired(now: int) returns (b: bool)
      modifies this`expired
      ensures b == HasExpired(old(Json()), now) && Json() == old(Json()).(expired := b)
    {
      if !expired {
        if ttl != 0 { expired := createdAt + ttl - now <= 0; }
      }
      return expired;
    }

    method FillPriority(default: Option<int>) returns (thrown: bool)
      modifies this`priority
      ensures var r := GetSetPriority(old(Json()), default);
        thrown == r.Err? && Json() == if r.Ok? then r.value else old(Json())
    {
      if !IsPriority(default.GetOr(NORMAL)) { return true; }
      if priority.None? { priority := Some(default.GetOr(NORMAL)); }
      return false;
    }

    method SetScheduledPeriod(ms: int) returns (thrown: bool)
      modifies this`period
      ensures var r := Set(old(Json()), Setter.SetPeriod(ms));
        thrown == r.Err? && Json() == if r.Ok? then r.value else old(Json())
      ensures (thrown <==> ms < 1000) && (!thrown ==> period == Some(ms))
    {
      if ms < 1000 { return true; }
      period := Some(ms);
      return false;
    }

    method SetScheduledDelay(ms: int) returns (thrown: bool)
      modifies this`delay, this`delayed
      ensures var r := Set(old(Json()), Setter.SetDelay(ms));
        thrown == r.Err? && Json() == if r.Ok? then r.value else old(Json())
      ensures (thrown <==> ms < 1000) && (!thrown ==> delay == Some(ms) && !delayed)
    {
      if ms < 1000 { return true; }
      delay := Some(ms);
      delayed := false;
      return false;
    }

    /** `parses`: cron-parser accepts the expression. */
    method SetScheduledCron(expression: string, parses: bool) returns (thrown: bool)
      modifies this`cron
      ensures var r := Set(old(Json()), Setter.SetCron(expression, parses));
        thrown == r.Err? && Json() == if r.Ok? then r.value else old(Json())
      ensures (thrown <==> !parses) && (!thrown ==> cron == Some(expression))
    {
      if !parses { return true; }
      cron := Some(expression);
      return false;
    }

    method SetScheduledRepeat(n: int) returns (thrown: bool)
      modifies this`repeat
      ensures var r := Set(old(Json()), Setter.SetRepeat(n));
        thrown == r.Err? && Json() == if r.Ok? then r.value else old(Json())
      ensures !thrown && (!thrown ==> repeat == n)
    {
      repeat := n;
      return false;
    }

    method SetTTL(ms: int) returns (thrown: bool)
      modifies this`ttl
      ensures var r := Set(old(Json()), Setter.SetTTL(ms));
        thrown == r.Err? && Json() == if r.Ok? then r.value else old(Json())
      ensures (thrown <==> ms < 1000) && (!thrown ==> ttl == ms)
    {
      if ms < 1000 { return true; }
      ttl := ms;
      return false;
    }

    method SetConsumeTimeout(ms: int) returns (thrown: bool)
      modifies this`consumeTimeout
      ensures var r := Set(old(Json()), Setter.SetConsumeTimeout(ms));
        thrown == r.Err? && Json() == if r.Ok? then r.value else old(Json())
      ensures (thrown <==> ms < 1000) && (!thrown ==> consumeTimeout == ms)
    {
      if ms < 1000 { return true; }
      consumeTimeout := ms;
      return false;
    }

    method SetRetryThreshold(n: int) returns (thrown: bool)
      modifies this`retryThreshold
      ensures var r := Set(old(Json()), Setter.SetRetryThreshold(n));
        thrown == r.Err? && Json() == if r.Ok? then r.value else old(Json())
      ensures !thrown && (!thrown ==> retryThreshold == n)
    {
      retryThreshold := n;
      return false;
    }

    method SetRetryDelay(ms: int) returns (thrown: bool)
      modifies this`retryDelay
      ensures var r := Set(old(Json()), Setter.SetRetryDelay(ms));
        thrown == r.Err? && Json() == if r.Ok? then r.value else old(Json())
      ensures (thrown <==> ms < 1000) && (!thrown ==> retryDelay == ms)
    {
      if ms < 1000 { return true; }
      retryDelay := ms;
      return false;
    }

    method SetBody(value: Option<string>)
      modifies this`body
      ensures body == value && Json() == Set(old(Json()), Setter.SetBody(value)).value
    {
      body := value;
    }

    method SetPriority(p: int) returns (thrown: bool)
      modifies this`priority
      ensures var r := Set(old(Json()), Setter.SetPriority(p));
        thrown == r.Err? && Json() == if r.Ok? then r.value else old(Json())
      ensures (thrown <==> !(0 <= p <= 7)) && (!thrown ==> priority == Some(p))
    {
      if !IsPriority(p) { return true; }
      priority := Some(p);
      return false;
    }
  }
}
