/**
 * The printer and parser of Redis keys (src/system/common/redis-keys/redis-keys.ts).
 */
module RedisKeys {
  import opened Wrappers

  const PREFIX := "redis-smq"
  const GLOBAL := "global"

  // ERedisKey
  const KEY_QUEUE: nat := 58
  const KEY_QUEUE_DL: nat := 59
  const KEY_QUEUE_PRIORITY: nat := 63
  const KEY_QUEUE_PROCESSING: nat := 64
  const KEY_QUEUE_ACKNOWLEDGED_MESSAGES: nat := 65
  const KEY_RATE_PRODUCER_INPUT: nat := 74
  const KEY_RATE_CONSUMER_PROCESSING: nat := 75
  const KEY_RATE_CONSUMER_ACKNOWLEDGED: nat := 76
  const KEY_RATE_CONSUMER_UNACKNOWLEDGED: nat := 77
  const KEY_HEARTBEAT: nat := 85

  // ---------------------------------------------------------------- split and join

  predicate Clean(s: string) { '|' !in s }

  /** segments.join('|'). */
  function Join(parts: seq<string>): string {
    if parts == [] then "" else if |parts| == 1 then parts[0] else parts[0] + "|" + Join(parts[1..])
  }

  /** key.split('|'). */
  function Split(s: string): (parts: seq<string>)
    ensures parts != []
  {
    if s == "" then [""]
    else
      var rest := Split(s[1..]);
      if s[0] == '|' then [""] + rest else [[s[0]] + rest[0]] + rest[1..]
  }

  lemma {:induction false} SplitClean(s: string)
    requires Clean(s)
    ensures Split(s) == [s]
  {
    if s != "" {
      SplitClean(s[1..]);
      assert [s[0]] + s[1..] == s;
    }
  }

  lemma {:induction false} SplitHead(a: string, b: string)
    requires Clean(a)
    ensures Split(a + "|" + b) == [a] + Split(b)
  {
    var t := a + "|" + b;
    if a == "" {
      assert t[1..] == b;
    } else {
      assert t[1..] == a[1..] + "|" + b;
      SplitHead(a[1..], b);
      assert t[0] == a[0] && [a[0]] + a[1..] == a;
      assert Split(t) == [[a[0]] + a[1..]] + Split(b);
    }
  }

  /** Splitting undoes joining, for segments free of the separator. */
  lemma {:induction false} SplitJoin(parts: seq<string>)
    requires parts != [] && forall p :: p in parts ==> Clean(p)
    ensures Split(Join(parts)) == parts
    decreases |parts|
  {
    if |parts| == 1 {
      SplitClean(parts[0]);
    } else {
      assert Join(parts) == parts[0] + "|" + Join(parts[1..]);
      SplitHead(parts[0], Join(parts[1..]));
      SplitJoin(parts[1..]);
    }
  }

  /** A joined group used as the last segment of another join: keys are built in two stages. */
  lemma JoinNested(a: string, b: string, rest: seq<string>)
    requires rest != []
    ensures Join([a, b, Join(rest)]) == Join([a, b] + rest)
  {
    assert Join([a, b, Join(rest)]) == a + "|" + Join([b, Join(rest)]) by {
      assert [a, b, Join(rest)][1..] == [b, Join(rest)];
    }
    assert Join([b, Join(rest)]) == b + "|" + Join(rest) by {
      assert [b, Join(rest)][1..] == [Join(rest)];
    }
    assert Join([a, b] + rest) == a + "|" + Join([b] + rest) by {
      assert ([a, b] + rest)[1..] == [b] + rest;
    }
    assert Join([b] + rest) == b + "|" + Join(rest) by {
      assert ([b] + rest)[1..] == rest;
    }
  }

  // ---------------------------------------------------------------- numbers

  function Digit(d: nat): char
    requires d < 10
  {
    "0123456789"[d]
  }

  predicate IsDigit(c: char) { '0' <= c <= '9' }

  function Decimal(n: nat): string {
    if n < 10 then [Digit(n)] else Decimal(n / 10) + [Digit(n % 10)]
  }

  /** Number(text) for texts of decimal digits; anything else is not the number of a key kind. */
  function Number(s: string): Option<nat> {
    if s == "" then None
    else
      var c := s[|s| - 1];
      var front := s[..|s| - 1];
      if !IsDigit(c) then None
      else if front == "" then Some((c - '0') as nat)
      else match Number(front) case None => None case Some(n) => Some(10 * n + (c - '0') as nat)
  }

  lemma {:induction false} NumberDecimal(n: nat)
    ensures Decimal(n) != "" && Clean(Decimal(n)) && Number(Decimal(n)) == Some(n)
  {
    if n >= 10 {
      NumberDecimal(n / 10);
      assert Decimal(n)[..|Decimal(n)| - 1] == Decimal(n / 10);
    }
  }

  // ---------------------------------------------------------------- keys

  /** A key of the system: global, of a queue, or of a consumer or producer of a queue. */
  datatype KeyName =
    | GlobalKey(kind: nat)
    | QueueKey(kind: nat, ns: string, queue: string)
    | InstanceKey(kind: nat, ns: string, queue: string, instance: string)

  predicate CleanName(k: KeyName) {
    match k
    case GlobalKey(_) => true
    case QueueKey(_, ns, queue) => Clean(ns) && Clean(queue)
    case InstanceKey(_, ns, queue, instance) => Clean(ns) && Clean(queue) && Clean(instance)
  }

  function Namespace(k: KeyName): string { if k.GlobalKey? then GLOBAL else k.ns }

  /** What getKeys and getInstanceKeys put after the namespace. */
  function Segments(k: KeyName): seq<string> {
    match k
    case GlobalKey(kind) => [Decimal(kind)]
    case QueueKey(kind, _, queue) => [Decimal(kind), queue]
    case InstanceKey(kind, _, queue, instance) => [Decimal(kind), queue, instance]
  }

  /** makeNamespacedKeys on joined segments. */
  function Print(k: KeyName): string { Join([PREFIX, Namespace(k), Join(Segments(k))]) }

  datatype Extracted = Extracted(ns: string, kind: nat, queue: string, consumer: Option<string>, producer: Option<string>)

  predicate IsQueueKind(t: nat) {
    t == KEY_QUEUE || t == KEY_QUEUE_PRIORITY || t == KEY_QUEUE_ACKNOWLEDGED_MESSAGES || t == KEY_QUEUE_DL
  }

  predicate IsConsumerKind(t: nat) {
    || t == KEY_QUEUE_PROCESSING || t == KEY_RATE_CONSUMER_PROCESSING || t == KEY_RATE_CONSUMER_ACKNOWLEDGED
    || t == KEY_RATE_CONSUMER_UNACKNOWLEDGED || t == KEY_HEARTBEAT
  }

  function Part(parts: seq<string>, i: nat): string { if i < |parts| then parts[i] else "" }

  /** extractData; None for the kinds it does not handle. */
  function ExtractData(key: string): Option<Extracted> {
    var parts := Split(key);
    match Number(Part(parts, 2))
    case None => None
    case Some(t) =>
      if IsQueueKind(t) then Some(Extracted(Part(parts, 1), t, Part(parts, 3), None, None))
      else if IsConsumerKind(t) then
        Some(Extracted(Part(parts, 1), t, Part(parts, 3), Some(Part(parts, 4)), None))
      else if t == KEY_RATE_PRODUCER_INPUT then
        Some(Extracted(Part(parts, 1), t, Part(parts, 3), None, Some(Part(parts, 4))))
      else None
  }

  lemma PrintedParts(k: KeyName)
    requires CleanName(k)
    ensures Split(Print(k)) == [PREFIX, Namespace(k)] + Segments(k)
  {
    var kind := k.kind;
    NumberDecimal(kind);
    JoinNested(PREFIX, Namespace(k), Segments(k));
    var parts := [PREFIX, Namespace(k)] + Segments(k);
    forall p | p in parts ensures Clean(p) {
      assert p == PREFIX || p == Namespace(k) || p in Segments(k);
    }
    SplitJoin(parts);
  }

  /** The segments of a printed key. */
  lemma PrintedExactly(k: KeyName)
    requires CleanName(k)
    ensures Split(Print(k)) ==
      match k
      case GlobalKey(kind) => ["redis-smq", "global", Decimal(kind)]
      case QueueKey(kind, ns, queue) => ["redis-smq", ns, Decimal(kind), queue]
      case InstanceKey(kind, ns, queue, instance) => ["redis-smq", ns, Decimal(kind), queue, instance]
  {
    PrintedParts(k);
  }

  /** Parsing undoes printing for every kind that extractData handles, given by its number: keys of a queue (pending,
      dead-letter, priority, acknowledged), of a consumer (processing list, the three rates, heartbeat) and of a producer
      (input rate). Every other kind gives nothing. */
  lemma ExtractPrinted(k: KeyName)
    requires CleanName(k)
    ensures !k.GlobalKey? && k.kind in {58, 59, 63, 65} ==>
      ExtractData(Print(k)) == Some(Extracted(k.ns, k.kind, k.queue, None, None))
    ensures k.InstanceKey? && k.kind in {64, 75, 76, 77, 85} ==>
      ExtractData(Print(k)) == Some(Extracted(k.ns, k.kind, k.queue, Some(k.instance), None))
    ensures k.InstanceKey? && k.kind == 74 ==>
      ExtractData(Print(k)) == Some(Extracted(k.ns, k.kind, k.queue, None, Some(k.instance)))
    ensures k.kind !in {58, 59, 63, 65, 64, 75, 76, 77, 85, 74} ==> ExtractData(Print(k)) == None
  {
    PrintedParts(k);
    NumberDecimal(k.kind);
  }

  /** Different keys are different strings, global keys included, even if a namespace is called "global". */
  lemma PrintInjective(a: KeyName, b: KeyName)
    requires CleanName(a) && CleanName(b) && Print(a) == Print(b)
    ensures a == b
  {
    PrintedParts(a);
    PrintedParts(b);
    NumberDecimal(a.kind);
    NumberDecimal(b.kind);
    var parts := Split(Print(a));
    assert |Segments(a)| == |parts| - 2 == |Segments(b)|;
    assert parts[1] == Namespace(a) == Namespace(b);
    assert forall i :: 0 <= i < |Segments(a)| ==> parts[2..][i] == Segments(a)[i];
    assert parts[2..] == Segments(a) == Segments(b);
    assert Segments(a)[0] == Segments(b)[0];
    if |Segments(a)| >= 2 { assert Segments(a)[1] == Segments(b)[1]; }
    if |Segments(a)| == 3 { assert Segments(a)[2] == Segments(b)[2]; }
  }

  // ---------------------------------------------------------------- valid names

  /** toLowerCase of one character. Outside A-Z two characters matter, because their lower case has an ASCII
      letter: the Kelvin sign, and the capital I with dot, which becomes an i and a combining dot. */
  function Lower(c: char): string {
    if 'A' <= c <= 'Z' then [c + ('a' - 'A')]
    else if c == '\U{212A}' then "k"
    else if c == '\U{130}' then "i\U{307}"
    else [c]
  }

  function LowerAll(s: string): string {
    if s == "" then "" else Lower(s[0]) + LowerAll(s[1..])
  }

  predicate Allowed(c: char) { 'a' <= c <= 'z' || '0' <= c <= '9' || c == '_' || c == '-' }

  /** replace(/[^a-z0-9_-]/g, ''). */
  function Filter(s: string): (r: string)
    ensures |r| <= |s|
  {
    if s == "" then "" else (if Allowed(s[0]) then [s[0]] else "") + Filter(s[1..])
  }

  function ValidateRedisKey(key: string): Result<string> {
    if key == "" then Err
    else
      var filtered := Filter(LowerAll(key));
      if |filtered| != |key| then Err else Ok(filtered)
  }

  /** The characters a name may have. */
  predicate Nameable(c: char) { Allowed(c) || 'A' <= c <= 'Z' || c == '\U{212A}' || c == '\U{130}' }

  /** The letter, digit or sign that stands for c in the accepted form. */
  function Fold(c: char): char {
    if 'A' <= c <= 'Z' then c + ('a' - 'A') else if c == '\U{212A}' then 'k' else if c == '\U{130}' then 'i' else c
  }

  function FoldAll(s: string): string { seq(|s|, i requires 0 <= i < |s| => Fold(s[i])) }

  lemma {:induction false} FilterConcat(a: string, b: string)
    ensures Filter(a + b) == Filter(a) + Filter(b)
  {
    if a == "" {
      assert a + b == b;
    } else {
      var head := if Allowed(a[0]) then [a[0]] else "";
      assert (a + b)[1..] == a[1..] + b;
      FilterConcat(a[1..], b);
      assert Filter(a + b) == head + (Filter(a[1..]) + Filter(b)) == (head + Filter(a[1..])) + Filter(b);
    }
  }

  lemma FilterLower(c: char)
    ensures Filter(Lower(c)) == if Nameable(c) then [Fold(c)] else ""
  {
    var low := Lower(c);
    if c == '\U{130}' {
      assert low[1..] == "\U{307}" && low[1..][1..] == "";
    } else {
      assert low[1..] == "";
    }
  }

  lemma {:induction false} FilterLowerAll(s: string)
    ensures |Filter(LowerAll(s))| <= |s|
    ensures |Filter(LowerAll(s))| == |s| <==> forall c :: c in s ==> Nameable(c)
    ensures |Filter(LowerAll(s))| == |s| ==> Filter(LowerAll(s)) == FoldAll(s)
  {
    if s != "" {
      FilterLowerAll(s[1..]);
      FilterConcat(Lower(s[0]), LowerAll(s[1..]));
      FilterLower(s[0]);
      var rest := Filter(LowerAll(s[1..]));
      assert Filter(LowerAll(s)) == (if Nameable(s[0]) then [Fold(s[0])] else "") + rest;
      assert forall c :: c in s <==> c == s[0] || c in s[1..];
      if |Filter(LowerAll(s))| == |s| {
        assert FoldAll(s) == [Fold(s[0])] + FoldAll(s[1..]);
      }
    }
  }

  /** A name is accepted exactly when it is not empty and has only nameable characters; the accepted form has the
      lower-case letter of each, contains no separator and is accepted again unchanged. */
  lemma ValidNames(key: string)
    ensures ValidateRedisKey(key).Ok? <==> key != "" && forall c :: c in key ==> Nameable(c)
    ensures ValidateRedisKey(key).Ok? ==>
      var name := ValidateRedisKey(key).value;
      name == FoldAll(key) && Clean(name) && ValidateRedisKey(name) == Ok(name)
  {
    FilterLowerAll(key);
    if ValidateRedisKey(key).Ok? {
      var name := FoldAll(key);
      forall i | 0 <= i < |name| ensures Allowed(name[i]) && Fold(name[i]) == name[i] {
        assert key[i] in key;
      }
      FilterLowerAll(name);
      assert FoldAll(name) == name;
    }
  }

  /** The module's namespace variable. */
  class NamespaceSetting {
    var namespace: string

    constructor ()
      ensures namespace == "default"
    {
      namespace := "default";
    }

    /** Refuses names that are not valid and the reserved one, in whatever case it is written. */
    method SetNamespace(ns: string) returns (thrown: bool)
      modifies this
      ensures thrown <==> ns == "" || (exists c :: c in ns && !Nameable(c)) || FoldAll(ns) == "global"
      ensures namespace == if thrown then old(namespace) else FoldAll(ns)
      ensures !thrown ==> Clean(namespace) && namespace != "global"
    {
      ValidNames(ns);
      var valid := ValidateRedisKey(ns);
      if valid.Err? { return true; }
      if valid.value == GLOBAL { return true; }
      namespace := valid.value;
      return false;
    }
  }
}
