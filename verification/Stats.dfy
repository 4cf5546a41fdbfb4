/** Aggregation of rates and queue sizes (src/monitor-server/workers/stats.worker.ts). */
module Stats {
  import opened Wrappers
  import opened RedisKeys
  import opened Sums

  // ---------------------------------------------------------------- rates

  /** A producer or consumer of a queue of a namespace. */
  datatype Cell = Cell(ns: string, queue: string, id: string)

  datatype Rates = Rates(processing: int, acknowledged: int, unacknowledged: int)

  datatype Data = Data(
    input: int, processing: int, acknowledged: int, unacknowledged: int,
    producers: map<Cell, int>, consumers: map<Cell, Rates>)

  const RESET := Data(0, 0, 0, 0, map[], map[])

  function HandleProducerRate(d: Data, x: Extracted, id: string, rate: int): Data {
    d.(input := d.input + rate, producers := d.producers[Cell(x.ns, x.queue, id) := rate])
  }

  function HandleConsumerRate(d: Data, x: Extracted, id: string, rate: int): Data {
    var c := Cell(x.ns, x.queue, id);
    var old_ := if c in d.consumers then d.consumers[c] else Rates(0, 0, 0);
    if x.kind == KEY_RATE_CONSUMER_PROCESSING then
      d.(processing := d.processing + rate, consumers := d.consumers[c := old_.(processing := rate)])
    else if x.kind == KEY_RATE_CONSUMER_ACKNOWLEDGED then
      d.(acknowledged := d.acknowledged + rate, consumers := d.consumers[c := old_.(acknowledged := rate)])
    else if x.kind == KEY_RATE_CONSUMER_UNACKNOWLEDGED then
      d.(unacknowledged := d.unacknowledged + rate, consumers := d.consumers[c := old_.(unacknowledged := rate)])
    else
      d.(consumers := d.consumers[c := old_])
  }

  /** One field of the rates hash: its key, the rate and the time it was written. */
  datatype Sample = Sample(key: string, rate: int, timestamp: int)

  predicate HasExpired(timestamp: int, now: int) { now - timestamp > 1000 }

  /** One iteration of getRates; an empty id counts as no id. */
  function HandleSample(d: Data, s: Sample, now: int): Data {
    if HasExpired(s.timestamp, now) then d
    else
      match ExtractData(s.key)
      case None => d
      case Some(x) =>
        var d1 := if x.producer.GetOr("") != "" then HandleProducerRate(d, x, x.producer.value, s.rate) else d;
        if x.consumer.GetOr("") != "" then HandleConsumerRate(d1, x, x.consumer.value, s.rate) else d1
  }

  /** The data after the first n samples. */
  function HandleFirst(d: Data, samples: seq<Sample>, now: int, n: nat): Data
    requires n <= |samples|
  {
    if n == 0 then d else HandleSample(HandleFirst(d, samples, now, n - 1), samples[n - 1], now)
  }

  function HandleAll(d: Data, samples: seq<Sample>, now: int): Data { HandleFirst(d, samples, now, |samples|) }

  /** The expired keys among the first n samples. */
  function ExpiredKeys(samples: seq<Sample>, now: int, n: nat): (keys: seq<string>)
    requires n <= |samples|
    ensures forall k :: k in keys <==> exists i :: 0 <= i < n && samples[i].key == k && now - samples[i].timestamp > 1000
  {
    if n == 0 then []
    else ExpiredKeys(samples, now, n - 1)
         + if HasExpired(samples[n - 1].timestamp, now) then [samples[n - 1].key] else []
  }

  /** Every global rate is the sum over all producers or consumers of all queues. */
  ghost predicate Balanced(d: Data) {
    && d.input == SumBy(d.producers, (v: int) => v)
    && d.processing == SumBy(d.consumers, (r: Rates) => r.processing)
    && d.acknowledged == SumBy(d.consumers, (r: Rates) => r.acknowledged)
    && d.unacknowledged == SumBy(d.consumers, (r: Rates) => r.unacknowledged)
  }

  /** The sample's key is one the producers and consumers write. */
  ghost predicate Written(s: Sample, name: KeyName) {
    name.InstanceKey? && CleanName(name) && s.key == Print(name)
  }

  /** The cell a sample writes to is still untouched. */
  predicate Untouched(d: Data, name: KeyName) {
    name.InstanceKey? ==>
      var c := Cell(name.ns, name.queue, name.instance);
      && (name.kind == KEY_RATE_PRODUCER_INPUT ==> c !in d.producers)
      && (c in d.consumers ==>
          && (name.kind == KEY_RATE_CONSUMER_PROCESSING ==> d.consumers[c].processing == 0)
          && (name.kind == KEY_RATE_CONSUMER_ACKNOWLEDGED ==> d.consumers[c].acknowledged == 0)
          && (name.kind == KEY_RATE_CONSUMER_UNACKNOWLEDGED ==> d.consumers[c].unacknowledged == 0))
  }

  lemma ProducerKeepsBalance(d: Data, x: Extracted, id: string, rate: int)
    requires Balanced(d) && Cell(x.ns, x.queue, id) !in d.producers
    ensures Balanced(HandleProducerRate(d, x, id, rate))
  {
    SumByUpdate(d.producers, (v: int) => v, Cell(x.ns, x.queue, id), rate);
  }

  lemma ConsumerKeepsBalance(d: Data, x: Extracted, id: string, rate: int)
    requires Balanced(d) && Untouched(d, InstanceKey(x.kind, x.ns, x.queue, id))
    ensures Balanced(HandleConsumerRate(d, x, id, rate))
  {
    var c := Cell(x.ns, x.queue, id);
    var v := HandleConsumerRate(d, x, id, rate).consumers[c];
    SumByUpdate(d.consumers, (r: Rates) => r.processing, c, v);
    SumByUpdate(d.consumers, (r: Rates) => r.acknowledged, c, v);
    SumByUpdate(d.consumers, (r: Rates) => r.unacknowledged, c, v);
  }

  lemma SampleKeepsBalance(d: Data, s: Sample, name: KeyName, now: int)
    requires Balanced(d) && Written(s, name) && Untouched(d, name)
    ensures Balanced(HandleSample(d, s, now))
  {
    if !HasExpired(s.timestamp, now) {
      PrintedParts(name);
      NumberDecimal(name.kind);
      ExtractPrinted(name);
      var x := ExtractData(s.key);
      if x.Some? {
        assert x.value.ns == name.ns && x.value.kind == name.kind && x.value.queue == name.queue;
        if x.value.producer.GetOr("") != "" {
          ProducerKeepsBalance(d, x.value, x.value.producer.value, s.rate);
        }
        if x.value.consumer.GetOr("") != "" {
          ConsumerKeepsBalance(d, x.value, x.value.consumer.value, s.rate);
        }
      }
    }
  }

  /** A sample touches no other cell. */
  lemma SampleTouchesOnlyItsCell(d: Data, s: Sample, name: KeyName, other: KeyName, now: int)
    requires Written(s, name) && other.InstanceKey? && other != name && Untouched(d, other)
    ensures Untouched(HandleSample(d, s, now), other)
  {
    PrintedParts(name);
    NumberDecimal(name.kind);
    ExtractPrinted(name);
  }

  lemma {:induction false} FirstKeepBalance(samples: seq<Sample>, names: seq<KeyName>, now: int, n: nat)
    requires n <= |samples| == |names|
    requires forall i :: 0 <= i < |names| ==> Written(samples[i], names[i])
    requires forall i, j :: 0 <= i < j < |names| ==> names[i] != names[j]
    ensures Balanced(HandleFirst(RESET, samples, now, n))
    ensures forall i :: n <= i < |names| ==> Untouched(HandleFirst(RESET, samples, now, n), names[i])
    decreases n
  {
    if n > 0 {
      FirstKeepBalance(samples, names, now, n - 1);
      var d := HandleFirst(RESET, samples, now, n - 1);
      SampleKeepsBalance(d, samples[n - 1], names[n - 1], now);
      forall i | n <= i < |names| ensures Untouched(HandleSample(d, samples[n - 1], now), names[i]) {
        SampleTouchesOnlyItsCell(d, samples[n - 1], names[n - 1], names[i], now);
      }
    }
  }

  /** For any rates hash whose keys are distinct and written by producers and consumers, expired ones included, the
      aggregated global rates are the sums of the live samples and the sums of their parts. */
  lemma AggregatedRatesAreSums(samples: seq<Sample>, names: seq<KeyName>, now: int)
    requires |samples| == |names|
    requires forall i :: 0 <= i < |names| ==> names[i].InstanceKey? && Written(samples[i], names[i])
    requires forall i, j :: 0 <= i < j < |samples| ==> samples[i].key != samples[j].key
    ensures Balanced(HandleAll(RESET, samples, now))
    ensures TotalsExact(HandleAll(RESET, samples, now), samples, names, now, |samples|)
  {
    RatesAreTheSamples(samples, names, now, Cell("", "", ""), |samples|);
    forall i, j | 0 <= i < j < |names| ensures names[i] != names[j] {
      assert samples[i].key != samples[j].key;
    }
    FirstKeepBalance(samples, names, now, |samples|);
  }

  // ---------------------------------------------------------------- rates against the samples

  /** The sample is at most a second old and names a producer or consumer. */
  predicate Live(s: Sample, name: KeyName, now: int)
    requires name.InstanceKey?
  {
    now - s.timestamp <= 1000 && name.instance != ""
  }

  function CellOf(name: KeyName): Cell
    requires name.InstanceKey?
  {
    Cell(name.ns, name.queue, name.instance)
  }

  /** What one sample does, by the number of its kind. */
  lemma SampleExactly(d: Data, s: Sample, name: KeyName, now: int)
    requires Written(s, name)
    ensures var c, d' := CellOf(name), HandleSample(d, s, now);
      var live, kind := Live(s, name, now), name.kind;
      && d'.input == d.input + (if live && kind == 74 then s.rate else 0)
      && d'.processing == d.processing + (if live && kind == 75 then s.rate else 0)
      && d'.acknowledged == d.acknowledged + (if live && kind == 76 then s.rate else 0)
      && d'.unacknowledged == d.unacknowledged + (if live && kind == 77 then s.rate else 0)
      && d'.producers == (if live && kind == 74 then d.producers[c := s.rate] else d.producers)
      && (!(live && kind in {64, 75, 76, 77, 85}) ==> d'.consumers == d.consumers)
      && (live && kind in {64, 75, 76, 77, 85} ==>
            var r := if c in d.consumers then d.consumers[c] else Rates(0, 0, 0);
            d'.consumers == d.consumers[c := Rates(
              if kind == 75 then s.rate else r.processing,
              if kind == 76 then s.rate else r.acknowledged,
              if kind == 77 then s.rate else r.unacknowledged)])
  {
    ExtractPrinted(name);
  }

  /** The sum of the rates of all live samples of one kind, among the first n. */
  function RateSum(samples: seq<Sample>, names: seq<KeyName>, now: int, kind: nat, n: nat): int
    requires n <= |samples| == |names| && forall i :: 0 <= i < |names| ==> names[i].InstanceKey?
  {
    if n == 0 then 0
    else RateSum(samples, names, now, kind, n - 1)
         + if Live(samples[n - 1], names[n - 1], now) && names[n - 1].kind == kind then samples[n - 1].rate else 0
  }

  /** Sample i is a live one of this cell and kind. */
  predicate Feeds(samples: seq<Sample>, names: seq<KeyName>, now: int, c: Cell, kind: nat, i: nat)
    requires i < |samples| == |names|
  {
    names[i].InstanceKey? && Live(samples[i], names[i], now) && CellOf(names[i]) == c && names[i].kind == kind
  }

  /** The rate that the live sample of this cell and kind has, 0 without one; the keys are distinct, so that there is
      one at most. */
  function RateOf(samples: seq<Sample>, names: seq<KeyName>, now: int, c: Cell, kind: nat, n: nat): int
    requires n <= |samples| == |names|
  {
    if n == 0 then 0
    else if Feeds(samples, names, now, c, kind, n - 1) then samples[n - 1].rate
    else RateOf(samples, names, now, c, kind, n - 1)
  }

  ghost predicate Fed(samples: seq<Sample>, names: seq<KeyName>, now: int, c: Cell, kinds: set<nat>, n: nat)
    requires n <= |samples| == |names|
  {
    exists i: nat :: i < n && names[i].kind in kinds && Feeds(samples, names, now, c, names[i].kind, i)
  }

  ghost predicate TotalsExact(d: Data, samples: seq<Sample>, names: seq<KeyName>, now: int, n: nat)
    requires n <= |samples| == |names| && forall i :: 0 <= i < |names| ==> names[i].InstanceKey?
  {
    && d.input == RateSum(samples, names, now, 74, n)
    && d.processing == RateSum(samples, names, now, 75, n)
    && d.acknowledged == RateSum(samples, names, now, 76, n)
    && d.unacknowledged == RateSum(samples, names, now, 77, n)
  }

  ghost predicate CellExact(d: Data, samples: seq<Sample>, names: seq<KeyName>, now: int, c: Cell, n: nat)
    requires n <= |samples| == |names|
  {
    && (c in d.producers <==> Fed(samples, names, now, c, {74}, n))
    && (c in d.producers ==> d.producers[c] == RateOf(samples, names, now, c, 74, n))
    && (c in d.consumers <==> Fed(samples, names, now, c, {64, 75, 76, 77, 85}, n))
    && (c in d.consumers ==> d.consumers[c] == Rates(
          RateOf(samples, names, now, c, 75, n), RateOf(samples, names, now, c, 76, n),
          RateOf(samples, names, now, c, 77, n)))
    && (c !in d.consumers ==>
          RateOf(samples, names, now, c, 75, n) == RateOf(samples, names, now, c, 76, n)
          == RateOf(samples, names, now, c, 77, n) == 0)
  }

  lemma FedStep(samples: seq<Sample>, names: seq<KeyName>, now: int, c: Cell, kinds: set<nat>, n: nat)
    requires 0 < n <= |samples| == |names|
    ensures Fed(samples, names, now, c, kinds, n) <==>
      Fed(samples, names, now, c, kinds, n - 1)
      || (names[n - 1].kind in kinds && Feeds(samples, names, now, c, names[n - 1].kind, n - 1))
  {
  }

  lemma CellStep(d: Data, samples: seq<Sample>, names: seq<KeyName>, now: int, c: Cell, n: nat)
    requires 0 < n <= |samples| == |names| && Written(samples[n - 1], names[n - 1])
    requires CellExact(d, samples, names, now, c, n - 1)
    ensures CellExact(HandleSample(d, samples[n - 1], now), samples, names, now, c, n)
  {
    SampleExactly(d, samples[n - 1], names[n - 1], now);
    FedStep(samples, names, now, c, {74}, n);
    FedStep(samples, names, now, c, {64, 75, 76, 77, 85}, n);
  }

  lemma TotalsStep(d: Data, samples: seq<Sample>, names: seq<KeyName>, now: int, n: nat)
    requires 0 < n <= |samples| == |names| && (forall i :: 0 <= i < |names| ==> names[i].InstanceKey?)
    requires Written(samples[n - 1], names[n - 1]) && TotalsExact(d, samples, names, now, n - 1)
    ensures TotalsExact(HandleSample(d, samples[n - 1], now), samples, names, now, n)
  {
    SampleExactly(d, samples[n - 1], names[n - 1], now);
  }

  /** After any samples, each global rate is the sum of the live samples of its kind; a producer or consumer is listed if
      and only if a live sample names it, with the rates of its samples. */
  lemma {:induction false} RatesAreTheSamples(samples: seq<Sample>, names: seq<KeyName>, now: int, c: Cell, n: nat)
    requires n <= |samples| == |names|
    requires forall i :: 0 <= i < |names| ==> names[i].InstanceKey? && Written(samples[i], names[i])
    ensures TotalsExact(HandleFirst(RESET, samples, now, n), samples, names, now, n)
    ensures CellExact(HandleFirst(RESET, samples, now, n), samples, names, now, c, n)
    decreases n
  {
    if n > 0 {
      RatesAreTheSamples(samples, names, now, c, n - 1);
      var d := HandleFirst(RESET, samples, now, n - 1);
      TotalsStep(d, samples, names, now, n);
      CellStep(d, samples, names, now, c, n);
    }
  }

  /** With distinct keys, each cell has the rate of the one live sample of its kind. */
  lemma {:induction false} OneSampleOneRate(samples: seq<Sample>, names: seq<KeyName>, now: int, i: nat, n: nat)
    requires i < n <= |samples| == |names|
    requires forall j :: 0 <= j < |names| ==> names[j].InstanceKey?
    requires forall j, k :: 0 <= j < k < |names| ==> names[j] != names[k]
    requires Live(samples[i], names[i], now)
    ensures RateOf(samples, names, now, CellOf(names[i]), names[i].kind, n) == samples[i].rate
    decreases n
  {
    if n - 1 != i {
      assert names[n - 1] != names[i];
      OneSampleOneRate(samples, names, now, i, n - 1);
    }
  }

  // ---------------------------------------------------------------- queue sizes

  datatype QueueId = QueueId(ns: string, name: string)

  datatype Sizes = Sizes(pending: nat, withPriority: nat, deadLettered: nat, acknowledged: nat)

  /** One reply of the MULTI, stored under the queue and field its key names. */
  function StoreSize(m: map<QueueId, Sizes>, key: string, size: nat): map<QueueId, Sizes> {
    match ExtractData(key)
    case None => m
    case Some(x) =>
      var q := QueueId(x.ns, x.queue);
      var s := if q in m then m[q] else Sizes(0, 0, 0, 0);
      m[q := if x.kind == KEY_QUEUE_DL then s.(deadLettered := size)
             else if x.kind == KEY_QUEUE then s.(pending := size)
             else if x.kind == KEY_QUEUE_PRIORITY then s.(withPriority := size)
             else s.(acknowledged := size)]
  }

  function StoreSizes(m: map<QueueId, Sizes>, keys: seq<string>, res: seq<nat>): map<QueueId, Sizes>
    requires |keys| == |res|
    decreases |keys|
  {
    if keys == [] then m else StoreSizes(StoreSize(m, keys[0], res[0]), keys[1..], res[1..])
  }

  function KeyOf(q: QueueId, kind: nat): string { Print(QueueKey(kind, q.ns, q.name)) }

  function KeysOf(q: QueueId): seq<string> {
    [KeyOf(q, KEY_QUEUE), KeyOf(q, KEY_QUEUE_PRIORITY), KeyOf(q, KEY_QUEUE_DL), KeyOf(q, KEY_QUEUE_ACKNOWLEDGED_MESSAGES)]
  }

  /** The keys in the order in which the commands are queued. */
  function AllKeys(queues: seq<QueueId>): seq<string> {
    if queues == [] then [] else KeysOf(queues[0]) + AllKeys(queues[1..])
  }

  /** The server's answers: the size of each key asked for. */
  function Replies(keys: seq<string>, size: string -> nat): seq<nat> {
    seq(|keys|, i requires 0 <= i < |keys| => size(keys[i]))
  }

  /** Pending is asked for under kind 58, pending with priority under 63, dead-lettered under 59, acknowledged under 65. */
  function SizesOf(q: QueueId, size: string -> nat): Sizes {
    Sizes(size(KeyOf(q, 58)), size(KeyOf(q, 63)), size(KeyOf(q, 59)), size(KeyOf(q, 65)))
  }

  predicate CleanQueue(q: QueueId) { Clean(q.ns) && Clean(q.name) }

  lemma StoreOne(m: map<QueueId, Sizes>, q: QueueId, kind: nat, size: nat)
    requires CleanQueue(q) && IsQueueKind(kind)
    ensures var s := if q in m then m[q] else Sizes(0, 0, 0, 0);
      StoreSize(m, KeyOf(q, kind), size) ==
        m[q := if kind == KEY_QUEUE_DL then s.(deadLettered := size)
               else if kind == KEY_QUEUE then s.(pending := size)
               else if kind == KEY_QUEUE_PRIORITY then s.(withPriority := size)
               else s.(acknowledged := size)]
  {
    ExtractPrinted(QueueKey(kind, q.ns, q.name));
  }

  lemma StoreFour(m: map<QueueId, Sizes>, q: QueueId, s: Sizes)
    requires CleanQueue(q)
    ensures StoreSize(StoreSize(StoreSize(StoreSize(m, KeyOf(q, KEY_QUEUE), s.pending),
              KeyOf(q, KEY_QUEUE_PRIORITY), s.withPriority), KeyOf(q, KEY_QUEUE_DL), s.deadLettered),
              KeyOf(q, KEY_QUEUE_ACKNOWLEDGED_MESSAGES), s.acknowledged) == m[q := s]
  {
    StoreOne(m, q, KEY_QUEUE, s.pending);
    var m1 := StoreSize(m, KeyOf(q, KEY_QUEUE), s.pending);
    StoreOne(m1, q, KEY_QUEUE_PRIORITY, s.withPriority);
    var m2 := StoreSize(m1, KeyOf(q, KEY_QUEUE_PRIORITY), s.withPriority);
    StoreOne(m2, q, KEY_QUEUE_DL, s.deadLettered);
    var m3 := StoreSize(m2, KeyOf(q, KEY_QUEUE_DL), s.deadLettered);
    StoreOne(m3, q, KEY_QUEUE_ACKNOWLEDGED_MESSAGES, s.acknowledged);
  }

  lemma StoreTwoFirst(m: map<QueueId, Sizes>, k0: string, k1: string, rest: seq<string>, size: string -> nat)
    ensures StoreSizes(m, [k0, k1] + rest, Replies([k0, k1] + rest, size))
            == StoreSizes(StoreSize(StoreSize(m, k0, size(k0)), k1, size(k1)), rest, Replies(rest, size))
  {
    assert [k0, k1] + rest == [k0] + ([k1] + rest);
    StoreFirst(m, k0, [k1] + rest, size);
    StoreFirst(StoreSize(m, k0, size(k0)), k1, rest, size);
  }

  lemma StoreFourFirst(m: map<QueueId, Sizes>, k0: string, k1: string, k2: string, k3: string,
                       rest: seq<string>, size: string -> nat)
    ensures var keys := [k0, k1, k2, k3] + rest;
      StoreSizes(m, keys, Replies(keys, size)) ==
      StoreSizes(StoreSize(StoreSize(StoreSize(StoreSize(m, k0, size(k0)), k1, size(k1)), k2, size(k2)), k3, size(k3)),
                 rest, Replies(rest, size))
  {
    assert [k0, k1, k2, k3] + rest == [k0, k1] + ([k2, k3] + rest);
    StoreTwoFirst(m, k0, k1, [k2, k3] + rest, size);
    StoreTwoFirst(StoreSize(StoreSize(m, k0, size(k0)), k1, size(k1)), k2, k3, rest, size);
  }

  lemma StoreQueue(m: map<QueueId, Sizes>, q: QueueId, rest: seq<string>, size: string -> nat)
    requires CleanQueue(q)
    ensures var keys := KeysOf(q) + rest;
      StoreSizes(m, keys, Replies(keys, size)) == StoreSizes(m[q := SizesOf(q, size)], rest, Replies(rest, size))
  {
    StoreFourFirst(m, KeyOf(q, KEY_QUEUE), KeyOf(q, KEY_QUEUE_PRIORITY), KeyOf(q, KEY_QUEUE_DL),
                   KeyOf(q, KEY_QUEUE_ACKNOWLEDGED_MESSAGES), rest, size);
    StoreFour(m, q, SizesOf(q, size));
  }

  lemma StoreFirst(m: map<QueueId, Sizes>, k: string, rest: seq<string>, size: string -> nat)
    ensures StoreSizes(m, [k] + rest, Replies([k] + rest, size))
            == StoreSizes(StoreSize(m, k, size(k)), rest, Replies(rest, size))
  {
    assert ([k] + rest)[1..] == rest;
    assert Replies([k] + rest, size)[1..] == Replies(rest, size);
  }

  /** getQueueSize gives each reply to the queue and the field of the key that asked for it, and leaves queues that
      were not asked about alone. */
  lemma {:induction false} SizesGoWhereAsked(m: map<QueueId, Sizes>, queues: seq<QueueId>, size: string -> nat, q: QueueId)
    requires forall x :: x in queues ==> CleanQueue(x)
    ensures var m' := StoreSizes(m, AllKeys(queues), Replies(AllKeys(queues), size));
      if q in queues then q in m' && m'[q] == SizesOf(q, size)
      else q in m' <==> q in m
    ensures var m' := StoreSizes(m, AllKeys(queues), Replies(AllKeys(queues), size));
      q !in queues && q in m ==> m'[q] == m[q]
    ensures q in m && m[q] == SizesOf(q, size) ==>
      var m' := StoreSizes(m, AllKeys(queues), Replies(AllKeys(queues), size));
      q in m' && m'[q] == m[q]
    decreases |queues|
  {
    if queues != [] {
      StoreQueue(m, queues[0], AllKeys(queues[1..]), size);
      SizesGoWhereAsked(m[queues[0] := SizesOf(queues[0], size)], queues[1..], size, q);
    }
  }

  /** The worker's loops. */
  class StatsWorker {
    var data: Data
    var sizes: map<QueueId, Sizes>

    /** One iteration: count the sample, or report its key as expired. */
    method HandleItem(d: Data, s: Sample, now: int) returns (d': Data, expired: bool)
      ensures d' == HandleSample(d, s, now) && expired == HasExpired(s.timestamp, now)
    {
      d' := d;
      expired := HasExpired(s.timestamp, now);
      if !expired {
        var extracted := ExtractData(s.key);
        if extracted.Some? {
          var x := extracted.value;
          if x.producer.GetOr("") != "" { d' := HandleProducerRate(d', x, x.producer.value, s.rate); }
          if x.consumer.GetOr("") != "" { d' := HandleConsumerRate(d', x, x.consumer.value, s.rate); }
        }
      }
    }

    method GetRates(result: seq<Sample>, now: int) returns (expiredKeys: seq<string>)
      modifies this
      ensures data == HandleAll(old(data), result, now) && expiredKeys == ExpiredKeys(result, now, |result|)
      ensures sizes == old(sizes)
    {
      expiredKeys := [];
      for i := 0 to |result|
        invariant data == HandleFirst(old(data), result, now, i) && sizes == old(sizes)
        invariant expiredKeys == ExpiredKeys(result, now, i)
      {
        var expired;
        data, expired := HandleItem(data, result[i], now);
        if expired { expiredKeys := expiredKeys + [result[i].key]; }
      }
    }

    method GetQueueSize(queues: seq<QueueId>, size: string -> nat)
      modifies this
      ensures sizes == StoreSizes(old(sizes), AllKeys(queues), Replies(AllKeys(queues), size)) && data == old(data)
    {
      var keys := AllKeys(queues);
      var res := Replies(keys, size);
      var i := 0;
      while i < |res|
        invariant 0 <= i <= |res| && data == old(data)
        invariant StoreSizes(sizes, keys[i..], res[i..]) == StoreSizes(old(sizes), keys, res)
      {
        assert keys[i..][1..] == keys[i + 1..] && res[i..][1..] == res[i + 1..];
        sizes := StoreSize(sizes, keys[i], res[i]);
        i := i + 1;
      }
    }
  }
}
