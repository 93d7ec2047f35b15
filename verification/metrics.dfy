/**
 `MetricSnapshotFactory`: the outcome counters, the per-quality and per-error
 frequency maps, the queue gauges and the snapshot built from them.

 The source keeps the counters in Codahale `Counter`s and the maps in
 `ConcurrentHashMap<String, AtomicLong>`; the model keeps them as naturals.
 `addOrIncrease` does `containsKey` then `put`, which can lose an update
 when two threads insert the same new key at once; the model is sequential
 and so proves its properties for sequential interleavings only.
 */
module Metrics {
  import opened Optional
  import opened Json
  import opened Async
  import opened JobResults
  import opened Slicing

  datatype Counters = Counters(count: nat, failed: nat, succeeded: nat, exception: nat)

  /** The factory's mutable state: the four job counters and the two frequency maps. */
  datatype Aggregator = Aggregator(jobs: Counters, quality: map<string, nat>, errors: map<string, nat>)

  /** A new factory: every counter zero, both maps empty. */
  function Fresh(): Aggregator
  {
    Aggregator(Counters(0, 0, 0, 0), map[], map[])
  }

  /** The sum of all counts in a frequency map. */
  ghost function Total(m: map<string, nat>): nat
    decreases |m|
  {
    if m == map[] then 0
    else
      var k :| k in m;
      m[k] + Total(m - {k})
  }

  /** Whichever key `Total` happens to pick first, the sum splits off any key. */
  lemma {:induction false} TotalRemove(m: map<string, nat>, k: string)
    requires k in m
    ensures Total(m) == m[k] + Total(m - {k})
    decreases |m|
  {
    var j :| j in m && Total(m) == m[j] + Total(m - {j});
    if j != k {
      assert |m - {j}| == |m| - 1;
      TotalRemove(m - {j}, k);
      assert |m - {k}| == |m| - 1;
      TotalRemove(m - {k}, j);
      assert m - {j} - {k} == m - {k} - {j};
    }
  }

  /**
   The invariant every recording keeps: each job falls in exactly one of the
   three outcome counters, and the frequency maps account for exactly the
   failed and the succeeded jobs.
   */
  ghost predicate Consistent(a: Aggregator)
  {
    && a.jobs.count == a.jobs.failed + a.jobs.succeeded + a.jobs.exception
    && Total(a.errors) == a.jobs.failed
    && Total(a.quality) == a.jobs.succeeded
  }

  lemma FreshIsConsistent()
    ensures Consistent(Fresh())
  {
  }

  /** `addOrIncrease`: an absent key starts at 1, a present key goes up by 1, every other key keeps its count. */
  function AddOrIncrease(m: map<string, nat>, key: string): (r: map<string, nat>)
    ensures r.Keys == m.Keys + {key}
    ensures r[key] == (if key in m then m[key] else 0) + 1
    ensures forall k | k in m && k != key :: r[k] == m[k]
  {
    if key in m then m[key := m[key] + 1] else m[key := 1]
  }

  /** `addOrIncrease` adds exactly one to the total of the map. */
  lemma {:induction false} AddOrIncreaseTotal(m: map<string, nat>, key: string)
    ensures Total(AddOrIncrease(m, key)) == Total(m) + 1
  {
    var r := AddOrIncrease(m, key);
    TotalRemove(r, key);
    if key in m {
      TotalRemove(m, key);
      assert r - {key} == m - {key};
    } else {
      assert r - {key} == m;
    }
  }

  /**
   The result of `addTotalMetricsCounters`: it either runs to the end, or throws
   part-way with the counters it had already increased.
   */
  datatype Recording = Recorded(agg: Aggregator) | Threw(agg: Aggregator, cause: Throwable)

  /** The exceptions the JVM raises itself; their messages are not modelled. */
  const ClassCastFault := Throwable(ClassCastException, None)
  const NullPointerFault := Throwable(NullPointerException, None)

  /**
   A job's final outcome: a failed future, or a completed one whose result may
   be null (`fut.complete(null)` is allowed).
   */
  type Outcome = AsyncResult<Option<JobResult>>

  /**
   `addTotalMetricsCounters`: count the job, then classify the final outcome.
   A failed outcome counts as an exception. A succeeded one counts as failed,
   under its error's name, when `getError` finds an error, and as succeeded,
   under its quality, otherwise. A null result throws `NullPointerException`
   at `getError`; reading a non-string `_name` throws `ClassCastException`; a
   null quality throws `NullPointerException` from
   `ConcurrentHashMap.containsKey`. Each leaves the counters increased so far.
   An error that `getError` returns always has a name, since `fromJson` gives
   none for a null `_name`, so the null-name branch below is never taken.
   */
  function Record(a: Aggregator, post: Outcome): (r: Recording)
    ensures r.agg.jobs.count == a.jobs.count + 1
    ensures post.Failed? ==>
              && r.Recorded?
              && r.agg.jobs.exception == a.jobs.exception + 1
              && r.agg.jobs.failed == a.jobs.failed
              && r.agg.jobs.succeeded == a.jobs.succeeded
              && r.agg.quality == a.quality
              && r.agg.errors == a.errors
    ensures post == Succeeded(None) ==>
              r == Threw(a.(jobs := a.jobs.(count := a.jobs.count + 1)), NullPointerFault)
    ensures post.Succeeded? && post.result.Some?
            && GetError(post.result.value).Ok? && GetError(post.result.value).value.Some? ==>
              && r.Recorded?
              && r.agg.jobs.failed == a.jobs.failed + 1
              && r.agg.errors == AddOrIncrease(a.errors, GetName(GetError(post.result.value).value.value).value.value)
              && r.agg.jobs.succeeded == a.jobs.succeeded
              && r.agg.jobs.exception == a.jobs.exception
              && r.agg.quality == a.quality
    ensures post.Succeeded? && post.result.Some?
            && GetError(post.result.value) == Ok(None) && Quality(post.result.value).Some? ==>
              && r.Recorded?
              && r.agg.jobs.succeeded == a.jobs.succeeded + 1
              && r.agg.quality == AddOrIncrease(a.quality, Quality(post.result.value).value)
              && r.agg.jobs.failed == a.jobs.failed
              && r.agg.jobs.exception == a.jobs.exception
              && r.agg.errors == a.errors
    ensures post.Succeeded? && post.result.Some? && GetError(post.result.value) == ClassCast ==>
              r == Threw(a.(jobs := a.jobs.(count := a.jobs.count + 1)), ClassCastFault)
    ensures post.Succeeded? && post.result.Some?
            && GetError(post.result.value) == Ok(None) && Quality(post.result.value).None? ==>
              r == Threw(a.(jobs := a.jobs.(count := a.jobs.count + 1, succeeded := a.jobs.succeeded + 1)),
                         NullPointerFault)
  {
    var counted := a.(jobs := a.jobs.(count := a.jobs.count + 1));
    match post
    case Failed(_) =>
      Recorded(counted.(jobs := counted.jobs.(exception := counted.jobs.exception + 1)))
    case Succeeded(None()) => Threw(counted, NullPointerFault)
    case Succeeded(Some(result)) =>
      match GetError(result)
      case ClassCast => Threw(counted, ClassCastFault)
      case Ok(Some(e)) =>
        var failed := counted.(jobs := counted.jobs.(failed := counted.jobs.failed + 1));
        (match GetName(e)
         case ClassCast => Threw(failed, ClassCastFault)
         case Ok(None()) => Threw(failed, NullPointerFault)
         case Ok(Some(name)) => Recorded(failed.(errors := AddOrIncrease(failed.errors, name))))
      case Ok(None()) =>
        var succeeded := counted.(jobs := counted.jobs.(succeeded := counted.jobs.succeeded + 1));
        match Quality(result)
        case None => Threw(succeeded, NullPointerFault)
        case Some(quality) => Recorded(succeeded.(quality := AddOrIncrease(succeeded.quality, quality)))
  }

  /**
   The outcomes `Record` can take to the end: failures, and successes with a
   result whose error can be read and that names a key to count under.
   */
  predicate Recordable(post: Outcome)
  {
    match post
    case Failed(_) => true
    case Succeeded(None()) => false
    case Succeeded(Some(result)) =>
      match GetError(result)
      case ClassCast => false
      case Ok(Some(_)) => true
      case Ok(None()) => Quality(result).Some?
  }

  /** Recording runs to the end exactly on recordable outcomes, and then keeps the counters consistent. */
  lemma {:induction false} RecordKeepsConsistent(a: Aggregator, post: Outcome)
    requires Consistent(a)
    ensures Record(a, post).Recorded? <==> Recordable(post)
    ensures Record(a, post).Recorded? ==> Consistent(Record(a, post).agg)
  {
    if post.Succeeded? && post.result.Some? && GetError(post.result.value).Ok? {
      var result := post.result.value;
      match GetError(result).value
      case Some(e) => AddOrIncreaseTotal(a.errors, GetName(e).value.value);
      case None =>
        if Quality(result).Some? {
          AddOrIncreaseTotal(a.quality, Quality(result).value);
        }
    }
  }

  /** The queue gauges: their values, read live from the admission counter. */
  datatype Queue = Queue(maxSize: int, free: int, occupied: int)

  /** `addQueueMetrics`: the three gauges always add up, free plus occupied being the maximum size. */
  function QueueGauges(queueSize: int, inFlight: int): (q: Queue)
    ensures q.maxSize == queueSize && q.occupied == inFlight
    ensures q.free + q.occupied == q.maxSize
  {
    Queue(queueSize, queueSize - inFlight, inFlight)
  }

  /** The size limit of the quality and error tables. */
  const TableSize: nat := 10

  /** `order` lists the keys of a map exactly once each: the map's iteration order. */
  predicate Enumerates(order: seq<string>, keys: set<string>)
  {
    && (forall i, j | 0 <= i < j < |order| :: order[i] != order[j])
    && (forall k | k in order :: k in keys)
    && (forall k | k in keys :: k in order)
  }

  lemma {:induction false} EnumerationLength(order: seq<string>, keys: set<string>)
    requires Enumerates(order, keys)
    ensures |order| == |keys|
    decreases |order|
  {
    if order != [] {
      var last := order[|order| - 1];
      var rest := order[..|order| - 1];
      assert Enumerates(rest, keys - {last}) by {
        forall k | k in keys - {last}
          ensures k in rest
        {
          var i :| 0 <= i < |order| && order[i] == k;
          assert i != |order| - 1;
          assert rest[i] == k;
        }
      }
      EnumerationLength(rest, keys - {last});
    }
  }

  /** The entries of `m` in iteration order `order`: every key of `m` exactly once, with its count. */
  function EntriesOf(m: map<string, nat>, order: seq<string>): (e: seq<Entry>)
    requires Enumerates(order, m.Keys)
    ensures |e| == |m|
    ensures forall k | k in m :: (k, m[k]) in e
    ensures forall y | y in e :: y.0 in m && m[y.0] == y.1
    ensures DistinctKeys(e)
  {
    EnumerationLength(order, m.Keys);
    var e := seq(|order|, i requires 0 <= i < |order| => (order[i], m[order[i]]));
    assert forall k | k in m :: (k, m[k]) in e by {
      forall k | k in m
        ensures (k, m[k]) in e
      {
        var i :| 0 <= i < |order| && order[i] == k;
        assert e[i] == (k, m[k]);
      }
    }
    e
  }

  /**
   A table of `m` ranked in direction `d`: as many entries as fit, each a key
   of `m` with its count and no key twice, sorted in direction `d`, and each
   one ranked no later than every count left out. Descending, that is the top
   of the map; ascending, its bottom.
   */
  ghost predicate RankedTable(d: Direction, t: seq<Entry>, m: map<string, nat>)
  {
    && |t| == Min(TableSize, |m|)
    && (forall y | y in t :: y.0 in m && m[y.0] == y.1)
    && DistinctKeys(t)
    && Sorted(d, t)
    && (forall y, k | y in t && k in m && (k, m[k]) !in t :: InOrder(d, y, (k, m[k])))
  }

  /**
   The quality or error table of a snapshot, sliced in direction `d`: the
   source's `sortDescendingAndSlice` is `Ascending` (the ten smallest counts);
   `Descending` is the intended top ten.
   */
  function Table(d: Direction, m: map<string, nat>, order: seq<string>): (t: seq<Entry>)
    requires Enumerates(order, m.Keys)
    ensures RankedTable(d, t, m)
  {
    var e := EntriesOf(m, order);
    var t := Slice(d, e, TableSize);
    forall y | y in t
      ensures y.0 in m && m[y.0] == y.1
    {
      assert y in multiset(e);
    }
    DistinctSubMultiset(t, e);
    forall y, k | y in t && k in m && (k, m[k]) !in t
      ensures InOrder(d, y, (k, m[k]))
    {
      assert (k, m[k]) in multiset(e) - multiset(t);
    }
    t
  }

  /** What `getMetricsSnapshot` reports. */
  datatype Snapshot = Snapshot(jobs: Counters, quality: seq<Entry>, errors: seq<Entry>, queue: Queue)

  /**
   `getMetricsSnapshot`: the four job counters as they stand, the quality and
   error tables sliced in direction `d`, and the queue gauges read from the
   admission counter.
   */
  function TakeSnapshot(d: Direction, a: Aggregator, qualityOrder: seq<string>, errorOrder: seq<string>,
                        queueSize: int, inFlight: int): (s: Snapshot)
    requires Enumerates(qualityOrder, a.quality.Keys) && Enumerates(errorOrder, a.errors.Keys)
    ensures s.jobs == a.jobs
    ensures RankedTable(d, s.quality, a.quality) && RankedTable(d, s.errors, a.errors)
    ensures s.queue.maxSize == queueSize && s.queue.occupied == inFlight && s.queue.free == queueSize - inFlight
  {
    Snapshot(a.jobs, Table(d, a.quality, qualityOrder), Table(d, a.errors, errorOrder),
             QueueGauges(queueSize, inFlight))
  }

  /**
   A table as the JSON object `Collectors.toMap` builds: one key per entry's
   key, holding the count of the first entry with that key (the merge function
   keeps the old value).
   */
  function TableJson(t: seq<Entry>): (o: JsonObject)
    ensures o.Keys == set y | y in t :: y.0
    ensures forall i | 0 <= i < |t| && (forall j | 0 <= j < i :: t[j].0 != t[i].0) :: o[t[i].0] == JInt(t[i].1)
  {
    if t == [] then map[]
    else
      var rest := TableJson(t[1..]);
      assert forall i | 1 <= i < |t| && (forall j | 0 <= j < i :: t[j].0 != t[i].0) :: rest[t[i].0] == JInt(t[i].1)
      by {
        forall i | 1 <= i < |t| && (forall j | 0 <= j < i :: t[j].0 != t[i].0)
          ensures rest[t[i].0] == JInt(t[i].1)
        {
          assert t[1..][i - 1] == t[i];
          forall j | 0 <= j < i - 1
            ensures t[1..][j].0 != t[1..][i - 1].0
          {
            assert t[1..][j] == t[j + 1];
          }
        }
      }
      rest[t[0].0 := JInt(t[0].1)]
  }

  /** The JSON shape of a snapshot, `{total: {jobs, quality, errors}, queue}`, each value under its own label. */
  function SnapshotJson(s: Snapshot): (o: JsonObject)
    ensures o.Keys == {"total", "queue"}
    ensures o["total"].JObj? && o["total"].fields.Keys == {"jobs", "quality", "errors"}
    ensures o["total"].fields["jobs"]
            == JObj(map["count" := JInt(s.jobs.count), "failed" := JInt(s.jobs.failed),
                        "succeeded" := JInt(s.jobs.succeeded), "exception" := JInt(s.jobs.exception)])
    ensures o["total"].fields["quality"] == JObj(TableJson(s.quality))
    ensures o["total"].fields["errors"] == JObj(TableJson(s.errors))
    ensures o["queue"] == JObj(map["maxSize" := JInt(s.queue.maxSize), "free" := JInt(s.queue.free),
                                   "occupied" := JInt(s.queue.occupied)])
  {
    var jobs := map["count" := JInt(s.jobs.count), "failed" := JInt(s.jobs.failed),
                    "succeeded" := JInt(s.jobs.succeeded), "exception" := JInt(s.jobs.exception)];
    var total := map["jobs" := JObj(jobs), "quality" := JObj(TableJson(s.quality)),
                     "errors" := JObj(TableJson(s.errors))];
    var queue := map["maxSize" := JInt(s.queue.maxSize), "free" := JInt(s.queue.free),
                     "occupied" := JInt(s.queue.occupied)];
    map["total" := JObj(total), "queue" := JObj(queue)]
  }

  /** A map's counts as a JSON object, key by key. */
  function CountsJson(m: map<string, nat>): JsonObject
  {
    map k | k in m :: JInt(m[k])
  }

  /**
   A table of `m` as a JSON object: `min(10, |m|)` keys of `m`, each holding
   its count, and each ranked in direction `d` no later than every key left
   out.
   */
  ghost predicate RankedObject(d: Direction, o: JsonObject, m: map<string, nat>)
  {
    && o.Keys <= m.Keys
    && |o.Keys| == Min(TableSize, |m|)
    && (forall k | k in o :: o[k] == JInt(m[k]))
    && (forall k, k' | k in o && k' in m && k' !in o :: InOrder(d, (k, m[k]), (k', m[k'])))
  }

  /** A sequence whose keys are distinct has as many keys as entries. */
  lemma {:induction false} DistinctKeyCount(t: seq<Entry>)
    requires DistinctKeys(t)
    ensures |set y | y in t :: y.0| == |t|
    decreases |t|
  {
    if t != [] {
      DistinctTail(t);
      DistinctKeyCount(t[1..]);
      KeysOfCons(t);
    }
  }

  /** Dropping the first entry keeps the keys distinct. */
  lemma DistinctTail(t: seq<Entry>)
    requires DistinctKeys(t) && t != []
    ensures DistinctKeys(t[1..])
  {
    var rest := t[1..];
    forall i, j | 0 <= i < j < |rest|
      ensures rest[i].0 != rest[j].0
    {
      assert rest[i] == t[i + 1] && rest[j] == t[j + 1];
    }
  }

  /** The keys of a non-empty sequence with distinct keys are its first key, new, and the rest's keys. */
  lemma KeysOfCons(t: seq<Entry>)
    requires DistinctKeys(t) && t != []
    ensures var keys := set y | y in t[1..] :: y.0;
            (set y | y in t :: y.0) == {t[0].0} + keys && t[0].0 !in keys
  {
    var rest := t[1..];
    forall y | y in t
      ensures y == t[0] || y in rest
    {
      var i :| 0 <= i < |t| && t[i] == y;
      if i > 0 {
        assert rest[i - 1] == y;
      }
    }
    forall y | y in rest
      ensures y.0 != t[0].0
    {
      var i :| 0 <= i < |rest| && rest[i] == y;
      assert t[i + 1] == y;
    }
  }

  /** A ranked table stays ranked as JSON: its object has one key per entry, holding that entry's count. */
  lemma TableJsonRanked(d: Direction, t: seq<Entry>, m: map<string, nat>)
    requires RankedTable(d, t, m)
    ensures RankedObject(d, TableJson(t), m)
  {
    var o := TableJson(t);
    DistinctKeyCount(t);
    forall k | k in o
      ensures o[k] == JInt(m[k])
    {
      var y :| y in t && y.0 == k;
      var i :| 0 <= i < |t| && t[i] == y;
      assert forall j | 0 <= j < i :: t[j].0 != t[i].0;
    }
    forall k, k' | k in o && k' in m && k' !in o
      ensures InOrder(d, (k, m[k]), (k', m[k']))
    {
      var y :| y in t && y.0 == k;
      assert (k', m[k']) !in t;
    }
  }

  /** A map of at most ten keys is shown whole, in either direction. */
  lemma SmallRankedObject(d: Direction, o: JsonObject, m: map<string, nat>)
    requires RankedObject(d, o, m) && |m| <= TableSize
    ensures o == CountsJson(m)
  {
    var left := m.Keys - o.Keys;
    assert m.Keys == o.Keys + left && o.Keys * left == {};
    assert |m.Keys| == |o.Keys| + |left|;
    assert left == {};
    assert o.Keys == m.Keys;
  }

  /**
   `o` shows the metrics `a` as `getMetricsSnapshot` does: each counter under
   its own label, each frequency map as a table ranked in direction `d`, and
   the gauges of a queue of `queueSize` with `inFlight` slots taken.
   */
  ghost predicate ShowsMetrics(d: Direction, o: JsonObject, a: Aggregator, queueSize: int, inFlight: int)
  {
    && o.Keys == {"total", "queue"}
    && o["total"].JObj? && o["total"].fields.Keys == {"jobs", "quality", "errors"}
    && o["total"].fields["jobs"]
       == JObj(map["count" := JInt(a.jobs.count), "failed" := JInt(a.jobs.failed),
                   "succeeded" := JInt(a.jobs.succeeded), "exception" := JInt(a.jobs.exception)])
    && o["total"].fields["quality"].JObj? && RankedObject(d, o["total"].fields["quality"].fields, a.quality)
    && o["total"].fields["errors"].JObj? && RankedObject(d, o["total"].fields["errors"].fields, a.errors)
    && o["queue"] == JObj(map["maxSize" := JInt(queueSize), "free" := JInt(queueSize - inFlight),
                              "occupied" := JInt(inFlight)])
  }

  /** The rendered snapshot shows the aggregator's metrics: counters by label, ranked tables, live gauges. */
  lemma SnapshotShowsMetrics(d: Direction, a: Aggregator, qualityOrder: seq<string>, errorOrder: seq<string>,
                             queueSize: int, inFlight: int)
    requires Enumerates(qualityOrder, a.quality.Keys) && Enumerates(errorOrder, a.errors.Keys)
    ensures ShowsMetrics(d, SnapshotJson(TakeSnapshot(d, a, qualityOrder, errorOrder, queueSize, inFlight)),
                         a, queueSize, inFlight)
  {
    var s := TakeSnapshot(d, a, qualityOrder, errorOrder, queueSize, inFlight);
    TableJsonRanked(d, s.quality, a.quality);
    TableJsonRanked(d, s.errors, a.errors);
  }
}
