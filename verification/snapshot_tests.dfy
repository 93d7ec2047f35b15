/**
 The metrics test's expectations about snapshots that need no job: an
 empty aggregator, the queue gauges while requests are in flight, and the
 sentinel of a service without metrics.
 */
module SnapshotTests {
  import opened Optional
  import opened Json
  import opened Slicing
  import opened Metrics
  import opened Service

  /** The JSON object the metrics test builds with `buildExpectedMetricsObject`. */
  function ExpectedMetrics(count: int, failed: int, succeeded: int, exception: int,
                           maxSize: int, free: int, occupied: int,
                           quality: JsonObject, errors: JsonObject): JsonObject
  {
    var jobs := map["count" := JInt(count), "failed" := JInt(failed),
                    "succeeded" := JInt(succeeded), "exception" := JInt(exception)];
    var total := map["jobs" := JObj(jobs), "quality" := JObj(quality), "errors" := JObj(errors)];
    var queue := map["maxSize" := JInt(maxSize), "free" := JInt(free), "occupied" := JInt(occupied)];
    map["total" := JObj(total), "queue" := JObj(queue)]
  }

  /** A new service with metrics reports zero counters, empty tables and a free queue. */
  lemma EmptyMetrics(d: Direction)
    ensures MetricsSnapshot(d, Init(30, true), [], [])
            == SnapshotJson(Snapshot(Counters(0, 0, 0, 0), [], [], Queue(30, 30, 0)))
            == ExpectedMetrics(0, 0, 0, 0, 30, 30, 0, map[], map[])
  {
    UncountedSnapshot(Init(30, true), d);
    EmptySnapshotJson(30, 30, 0);
  }

  /** Submissions while there is room each take one slot and leave the metrics alone. */
  lemma {:induction false} SubmissionsTakeSlots(s: State, job: Job, policy: Policy, events: seq<Event>)
    requires forall i | 0 <= i < |events| :: events[i].Submit?
    requires s.inFlight + |events| <= s.queueSize
    ensures Run(s, job, policy, events).0.inFlight == s.inFlight + |events|
    ensures Run(s, job, policy, events).0.metrics == s.metrics
    decreases |events|
  {
    if events != [] {
      var t := Step(s, job, policy, events[0]);
      assert t.next.inFlight == s.inFlight + 1 && t.next.metrics == s.metrics && t.next.queueSize == s.queueSize;
      SubmissionsTakeSlots(t.next, job, policy, events[1..]);
    }
  }

  /** With nothing counted, the snapshot holds zero counters, empty tables and the live gauges. */
  lemma UncountedSnapshot(s: State, d: Direction)
    requires s.metrics == Some(Fresh())
    ensures MetricsSnapshot(d, s, [], [])
            == SnapshotJson(Snapshot(Counters(0, 0, 0, 0), [], [], Queue(s.queueSize, s.queueSize - s.inFlight, s.inFlight)))
  {
    assert TakeSnapshot(d, Fresh(), [], [], s.queueSize, s.inFlight)
           == Snapshot(Counters(0, 0, 0, 0), [], [], Queue(s.queueSize, s.queueSize - s.inFlight, s.inFlight));
  }

  /** Such a snapshot, as JSON, is what `buildExpectedMetricsObject` builds from zero counts and empty tables. */
  lemma EmptySnapshotJson(maxSize: int, free: int, occupied: int)
    ensures SnapshotJson(Snapshot(Counters(0, 0, 0, 0), [], [], Queue(maxSize, free, occupied)))
            == ExpectedMetrics(0, 0, 0, 0, maxSize, free, occupied, map[], map[])
  {
    assert TableJson([]) == map[];
  }

  /**
   Metrics shown with at most ten qualities and ten error names are exactly
   the object `buildExpectedMetricsObject` builds from their counters, gauges
   and maps, whatever the slicing direction.
   */
  lemma ShownSmallMetrics(d: Direction, o: JsonObject, a: Aggregator, queueSize: int, inFlight: int)
    requires ShowsMetrics(d, o, a, queueSize, inFlight)
    requires |a.quality| <= TableSize && |a.errors| <= TableSize
    ensures o == ExpectedMetrics(a.jobs.count, a.jobs.failed, a.jobs.succeeded, a.jobs.exception,
                                 queueSize, queueSize - inFlight, inFlight, CountsJson(a.quality), CountsJson(a.errors))
  {
    var total := o["total"].fields;
    SmallRankedObject(d, total["quality"].fields, a.quality);
    SmallRankedObject(d, total["errors"].fields, a.errors);
    var jobs := o["total"].fields["jobs"];
    ThreeFields(total, "jobs", "quality", "errors", jobs, JObj(CountsJson(a.quality)), JObj(CountsJson(a.errors)));
    TwoFields(o, "total", "queue", JObj(total), o["queue"]);
  }

  /** An object with exactly three known fields is the literal with those fields. */
  lemma ThreeFields(m: JsonObject, k0: string, k1: string, k2: string, v0: Json, v1: Json, v2: Json)
    requires m.Keys == {k0, k1, k2} && m[k0] == v0 && m[k1] == v1 && m[k2] == v2
    ensures m == map[k0 := v0, k1 := v1, k2 := v2]
  {
  }

  /** An object with exactly two known fields is the literal with those fields. */
  lemma TwoFields(m: JsonObject, k0: string, k1: string, v0: Json, v1: Json)
    requires m.Keys == {k0, k1} && m[k0] == v0 && m[k1] == v1
    ensures m == map[k0 := v0, k1 := v1]
  {
  }

  /** With metrics disabled the snapshot is the sentinel, whatever the service has done. */
  lemma DisabledMetricsStayDisabled(job: Job, policy: Policy, events: seq<Event>, d: Direction)
    ensures var s := Run(Init(10, false), job, policy, events).0;
            && s.metrics.None?
            && MetricsSnapshot(d, s, [], []) == map["Error" := JStr("Metrics are not enabled")]
  {
    RunKeepsConfiguration(Init(10, false), job, policy, events);
  }
}
