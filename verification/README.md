# vertx-datacollector core, modelled in Dafny

The data collector is a small Vert.x service. It runs a two-phase collector job for each request: `collect`, then `postCollectAction`. It keeps a bounded number of requests in flight and counts the outcomes in a metrics snapshot.

This project models four parts of it as pure Dafny functions and proves their properties:

- **`DataCollectorServiceImpl`: admission and dispatch** (module `Service`).
  - A submission is admitted while the in-flight counter is below the queue size. Otherwise it fails with `queueLimitReached`.
  - An admitted request takes a slot, runs both phases, releases its slot, is recorded in the metrics, and is answered.
  - The worker pools are replaced by explicit completion events (`CollectDone`, `PostCollectDone`). So `Run` covers every sequential interleaving of submissions and completions.
  - The job is an oracle. Calling one of its methods either hands back a handler, modelled by the outcome it produces, or throws at once.
- **`MetricSnapshotFactory`** (modules `Metrics` and `Slicing`):
  - the four job counters;
  - the per-quality and per-error frequency maps (`addOrIncrease`);
  - the queue gauges;
  - the per-quality and per-error tables cut to ten entries, in the code's ascending order and in the corrected descending one;
  - the JSON shape of the snapshot.
- **`CollectorJobResult` and its `Error`** (module `JobResults`).
  - These are modelled over a model of Vert.x `JsonObject` (module `Json`).
  - Its typed getters fail with `ClassCastException` on a value of another type, which the model makes explicit as `Cast.ClassCast`.
- **`DataCollectorServiceClient`** (module `Client`): `checkForError` and the forwarding methods.

Supporting modules:

- `Optional`: Java's nullable values.
- `Async`: `AsyncResult` and exceptions.
- `TestJob`: the repository's test fixture as a concrete job.
- `SnapshotTests`, `SliceTests` and `Scenarios`: the repository's test expectations, proved as lemmas about the model.

The source files name some operations differently because they come from slightly different versions. These pairs are taken as the same operation:

- `registerQueueMetrics` and `addQueueMetrics`;
- `registerTotalMetrics` and `addTotalMetricsCounters`;
- `performCollectionAndGetResult` and `collectAndReceive`;
- `performCollection` and `collect`.

Some behaviour of the code is easy to miss. The model follows the code:

- **Slot release when a job method throws.** The service calls `collect` and `postCollectAction` outside `executeBlocking`, after the slot is taken. A throw from `collect` escapes to the submitter. A throw from `postCollectAction` happens inside the first phase's completion callback and reaches no caller. Either way the slot is never released (see Findings).
- **Counting failures.** The code counts every failed outcome under `exception`, whether the job failed its future or threw inside the handler. Both kinds go to that one counter.
- **Error names.** An error name may be null or missing. Then `fromJson` yields no error, and `getError` on the result reports none. A `_name` that is not a string throws `ClassCastException` from `getString`; it is not read as "no name".
- **Recording can throw.** If recording the final outcome throws, the slot has already been released, the counters increased so far stay increased, and the caller's handler is never called. Three cases throw:
  - a succeeded outcome whose result is null, from `getError` (`NullPointerException`, after `count` is increased);
  - a null quality, from `ConcurrentHashMap.containsKey(null)` (an error that `getError` returns always has a name, so a null error name never reaches the error map);
  - a non-string `_name`.
- **Null results without metrics.** With metrics disabled nothing reads the result, so a succeeded outcome with a null result reaches the caller as a success with a null value.
- **Execution timeout.** `maxExecuteTimeout` is only handed to the worker executor. That executor reports overlong tasks but does not abort them, so no timeout outcome exists in the model.

## Model

Source paths are relative to the repository root.

| member | source | states |
|---|---|---|
| JobResults.NewError | src/main/java/info/pascalkrause/vertx/datacollector/job/CollectorJobResult.java:30-37 | `getName` on `new Error(name)` gives `name` back, and the new error holds the key `_name` and nothing else |
| JobResults.ErrorFromJson | src/main/java/info/pascalkrause/vertx/datacollector/job/CollectorJobResult.java:21-28 | no error exactly for a null object or a missing or null `_name`; a failed cast exactly when `_name` is not a string; otherwise an error holding only the argument's `_name` |
| JobResults.FromJsonMergeChangesNothing | src/main/java/info/pascalkrause/vertx/datacollector/job/CollectorJobResult.java:25-27 | `mergeIn` copies the new error into the argument, which it leaves unchanged, and the returned error keeps none of the argument's other fields |
| JobResults.ErrorJsonRoundTrip | src/main/java/info/pascalkrause/vertx/datacollector/job/CollectorJobResult.java:21-37 | an `Error` read back through `fromJson` is the same error, and an error with a null name reads back as none |
| JobResults.StringAt | src/main/java/info/pascalkrause/vertx/datacollector/job/CollectorJobResult.java:77-91 | the string accessors never fail their cast on a record that stores strings or nulls |
| JobResults.New | src/main/java/info/pascalkrause/vertx/datacollector/job/CollectorJobResult.java:70-95 | the six-argument constructor writes exactly the six keys, and each accessor returns exactly its argument |
| JobResults.FromJson | src/main/java/info/pascalkrause/vertx/datacollector/job/CollectorJobResult.java:54-58 | the JSON constructor succeeds exactly when all six typed reads succeed; it keeps exactly the six keys, each holding what its getter read |
| JobResults.JsonRoundTrip | src/main/java/info/pascalkrause/vertx/datacollector/job/CollectorJobResult.java:54-58 | `new CollectorJobResult(r.toJson())` has the same six field values and the same error as `r`, and is `r` itself when `r` came from a constructor |
| JobResults.GetErrorRoundTrip | src/main/java/info/pascalkrause/vertx/datacollector/job/CollectorJobResult.java:97-99 | `getError` on a record built with `new Error(n)` gives an error named `n`, and on one built with null gives none |
| JobResults.NullNamedErrorIsNoError | src/main/java/info/pascalkrause/vertx/datacollector/job/CollectorJobResult.java:21-24 | a record built with an error whose name is null reports no error |
| Slicing.Sort | src/main/java/info/pascalkrause/vertx/datacollector/metrics/MetricSnapshotFactory.java:44 | the sort returns a sorted permutation of its input |
| Slicing.SortKeepsSorted | src/main/java/info/pascalkrause/vertx/datacollector/metrics/MetricSnapshotFactory.java:44 | the sort is stable on input already in order: it returns that input unchanged |
| Slicing.Slice | src/main/java/info/pascalkrause/vertx/datacollector/metrics/MetricSnapshotFactory.java:42-46 | the slice has `min(maxEntries, n)` entries taken from the input, is sorted, and precedes every entry left out |
| Slicing.SliceAscending | src/main/java/info/pascalkrause/vertx/datacollector/metrics/MetricSnapshotFactory.java:42-46 | as written, the comparator keeps the `maxEntries` smallest counts: none kept is larger than one left out |
| Slicing.SliceDescending | src/main/java/info/pascalkrause/vertx/datacollector/metrics/MetricSnapshotFactory.java:42-46 | corrected: the `maxEntries` largest counts, in descending order; none kept is smaller than one left out |
| Slicing.SortReversesIncreasing | src/main/java/info/pascalkrause/vertx/datacollector/metrics/MetricSnapshotFactory.java:44 | entries whose counts strictly increase come out of the descending sort exactly reversed |
| Slicing.BottomTwoOfIncreasing | src/main/java/info/pascalkrause/vertx/datacollector/metrics/MetricSnapshotFactory.java:42-46 | as written, slicing entries with strictly increasing counts to two keeps the first two |
| Slicing.TopTwoOfIncreasing | src/main/java/info/pascalkrause/vertx/datacollector/metrics/MetricSnapshotFactory.java:42-46 | corrected, slicing entries with strictly increasing counts to two keeps the last two, largest first |
| SliceTests.AscendingSliceKeepsSmallest | src/test/java/info/pascalkrause/vertx/datacollector/metrics/MetricsTest.java:136-149 | as written, `{1:1, 2:2, 3:3, 4:4}` cut to two gives `{1:1, 2:2}`, not the `{3:3, 4:4}` the test expects |
| SliceTests.DescendingSliceMatchesTest | src/test/java/info/pascalkrause/vertx/datacollector/metrics/MetricsTest.java:136-149 | corrected, the same input gives exactly `{4:4, 3:3}`, which is what the test expects |
| Metrics.AddOrIncrease | src/main/java/info/pascalkrause/vertx/datacollector/metrics/MetricSnapshotFactory.java:48-54 | an absent key maps to 1, a present key goes up by 1, every other key keeps its count, and no other key appears |
| Metrics.AddOrIncreaseTotal | src/main/java/info/pascalkrause/vertx/datacollector/metrics/MetricSnapshotFactory.java:48-54 | `addOrIncrease` raises the sum over the map by exactly one |
| Metrics.FreshIsConsistent | src/main/java/info/pascalkrause/vertx/datacollector/metrics/MetricSnapshotFactory.java:80-86 | a new factory satisfies the counting invariant |
| Metrics.Record | src/main/java/info/pascalkrause/vertx/datacollector/metrics/MetricSnapshotFactory.java:64-78 | `count` goes up by one on every outcome. A failure raises only `exception`. A result with an error raises only `failed` and that name's count. A result without one raises only `succeeded` and its quality's count. A null result throws `NullPointerException` right after `count`; a non-string `_name` or a null quality throws after the increments made so far |
| Metrics.RecordKeepsConsistent | src/main/java/info/pascalkrause/vertx/datacollector/metrics/MetricSnapshotFactory.java:64-78 | recording completes exactly on recordable outcomes, and then keeps count = failed + succeeded + exception, the error counts summing to `failed` and the quality counts summing to `succeeded` |
| Metrics.QueueGauges | src/main/java/info/pascalkrause/vertx/datacollector/metrics/MetricSnapshotFactory.java:56-62 | `maxSize` is the queue size and `occupied` the in-flight count; `free` plus `occupied` is `maxSize` |
| Metrics.EntriesOf | src/main/java/info/pascalkrause/vertx/datacollector/metrics/MetricSnapshotFactory.java:43 | the entry stream has one entry per key of the map: every key appears with its count, every entry is a key of the map with its count, and no key appears twice |
| Metrics.Table | src/main/java/info/pascalkrause/vertx/datacollector/metrics/MetricSnapshotFactory.java:136-137 | a table holds `min(10, size)` entries of the map with their counts, no key twice, sorted in the slicing direction, and each entry ranked no later than every count left out. `Ascending`, as written, keeps the ten smallest counts; `Descending`, corrected, the ten largest |
| Metrics.TakeSnapshot | src/main/java/info/pascalkrause/vertx/datacollector/metrics/MetricSnapshotFactory.java:133-143 | the snapshot reports the counters as they stand, the quality and error tables ranked as `Metrics.Table` states in the given direction, and the gauges read from the live counter (`free` = queue size − in flight) |
| Metrics.TableJson | src/main/java/info/pascalkrause/vertx/datacollector/metrics/MetricSnapshotFactory.java:44-45 | the table's JSON object has exactly the keys of its entries, and each key holds the count of its first entry, as the `(oldValue, newValue) -> oldValue` merge keeps |
| Metrics.SnapshotJson | src/main/java/info/pascalkrause/vertx/datacollector/metrics/MetricSnapshotFactory.java:133-143 | the snapshot object has exactly `total` and `queue`; `total` has exactly `jobs`, holding the four counters under `count`, `failed`, `succeeded` and `exception`, and `quality` and `errors`, each the JSON of its table; `queue` holds the gauges under `maxSize`, `free` and `occupied` |
| Metrics.TableJsonRanked | src/main/java/info/pascalkrause/vertx/datacollector/metrics/MetricSnapshotFactory.java:42-46 | a table's JSON object has `min(10, size)` keys of the map, each holding its count and ranked in the slicing direction no later than every key left out |
| Metrics.SmallRankedObject | src/main/java/info/pascalkrause/vertx/datacollector/metrics/MetricSnapshotFactory.java:42-46 | a map of at most ten keys comes out whole, each key with its count, in either direction |
| Metrics.SnapshotShowsMetrics | src/main/java/info/pascalkrause/vertx/datacollector/metrics/MetricSnapshotFactory.java:133-143 | the rendered snapshot shows the metrics: each counter under its label, each frequency map as a ranked table object, and the gauges of the live counter |
| Service.Discard | src/main/java/info/pascalkrause/vertx/datacollector/service/DataCollectorServiceImpl.java:64-69 | `collect`'s handler fails exactly when the outcome failed, with the same cause, and otherwise succeeds without a value |
| Service.Admit | src/main/java/info/pascalkrause/vertx/datacollector/service/DataCollectorServiceImpl.java:45-62 | with the queue full, the submission is answered `queueLimitReached` at once and the counter, requests and metrics are untouched. Otherwise the counter goes up by one, and a returned handler starts the first phase quietly |
| Service.FinishCollect | src/main/java/info/pascalkrause/vertx/datacollector/service/DataCollectorServiceImpl.java:49-50 | the second phase starts on the first phase's outcome, success or failure; if `postCollectAction` throws at once, the request is dropped with its slot still taken as written, and its second phase fails with the exception when corrected; the counter, the metrics and every other request are untouched |
| Service.FinishPostCollect | src/main/java/info/pascalkrause/vertx/datacollector/service/DataCollectorServiceImpl.java:51-57 | the slot is released exactly once and the request removed. The outcome is recorded when metrics are enabled. The handler receives exactly the second phase's outcome unless recording threw |
| Service.InitIsBounded | src/main/java/info/pascalkrause/vertx/datacollector/service/DataCollectorServiceImpl.java:25-42 | a new service satisfies the admission invariant, with no slot taken |
| Service.AdmitKeepsBounded | src/main/java/info/pascalkrause/vertx/datacollector/service/DataCollectorServiceImpl.java:47-48 | admission keeps 0 ≤ inFlight ≤ queueSize and keeps every request covered by a slot |
| Service.StepKeepsBounded | src/main/java/info/pascalkrause/vertx/datacollector/service/DataCollectorServiceImpl.java:47-52 | every submission or completion keeps the admission invariant, whatever the job does |
| Service.RunKeepsBounded | src/main/java/info/pascalkrause/vertx/datacollector/service/DataCollectorServiceImpl.java:45-62 | the counter stays within bounds under every sequential interleaving |
| Service.StepKeepsSlotsMatched | src/main/java/info/pascalkrause/vertx/datacollector/service/DataCollectorServiceImpl.java:47-52 | a slot is taken exactly when a request is admitted and released exactly when one finishes, if the job never throws at once or the throw fails its phase |
| Service.RunKeepsSlotsMatched | src/main/java/info/pascalkrause/vertx/datacollector/service/DataCollectorServiceImpl.java:45-62 | release exactly once, with the counter equal to the number of requests in flight, under every interleaving, under the same condition |
| Service.AsWrittenPostCollectRaiseLeaksSlot | src/main/java/info/pascalkrause/vertx/datacollector/service/DataCollectorServiceImpl.java:49-50 | as written, a `postCollectAction` that throws at once answers nobody, drops the request, and leaves the counter one above the requests in flight |
| Service.CorrectedPostCollectRaiseReleasesSlot | src/main/java/info/pascalkrause/vertx/datacollector/service/DataCollectorServiceImpl.java:49-57 | corrected, the same throw fails the second phase: the caller receives the exception, the slot is released, and every remaining request still holds exactly one slot |
| Service.GaugesWithinBounds | src/main/java/info/pascalkrause/vertx/datacollector/metrics/MetricSnapshotFactory.java:56-62 | under the admission invariant, `occupied` and `free` both lie between 0 and `maxSize` for a non-negative queue size |
| Service.AsWrittenRaiseLeaksSlot | src/main/java/info/pascalkrause/vertx/datacollector/service/DataCollectorServiceImpl.java:47-50 | as written, a `collect` that throws at once raises to the submitter and leaves the counter one above the requests in flight |
| Service.StepAnswersOnce | src/main/java/info/pascalkrause/vertx/datacollector/service/DataCollectorServiceImpl.java:51-60 | a step answers only a fresh ticket (a rejection) or an admitted request, which it removes |
| Service.RunAnswersOnce | src/main/java/info/pascalkrause/vertx/datacollector/service/DataCollectorServiceImpl.java:45-62 | under every interleaving each handler is called at most once, never for a request still in flight |
| Service.StepKeepsMetricsSound | src/main/java/info/pascalkrause/vertx/datacollector/service/DataCollectorServiceImpl.java:51-55 | every step of a job with recordable outcomes keeps the counting invariant |
| Service.RunKeepsMetricsSound | src/main/java/info/pascalkrause/vertx/datacollector/service/DataCollectorServiceImpl.java:45-62 | under every interleaving of such a job each job is counted under exactly one outcome, and the maps sum to the failed and succeeded counts |
| Service.RunKeepsConfiguration | src/main/java/info/pascalkrause/vertx/datacollector/service/DataCollectorServiceImpl.java:35-41 | the queue size never changes, and metrics disabled at construction stay disabled |
| Service.MetricsSnapshot | src/main/java/info/pascalkrause/vertx/datacollector/service/DataCollectorServiceImpl.java:74-77 | the `{"Error": "Metrics are not enabled"}` sentinel exactly when metrics are disabled; otherwise the service's metrics with each counter under its label, the quality and error tables as objects ranked in the given direction, and the gauges of the queue size and the requests in flight |
| Service.CollectMirrorsCollectAndReceive | src/main/java/info/pascalkrause/vertx/datacollector/service/DataCollectorServiceImpl.java:64-69 | a submission through `collect` leads to the same counter and requests as one through `collectAndReceive`, and its handler gets the status of that answer |
| Service.LeakedServiceRejectsForever | src/main/java/info/pascalkrause/vertx/datacollector/service/DataCollectorServiceImpl.java:47-60 | a service whose slots are all taken with no request in flight keeps its counter, and rejects every later submission |
| Client.CheckForError | src/main/java/info/pascalkrause/vertx/datacollector/client/DataCollectorServiceClient.java:19-25 | a failure with the message `queueLimitReached` becomes a `QueueLimitReached` failure; anything else passes unchanged; failure is preserved both ways |
| Client.ClientStep | src/main/java/info/pascalkrause/vertx/datacollector/client/DataCollectorServiceClient.java:27-36 | both collection calls take the service's step unchanged and answer the same ticket, of the same kind, with the service's answer passed through `checkForError` |
| Client.RejectionReachesClientAsQueueLimit | src/main/java/info/pascalkrause/vertx/datacollector/client/DataCollectorServiceClient.java:20-30 | a submission to a full queue reaches the client's caller as a `QueueLimitReached` failure |
| Client.ClientKeepsOtherAnswers | src/main/java/info/pascalkrause/vertx/datacollector/client/DataCollectorServiceClient.java:24 | every answer other than a `queueLimitReached` failure reaches the caller exactly as the service gave it |
| Client.ClientMetricsSnapshot | src/main/java/info/pascalkrause/vertx/datacollector/client/DataCollectorServiceClient.java:38-41 | the client's snapshot equals the service's snapshot: the sentinel exactly when metrics are disabled |
| TestJob.Collect | src/test/java/info/pascalkrause/vertx/datacollector/TestJob.java:59-90 | the fixture throws at once exactly for a non-string `errorName`. Its handler fails exactly when `sleep` is not a number or null, or the feature has `unhandledException` or `handledException`: with `ClassCastException`, then the unhandled, then the handled `RuntimeException`, in that order of precedence. Its successes carry the request id, the quality `test-quality` and an error named by `errorName` when present |
| TestJob.GeneratedResultReads | src/test/java/info/pascalkrause/vertx/datacollector/TestJob.java:51-57 | a generated result reads back its request id, the quality `test-quality`, and the error it was built with (none for a null name) |
| TestJob.FixtureIsRecordable | src/test/java/info/pascalkrause/vertx/datacollector/TestJob.java:51-90 | every outcome of the fixture can be recorded |
| SnapshotTests.EmptyMetrics | src/test/java/info/pascalkrause/vertx/datacollector/metrics/MetricsTest.java:77-82 | a new service with a queue of 30 reports zero counters, empty tables, 30 free and none occupied |
| SnapshotTests.SubmissionsTakeSlots | src/main/java/info/pascalkrause/vertx/datacollector/service/DataCollectorServiceImpl.java:47-48 | submissions while there is room each take one slot and leave the metrics alone |
| SnapshotTests.UncountedSnapshot | src/main/java/info/pascalkrause/vertx/datacollector/metrics/MetricSnapshotFactory.java:133-143 | with nothing counted, the snapshot holds zero counters, empty tables and the live gauges |
| SnapshotTests.EmptySnapshotJson | src/test/java/info/pascalkrause/vertx/datacollector/metrics/MetricsTest.java:39-58 | such a snapshot, as JSON, is the object the test builds from zero counts and empty tables |
| SnapshotTests.ShownSmallMetrics | src/test/java/info/pascalkrause/vertx/datacollector/metrics/MetricsTest.java:39-58 | a snapshot that shows metrics whose maps have at most ten keys is exactly the object `buildExpectedMetricsObject` builds from the counters, the gauges and the whole maps |
| SnapshotTests.DisabledMetricsStayDisabled | src/test/java/info/pascalkrause/vertx/datacollector/metrics/MetricsTest.java:70-75 | a service built without metrics reports the sentinel, whatever it has done |
| Scenarios.QueueFullThenAcceptsAgain | src/test/java/info/pascalkrause/vertx/datacollector/DataCollectorServiceTestSuiteRunner.java:112-160 | with a queue of two, three submissions give two admissions and one rejection, which the client reports as `QueueLimitReached`. After one request finishes with its result, resubmitting is admitted |
| Scenarios.ErrorRecorded | src/main/java/info/pascalkrause/vertx/datacollector/metrics/MetricSnapshotFactory.java:66-70 | a result carrying an error named `name` is counted, counted as failed, and adds one under `name` |
| Scenarios.PlainSuccessRecorded | src/main/java/info/pascalkrause/vertx/datacollector/metrics/MetricSnapshotFactory.java:71-73 | a success without an error is counted, counted as succeeded, and adds one under its quality |
| Scenarios.RecordSuccesses | src/main/java/info/pascalkrause/vertx/datacollector/metrics/MetricSnapshotFactory.java:71-73 | `n` such successes add `n` to `count`, to `succeeded` and to their quality's count |
| Scenarios.RecordHandled | src/main/java/info/pascalkrause/vertx/datacollector/metrics/MetricSnapshotFactory.java:75-76 | `n` failures add `n` to `count` and to `exception` and change nothing else |
| Scenarios.RecordErrors | src/main/java/info/pascalkrause/vertx/datacollector/metrics/MetricSnapshotFactory.java:66-70 | error results add their number to `count` and to `failed`, and their names to the error map one by one |
| Scenarios.ErrorNamesCounted | src/test/java/info/pascalkrause/vertx/datacollector/metrics/MetricsTest.java:113-114 | the test's six error names give the error map `{someError: 2, someError2: 2, someError3: 1, someError4: 1}` |
| Scenarios.ErrorsOnly | src/test/java/info/pascalkrause/vertx/datacollector/metrics/MetricsTest.java:90-102 | the six error jobs give 6 jobs, all failed, with that error map |
| Scenarios.ErrorsThenSuccesses | src/test/java/info/pascalkrause/vertx/datacollector/metrics/MetricsTest.java:90-106 | adding ten plain successes gives 16 jobs, 10 succeeded, and `{test-quality: 10}` |
| Scenarios.TestOutcomesRecorded | src/test/java/info/pascalkrause/vertx/datacollector/metrics/MetricsTest.java:84-114 | the outcomes of the test's twenty jobs give 20 counted, 6 failed, 10 succeeded and 4 exceptions, with the quality and error maps the test expects |
| Scenarios.FixtureOutcomesOfTestFeatures | src/test/java/info/pascalkrause/vertx/datacollector/TestJob.java:22-27 | the fixture's `collect` hands back a handler on the test's error, succeeded and handled-exception features, with an error result, a plain result and a `RuntimeException` failure respectively |
| Scenarios.TestFeatureOutcomes | src/test/java/info/pascalkrause/vertx/datacollector/metrics/MetricsTest.java:90-110 | on the test's twenty features, in submission order, the fixture hands back six error results, ten plain results and four handled failures |
| Scenarios.RunAppend | src/main/java/info/pascalkrause/vertx/datacollector/service/DataCollectorServiceImpl.java:45-62 | running two event sequences in turn is running their concatenation, with the answers of both in order |
| Scenarios.ServeOne | src/main/java/info/pascalkrause/vertx/datacollector/service/DataCollectorServiceImpl.java:45-62 | a request served alone on an idle service with room, by a job that passes its outcome through, is answered once, frees its slot and has its outcome recorded |
| Scenarios.ServeAllRecords | src/main/java/info/pascalkrause/vertx/datacollector/service/DataCollectorServiceImpl.java:45-62 | requests served one after another are all answered, the service is idle again, and their outcomes are recorded in order |
| Scenarios.TestRunRecords | src/test/java/info/pascalkrause/vertx/datacollector/metrics/MetricsTest.java:84-111 | on a queue of 30 with metrics, the test's twenty requests through the fixture are all answered and counted as the test expects |
| Scenarios.TestTotalsSnapshot | src/test/java/info/pascalkrause/vertx/datacollector/metrics/MetricsTest.java:113-118 | with those totals and nothing in flight, the snapshot is the object the test expects, in either direction and whatever the maps' iteration order |
| Scenarios.TotalMetricsScenario | src/test/java/info/pascalkrause/vertx/datacollector/metrics/MetricsTest.java:84-119 | through the service and the fixture, the test's twenty submissions are all answered (the handler count the test reads is 20), and the snapshot is then exactly `buildExpectedMetricsObject(20, 6, 10, 4, 30, 30, 0, {test-quality: 10}, errors)`, in either slicing direction and whatever the maps' iteration order |
| Scenarios.QueueMetricsWhileBusy | src/test/java/info/pascalkrause/vertx/datacollector/metrics/MetricsTest.java:121-134 | three requests in their first phase leave nothing counted and report 27 of 30 slots free and 3 occupied, as the test expects |
| Scenarios.LeakIsPermanent | src/main/java/info/pascalkrause/vertx/datacollector/service/DataCollectorServiceImpl.java:47-50 | as written, a fixture submission with `errorName: 5` throws, leaves a queue of one full with nothing in flight, and every later submission is rejected |
| Scenarios.CorrectedReleasesSlot | src/main/java/info/pascalkrause/vertx/datacollector/service/DataCollectorServiceImpl.java:47-57 | corrected, the same submission runs both phases, its caller receives the `ClassCastException`, and the slot is free again |

## Left out

- Worker executors, the event bus, service proxies and the verticle's lifecycle are left out: they are wiring and I/O. Phase execution is modelled by explicit completion events.
- Real concurrency is left out. The check of the counter and its increment are two separate atomic steps. `addOrIncrease` does `containsKey` and then `put`, which can lose an update. Every invariant is proved for sequential interleavings only.
- `maxExecuteTimeout` is left out. It is wall-clock time handed to the executor, which only warns about overlong tasks.
- `TestJob`'s sleeping and its wait on the stopper are left out: they affect only timing. The cast done by `getLong("sleep")` is kept.
- Codahale's `MetricRegistry` is left out: counters are naturals and gauges are read directly. The `IllegalStateException` branches of the name dispatch are left out, since only the registered names reach them.
- `close` is left out: it does nothing in the service and only forwards in the client.
- `CollectorJobResult.equals`, `hashCode` and `toString` are left out. `equals` compares hash codes, and the model uses structural equality instead.
- The messages of JVM-raised exceptions (`ClassCastException`, `NullPointerException`) and of `QueueLimitReached` are left out: only their classes are modelled.
- JSON numbers are modelled as unbounded integers. Codahale counters and `AtomicLong` values are 64-bit, and their overflow is not modelled.
- Metrics.TableJson: models a JSON object as a map, so the `LinkedHashMap` order of a table's keys is not stated. Its contract states the key set and each key's count.
- The iteration order of a `ConcurrentHashMap` is a parameter (`qualityOrder`, `errorOrder`), not computed. It only decides which of equally counted keys a table keeps and in which order they appear.
- Metrics.SnapshotJson: models a JSON object as a map, so the insertion order of the snapshot's keys is not stated. `JsonObject.equals`, which the metrics tests use, ignores it as well.
- Service.MetricsSnapshot: states the tables as ranked objects (Metrics.RankedObject) rather than as one fixed object, because which of equally counted keys a table of more than ten keys keeps depends on the map's iteration order.
- Scenarios.TotalMetricsScenario: serves the twenty requests one after another, while the test submits them without waiting. This is one of the interleavings `Run` covers; the counts recorded do not depend on the order.
- Slicing.Slice: takes a natural `maxEntries`. `Stream.limit` throws on a negative limit, but the source only ever passes 10.
- Service.RunKeepsMetricsSound: requires a job whose outcomes can all be recorded. An outcome that throws during recording leaves the counters part-way (stated by Metrics.Record), so the invariant cannot hold for it.
- Scenarios.QueueFullThenAcceptsAgain: resubmits with the same feature, including `sleep`. The test's resubmission drops that key, which admission does not look at.

## Findings

| source | as written | input that shows it | evidently intended | confidence | as-written member | corrected member |
|---|---|---|---|---|---|---|
| src/main/java/info/pascalkrause/vertx/datacollector/service/DataCollectorServiceImpl.java:47-49 | `collect` is called after the slot is taken but outside `executeBlocking`. An exception it throws at once escapes to the submitter, and the slot is never released | `TestJob.collect` with feature `{"errorName": 5}` on a queue of one: `getString` throws `ClassCastException`, and every later submission is rejected | a throw from `collect` fails the first phase, so the slot is released exactly once | not executed | Scenarios.LeakIsPermanent | Scenarios.CorrectedReleasesSlot |
| src/main/java/info/pascalkrause/vertx/datacollector/service/DataCollectorServiceImpl.java:49-50 | `postCollectAction` is called inside the first phase's completion callback but outside `executeBlocking`. An exception it throws at once reaches no caller, and the slot is never released | any job whose `postCollectAction` throws at once on the first phase's outcome, for instance by reading the result of a failed outcome | a throw from `postCollectAction` fails the second phase, so the caller is answered and the slot is released | not executed | Service.AsWrittenPostCollectRaiseLeaksSlot | Service.CorrectedPostCollectRaiseReleasesSlot |
| src/main/java/info/pascalkrause/vertx/datacollector/metrics/MetricSnapshotFactory.java:42-46 | `sortDescendingAndSlice` sorts with `Map.Entry.comparingByValue()`, which is ascending, so it keeps the smallest counts | `{1:1, 2:2, 3:3, 4:4}` cut to two gives `{1:1, 2:2}`; the metrics test expects `{3:3, 4:4}` | the `maxEntries` largest counts, largest first | not executed | SliceTests.AscendingSliceKeepsSmallest | SliceTests.DescendingSliceMatchesTest |

In the model, the service is parametrised by `Policy`:

- `AsWritten` is the code as written, which Service.AsWrittenRaiseLeaksSlot states in general.
- `ReleaseOnRaise` is the corrected dispatch. For it, Service.RunKeepsSlotsMatched proves release exactly once for every job.

The snapshot takes the slicing direction as a parameter. `Ascending` is the code as written, whose tables keep the smallest counts (Slicing.SliceAscending). `Descending` is the corrected top-N (Slicing.SliceDescending).
