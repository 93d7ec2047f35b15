/**
 The expectations of the repository's tests, stated about the model and
 proved, together with the two discrepancies between the code and its
 evident intent.
 */
module Scenarios {
  import opened Optional
  import opened Json
  import opened Async
  import opened Slicing
  import opened JobResults
  import opened Metrics
  import opened Service
  import opened Client
  import opened TestJob
  import opened SnapshotTests

  /**
   The test suite's queue checks: with a queue of two, three submissions and
   no completions give two admissions and one `queueLimitReached` answer,
   which the client reports as `QueueLimitReached`; once one request has
   finished, resubmitting the rejected one is admitted.
   */
  lemma QueueFullThenAcceptsAgain(r1: string, r2: string, r3: string)
    ensures var job := Fixture();
            var f := map["feature-key" := JStr("feature-value"), SleepKey := JInt(10)];
            var s0 := Init(2, false);
            var t1 := Step(s0, job, AsWritten, Submit(r1, f, false));
            var t2 := Step(t1.next, job, AsWritten, Submit(r2, f, false));
            var t3 := Step(t2.next, job, AsWritten, Submit(r3, f, false));
            var t4 := Step(t3.next, job, AsWritten, CollectDone(0));
            var t5 := Step(t4.next, job, AsWritten, PostCollectDone(0));
            var t6 := Step(t5.next, job, AsWritten, Submit(r3, f, false));
            && t1.effect == Quiet && t2.effect == Quiet
            && t3.effect == Answered(2, WithResult(Failed(QueueFull)))
            && ClientStep(t2.next, job, AsWritten, Submit(r3, f, false)).effect
               == Answered(2, WithResult(Failed(QueueLimitCause)))
            && t5.effect == Answered(0, WithResult(Succeeded(Some(GenerateResult(r1, None)))))
            && t6.effect == Quiet && t6.next.inFlight == 2
  {
    var job := Fixture();
    var f := map["feature-key" := JStr("feature-value"), SleepKey := JInt(10)];
    assert ErrorNameKey !in f && UnhandledKey !in f && HandledKey !in f && ReadsAsLong(f, SleepKey);
    var s0 := Init(2, false);
    var t1 := Step(s0, job, AsWritten, Submit(r1, f, false));
    assert t1.next.inFlight == 1;
    var t2 := Step(t1.next, job, AsWritten, Submit(r2, f, false));
    assert t2.next.inFlight == 2;
    var t3 := Step(t2.next, job, AsWritten, Submit(r3, f, false));
    assert t3.next.pending == t2.next.pending;
    var t4 := Step(t3.next, job, AsWritten, CollectDone(0));
    assert t4.next.pending[0].stage == PostCollecting(Succeeded(Some(GenerateResult(r1, None))),
                                                      Succeeded(Some(GenerateResult(r1, None))));
    var t5 := Step(t4.next, job, AsWritten, PostCollectDone(0));
    assert t5.next.inFlight == 1;
  }

  /** The outcome `TestJob` produces for a request whose feature names an error. */
  function ErrorOutcome(id: string, name: string): Outcome
  {
    Succeeded(Some(GenerateResult(id, Some(NewError(Some(name))))))
  }

  /** The outcome `TestJob` produces for a plain request. */
  function SuccessOutcome(id: string): Outcome
  {
    Succeeded(Some(GenerateResult(id, None)))
  }

  /** The outcome `TestJob` produces for a request whose feature asks for a handled exception. */
  const HandledOutcome: Outcome := Failed(Throwable(RuntimeException, Some("Some handled exception")))

  /** The metrics test's features: one naming an error, `FEATURE_SUCCEEDED` and `FEATURE_HANDLED_EXCEPTION`. */
  function ErrorFeature(name: string): JsonObject
  {
    map[ErrorNameKey := JStr(name)]
  }

  const SucceededFeature: JsonObject := map[]

  const HandledFeature: JsonObject := map[HandledKey := JStr("someHandledError")]

  /** What the fixture's `collect` hands back for each of the test's features. */
  lemma FixtureOutcomesOfTestFeatures(id: string, name: string)
    ensures Fixture().collect(id, ErrorFeature(name)) == Handler(ErrorOutcome(id, name))
    ensures Fixture().collect(id, SucceededFeature) == Handler(SuccessOutcome(id))
    ensures Fixture().collect(id, HandledFeature) == Handler(HandledOutcome)
  {
  }

  function RecordAll(a: Aggregator, outcomes: seq<Outcome>): Aggregator
    decreases |outcomes|
  {
    if outcomes == [] then a else RecordAll(Record(a, outcomes[0]).agg, outcomes[1..])
  }

  /** `n` copies of `x`. */
  function Repeat<T>(x: T, n: nat): (r: seq<T>)
    ensures |r| == n
    ensures forall i | 0 <= i < n :: r[i] == x
  {
    if n == 0 then [] else [x] + Repeat(x, n - 1)
  }

  /** `m` with `n` more under `key`. */
  function Bump(m: map<string, nat>, key: string, n: nat): map<string, nat>
  {
    m[key := (if key in m then m[key] else 0) + n]
  }

  lemma RecordAllAppend(a: Aggregator, xs: seq<Outcome>, ys: seq<Outcome>)
    ensures RecordAll(a, xs + ys) == RecordAll(RecordAll(a, xs), ys)
    decreases |xs|
  {
    if xs == [] {
      assert xs + ys == ys;
    } else {
      assert (xs + ys)[0] == xs[0];
      assert (xs + ys)[1..] == xs[1..] + ys;
      RecordAllAppend(Record(a, xs[0]).agg, xs[1..], ys);
    }
  }

  /** The fixture's success carries no error and the quality `test-quality`. */
  lemma SuccessOutcomePlain(id: string)
    ensures SuccessOutcome(id).result.Some?
    ensures GetError(SuccessOutcome(id).result.value) == Ok(None)
    ensures Quality(SuccessOutcome(id).result.value) == Some("test-quality")
  {
  }

  /** One result carrying an error named `name`: counted, failed, and one more under `name`. */
  lemma ErrorRecorded(a: Aggregator, id: string, name: string)
    ensures Record(a, ErrorOutcome(id, name))
            == Recorded(a.(jobs := a.jobs.(count := a.jobs.count + 1, failed := a.jobs.failed + 1),
                           errors := AddOrIncrease(a.errors, name)))
  {
    GetErrorRoundTrip(Some(id), Some("test-src"), Some("test-quality"), Some("test-created"),
                      Some(map[]), name);
  }

  lemma RecordAllCons(a: Aggregator, o: Outcome, rest: seq<Outcome>)
    ensures RecordAll(a, [o] + rest) == RecordAll(Record(a, o).agg, rest)
  {
    assert ([o] + rest)[1..] == rest;
  }

  lemma BumpAfterIncrease(m: map<string, nat>, key: string, n: nat)
    requires n > 0
    ensures Bump(AddOrIncrease(m, key), key, n - 1) == Bump(m, key, n)
  {
  }

  /** One success without an error: counted, succeeded, and one more under its quality `q`. */
  lemma PlainSuccessRecorded(a: Aggregator, o: Outcome, q: string)
    requires o.Succeeded? && o.result.Some? && GetError(o.result.value) == Ok(None) && Quality(o.result.value) == Some(q)
    ensures Record(a, o).agg
            == a.(jobs := a.jobs.(count := a.jobs.count + 1, succeeded := a.jobs.succeeded + 1),
                  quality := AddOrIncrease(a.quality, q))
  {
  }

  /** Successes without an error pile up under their quality `q`. */
  lemma {:induction false} RecordSuccesses(a: Aggregator, o: Outcome, q: string, n: nat)
    requires o.Succeeded? && o.result.Some? && GetError(o.result.value) == Ok(None) && Quality(o.result.value) == Some(q)
    requires n > 0
    ensures RecordAll(a, Repeat(o, n))
            == a.(jobs := a.jobs.(count := a.jobs.count + n, succeeded := a.jobs.succeeded + n),
                  quality := Bump(a.quality, q, n))
    decreases n
  {
    PlainSuccessRecorded(a, o, q);
    var b := Record(a, o).agg;
    RecordAllCons(a, o, Repeat(o, n - 1));
    if n > 1 {
      RecordSuccesses(b, o, q, n - 1);
      BumpAfterIncrease(a.quality, q, n);
    }
  }

  /** Handled exceptions of the fixture are counted as exceptions only. */
  lemma {:induction false} RecordHandled(a: Aggregator, n: nat)
    ensures RecordAll(a, Repeat(HandledOutcome, n))
            == a.(jobs := a.jobs.(count := a.jobs.count + n, exception := a.jobs.exception + n))
    decreases n
  {
    if n > 0 {
      RecordAllCons(a, HandledOutcome, Repeat(HandledOutcome, n - 1));
      RecordHandled(Record(a, HandledOutcome).agg, n - 1);
    }
  }

  /** The results of jobs that reported errors with the given names, in order. */
  function ErrorOutcomes(id: string, names: seq<string>): (r: seq<Outcome>)
    ensures |r| == |names|
    ensures forall i | 0 <= i < |names| :: r[i] == ErrorOutcome(id, names[i])
  {
    if names == [] then [] else [ErrorOutcome(id, names[0])] + ErrorOutcomes(id, names[1..])
  }

  /** `addOrIncrease` applied for each name in turn. */
  function AddAll(m: map<string, nat>, names: seq<string>): map<string, nat>
    decreases |names|
  {
    if names == [] then m else AddAll(AddOrIncrease(m, names[0]), names[1..])
  }

  /** Error results are counted as failed, and their names are added to the error map one by one. */
  lemma {:induction false} RecordErrors(a: Aggregator, id: string, names: seq<string>)
    ensures RecordAll(a, ErrorOutcomes(id, names))
            == a.(jobs := a.jobs.(count := a.jobs.count + |names|, failed := a.jobs.failed + |names|),
                  errors := AddAll(a.errors, names))
    decreases |names|
  {
    if names != [] {
      ErrorRecorded(a, id, names[0]);
      RecordAllCons(a, ErrorOutcome(id, names[0]), ErrorOutcomes(id, names[1..]));
      RecordErrors(Record(a, ErrorOutcome(id, names[0])).agg, id, names[1..]);
    }
  }

  /** The error names of the metrics test, in submission order. */
  const ErrorNames: seq<string> :=
    ["someError", "someError2", "someError", "someError2", "someError3", "someError4"]

  lemma ErrorNamesCounted()
    ensures AddAll(map[], ErrorNames)
            == map["someError" := 2, "someError2" := 2, "someError3" := 1, "someError4" := 1]
  {
    var n := ErrorNames;
    assert n[1..] == ["someError2", "someError", "someError2", "someError3", "someError4"];
    assert n[2..] == ["someError", "someError2", "someError3", "someError4"];
    assert n[3..] == ["someError2", "someError3", "someError4"];
    assert n[4..] == ["someError3", "someError4"];
    assert n[5..] == ["someError4"];
    assert n[6..] == [];
    var m1 := AddOrIncrease(map[], "someError");
    assert m1 == map["someError" := 1];
    var m2 := AddOrIncrease(m1, "someError2");
    assert m2 == map["someError" := 1, "someError2" := 1];
    var m3 := AddOrIncrease(m2, "someError");
    assert m3 == map["someError" := 2, "someError2" := 1];
    var m4 := AddOrIncrease(m3, "someError2");
    assert m4 == map["someError" := 2, "someError2" := 2];
    var m5 := AddOrIncrease(m4, "someError3");
    assert m5 == map["someError" := 2, "someError2" := 2, "someError3" := 1];
    var m6 := AddOrIncrease(m5, "someError4");
    assert AddAll(m6, n[6..]) == m6;
    assert AddAll(m5, n[5..]) == m6;
    assert AddAll(m4, n[4..]) == m6;
    assert AddAll(m3, n[3..]) == m6;
    assert AddAll(m2, n[2..]) == m6;
    assert AddAll(m1, n[1..]) == m6;
  }

  /** The error map the metrics test expects. */
  const ExpectedErrors: map<string, nat> :=
    map["someError" := 2, "someError2" := 2, "someError3" := 1, "someError4" := 1]

  lemma ErrorsOnly(id: string)
    ensures RecordAll(Fresh(), ErrorOutcomes(id, ErrorNames)) == Aggregator(Counters(6, 6, 0, 0), map[], ExpectedErrors)
  {
    RecordErrors(Fresh(), id, ErrorNames);
    ErrorNamesCounted();
  }

  lemma ErrorsThenSuccesses(id: string)
    ensures RecordAll(Fresh(), ErrorOutcomes(id, ErrorNames) + Repeat(SuccessOutcome(id), 10))
            == Aggregator(Counters(16, 6, 10, 0), map["test-quality" := 10], ExpectedErrors)
  {
    var a6 := Aggregator(Counters(6, 6, 0, 0), map[], ExpectedErrors);
    ErrorsOnly(id);
    RecordAllAppend(Fresh(), ErrorOutcomes(id, ErrorNames), Repeat(SuccessOutcome(id), 10));
    SuccessOutcomePlain(id);
    RecordSuccesses(a6, SuccessOutcome(id), "test-quality", 10);
    assert Bump(map[], "test-quality", 10) == map["test-quality" := 10];
  }

  /**
   The metrics test's mix of jobs: two each of `someError` and `someError2`,
   one each of `someError3` and `someError4`, ten successes and four handled
   exceptions give 20 jobs, 6 failed, 10 succeeded and 4 exceptions, with the
   error and quality maps the test expects, whatever the request id.
   */
  lemma TestOutcomesRecorded(id: string)
    ensures RecordAll(Fresh(), ErrorOutcomes(id, ErrorNames) + Repeat(SuccessOutcome(id), 10) + Repeat(HandledOutcome, 4))
            == Aggregator(Counters(20, 6, 10, 4), map["test-quality" := 10], ExpectedErrors)
  {
    var first := ErrorOutcomes(id, ErrorNames) + Repeat(SuccessOutcome(id), 10);
    ErrorsThenSuccesses(id);
    RecordAllAppend(Fresh(), first, Repeat(HandledOutcome, 4));
    RecordHandled(RecordAll(Fresh(), first), 4);
  }

  /** One request served alone through `collect`: submitted, then its first and its second phase complete. */
  function Serve(ticket: nat, id: string, feature: JsonObject): seq<Event>
  {
    [Submit(id, feature, true), CollectDone(ticket), PostCollectDone(ticket)]
  }

  /** Requests served one after another, with consecutive tickets. */
  function ServeAll(ticket: nat, id: string, features: seq<JsonObject>): seq<Event>
    decreases |features|
  {
    if features == [] then [] else Serve(ticket, id, features[0]) + ServeAll(ticket + 1, id, features[1..])
  }

  /** How many handlers are called among `effects`. */
  function Answers(effects: seq<Effect>): nat
  {
    if effects == [] then 0 else (if effects[0].Answered? then 1 else 0) + Answers(effects[1..])
  }

  lemma {:induction false} AnswersAppend(xs: seq<Effect>, ys: seq<Effect>)
    ensures Answers(xs + ys) == Answers(xs) + Answers(ys)
    decreases |xs|
  {
    if xs == [] {
      assert xs + ys == ys;
    } else {
      assert (xs + ys)[1..] == xs[1..] + ys;
      AnswersAppend(xs[1..], ys);
    }
  }

  /** Running two event sequences in turn is running their concatenation. */
  lemma {:induction false} RunAppend(s: State, job: Job, policy: Policy, xs: seq<Event>, ys: seq<Event>)
    ensures var first := Run(s, job, policy, xs);
            var second := Run(first.0, job, policy, ys);
            Run(s, job, policy, xs + ys) == (second.0, first.1 + second.1)
    decreases |xs|
  {
    if xs == [] {
      assert xs + ys == ys;
      assert [] + Run(s, job, policy, ys).1 == Run(s, job, policy, ys).1;
    } else {
      var t := Step(s, job, policy, xs[0]);
      assert (xs + ys)[0] == xs[0];
      assert (xs + ys)[1..] == xs[1..] + ys;
      RunAppend(t.next, job, policy, xs[1..], ys);
      var first := Run(t.next, job, policy, xs[1..]);
      var second := Run(first.0, job, policy, ys);
      assert [t.effect] + (first.1 + second.1) == ([t.effect] + first.1) + second.1;
    }
  }

  /** The outcomes `job.collect` hands back for `features`, in order. */
  function CollectOutcomes(job: Job, id: string, features: seq<JsonObject>): (r: seq<Outcome>)
    requires forall i | 0 <= i < |features| :: job.collect(id, features[i]).Handler?
    ensures |r| == |features|
    ensures forall i | 0 <= i < |features| :: r[i] == job.collect(id, features[i]).outcome
    decreases |features|
  {
    if features == [] then []
    else [job.collect(id, features[0]).outcome] + CollectOutcomes(job, id, features[1..])
  }

  /** A job whose second phase hands back the first phase's outcome, as the fixture's does. */
  ghost predicate PassesThrough(job: Job)
  {
    forall o :: job.postCollectAction(o) == Handler(o)
  }

  /** Three events run in turn. */
  lemma RunThree(s: State, job: Job, policy: Policy, e0: Event, e1: Event, e2: Event)
    ensures var t0 := Step(s, job, policy, e0);
            var t1 := Step(t0.next, job, policy, e1);
            var t2 := Step(t1.next, job, policy, e2);
            Run(s, job, policy, [e0, e1, e2]) == (t2.next, [t0.effect, t1.effect, t2.effect])
  {
    var t0 := Step(s, job, policy, e0);
    var t1 := Step(t0.next, job, policy, e1);
    var t2 := Step(t1.next, job, policy, e2);
    assert [e2][1..] == [] && [t2.effect] + [] == [t2.effect];
    assert Run(t1.next, job, policy, [e2]) == (t2.next, [t2.effect]);
    assert [e1, e2][1..] == [e2] && [t1.effect] + [t2.effect] == [t1.effect, t2.effect];
    assert Run(t0.next, job, policy, [e1, e2]) == (t2.next, [t1.effect, t2.effect]);
    assert [e0, e1, e2][1..] == [e1, e2] && [t0.effect] + [t1.effect, t2.effect] == [t0.effect, t1.effect, t2.effect];
  }

  /** A submission to an idle service with room whose job hands back a handler: admitted quietly as the next ticket. */
  lemma SubmitToIdle(s: State, job: Job, id: string, feature: JsonObject, o: Outcome)
    requires s.pending == map[] && s.inFlight == 0 < s.queueSize
    requires job.collect(id, feature) == Handler(o)
    ensures Step(s, job, AsWritten, Submit(id, feature, true))
            == Transition(s.(inFlight := 1, nextTicket := s.nextTicket + 1,
                             pending := map[s.nextTicket := Request(id, true, Collecting(o))]), Quiet)
  {
  }

  /** The first phase of the only request completes, and a pass-through second phase starts on its outcome. */
  lemma CollectDoneAlone(s: State, job: Job, ticket: nat, id: string, o: Outcome)
    requires s.pending == map[ticket := Request(id, true, Collecting(o))]
    requires job.postCollectAction(o) == Handler(o)
    ensures Step(s, job, AsWritten, CollectDone(ticket))
            == Transition(s.(pending := map[ticket := Request(id, true, PostCollecting(o, o))]), Quiet)
  {
  }

  /** The second phase of the only request completes: its slot is freed, its outcome recorded, its handler called. */
  lemma PostCollectDoneAlone(s: State, job: Job, ticket: nat, id: string, o: Outcome)
    requires s.pending == map[ticket := Request(id, true, PostCollecting(o, o))]
    requires s.metrics.Some? && Record(s.metrics.value, o).Recorded?
    ensures var t := Step(s, job, AsWritten, PostCollectDone(ticket));
            && t.next == s.(inFlight := s.inFlight - 1, pending := map[], metrics := Some(Record(s.metrics.value, o).agg))
            && t.effect.Answered?
  {
    assert s.pending - {ticket} == map[];
  }

  /**
   A request served alone on an idle service with room, by a job whose second
   phase passes the first phase's outcome through, is answered once, leaves
   the service idle again, and has its outcome recorded.
   */
  lemma ServeOne(s: State, job: Job, id: string, feature: JsonObject, o: Outcome)
    requires s.pending == map[] && s.inFlight == 0 < s.queueSize && s.metrics.Some?
    requires job.collect(id, feature) == Handler(o) && job.postCollectAction(o) == Handler(o)
    requires Record(s.metrics.value, o).Recorded?
    ensures var r := Run(s, job, AsWritten, Serve(s.nextTicket, id, feature));
            && r.0 == s.(nextTicket := s.nextTicket + 1, metrics := Some(Record(s.metrics.value, o).agg))
            && Answers(r.1) == 1
  {
    var n := s.nextTicket;
    SubmitToIdle(s, job, id, feature, o);
    var t0 := Step(s, job, AsWritten, Submit(id, feature, true));
    CollectDoneAlone(t0.next, job, n, id, o);
    var t1 := Step(t0.next, job, AsWritten, CollectDone(n));
    PostCollectDoneAlone(t1.next, job, n, id, o);
    var t2 := Step(t1.next, job, AsWritten, PostCollectDone(n));
    RunThree(s, job, AsWritten, Submit(id, feature, true), CollectDone(n), PostCollectDone(n));
    assert Serve(n, id, feature) == [Submit(id, feature, true), CollectDone(n), PostCollectDone(n)];
    AnswersOfServe(t2.effect);
  }

  lemma AnswersOfServe(e: Effect)
    requires e.Answered?
    ensures Answers([Quiet, Quiet, e]) == 1
  {
    assert [e][1..] == [];
    assert Answers([e]) == 1;
    assert [Quiet, e][1..] == [e];
    assert Answers([Quiet, e]) == 1;
    assert [Quiet, Quiet, e][1..] == [Quiet, e];
  }

  /**
   Requests served one after another, by a job that passes its outcomes
   through and whose outcomes can all be recorded: all are answered, and
   their outcomes are recorded in order.
   */
  lemma {:induction false} ServeAllRecords(s: State, job: Job, id: string, features: seq<JsonObject>)
    requires s.pending == map[] && s.inFlight == 0 < s.queueSize
    requires s.metrics.Some? && Consistent(s.metrics.value)
    requires PassesThrough(job)
    requires forall i | 0 <= i < |features| ::
               job.collect(id, features[i]).Handler? && Recordable(job.collect(id, features[i]).outcome)
    ensures var r := Run(s, job, AsWritten, ServeAll(s.nextTicket, id, features));
            && r.0 == s.(nextTicket := s.nextTicket + |features|,
                         metrics := Some(RecordAll(s.metrics.value, CollectOutcomes(job, id, features))))
            && Answers(r.1) == |features|
    decreases |features|
  {
    if features != [] {
      var o := job.collect(id, features[0]).outcome;
      var a := s.metrics.value;
      var rest := features[1..];
      var serve := Serve(s.nextTicket, id, features[0]);
      var more := ServeAll(s.nextTicket + 1, id, rest);
      assert ServeAll(s.nextTicket, id, features) == serve + more;
      RecordKeepsConsistent(a, o);
      assert job.postCollectAction(o) == Handler(o);
      ServeOne(s, job, id, features[0], o);
      var first := Run(s, job, AsWritten, serve);
      var s1 := s.(nextTicket := s.nextTicket + 1, metrics := Some(Record(a, o).agg));
      assert first.0 == s1;
      assert forall i | 0 <= i < |rest| :: rest[i] == features[i + 1];
      ServeAllRecords(s1, job, id, rest);
      var second := Run(s1, job, AsWritten, more);
      RunAppend(s, job, AsWritten, serve, more);
      AnswersAppend(first.1, second.1);
      assert CollectOutcomes(job, id, features) == [o] + CollectOutcomes(job, id, rest);
      RecordAllCons(a, o, CollectOutcomes(job, id, rest));
    }
  }

  /** The metrics test's twenty submissions, in its order. */
  const TestFeatures: seq<JsonObject> :=
    seq(|ErrorNames|, i requires 0 <= i < |ErrorNames| => ErrorFeature(ErrorNames[i]))
    + Repeat(SucceededFeature, 10) + Repeat(HandledFeature, 4)

  /** The fixture hands back a handler for each of the test's features, with the outcomes the test counts. */
  lemma TestFeatureOutcomes(id: string)
    ensures forall i | 0 <= i < |TestFeatures| :: Fixture().collect(id, TestFeatures[i]).Handler?
    ensures CollectOutcomes(Fixture(), id, TestFeatures)
            == ErrorOutcomes(id, ErrorNames) + Repeat(SuccessOutcome(id), 10) + Repeat(HandledOutcome, 4)
  {
    var expected := ErrorOutcomes(id, ErrorNames) + Repeat(SuccessOutcome(id), 10) + Repeat(HandledOutcome, 4);
    assert |TestFeatures| == |expected| == 20;
    forall i | 0 <= i < 20
      ensures Fixture().collect(id, TestFeatures[i]) == Handler(expected[i])
    {
      TestFeatureAt(id, i);
      if i < 6 {
        FixtureOutcomesOfTestFeatures(id, ErrorNames[i]);
      } else {
        FixtureOutcomesOfTestFeatures(id, "");
      }
    }
  }

  /** The `i`-th test feature and the outcome the test counts for it. */
  lemma TestFeatureAt(id: string, i: int)
    requires 0 <= i < 20
    ensures var expected := ErrorOutcomes(id, ErrorNames) + Repeat(SuccessOutcome(id), 10) + Repeat(HandledOutcome, 4);
            && |TestFeatures| == |expected| == 20
            && (i < 6 ==> TestFeatures[i] == ErrorFeature(ErrorNames[i]) && expected[i] == ErrorOutcome(id, ErrorNames[i]))
            && (6 <= i < 16 ==> TestFeatures[i] == SucceededFeature && expected[i] == SuccessOutcome(id))
            && (16 <= i ==> TestFeatures[i] == HandledFeature && expected[i] == HandledOutcome)
  {
    FeatureAt(i);
    ExpectedAt(id, i);
  }

  /** The `i`-th test feature: six named errors, ten successes, four handled exceptions. */
  lemma FeatureAt(i: int)
    requires 0 <= i < 20
    ensures |TestFeatures| == 20
    ensures i < 6 ==> TestFeatures[i] == ErrorFeature(ErrorNames[i])
    ensures 6 <= i < 16 ==> TestFeatures[i] == SucceededFeature
    ensures 16 <= i ==> TestFeatures[i] == HandledFeature
  {
  }

  /** The `i`-th outcome the test counts, in the same order as the features. */
  lemma ExpectedAt(id: string, i: int)
    requires 0 <= i < 20
    ensures var expected := ErrorOutcomes(id, ErrorNames) + Repeat(SuccessOutcome(id), 10) + Repeat(HandledOutcome, 4);
            && |expected| == 20
            && (i < 6 ==> expected[i] == ErrorOutcome(id, ErrorNames[i]))
            && (6 <= i < 16 ==> expected[i] == SuccessOutcome(id))
            && (16 <= i ==> expected[i] == HandledOutcome)
  {
  }

  /** The error object the metrics test expects. */
  const ExpectedErrorsJson: JsonObject :=
    map["someError" := JInt(2), "someError2" := JInt(2), "someError3" := JInt(1), "someError4" := JInt(1)]

  /** The aggregator after the metrics test's twenty jobs. */
  const TestTotals := Aggregator(Counters(20, 6, 10, 4), map["test-quality" := 10], ExpectedErrors)

  /** The fixture passes its first phase's outcome through, and all its outcomes can be recorded. */
  lemma FixturePassesThrough()
    ensures PassesThrough(Fixture()) && RecordableJob(Fixture())
  {
    FixtureIsRecordable();
  }

  /** Served one after another on a queue of 30, the test's twenty requests are all answered and counted. */
  lemma TestRunRecords(id: string)
    ensures var r := Run(Init(30, true), Fixture(), AsWritten, ServeAll(0, id, TestFeatures));
            && Answers(r.1) == 20
            && r.0 == Init(30, true).(nextTicket := 20, metrics := Some(TestTotals))
  {
    TestFeatureOutcomes(id);
    FixturePassesThrough();
    FreshIsConsistent();
    ServeAllRecords(Init(30, true), Fixture(), id, TestFeatures);
    TestOutcomesRecorded(id);
  }

  /** With the test's totals counted and nothing in flight, the snapshot is the object the test expects. */
  lemma TestTotalsSnapshot(s: State, d: Direction, qualityOrder: seq<string>, errorOrder: seq<string>)
    requires s.metrics == Some(TestTotals) && s.queueSize == 30 && s.inFlight == 0
    requires Enumerates(qualityOrder, {"test-quality"}) && Enumerates(errorOrder, ExpectedErrors.Keys)
    ensures MetricsSnapshot(d, s, qualityOrder, errorOrder)
            == ExpectedMetrics(20, 6, 10, 4, 30, 30, 0, map["test-quality" := JInt(10)], ExpectedErrorsJson)
  {
    var o := MetricsSnapshot(d, s, qualityOrder, errorOrder);
    assert ShowsMetrics(d, o, TestTotals, 30, 0);
    TestTotalsShown();
    ShownSmallMetrics(d, o, TestTotals, 30, 0);
  }

  /** The test's totals are small enough to be shown whole, and shown they are the test's objects. */
  lemma TestTotalsShown()
    ensures |TestTotals.quality| == 1 && |TestTotals.errors| == 4
    ensures CountsJson(TestTotals.quality) == map["test-quality" := JInt(10)]
    ensures CountsJson(TestTotals.errors) == ExpectedErrorsJson
  {
    assert TestTotals.errors.Keys == {"someError", "someError2", "someError3", "someError4"};
  }

  /**
   The metrics test's total scenario through the service: on a queue of 30
   with metrics enabled, the test's twenty fixture requests, served one after
   another, are all answered, and the snapshot then is exactly the object the
   test expects, in either slicing direction and whatever the maps' iteration
   order.
   */
  lemma TotalMetricsScenario(id: string, d: Direction, qualityOrder: seq<string>, errorOrder: seq<string>)
    requires Enumerates(qualityOrder, {"test-quality"}) && Enumerates(errorOrder, ExpectedErrors.Keys)
    ensures var r := Run(Init(30, true), Fixture(), AsWritten, ServeAll(0, id, TestFeatures));
            && Answers(r.1) == 20
            && r.0.metrics == Some(TestTotals)
            && MetricsSnapshot(d, r.0, qualityOrder, errorOrder)
               == ExpectedMetrics(20, 6, 10, 4, 30, 30, 0, map["test-quality" := JInt(10)], ExpectedErrorsJson)
  {
    TestRunRecords(id);
    TestTotalsSnapshot(Run(Init(30, true), Fixture(), AsWritten, ServeAll(0, id, TestFeatures)).0,
                       d, qualityOrder, errorOrder);
  }

  /** Three requests still in their first phase occupy three of thirty slots, and nothing is counted yet. */
  lemma QueueMetricsWhileBusy(id: string, d: Direction)
    ensures var f := map["stop" := JStr("stop")];
            var r := Run(Init(30, true), Fixture(), AsWritten,
                         [Submit(id, f, true), Submit(id, f, true), Submit(id, f, true)]);
            && r.0.metrics == Some(Fresh())
            && MetricsSnapshot(d, r.0, [], [])
               == SnapshotJson(Snapshot(Counters(0, 0, 0, 0), [], [], Queue(30, 27, 3)))
               == ExpectedMetrics(0, 0, 0, 0, 30, 27, 3, map[], map[])
  {
    var f := map["stop" := JStr("stop")];
    var e := Submit(id, f, true);
    var r := Run(Init(30, true), Fixture(), AsWritten, [e, e, e]);
    SubmissionsTakeSlots(Init(30, true), Fixture(), AsWritten, [e, e, e]);
    RunKeepsConfiguration(Init(30, true), Fixture(), AsWritten, [e, e, e]);
    UncountedSnapshot(r.0, d);
    EmptySnapshotJson(30, 27, 3);
  }

  /** The feature that makes `TestJob.collect` throw at once: an `errorName` that is not a string. */
  const BadFeature: JsonObject := map["errorName" := JInt(5)]

  /**
   As written, the throwing `collect` leaks the slot of a queue of one: the
   exception reaches the submitter, no request is in flight, and every later
   submission is rejected, whatever else happens.
   */
  lemma LeakIsPermanent(events: seq<Event>)
    ensures var t := Step(Init(1, false), Fixture(), AsWritten, Submit("1", BadFeature, false));
            && t.effect == Raised(ClassCastFault)
            && t.next.inFlight == 1 && t.next.pending == map[]
            && Run(t.next, Fixture(), AsWritten, events).0.inFlight == 1
            && forall i | 0 <= i < |Run(t.next, Fixture(), AsWritten, events).1|
                            && Run(t.next, Fixture(), AsWritten, events).1[i].Answered? ::
                 IsRejection(Run(t.next, Fixture(), AsWritten, events).1[i].answer)
  {
    var t := Step(Init(1, false), Fixture(), AsWritten, Submit("1", BadFeature, false));
    assert GetString(BadFeature, ErrorNameKey) == ClassCast;
    LeakedServiceRejectsForever(t.next, Fixture(), AsWritten, events);
  }

  /**
   With the throw turned into a failed first phase, the same submission runs
   both phases, its caller receives the `ClassCastException`, and the slot is
   free again.
   */
  lemma CorrectedReleasesSlot()
    ensures var s0 := Init(1, false);
            var t1 := Step(s0, Fixture(), ReleaseOnRaise, Submit("1", BadFeature, false));
            var t2 := Step(t1.next, Fixture(), ReleaseOnRaise, CollectDone(0));
            var t3 := Step(t2.next, Fixture(), ReleaseOnRaise, PostCollectDone(0));
            && t1.effect == Quiet
            && t3.effect == Answered(0, WithResult(Failed(ClassCastFault)))
            && t3.next.inFlight == 0 && t3.next.pending == map[]
  {
    assert GetString(BadFeature, ErrorNameKey) == ClassCast;
  }
}
