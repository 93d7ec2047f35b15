/**
 `TestJob`, the repository's test fixture, as a concrete job oracle. Its
 first phase builds a result for the request (with an `Error` named by the
 feature's `errorName`, when present) and fails when the feature asks for a
 handled or unhandled exception; its second phase passes the first phase's
 outcome through. Sleeping and waiting on the stopper only affect timing and
 are left out, apart from the cast `getLong("sleep")` performs.
 */
module TestJob {
  import opened Optional
  import opened Json
  import opened Async
  import opened JobResults
  import opened Metrics
  import opened Service

  const SleepKey := "sleep"
  const ErrorNameKey := "errorName"
  const HandledKey := "handledException"
  const UnhandledKey := "unhandledException"

  /** `generateResult(requestId, error)`. */
  function GenerateResult(requestId: string, error: Option<Error>): JobResult
  {
    New(Some(requestId), Some("test-src"), Some("test-quality"), Some("test-created"), Some(map[]), error)
  }

  /** `JsonObject.getLong` casts to `Number`: JSON null and integers read, anything else fails the cast. */
  predicate ReadsAsLong(feature: JsonObject, key: string)
  {
    key !in feature || feature[key].JNull? || feature[key].JInt?
  }

  /** What running the handler `collect` returns produces. */
  function CollectOutcome(feature: JsonObject, result: JobResult): Outcome
  {
    if !ReadsAsLong(feature, SleepKey) then Failed(ClassCastFault)
    else if UnhandledKey in feature then Failed(Throwable(RuntimeException, Some("Some unhandled excpetion")))
    else if HandledKey in feature then Failed(Throwable(RuntimeException, Some("Some handled exception")))
    else Succeeded(Some(result))
  }

  /** A generated result reads back its request id, its quality, and the error it was built with. */
  lemma GeneratedResultReads(requestId: string, name: Option<string>)
    ensures var r := GenerateResult(requestId, Some(NewError(name)));
            && RequestId(r) == Some(requestId) && Quality(r) == Some("test-quality")
            && GetError(r) == Ok(if name.Some? then Some(NewError(name)) else None)
    ensures var r := GenerateResult(requestId, None);
            && RequestId(r) == Some(requestId) && Quality(r) == Some("test-quality")
            && GetError(r) == Ok(None)
  {
    ErrorJsonRoundTrip(name);
  }

  /**
   `collect`: the result is built before the handler is returned, so a
   non-string `errorName` throws at once; everything else happens when the
   handler runs.
   */
  function Collect(requestId: string, feature: JsonObject): (i: Invocation)
    ensures i.Raises? <==> ErrorNameKey in feature && GetString(feature, ErrorNameKey).ClassCast?
    ensures i.Handler? ==>
              (i.outcome.Failed? <==> !ReadsAsLong(feature, SleepKey) || UnhandledKey in feature || HandledKey in feature)
    ensures i.Handler? && !ReadsAsLong(feature, SleepKey) ==> i.outcome == Failed(ClassCastFault)
    ensures i.Handler? && ReadsAsLong(feature, SleepKey) && UnhandledKey in feature ==>
              i.outcome == Failed(Throwable(RuntimeException, Some("Some unhandled excpetion")))
    ensures i.Handler? && ReadsAsLong(feature, SleepKey) && UnhandledKey !in feature && HandledKey in feature ==>
              i.outcome == Failed(Throwable(RuntimeException, Some("Some handled exception")))
    ensures i.Handler? && i.outcome.Succeeded? ==>
              && i.outcome.result.Some?
              && RequestId(i.outcome.result.value) == Some(requestId)
              && Quality(i.outcome.result.value) == Some("test-quality")
              && GetError(i.outcome.result.value) == Ok(
                   if GetString(feature, ErrorNameKey).Ok? && GetString(feature, ErrorNameKey).value.Some?
                   then Some(NewError(GetString(feature, ErrorNameKey).value))
                   else None)
  {
    if ErrorNameKey !in feature then
      GeneratedResultReads(requestId, None);
      Handler(CollectOutcome(feature, GenerateResult(requestId, None)))
    else
      match GetString(feature, ErrorNameKey)
      case ClassCast => Raises(ClassCastFault)
      case Ok(name) =>
        GeneratedResultReads(requestId, name);
        Handler(CollectOutcome(feature, GenerateResult(requestId, Some(NewError(name)))))
  }

  /** `postCollectAction`: the first phase's outcome, passed through. */
  function PostCollectAction(result: Outcome): Invocation
  {
    Handler(result)
  }

  function Fixture(): Job
  {
    Job(Collect, PostCollectAction)
  }

  /** Every outcome of the fixture can be recorded: its results always carry a quality and a readable error. */
  lemma FixtureIsRecordable()
    ensures RecordableJob(Fixture())
  {
    var job := Fixture();
    forall requestId, feature | job.collect(requestId, feature).Handler?
      ensures Recordable(job.collect(requestId, feature).outcome)
    {
      var i := Collect(requestId, feature);
      if i.outcome.Succeeded? {
        assert GetError(i.outcome.result.value).Ok?;
      }
    }
  }
}
