/**
 `DataCollectorServiceClient`: a wrapper around a service that forwards every
 call and, on the two collection calls, turns a failure carrying the message
 `queueLimitReached` into the client's own `QueueLimitReached` exception.
 Here the wrapped service is the model of `DataCollectorServiceImpl`, so a
 client step is a service step whose answers pass through `CheckForError`.
 The message of `QueueLimitReached` is not part of this model.
 */
module Client {
  import opened Optional
  import opened Json
  import opened Async
  import opened Service
  import opened Slicing

  /** `new QueueLimitReached()` as a cause. */
  const QueueLimitCause := Throwable(QueueLimitReached, None)

  /** `checkForError`: a queue-full failure becomes `QueueLimitReached`; anything else passes unchanged. */
  function CheckForError<T>(res: AsyncResult<T>): (r: AsyncResult<T>)
    ensures r.Failed? <==> res.Failed?
    ensures res.Failed? && res.cause.message == Some(QueueLimitReachedMessage) ==> r == Failed(QueueLimitCause)
    ensures !(res.Failed? && res.cause.message == Some(QueueLimitReachedMessage)) ==> r == res
  {
    if res.Failed? && res.cause.message == Some(QueueLimitReachedMessage) then Failed(QueueLimitCause) else res
  }

  /** The handler the client hands to the service: the caller's, behind `checkForError`. */
  function Translate(a: Answer): Answer
  {
    match a
    case WithResult(res) => WithResult(CheckForError(res))
    case WithoutResult(status) => WithoutResult(CheckForError(status))
  }

  /**
   `performCollectionAndGetResult` and `performCollection` through the client:
   the service takes the same step, and each answer reaches the caller
   translated.
   */
  function ClientStep(s: State, job: Job, policy: Policy, e: Event): (t: Transition)
    ensures t.next == Step(s, job, policy, e).next
    ensures t.effect.Answered? <==> Step(s, job, policy, e).effect.Answered?
    ensures t.effect.Answered? ==>
              && t.effect.ticket == Step(s, job, policy, e).effect.ticket
              && (t.effect.answer.WithResult? <==> Step(s, job, policy, e).effect.answer.WithResult?)
              && t.effect.answer == Translate(Step(s, job, policy, e).effect.answer)
    ensures !t.effect.Answered? ==> t.effect == Step(s, job, policy, e).effect
  {
    var t := Step(s, job, policy, e);
    match t.effect
    case Answered(ticket, answer) => Transition(t.next, Answered(ticket, Translate(answer)))
    case _ => t
  }

  /** A submission the service rejects reaches the client's caller as a `QueueLimitReached` failure. */
  lemma RejectionReachesClientAsQueueLimit(s: State, job: Job, policy: Policy, requestId: string,
                                           feature: JsonObject, discard: bool)
    requires s.inFlight >= s.queueSize
    ensures var t := ClientStep(s, job, policy, Submit(requestId, feature, discard));
            t.effect == Answered(s.nextTicket,
                                 if discard then WithoutResult(Failed(QueueLimitCause))
                                 else WithResult(Failed(QueueLimitCause)))
  {
  }

  /**
   Successes, and failures with any other message, reach the caller exactly as
   the service answered them. A job that fails with the message
   `queueLimitReached` itself is indistinguishable from a rejection.
   */
  lemma ClientKeepsOtherAnswers(s: State, job: Job, policy: Policy, e: Event)
    requires Step(s, job, policy, e).effect.Answered?
    requires var a := Step(s, job, policy, e).effect.answer;
             a.WithResult? ==> !(a.result.Failed? && a.result.cause.message == Some(QueueLimitReachedMessage))
    requires var a := Step(s, job, policy, e).effect.answer;
             a.WithoutResult? ==> !(a.status.Failed? && a.status.cause.message == Some(QueueLimitReachedMessage))
    ensures ClientStep(s, job, policy, e) == Step(s, job, policy, e)
  {
  }

  /** `getMetricsSnapshot` through the client: the service's snapshot, untouched. */
  function ClientMetricsSnapshot(d: Direction, s: State, qualityOrder: seq<string>, errorOrder: seq<string>): (o: JsonObject)
    requires s.metrics.Some? ==>
               Metrics.Enumerates(qualityOrder, s.metrics.value.quality.Keys)
               && Metrics.Enumerates(errorOrder, s.metrics.value.errors.Keys)
    ensures s.metrics.None? ==> o == MetricsDisabled
    ensures s.metrics.Some? ==> o.Keys == {"total", "queue"} && "Error" !in o
    ensures o == MetricsSnapshot(d, s, qualityOrder, errorOrder)
  {
    MetricsSnapshot(d, s, qualityOrder, errorOrder)
  }
}
