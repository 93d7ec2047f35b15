/**
 `DataCollectorServiceImpl`: admission control and two-phase dispatch.

 A submission is admitted while the in-flight counter is below the queue
 size; it takes a slot, and the job's `collect` handler and then its
 `postCollectAction` handler run on worker pools. When the second phase
 completes the slot is released, the outcome is recorded in the metrics
 (when enabled) and the caller's handler receives it. A submission that
 finds the queue full fails at once with `queueLimitReached`.

 The worker pools are replaced by explicit completion events, so the model
 covers every sequential interleaving of submissions and completions. In the
 source the check `currentQueueSize.intValue() < queueSize` and the
 following `incrementAndGet` are two separate atomic steps, so concurrent
 submissions can overshoot the queue size; the model, being sequential, does
 not cover that race.

 The job is an oracle: calling `collect` or `postCollectAction` either
 returns a handler (modelled by the outcome its run produces; an exception
 thrown inside it becomes a failed outcome, as `executeBlocking` does), or
 throws at once on the calling thread. The source calls both methods outside
 `executeBlocking`, after the slot was taken, so such a throw is never
 turned into an outcome and the slot is never released. `AsWritten` models
 that; `ReleaseOnRaise` is the evidently intended behaviour, in which the
 throw becomes a failed outcome of its phase.
 */
module Service {
  import opened Optional
  import opened Json
  import opened Async
  import opened JobResults
  import opened Metrics
  import opened Slicing

  /** `DataCollectorService.ERROR_QUEUE_LIMIT_REACHED`. */
  const QueueLimitReachedMessage := "queueLimitReached"

  /** The cause of `Future.failedFuture(ERROR_QUEUE_LIMIT_REACHED)`. */
  const QueueFull := Throwable(NoStackTraceThrowable, Some(QueueLimitReachedMessage))

  /** The snapshot returned when metrics are disabled. */
  const MetricsDisabled: JsonObject := map["Error" := JStr("Metrics are not enabled")]

  /** Java's `int`, the type of the queue size. */
  type Int32 = x: int | -0x8000_0000 <= x < 0x8000_0000

  /** What calling one of the job's two methods does: hand back a handler, or throw at once. */
  datatype Invocation = Handler(outcome: Outcome) | Raises(cause: Throwable)

  /** `CollectorJob`, as an oracle. */
  datatype Job = Job(collect: (string, JsonObject) -> Invocation,
                     postCollectAction: Outcome -> Invocation)

  /** Where an admitted request is: its first phase running, or its second phase running on the first one's outcome. */
  datatype Stage =
    | Collecting(phase1: Outcome)
    | PostCollecting(phase1: Outcome, phase2: Outcome)

  /** An admitted request; `discard` marks one submitted through `collect`, whose caller gets no result value. */
  datatype Request = Request(requestId: string, discard: bool, stage: Stage)

  /** The service: its queue size, the in-flight counter, the metrics (when enabled) and the admitted requests by ticket. */
  datatype State = State(queueSize: Int32, inFlight: int, metrics: Option<Aggregator>,
                         pending: map<nat, Request>, nextTicket: nat)

  /** A submission through `collectAndReceive` (or `collect`, when `discard`), or the completion of a phase. */
  datatype Event =
    | Submit(requestId: string, feature: JsonObject, discard: bool)
    | CollectDone(ticket: nat)
    | PostCollectDone(ticket: nat)

  /** What a caller's handler receives: the outcome itself, or (through `collect`) only its status. */
  datatype Answer = WithResult(result: Outcome) | WithoutResult(status: AsyncResult<()>)

  /** What a step makes visible: nothing, a call of a request's handler, or an exception thrown to the submitter. */
  datatype Effect = Quiet | Answered(ticket: nat, answer: Answer) | Raised(cause: Throwable)

  /** How a job method that throws at once is handled: as the source does, or by failing its phase. */
  datatype Policy = AsWritten | ReleaseOnRaise

  datatype Transition = Transition(next: State, effect: Effect)

  /** The constructor: nothing in flight, fresh metrics when enabled, none at all otherwise. */
  function Init(queueSize: Int32, enableMetrics: bool): State
  {
    State(queueSize, 0, if enableMetrics then Some(Fresh()) else None, map[], 0)
  }

  /** `collect`'s wrapping handler: a failure with its cause kept, or a success without a value. */
  function Discard(res: Outcome): (r: AsyncResult<()>)
    ensures r.Failed? <==> res.Failed?
    ensures r.Failed? ==> r.cause == res.cause
  {
    match res
    case Failed(cause) => Failed(cause)
    case Succeeded(_) => Succeeded(())
  }

  function Deliver(discard: bool, res: Outcome): Answer
  {
    if discard then WithoutResult(Discard(res)) else WithResult(res)
  }

  /**
   A submission. With the queue full it is answered at once with
   `queueLimitReached`, and neither the counter, the metrics nor the job are
   touched. Otherwise it takes a slot and the job's `collect` is called.
   */
  function Admit(s: State, job: Job, policy: Policy, requestId: string, feature: JsonObject,
                 discard: bool): (t: Transition)
    ensures t.next.queueSize == s.queueSize && t.next.metrics == s.metrics
    ensures t.next.nextTicket == s.nextTicket + 1
    ensures s.inFlight >= s.queueSize ==>
              && t.next.inFlight == s.inFlight
              && t.next.pending == s.pending
              && t.effect == Answered(s.nextTicket, Deliver(discard, Failed(QueueFull)))
    ensures s.inFlight < s.queueSize ==> t.next.inFlight == s.inFlight + 1
    ensures s.inFlight < s.queueSize && job.collect(requestId, feature).Handler? ==>
              && t.next.pending == s.pending[s.nextTicket :=
                   Request(requestId, discard, Collecting(job.collect(requestId, feature).outcome))]
              && t.effect == Quiet
  {
    var ticket := s.nextTicket;
    if s.inFlight < s.queueSize then
      var taken := s.(inFlight := s.inFlight + 1, nextTicket := ticket + 1);
      match job.collect(requestId, feature)
      case Handler(outcome) =>
        Transition(taken.(pending := s.pending[ticket := Request(requestId, discard, Collecting(outcome))]), Quiet)
      case Raises(cause) =>
        if policy.AsWritten? then
          Transition(taken, Raised(cause))
        else
          Transition(taken.(pending := s.pending[ticket := Request(requestId, discard, Collecting(Failed(cause)))]),
                     Quiet)
    else
      Transition(s.(nextTicket := ticket + 1), Answered(ticket, Deliver(discard, Failed(QueueFull))))
  }

  /**
   The first phase of request `ticket` completes: `postCollectAction` is
   called with its outcome, whether success or failure, and the second phase
   starts on it. Completions of unknown tickets change nothing. If
   `postCollectAction` throws at once, the exception escapes the completion
   callback and reaches nobody: as written the request is dropped with its
   slot still taken; corrected, the throw fails the second phase.
   */
  function FinishCollect(s: State, job: Job, policy: Policy, ticket: nat): (t: Transition)
    ensures t.effect == Quiet
    ensures t.next.inFlight == s.inFlight && t.next.metrics == s.metrics
    ensures t.next.queueSize == s.queueSize && t.next.nextTicket == s.nextTicket
    ensures t.next.pending.Keys <= s.pending.Keys
    ensures forall k | k in s.pending && k != ticket :: k in t.next.pending && t.next.pending[k] == s.pending[k]
    ensures ticket in s.pending && s.pending[ticket].stage.Collecting?
            && job.postCollectAction(s.pending[ticket].stage.phase1).Handler? ==>
              && ticket in t.next.pending
              && t.next.pending[ticket].stage == PostCollecting(
                   s.pending[ticket].stage.phase1,
                   job.postCollectAction(s.pending[ticket].stage.phase1).outcome)
    ensures ticket in s.pending && s.pending[ticket].stage.Collecting?
            && job.postCollectAction(s.pending[ticket].stage.phase1).Raises? ==>
              if policy.AsWritten? then
                t.next.pending == s.pending - {ticket}
              else
                && ticket in t.next.pending
                && t.next.pending[ticket] == s.pending[ticket].(stage := PostCollecting(
                     s.pending[ticket].stage.phase1,
                     Failed(job.postCollectAction(s.pending[ticket].stage.phase1).cause)))
    ensures !(ticket in s.pending && s.pending[ticket].stage.Collecting?) ==> t.next == s
  {
    if ticket in s.pending && s.pending[ticket].stage.Collecting? then
      var req := s.pending[ticket];
      var phase1 := req.stage.phase1;
      match job.postCollectAction(phase1)
      case Handler(phase2) =>
        Transition(s.(pending := s.pending[ticket := req.(stage := PostCollecting(phase1, phase2))]), Quiet)
      case Raises(cause) =>
        if policy.AsWritten? then
          Transition(s.(pending := s.pending - {ticket}), Quiet)
        else
          Transition(s.(pending := s.pending[ticket := req.(stage := PostCollecting(phase1, Failed(cause)))]), Quiet)
    else
      Transition(s, Quiet)
  }

  /**
   The second phase of request `ticket` completes: the slot is released, then
   the outcome is recorded (when metrics are enabled), then the handler
   receives exactly that outcome. If recording throws, the exception escapes
   the completion callback and the handler is never called.
   */
  function FinishPostCollect(s: State, ticket: nat): (t: Transition)
    ensures t.next.queueSize == s.queueSize && t.next.nextTicket == s.nextTicket
    ensures s.metrics.None? ==> t.next.metrics.None?
    ensures ticket in s.pending && s.pending[ticket].stage.PostCollecting? ==>
              && t.next.inFlight == s.inFlight - 1
              && t.next.pending == s.pending - {ticket}
              && (s.metrics.Some? ==> t.next.metrics == Some(Record(s.metrics.value, s.pending[ticket].stage.phase2).agg))
              && (t.effect.Quiet? <==>
                    s.metrics.Some? && Record(s.metrics.value, s.pending[ticket].stage.phase2).Threw?)
              && (!t.effect.Quiet? ==>
                    t.effect == Answered(ticket, Deliver(s.pending[ticket].discard, s.pending[ticket].stage.phase2)))
    ensures !(ticket in s.pending && s.pending[ticket].stage.PostCollecting?) ==> t == Transition(s, Quiet)
  {
    if ticket in s.pending && s.pending[ticket].stage.PostCollecting? then
      var req := s.pending[ticket];
      var outcome := req.stage.phase2;
      var released := s.(inFlight := s.inFlight - 1, pending := s.pending - {ticket});
      match s.metrics
      case None => Transition(released, Answered(ticket, Deliver(req.discard, outcome)))
      case Some(a) =>
        match Record(a, outcome)
        case Recorded(a') => Transition(released.(metrics := Some(a')), Answered(ticket, Deliver(req.discard, outcome)))
        case Threw(a', _) => Transition(released.(metrics := Some(a')), Quiet)
    else
      Transition(s, Quiet)
  }

  function Step(s: State, job: Job, policy: Policy, e: Event): Transition
  {
    match e
    case Submit(requestId, feature, discard) => Admit(s, job, policy, requestId, feature, discard)
    case CollectDone(ticket) => FinishCollect(s, job, policy, ticket)
    case PostCollectDone(ticket) => FinishPostCollect(s, ticket)
  }

  /** The state after a sequence of events, and the effects they made, in order. */
  function Run(s: State, job: Job, policy: Policy, events: seq<Event>): (State, seq<Effect>)
    decreases |events|
  {
    if events == [] then (s, [])
    else
      var t := Step(s, job, policy, events[0]);
      var rest := Run(t.next, job, policy, events[1..]);
      (rest.0, [t.effect] + rest.1)
  }

  /**
   The admission invariant: the counter stays between zero and the queue size
   (zero when the queue size is not positive), so it never overflows an `int`;
   it covers every admitted request, and tickets are fresh.
   */
  ghost predicate Bounded(s: State)
  {
    && 0 <= s.inFlight
    && (s.inFlight == 0 || s.inFlight <= s.queueSize)
    && |s.pending| <= s.inFlight
    && (forall t | t in s.pending :: t < s.nextTicket)
  }

  /** Release exactly once: every slot taken belongs to a request still to be released. */
  ghost predicate SlotsMatchRequests(s: State)
  {
    s.inFlight == |s.pending|
  }

  lemma InitIsBounded(queueSize: Int32, enableMetrics: bool)
    ensures Bounded(Init(queueSize, enableMetrics)) && SlotsMatchRequests(Init(queueSize, enableMetrics))
  {
  }

  /**
   The queue gauges a bounded service reports: with a non-negative queue size
   both `free` and `occupied` lie between zero and `maxSize`; with a negative
   one nothing is ever admitted, so nothing is occupied.
   */
  lemma GaugesWithinBounds(s: State)
    requires Bounded(s)
    ensures var q := QueueGauges(s.queueSize, s.inFlight);
            && (s.queueSize >= 0 ==> 0 <= q.occupied <= q.maxSize && 0 <= q.free <= q.maxSize)
            && (s.queueSize < 0 ==> q.occupied == 0 && q.free == q.maxSize)
  {
  }

  /** Admission keeps the counter within bounds: a slot is taken only below the queue size. */
  lemma AdmitKeepsBounded(s: State, job: Job, policy: Policy, requestId: string, feature: JsonObject, discard: bool)
    requires Bounded(s)
    ensures Bounded(Admit(s, job, policy, requestId, feature, discard).next)
  {
    var t := Admit(s, job, policy, requestId, feature, discard);
    assert s.nextTicket !in s.pending;
    assert |t.next.pending| <= |s.pending| + 1 by {
      assert t.next.pending.Keys <= s.pending.Keys + {s.nextTicket};
      assert |t.next.pending.Keys| <= |s.pending.Keys + {s.nextTicket}|;
    }
  }

  /** Every step keeps the counter within bounds, whatever the job does. */
  lemma {:induction false} StepKeepsBounded(s: State, job: Job, policy: Policy, e: Event)
    requires Bounded(s)
    ensures Bounded(Step(s, job, policy, e).next)
  {
    match e
    case Submit(requestId, feature, discard) =>
      AdmitKeepsBounded(s, job, policy, requestId, feature, discard);
    case CollectDone(ticket) =>
      var t := FinishCollect(s, job, policy, ticket);
      assert |t.next.pending.Keys| <= |s.pending.Keys|;
    case PostCollectDone(ticket) =>
  }

  /** Under every sequential interleaving of submissions and completions the counter stays within bounds. */
  lemma {:induction false} RunKeepsBounded(s: State, job: Job, policy: Policy, events: seq<Event>)
    requires Bounded(s)
    ensures Bounded(Run(s, job, policy, events).0)
    decreases |events|
  {
    if events != [] {
      StepKeepsBounded(s, job, policy, events[0]);
      RunKeepsBounded(Step(s, job, policy, events[0]).next, job, policy, events[1..]);
    }
  }

  /** A job neither of whose methods ever throws at once. */
  ghost predicate NeverRaises(job: Job)
  {
    && (forall requestId, feature :: job.collect(requestId, feature).Handler?)
    && (forall phase1 :: job.postCollectAction(phase1).Handler?)
  }

  /**
   Each step keeps slots and requests in step: a slot is taken exactly when a
   request is admitted and released exactly when one finishes. As written this
   needs a job that never throws at once; with `ReleaseOnRaise` it holds for
   every job.
   */
  lemma {:induction false} StepKeepsSlotsMatched(s: State, job: Job, policy: Policy, e: Event)
    requires Bounded(s) && SlotsMatchRequests(s)
    requires policy.ReleaseOnRaise? || NeverRaises(job)
    ensures SlotsMatchRequests(Step(s, job, policy, e).next)
  {
    match e
    case Submit(requestId, feature, discard) =>
      assert s.nextTicket !in s.pending;
    case CollectDone(ticket) =>
      if ticket in s.pending && s.pending[ticket].stage.Collecting? {
        assert job.postCollectAction(s.pending[ticket].stage.phase1).Handler? || policy.ReleaseOnRaise?;
      }
    case PostCollectDone(ticket) =>
  }

  /** Release exactly once, under every sequential interleaving. */
  lemma {:induction false} RunKeepsSlotsMatched(s: State, job: Job, policy: Policy, events: seq<Event>)
    requires Bounded(s) && SlotsMatchRequests(s)
    requires policy.ReleaseOnRaise? || NeverRaises(job)
    ensures SlotsMatchRequests(Run(s, job, policy, events).0)
    decreases |events|
  {
    if events != [] {
      StepKeepsBounded(s, job, policy, events[0]);
      StepKeepsSlotsMatched(s, job, policy, events[0]);
      RunKeepsSlotsMatched(Step(s, job, policy, events[0]).next, job, policy, events[1..]);
    }
  }

  /**
   As written, a `collect` that throws at once on an admitted submission
   takes a slot that no request will ever release: the exception reaches the
   submitter and the counter stays one above the requests in flight.
   */
  lemma AsWrittenRaiseLeaksSlot(s: State, job: Job, requestId: string, feature: JsonObject, discard: bool)
    requires Bounded(s) && SlotsMatchRequests(s)
    requires s.inFlight < s.queueSize && job.collect(requestId, feature).Raises?
    ensures var t := Admit(s, job, AsWritten, requestId, feature, discard);
            && t.effect == Raised(job.collect(requestId, feature).cause)
            && t.next.inFlight == |t.next.pending| + 1
  {
  }

  /**
   As written, a `postCollectAction` that throws at once drops its request
   without an answer, and the slot it holds is never released.
   */
  lemma AsWrittenPostCollectRaiseLeaksSlot(s: State, job: Job, ticket: nat)
    requires Bounded(s) && SlotsMatchRequests(s)
    requires ticket in s.pending && s.pending[ticket].stage.Collecting?
    requires job.postCollectAction(s.pending[ticket].stage.phase1).Raises?
    ensures var t := FinishCollect(s, job, AsWritten, ticket);
            && t.effect == Quiet
            && ticket !in t.next.pending
            && t.next.inFlight == |t.next.pending| + 1
  {
    var t := FinishCollect(s, job, AsWritten, ticket);
    assert |t.next.pending.Keys| == |s.pending.Keys - {ticket}| == |s.pending.Keys| - 1;
  }

  /**
   Corrected, the same throw fails the second phase: its completion releases
   the slot and the caller receives the exception.
   */
  lemma CorrectedPostCollectRaiseReleasesSlot(s: State, job: Job, ticket: nat)
    requires Bounded(s) && SlotsMatchRequests(s)
    requires ticket in s.pending && s.pending[ticket].stage.Collecting?
    requires job.postCollectAction(s.pending[ticket].stage.phase1).Raises?
    ensures var t1 := FinishCollect(s, job, ReleaseOnRaise, ticket);
            var t2 := FinishPostCollect(t1.next, ticket);
            && t2.effect == Answered(ticket, Deliver(s.pending[ticket].discard,
                                                      Failed(job.postCollectAction(s.pending[ticket].stage.phase1).cause)))
            && ticket !in t2.next.pending
            && t2.next.inFlight == s.inFlight - 1
            && SlotsMatchRequests(t2.next)
  {
    var t1 := FinishCollect(s, job, ReleaseOnRaise, ticket);
    var t2 := FinishPostCollect(t1.next, ticket);
    assert t1.next.pending.Keys == s.pending.Keys;
    assert |t2.next.pending.Keys| == |s.pending.Keys - {ticket}| == |s.pending.Keys| - 1;
  }

  /** The tickets whose handlers the effects called. */
  function AnsweredTickets(effects: seq<Effect>): set<nat>
  {
    set i | 0 <= i < |effects| && effects[i].Answered? :: effects[i].ticket
  }

  /** Each ticket's handler is called at most once. */
  ghost predicate AnsweredOnce(effects: seq<Effect>)
  {
    forall i, j | 0 <= i < j < |effects| && effects[i].Answered? && effects[j].Answered? ::
      effects[i].ticket != effects[j].ticket
  }

  /** A step answers only a fresh ticket (a rejection) or an admitted request it removes. */
  lemma StepAnswersOnce(s: State, job: Job, policy: Policy, e: Event)
    requires Bounded(s)
    ensures var t := Step(s, job, policy, e);
            t.effect.Answered? ==>
              && t.effect.ticket !in t.next.pending
              && t.effect.ticket < t.next.nextTicket
              && (t.effect.ticket in s.pending || t.effect.ticket == s.nextTicket)
  {
  }

  /** Prepending one effect keeps tickets answered once, when its ticket is not answered later. */
  lemma ConsAnsweredOnce(e: Effect, rest: seq<Effect>)
    requires AnsweredOnce(rest)
    requires e.Answered? ==> e.ticket !in AnsweredTickets(rest)
    ensures AnsweredOnce([e] + rest)
    ensures AnsweredTickets([e] + rest) == AnsweredTickets(rest) + (if e.Answered? then {e.ticket} else {})
  {
    var effects := [e] + rest;
    assert effects[0] == e;
    forall i, j | 0 <= i < j < |effects| && effects[i].Answered? && effects[j].Answered?
      ensures effects[i].ticket != effects[j].ticket
    {
      assert effects[j] == rest[j - 1];
      if i == 0 {
        assert effects[j].ticket in AnsweredTickets(rest);
      } else {
        assert effects[i] == rest[i - 1];
      }
    }
    forall k | k in AnsweredTickets(rest)
      ensures k in AnsweredTickets(effects)
    {
      var i :| 0 <= i < |rest| && rest[i].Answered? && rest[i].ticket == k;
      assert effects[i + 1] == rest[i];
    }
    forall k | k in AnsweredTickets(effects)
      ensures k in AnsweredTickets(rest) || (e.Answered? && k == e.ticket)
    {
      var i :| 0 <= i < |effects| && effects[i].Answered? && effects[i].ticket == k;
      if i > 0 {
        assert effects[i] == rest[i - 1];
      }
    }
  }

  /** A step hands out at most the next ticket and never lowers the ticket counter. */
  lemma StepKeepsTickets(s: State, job: Job, policy: Policy, e: Event)
    ensures Step(s, job, policy, e).next.pending.Keys <= s.pending.Keys + {s.nextTicket}
    ensures s.nextTicket <= Step(s, job, policy, e).next.nextTicket
  {
  }

  /** The ticket facts about one step and the rest of a run combine into the same facts about the whole run. */
  lemma AnswersCompose(s: State, t: Transition, rest: (State, seq<Effect>))
    requires t.effect.Answered? ==>
               && t.effect.ticket !in t.next.pending
               && t.effect.ticket < t.next.nextTicket
               && (t.effect.ticket in s.pending || t.effect.ticket == s.nextTicket)
    requires t.next.pending.Keys <= s.pending.Keys + {s.nextTicket}
    requires s.nextTicket <= t.next.nextTicket <= rest.0.nextTicket
    requires forall k | k in rest.0.pending :: k in t.next.pending || t.next.nextTicket <= k
    requires AnsweredOnce(rest.1)
    requires forall k | k in AnsweredTickets(rest.1) :: k !in rest.0.pending && k < rest.0.nextTicket
    requires forall k | k in AnsweredTickets(rest.1) :: k in t.next.pending || t.next.nextTicket <= k
    ensures AnsweredOnce([t.effect] + rest.1)
    ensures forall k | k in AnsweredTickets([t.effect] + rest.1) :: k !in rest.0.pending && k < rest.0.nextTicket
    ensures forall k | k in AnsweredTickets([t.effect] + rest.1) :: k in s.pending || s.nextTicket <= k
  {
    ConsAnsweredOnce(t.effect, rest.1);
  }

  /**
   Under every interleaving each handler is called at most once, never for a
   request still in flight, and only for a request admitted during the run or
   before it.
   */
  lemma {:induction false} RunAnswersOnce(s: State, job: Job, policy: Policy, events: seq<Event>)
    requires Bounded(s)
    ensures var r := Run(s, job, policy, events);
            && AnsweredOnce(r.1)
            && (forall k | k in AnsweredTickets(r.1) :: k !in r.0.pending && k < r.0.nextTicket)
            && (forall k | k in AnsweredTickets(r.1) :: k in s.pending || s.nextTicket <= k)
    decreases |events|
  {
    if events != [] {
      var t := Step(s, job, policy, events[0]);
      StepKeepsBounded(s, job, policy, events[0]);
      StepAnswersOnce(s, job, policy, events[0]);
      StepKeepsTickets(s, job, policy, events[0]);
      RunAnswersOnce(t.next, job, policy, events[1..]);
      RunKeepsTickets(t.next, job, policy, events[1..]);
      var rest := Run(t.next, job, policy, events[1..]);
      AnswersCompose(s, t, rest);
      assert Run(s, job, policy, events) == (rest.0, [t.effect] + rest.1);
    }
  }

  /** Tickets only grow, and an answered or removed request never comes back into the pending map. */
  lemma {:induction false} RunKeepsTickets(s: State, job: Job, policy: Policy, events: seq<Event>)
    requires Bounded(s)
    ensures s.nextTicket <= Run(s, job, policy, events).0.nextTicket
    ensures forall k | k in Run(s, job, policy, events).0.pending :: k in s.pending || s.nextTicket <= k
    decreases |events|
  {
    if events != [] {
      var t := Step(s, job, policy, events[0]);
      StepKeepsBounded(s, job, policy, events[0]);
      assert t.next.pending.Keys <= s.pending.Keys + {s.nextTicket};
      RunKeepsTickets(t.next, job, policy, events[1..]);
    }
  }

  /**
   A job whose outcomes the metrics can always record: its first phase produces
   recordable outcomes, and its second phase keeps them recordable.
   */
  ghost predicate RecordableJob(job: Job)
  {
    && (forall requestId, feature | job.collect(requestId, feature).Handler? ::
          Recordable(job.collect(requestId, feature).outcome))
    && (forall phase1 | Recordable(phase1) && job.postCollectAction(phase1).Handler? ::
          Recordable(job.postCollectAction(phase1).outcome))
  }

  /** Metrics are disabled or consistent, and every request in flight is heading for a recordable outcome. */
  ghost predicate MetricsSound(s: State)
  {
    && (s.metrics.Some? ==> Consistent(s.metrics.value))
    && (forall k | k in s.pending :: Recordable(s.pending[k].stage.phase1))
    && (forall k | k in s.pending && s.pending[k].stage.PostCollecting? :: Recordable(s.pending[k].stage.phase2))
  }

  /** Each step of a recordable job keeps the metrics sound. */
  lemma {:induction false} StepKeepsMetricsSound(s: State, job: Job, policy: Policy, e: Event)
    requires MetricsSound(s) && RecordableJob(job)
    ensures MetricsSound(Step(s, job, policy, e).next)
  {
    match e
    case Submit(requestId, feature, discard) =>
      if s.inFlight < s.queueSize && job.collect(requestId, feature).Handler? {
        assert Recordable(job.collect(requestId, feature).outcome);
      }
    case CollectDone(ticket) =>
      if ticket in s.pending && s.pending[ticket].stage.Collecting? {
        var phase1 := s.pending[ticket].stage.phase1;
        assert job.postCollectAction(phase1).Handler? ==> Recordable(job.postCollectAction(phase1).outcome);
      }
    case PostCollectDone(ticket) =>
      if ticket in s.pending && s.pending[ticket].stage.PostCollecting? && s.metrics.Some? {
        RecordKeepsConsistent(s.metrics.value, s.pending[ticket].stage.phase2);
      }
  }

  /**
   Under every interleaving of a recordable job the counters stay consistent:
   every job is counted under exactly one outcome and the frequency maps sum
   to the failed and succeeded counts.
   */
  lemma {:induction false} RunKeepsMetricsSound(s: State, job: Job, policy: Policy, events: seq<Event>)
    requires MetricsSound(s) && RecordableJob(job)
    ensures MetricsSound(Run(s, job, policy, events).0)
    decreases |events|
  {
    if events != [] {
      StepKeepsMetricsSound(s, job, policy, events[0]);
      RunKeepsMetricsSound(Step(s, job, policy, events[0]).next, job, policy, events[1..]);
    }
  }

  /** Metrics disabled at construction stay disabled whatever happens, and the queue size never changes. */
  lemma {:induction false} RunKeepsConfiguration(s: State, job: Job, policy: Policy, events: seq<Event>)
    ensures Run(s, job, policy, events).0.queueSize == s.queueSize
    ensures s.metrics.None? ==> Run(s, job, policy, events).0.metrics.None?
    decreases |events|
  {
    if events != [] {
      RunKeepsConfiguration(Step(s, job, policy, events[0]).next, job, policy, events[1..]);
    }
  }

  /**
   `getMetricsSnapshot`: the disabled sentinel exactly when metrics are
   disabled, the factory's snapshot otherwise, with its gauges read from the
   live counter. `qualityOrder` and `errorOrder` are the iteration orders of
   the two maps; `d` is the slicing direction, `Ascending` as written.
   */
  function MetricsSnapshot(d: Direction, s: State, qualityOrder: seq<string>, errorOrder: seq<string>): (o: JsonObject)
    requires s.metrics.Some? ==>
               Enumerates(qualityOrder, s.metrics.value.quality.Keys)
               && Enumerates(errorOrder, s.metrics.value.errors.Keys)
    ensures s.metrics.None? ==> o == MetricsDisabled
    ensures s.metrics.Some? ==> o.Keys == {"total", "queue"} && "Error" !in o
    ensures s.metrics.Some? ==> ShowsMetrics(d, o, s.metrics.value, s.queueSize, s.inFlight)
  {
    match s.metrics
    case None => MetricsDisabled
    case Some(a) =>
      SnapshotShowsMetrics(d, a, qualityOrder, errorOrder, s.queueSize, s.inFlight);
      SnapshotJson(TakeSnapshot(d, a, qualityOrder, errorOrder, s.queueSize, s.inFlight))
  }

  /**
   `collect` is `collectAndReceive` with a wrapping handler: a submission
   through either leads to the same state, and the handler of `collect`
   receives the status of what `collectAndReceive`'s would.
   */
  lemma {:induction false} CollectMirrorsCollectAndReceive(s: State, job: Job, policy: Policy,
                                                            requestId: string, feature: JsonObject)
    ensures var full := Admit(s, job, policy, requestId, feature, false);
            var bare := Admit(s, job, policy, requestId, feature, true);
            && full.next.inFlight == bare.next.inFlight
            && full.next.pending.Keys == bare.next.pending.Keys
            && (full.effect.Answered? <==> bare.effect.Answered?)
            && (full.effect.Answered? ==>
                  bare.effect == Answered(full.effect.ticket, WithoutResult(Discard(full.effect.answer.result))))
  {
  }

  /** An answer that rejects a submission because the queue is full. */
  predicate IsRejection(a: Answer)
  {
    a == WithResult(Failed(QueueFull)) || a == WithoutResult(Failed(QueueFull))
  }

  /**
   A service whose slots are all taken while no request is in flight (which
   only a leaked slot can bring about) stays so for good: every later
   submission is rejected and the counter never moves.
   */
  lemma {:induction false} LeakedServiceRejectsForever(s: State, job: Job, policy: Policy, events: seq<Event>)
    requires s.inFlight >= s.queueSize && s.pending == map[]
    ensures Run(s, job, policy, events).0.inFlight == s.inFlight
    ensures Run(s, job, policy, events).0.pending == map[]
    ensures forall i | 0 <= i < |Run(s, job, policy, events).1| && Run(s, job, policy, events).1[i].Answered? ::
              IsRejection(Run(s, job, policy, events).1[i].answer)
    decreases |events|
  {
    if events != [] {
      var t := Step(s, job, policy, events[0]);
      assert t.next.inFlight == s.inFlight && t.next.pending == map[] && t.next.queueSize == s.queueSize;
      assert t.effect.Answered? ==> IsRejection(t.effect.answer);
      LeakedServiceRejectsForever(t.next, job, policy, events[1..]);
      var rest := Run(t.next, job, policy, events[1..]);
      assert Run(s, job, policy, events).1 == [t.effect] + rest.1;
      forall i | 0 <= i < |[t.effect] + rest.1| && ([t.effect] + rest.1)[i].Answered?
        ensures IsRejection(([t.effect] + rest.1)[i].answer)
      {
        if i > 0 {
          assert ([t.effect] + rest.1)[i] == rest.1[i - 1];
        }
      }
    }
  }
}
