/**
 What each step of a route answers, case by case and in the terms of its environment: where it goes next, what
 it records, and what it does to the circuits.
 */
module RouteAnswers {
  import opened Models
  import opened RouteMachine
  import opened QuotaRuns
  import Q = QuotaSpec
  import H = HealthSpec
  import L = Ledger

  // ---- the circuits after an outcome ----

  /** Only the circuit of this provider changed, from c to d. */
  ghost predicate OnlyCircuit(before: H.Circuits, after: H.Circuits, provider: string, d: H.Circuit) {
    && provider in after && after[provider] == d
    && forall p :: p != provider ==> (p in before <==> p in after) && (p in before ==> after[p] == before[p])
  }

  /** A provider not seen before has a closed circuit. */
  function CircuitOf(circuits: H.Circuits, provider: string): H.Circuit {
    if provider in circuits then circuits[provider] else H.Circuit(0, None, None, None)
  }

  /** A failure opens the circuit, or opens it anew, from the threshold on. */
  ghost predicate FailureCounted(config: RouterConfig, before: H.Circuits, after: H.Circuits, provider: string,
                                 at: real, again: real)
  {
    var c := CircuitOf(before, provider);
    var since := if c.consecutiveFailures + 1 >= config.failureThreshold then Some(again) else c.openedAt;
    OnlyCircuit(before, after, provider,
                H.Circuit(c.consecutiveFailures + 1, since, c.lastSuccessAt, Some(at)))
  }

  /** A success closes the circuit. */
  ghost predicate SuccessCounted(before: H.Circuits, after: H.Circuits, provider: string, at: real) {
    OnlyCircuit(before, after, provider,
                H.Circuit(0, None, Some(at), CircuitOf(before, provider).lastFailureAt))
  }

  lemma FailureIsCounted(config: RouterConfig, circuits: H.Circuits, provider: string, at: real, again: real)
    ensures FailureCounted(config, circuits, Note(config, circuits, provider, H.Failed(at, again)), provider, at, again)
  {
  }

  lemma SuccessIsCounted(config: RouterConfig, circuits: H.Circuits, provider: string, at: real)
    ensures SuccessCounted(circuits, Note(config, circuits, provider, H.Succeeded(at)), provider, at)
  {
  }

  // ---- the answer to what became of a call ----

  /** The route goes on with the next candidate. */
  ghost predicate MovedOn(t: Task, u: Task) {
    u.position == AtCandidate && u.index == t.index + 1
  }

  /** One more failed attempt, numbered after the retries so far. */
  ghost predicate AttemptFailed(t: Task, u: Task, error: ErrorClass)
    requires t.index < |t.candidates|
  {
    var m := t.candidates[t.index];
    u.attempts == t.attempts + [Attempt(m.providerId, m.id, t.retry + 1, Failed(error))]
  }

  /** A delay that the provider asked for is slept as it is. Otherwise the backoff base, doubled per retry and
      capped, is jittered. */
  ghost predicate SleepsFor(config: RouterConfig, retry: nat, hint: Option<real>, jitter: real, delay: real) {
    match hint
    case Some(asked) => delay == asked
    case None =>
      var doubled := config.backoffBase * Pow2(retry) as real;
      delay == (if doubled < config.backoffMax then doubled else config.backoffMax) * jitter
  }

  /** A failure that may be retried: counted by the breaker, then a sleep while retries are left, and the next
      candidate after the last. */
  ghost predicate RetriedOrLeft(config: RouterConfig, sh: Shared, t: Task, input: Input, s: Stepped,
                                error: ErrorClass, hint: Option<real>)
    requires t.index < |t.candidates|
  {
    var m := t.candidates[t.index];
    && AttemptFailed(t, s.task, error) && s.task.excluded == t.excluded
    && FailureCounted(config, sh.circuits, s.shared.circuits, m.providerId, input.breakerNow, input.breakerAgain)
    && (if t.retry < m.maxRetries then
          && s.task.position.Asleep? && s.task.index == t.index && s.task.retry == t.retry
          && SleepsFor(config, t.retry, hint, input.jitter, s.task.position.delay)
        else MovedOn(t, s.task))
  }

  /** The route never comes back to this provider; the breaker is not told. */
  ghost predicate ProviderLeft(sh: Shared, t: Task, s: Stepped, error: ErrorClass)
    requires t.index < |t.candidates|
  {
    && AttemptFailed(t, s.task, error) && MovedOn(t, s.task)
    && s.task.excluded == t.excluded + {t.candidates[t.index].providerId}
    && s.shared.circuits == sh.circuits
  }

  ghost predicate Returns(sh: Shared, t: Task, input: Input, s: Stepped, content: string, usage: Usage)
    requires t.index < |t.candidates|
  {
    var m := t.candidates[t.index];
    && s.task.attempts == t.attempts + [Attempt(m.providerId, m.id, t.retry + 1, Success)]
    && s.task.position == Ended(Returned(RouterResult(t.request.requestId, m.providerId, m.id, content, usage,
                                                     s.task.attempts, m.costTier == Premium)))
    && s.shared.records == sh.records + [L.UsageRecord(t.request.requestId, m.providerId, m.id, t.request.task, usage)]
    && SuccessCounted(sh.circuits, s.shared.circuits, m.providerId, input.breakerNow)
  }

  /** The answer to each outcome of a call. A timeout, an unexpected exception and a transient error are
      retried; a permanent error goes on with the next candidate; an authentication, quota or rate-limit
      error leaves the provider for good; a response is returned; and only a cancellation ends the route
      without a result. A call that did not succeed writes no record. */
  lemma AnswerOfCall(config: RouterConfig, sh: Shared, t: Task, input: Input)
    requires t.position.InFlight? && t.index < |t.candidates|
    ensures var s := Step(config, sh, t, input);
            var m := t.candidates[t.index];
            && s.task.candidates == t.candidates && s.task.request == t.request
            && (!input.outcome.Responded? ==> s.shared.records == sh.records)
            && match input.outcome
               case Responded(content, usage) => Returns(sh, t, input, s, content, usage)
               case TimerExpired => RetriedOrLeft(config, sh, t, input, s, TimeoutError, None)
               case UnexpectedException => RetriedOrLeft(config, sh, t, input, s, TransientError, None)
               case Raised(TransientError, hint) => RetriedOrLeft(config, sh, t, input, s, TransientError, hint)
               case Raised(TimeoutError, hint) => RetriedOrLeft(config, sh, t, input, s, TimeoutError, hint)
               case Raised(PermanentError, _) =>
                 && AttemptFailed(t, s.task, PermanentError) && MovedOn(t, s.task) && s.task.excluded == t.excluded
                 && FailureCounted(config, sh.circuits, s.shared.circuits, m.providerId, input.breakerNow, input.breakerAgain)
               case Raised(AuthenticationError, _) => ProviderLeft(sh, t, s, AuthenticationError)
               case Raised(QuotaExceededError, _) => ProviderLeft(sh, t, s, QuotaExceededError)
               case Raised(RateLimitError, _) => ProviderLeft(sh, t, s, RateLimitError)
               case Cancelled =>
                 && s.task.position == Ended(CancelledByCaller) && s.task.attempts == t.attempts
                 && s.shared.circuits == sh.circuits
  {
    hide FailureCounted, SuccessCounted, Note, Q.CommitIn, Q.ReleaseIn, Pow2;
    var m := t.candidates[t.index];
    FailureIsCounted(config, sh.circuits, m.providerId, input.breakerNow, input.breakerAgain);
    SuccessIsCounted(config, sh.circuits, m.providerId, input.breakerNow);
  }

  /** The caller cancels the call in flight, or the sleep. */
  predicate Cancels(t: Task, input: Input) {
    (t.position.InFlight? && input.outcome == Cancelled) || (t.position.Asleep? && input.cancelSleep)
  }

  /** A step makes a route a cancelled one exactly when the caller cancels. */
  lemma CancelledAfterStep(config: RouterConfig, sh: Shared, t: Task, input: Input)
    requires t.position.InFlight? || t.position.Asleep? ==> t.index < |t.candidates|
    ensures Step(config, sh, t, input).task.position == Ended(CancelledByCaller)
            <==> t.position == Ended(CancelledByCaller) || Cancels(t, input)
  {
    hide Step, FailureCounted, SuccessCounted, SleepsFor, Q.ReserveIn, Q.Proposal;
    match t.position
    case AtCandidate => AnswerAtCandidate(config, sh, t, input);
    case InFlight(_) => AnswerOfCall(config, sh, t, input);
    case Asleep(_) => AnswerOfSleep(config, sh, t, input);
    case Ended(_) => EndedStays(config, sh, t, input);
  }

  lemma EndedStays(config: RouterConfig, sh: Shared, t: Task, input: Input)
    requires t.position.Ended?
    ensures Step(config, sh, t, input) == Stepped(sh, t, None)
  {
  }

  // ---- the answer at a candidate, and after a sleep ----

  /** Refused by the tracker, the route goes on with the next candidate; granted, it calls the adapter. */
  ghost predicate AsksTracker(sh: Shared, t: Task, input: Input, s: Stepped, retry: nat)
    requires t.index < |t.candidates|
  {
    var m := t.candidates[t.index];
    var r := Q.Proposal(m, t.request.estimatedInputTokens, t.request.maxOutputTokens, input.freshId);
    var (table, answer) := Q.ReserveIn(sh.table, m, r, input.clock);
    && s.shared.table == table
    && (if answer.Some? then s.task.position == InFlight(answer.value) && s.task.index == t.index && s.task.retry == retry
        else MovedOn(t, s.task))
  }

  /** The answer at a candidate: past the last the route fails with its attempts; an excluded provider, an open
      circuit still cooling down and a negative setting are passed; otherwise the tracker is asked. */
  lemma AnswerAtCandidate(config: RouterConfig, sh: Shared, t: Task, input: Input)
    requires t.position.AtCandidate?
    ensures var s := Step(config, sh, t, input);
            && s.task.candidates == t.candidates && s.task.request == t.request
            && s.task.attempts == t.attempts && s.task.excluded == t.excluded && s.shared.records == sh.records
            && (forall p :: CircuitOf(s.shared.circuits, p) == CircuitOf(sh.circuits, p))
            && (if |t.candidates| <= t.index then
                  s.task.position == Ended(AllModelsFailed(t.attempts)) && s.shared.table == sh.table
                else
                  var m := t.candidates[t.index];
                  var since := CircuitOf(sh.circuits, m.providerId).openedAt;
                  if m.providerId in t.excluded
                     || (since.Some? && input.breakerNow - since.value < config.cooldown)
                     || m.maxRetries < 0
                  then MovedOn(t, s.task) && s.shared.table == sh.table
                  else AsksTracker(sh, t, input, s, 0))
  {
    hide Q.ReserveIn, Q.Proposal;
  }

  /** The answer after a sleep: a cancelled route ends; another asks the tracker again for its next retry. */
  lemma AnswerOfSleep(config: RouterConfig, sh: Shared, t: Task, input: Input)
    requires t.position.Asleep? && t.index < |t.candidates|
    ensures var s := Step(config, sh, t, input);
            && s.task.candidates == t.candidates && s.task.request == t.request
            && s.task.attempts == t.attempts && s.task.excluded == t.excluded
            && s.shared.records == sh.records && s.shared.circuits == sh.circuits
            && (if input.cancelSleep then s.task.position == Ended(CancelledByCaller) && s.shared.table == sh.table
                else AsksTracker(sh, t, input, s, t.retry + 1))
  {
    hide Q.ReserveIn, Q.Proposal;
  }

  /** A model's own timeout, unless it is zero, comes before its provider's. */
  lemma TimeoutChoice(config: RouterConfig, m: ModelConfig)
    ensures forall x :: m.timeoutSeconds == Some(x) && x != 0.0 ==> TimeoutFor(config, m) == x
    ensures m.timeoutSeconds in {None, Some(0.0)} && m.providerId in config.providers ==>
              TimeoutFor(config, m) == config.providers[m.providerId].timeoutSeconds
  {
  }
}
