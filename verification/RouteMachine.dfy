/**
 One route as a state machine.  A step is what the router does between two points where it really
 waits: it waits only for the adapter (InFlight) and for a backoff sleep (Asleep).  Everything a step
 learns from outside, the clocks, a fresh identifier, the adapter's outcome, is in its Input.
 */
module RouteMachine {
  import opened Models
  import opened QuotaRuns
  import Q = QuotaSpec
  import H = HealthSpec
  import L = Ledger
  import R = Registry

  datatype ErrorClass =
    | TransientError
    | TimeoutError
    | RateLimitError
    | QuotaExceededError
    | AuthenticationError
    | PermanentError

  predicate Retryable(e: ErrorClass) {
    e.TransientError? || e.TimeoutError?
  }

  predicate Excludes(e: ErrorClass) {
    e.AuthenticationError? || e.QuotaExceededError? || e.RateLimitError?
  }

  /** What becomes of an adapter call. */
  datatype Outcome =
    | Responded(content: string, usage: Usage)
    | TimerExpired
    | Cancelled
    | Raised(error: ErrorClass, retryAfter: Option<real>)
    | UnexpectedException

  datatype Input = Input(
    clock: Q.Clock,
    freshId: string,
    breakerNow: real,
    breakerAgain: real,
    outcome: Outcome,
    elapsed: real,
    jitter: real,
    cancelSleep: bool)

  datatype Verdict = Success | Failed(error: ErrorClass)

  datatype Attempt = Attempt(providerId: string, modelId: string, number: int, verdict: Verdict)

  datatype RouterResult = RouterResult(
    requestId: string,
    providerId: string,
    modelId: string,
    content: string,
    usage: Usage,
    attempts: seq<Attempt>,
    usedPremiumFallback: bool)

  datatype Ending =
    | Returned(result: RouterResult)
    | AllModelsFailed(attempts: seq<Attempt>)
    | NoEligibleModels
    | CancelledByCaller

  datatype Position = AtCandidate | InFlight(reservation: Q.Reservation) | Asleep(delay: real) | Ended(ending: Ending)

  /** Why the loop left a candidate behind. */
  datatype Fate =
    | ProviderExcluded
    | CircuitOpen
    | NoTries
    | QuotaRefused
    | AttemptsFailed(error: ErrorClass)

  /** The variables of a route, then what the proofs remember of it: the candidate each attempt was made
      on, the fate of each candidate passed, and the time spent in calls, in sleeps the router chose
      and in sleeps a provider asked for. */
  datatype Task = Task(
    request: RouterRequest,
    candidates: seq<ModelConfig>,
    index: nat,
    retry: nat,
    excluded: set<string>,
    attempts: seq<Attempt>,
    position: Position,
    places: seq<nat>,
    fates: seq<Fate>,
    calling: real,
    backingOff: real,
    hinted: real)

  datatype Shared = Shared(table: Q.Table, circuits: H.Circuits, records: seq<L.UsageRecord>)

  datatype Stepped = Stepped(shared: Shared, task: Task, op: Option<Op>)

  function Begin(config: RouterConfig, request: RouterRequest): Task {
    var candidates := R.CandidateModels(config, request);
    Task(request, candidates, 0, 0, {}, [],
         if |candidates| == 0 then Ended(NoEligibleModels) else AtCandidate,
         [], [], 0.0, 0.0, 0.0)
  }

  function Current(t: Task): ModelConfig
    requires t.index < |t.candidates|
  {
    t.candidates[t.index]
  }

  function Advance(t: Task, fate: Fate): Task {
    t.(index := t.index + 1, retry := 0, fates := t.fates + [fate], position := AtCandidate)
  }

  function AddAttempt(t: Task, verdict: Verdict): Task
    requires t.index < |t.candidates|
  {
    t.(attempts := t.attempts + [Attempt(Current(t).providerId, Current(t).id, t.retry + 1, verdict)],
       places := t.places + [t.index])
  }

  function Pow2(n: nat): nat {
    if n == 0 then 1 else 2 * Pow2(n - 1)
  }

  function Backoff(config: RouterConfig, retry: nat): real {
    MinReal(config.backoffMax, config.backoffBase * Pow2(retry) as real)
  }

  /** The provider's hint is taken as it is; the router's own delay is capped and jittered. */
  function Delay(config: RouterConfig, retry: nat, hint: Option<real>, jitter: real): real {
    if hint.Some? then hint.value else Jittered(Backoff(config, retry), jitter)
  }

  function Jittered(delay: real, jitter: real): real {
    if delay == 0.0 then 0.0 else delay * jitter
  }

  /** A model timeout of zero counts as unset. */
  function TimeoutFor(config: RouterConfig, m: ModelConfig): real {
    if m.timeoutSeconds.Some? && m.timeoutSeconds.value != 0.0 then m.timeoutSeconds.value
    else if m.providerId in config.providers then config.providers[m.providerId].timeoutSeconds
    else 0.0
  }

  /** The reservation at the head of the retry loop, at time zero or after a sleep. */
  function TryReserve(sh: Shared, t: Task, input: Input): Stepped
    requires t.index < |t.candidates|
  {
    var op := ReserveOp(Current(t), t.request.estimatedInputTokens, t.request.maxOutputTokens,
                        input.freshId, input.clock);
    var outcome := Q.ReserveIn(sh.table, Current(t), Proposed(op), input.clock);
    Stepped(sh.(table := outcome.0),
            if outcome.1.Some? then t.(position := InFlight(outcome.1.value)) else Advance(t, QuotaRefused),
            Some(op))
  }

  function Admit(config: RouterConfig, sh: Shared, t: Task, input: Input): Stepped {
    if t.index >= |t.candidates| then
      Stepped(sh, t.(position := Ended(AllModelsFailed(t.attempts))), None)
    else if Current(t).providerId in t.excluded then
      Stepped(sh, Advance(t, ProviderExcluded), None)
    else
      var provider := Current(t).providerId;
      var looked := sh.(circuits := H.Touch(sh.circuits, provider));
      if !H.Allows(H.Lookup(sh.circuits, provider), input.breakerNow, config.cooldown) then
        Stepped(looked, Advance(t, CircuitOpen), None)
      else if Current(t).maxRetries < 0 then
        Stepped(looked, Advance(t, NoTries), None)
      else
        TryReserve(looked, t.(retry := 0), input)
  }

  function Note(config: RouterConfig, circuits: H.Circuits, provider: string, event: H.Event): H.Circuits {
    H.Record(circuits, provider, event, config.failureThreshold)
  }

  function ErrorOf(outcome: Outcome): ErrorClass
    requires !outcome.Responded? && !outcome.Cancelled?
  {
    match outcome
    case TimerExpired => TimeoutError
    case Raised(error, _) => error
    case UnexpectedException => TransientError
  }

  function HintOf(outcome: Outcome): Option<real> {
    if outcome.Raised? then outcome.retryAfter else None
  }

  function Succeed(config: RouterConfig, sh: Shared, t: Task, input: Input): Stepped
    requires t.index < |t.candidates| && t.position.InFlight? && input.outcome.Responded?
  {
    var m, r, usage := Current(t), t.position.reservation, input.outcome.usage;
    var done := AddAttempt(t, Success);
    var result := RouterResult(t.request.requestId, m.providerId, m.id, input.outcome.content, usage,
                               done.attempts, m.costTier.Premium?);
    Stepped(Shared(Q.CommitIn(sh.table, r, usage, input.clock.wall),
                   Note(config, sh.circuits, m.providerId, H.Succeeded(input.breakerNow)),
                   sh.records + [L.UsageRecord(t.request.requestId, m.providerId, m.id, t.request.task, usage)]),
            done.(position := Ended(Returned(result)), calling := t.calling + input.elapsed),
            Some(CommitOp(r, usage, input.clock)))
  }

  function Fail(config: RouterConfig, sh: Shared, t: Task, input: Input): Stepped
    requires t.index < |t.candidates| && t.position.InFlight?
    requires !input.outcome.Responded? && !input.outcome.Cancelled?
  {
    var m, r, error := Current(t), t.position.reservation, ErrorOf(input.outcome);
    var released := sh.(table := Q.ReleaseIn(sh.table, r, input.clock.wall));
    var counted := released.(circuits := Note(config, sh.circuits, m.providerId,
                                              H.Failed(input.breakerNow, input.breakerAgain)));
    var failed := AddAttempt(t, Failed(error)).(calling := t.calling + input.elapsed);
    var op := Some(ReleaseOp(r, input.clock));
    if Retryable(error) && t.retry < m.maxRetries then
      var delay := Delay(config, t.retry, HintOf(input.outcome), input.jitter);
      var asleep := failed.(position := Asleep(delay));
      Stepped(counted,
              if HintOf(input.outcome).Some? then asleep.(hinted := t.hinted + MaxReal(0.0, delay))
              else asleep.(backingOff := t.backingOff + delay),
              op)
    else if Excludes(error) then
      Stepped(released, Advance(failed.(excluded := t.excluded + {m.providerId}), AttemptsFailed(error)), op)
    else
      Stepped(counted, Advance(failed, AttemptsFailed(error)), op)
  }

  function FinishCall(config: RouterConfig, sh: Shared, t: Task, input: Input): Stepped
    requires t.index < |t.candidates| && t.position.InFlight?
  {
    match input.outcome
    case Responded(_, _) => Succeed(config, sh, t, input)
    case Cancelled =>
      var r := t.position.reservation;
      Stepped(sh.(table := Q.ReleaseIn(sh.table, r, input.clock.wall)),
              t.(position := Ended(CancelledByCaller), calling := t.calling + input.elapsed),
              Some(ReleaseOp(r, input.clock)))
    case _ => Fail(config, sh, t, input)
  }

  function Wake(sh: Shared, t: Task, input: Input): Stepped
    requires t.index < |t.candidates|
  {
    if input.cancelSleep then Stepped(sh, t.(position := Ended(CancelledByCaller)), None)
    else TryReserve(sh, t.(retry := t.retry + 1), input)
  }

  /** One step of a route; a route that has ended stays as it is. */
  function Step(config: RouterConfig, sh: Shared, t: Task, input: Input): Stepped {
    if t.position.AtCandidate? then Admit(config, sh, t, input)
    else if t.position.InFlight? && t.index < |t.candidates| then FinishCall(config, sh, t, input)
    else if t.position.Asleep? && t.index < |t.candidates| then Wake(sh, t, input)
    else Stepped(sh, t, None)
  }
}
