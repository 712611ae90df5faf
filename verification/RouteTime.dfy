/** How long a route can last: in steps, in adapter time and in backoff sleeps. */
module RouteTime {
  import opened Models
  import opened RouteMachine
  import opened RouteLaws
  import Q = QuotaSpec
  import H = HealthSpec

  // ---- in steps ----

  function StepsFrom(candidates: seq<ModelConfig>, i: nat): nat
    requires i <= |candidates|
    decreases |candidates| - i
  {
    if i == |candidates| then 1 else 2 * candidates[i].Tries() + 1 + StepsFrom(candidates, i + 1)
  }

  /** An upper bound on the steps a route still has to make. */
  function Remaining(t: Task): int
    requires t.index <= |t.candidates|
  {
    match t.position
    case AtCandidate => StepsFrom(t.candidates, t.index)
    case InFlight(_) =>
      if t.index == |t.candidates| then 0
      else StepsFrom(t.candidates, t.index + 1) + 2 * (Current(t).Tries() - t.retry)
    case Asleep(_) =>
      if t.index == |t.candidates| then 0
      else StepsFrom(t.candidates, t.index + 1) + 2 * (Current(t).Tries() - t.retry) - 1
    case Ended(_) => 0
  }

  ghost predicate Nearer(u: Task, t: Task)
    requires t.index <= |t.candidates|
  {
    u.index <= |u.candidates| && Remaining(u) < Remaining(t)
  }

  lemma AdmitProgresses(config: RouterConfig, sh: Shared, t: Task, input: Input)
    requires t.index <= |t.candidates| && t.position.AtCandidate?
    ensures 0 < Remaining(t) && Nearer(Admit(config, sh, t, input).task, t)
  {
    hide Q.ReserveIn, H.Touch, H.Lookup, H.Allows;
    if t.index < |t.candidates| {
      StepsPositive(t.candidates, t.index + 1);
    }
  }

  lemma CallProgresses(config: RouterConfig, sh: Shared, t: Task, input: Input)
    requires t.position.InFlight? && t.index < |t.candidates| && t.retry < Current(t).Tries()
    ensures 0 < Remaining(t) && Nearer(FinishCall(config, sh, t, input).task, t)
  {
    hide Q.CommitIn, Q.ReleaseIn, Note, Delay, ErrorOf, Excludes;
    StepsPositive(t.candidates, t.index + 1);
  }

  lemma WakeProgresses(sh: Shared, t: Task, input: Input)
    requires t.position.Asleep? && t.index < |t.candidates| && t.retry < Current(t).maxRetries
    ensures 0 < Remaining(t) && Nearer(Wake(sh, t, input).task, t)
  {
    hide Q.ReserveIn;
    StepsPositive(t.candidates, t.index + 1);
  }

  lemma StepsPositive(candidates: seq<ModelConfig>, i: nat)
    requires i <= |candidates|
    ensures 0 < StepsFrom(candidates, i)
  {
  }

  /** Every step of a running route brings its end nearer. */
  lemma EveryStepProgresses(config: RouterConfig, sh: Shared, t: Task, input: Input)
    requires RouteOk(t) && !t.position.Ended?
    ensures t.index <= |t.candidates| && 0 < Remaining(t)
    ensures Nearer(Step(config, sh, t, input).task, t)
  {
    hide History, NoSuccess, Tried, Untried, Remaining, Nearer, Admit, FinishCall, Wake;
    HistoryIndex(t);
    match t.position
    case AtCandidate => AdmitProgresses(config, sh, t, input);
    case InFlight(_) => CallProgresses(config, sh, t, input);
    case Asleep(_) => WakeProgresses(sh, t, input);
  }

  lemma HistoryIndex(t: Task)
    requires History(t)
    ensures t.index <= |t.candidates|
  {
  }

  /** A route that makes its steps in any sequence of shared states, on any inputs. */
  function Visit(config: RouterConfig, t: Task, visits: seq<(Shared, Input)>): Task {
    if |visits| == 0 then t
    else
      var before := Visit(config, t, visits[..|visits| - 1]);
      var (sh, input) := visits[|visits| - 1];
      Step(config, sh, before, input).task
  }

  lemma {:induction false} VisitProgress(config: RouterConfig, t: Task, visits: seq<(Shared, Input)>)
    requires RouteOk(t)
    ensures var u := Visit(config, t, visits);
            RouteOk(u) && u.index <= |u.candidates| && (u.position.Ended? || Remaining(u) + |visits| <= Remaining(t))
  {
    if |visits| != 0 {
      var before := Visit(config, t, visits[..|visits| - 1]);
      var (sh, input) := visits[|visits| - 1];
      VisitProgress(config, t, visits[..|visits| - 1]);
      EveryStepKeepsRoute(config, sh, before, input);
      if !before.position.Ended? {
        EveryStepProgresses(config, sh, before, input);
      }
    }
  }

  /** Every route ends, whatever the others do: within two steps per try and one per candidate, plus one. */
  lemma EveryRouteEnds(config: RouterConfig, request: RouterRequest, visits: seq<(Shared, Input)>)
    requires |visits| >= StepsFrom(Begin(config, request).candidates, 0)
    ensures Visit(config, Begin(config, request), visits).position.Ended?
  {
    var t := Begin(config, request);
    BeginOk(config, request);
    VisitProgress(config, t, visits);
    var u := Visit(config, t, visits);
    if !u.position.Ended? {
      RemainingPositive(u);
    }
  }

  lemma RemainingPositive(t: Task)
    requires RouteOk(t) && !t.position.Ended?
    ensures t.index <= |t.candidates| && 0 < Remaining(t)
  {
  }

  // ---- in backoff sleeps ----

  /** The most that n backoffs of one model can sleep before jitter. */
  function Cap(config: RouterConfig, n: nat): real {
    MinReal(Times(n, config.backoffMax), config.backoffBase * (Pow2(n) - 1) as real)
  }

  function Times(n: nat, x: real): real {
    n as real * x
  }

  function Retries(m: ModelConfig): nat {
    if m.maxRetries < 0 then 0 else m.maxRetries
  }

  ghost predicate BackoffOk(config: RouterConfig) {
    0.0 <= config.backoffBase && 0.0 <= config.backoffMax
  }

  lemma CapStep(config: RouterConfig, n: nat)
    requires BackoffOk(config)
    ensures 0.0 <= Backoff(config, n) && Cap(config, n) + Backoff(config, n) <= Cap(config, n + 1)
  {
    hide Times, Pow2;
    Pow2Doubles(n);
    MoreCalls(n, n + 1, config.backoffMax);
    var p := Pow2(n) as real;
    Doubling(config.backoffBase, p);
    assert (Pow2(n) - 1) as real == p - 1.0 && (Pow2(n + 1) - 1) as real == 2.0 * p - 1.0;
  }

  lemma Pow2Doubles(n: nat)
    ensures Pow2(n + 1) == 2 * Pow2(n)
  {
  }

  lemma Doubling(b: real, p: real)
    requires 0.0 <= b && 0.0 <= p
    ensures 0.0 <= b * p && b * (2.0 * p - 1.0) == b * (p - 1.0) + b * p
  {
  }

  lemma {:induction false} CapMonotone(config: RouterConfig, n: nat, m: nat)
    requires BackoffOk(config) && n <= m
    ensures Cap(config, n) <= Cap(config, m)
    decreases m
  {
    if n < m {
      CapMonotone(config, n, m - 1);
      CapStep(config, m - 1);
    }
  }

  function SleepBefore(config: RouterConfig, candidates: seq<ModelConfig>, n: nat): real
    requires n <= |candidates|
  {
    if n == 0 then 0.0 else SleepBefore(config, candidates, n - 1) + Cap(config, Retries(candidates[n - 1]))
  }

  function CallsBefore(config: RouterConfig, candidates: seq<ModelConfig>, n: nat): real
    requires n <= |candidates|
  {
    if n == 0 then 0.0
    else CallsBefore(config, candidates, n - 1)
         + Times(candidates[n - 1].Tries(), MaxReal(0.0, TimeoutFor(config, candidates[n - 1])))
  }

  /** Calls respect their timeout, and jitter stays within a fifth. */
  ghost predicate Timely(config: RouterConfig, t: Task, input: Input) {
    && 0.8 <= input.jitter <= 1.2
    && (t.position.InFlight? && t.index < |t.candidates| ==>
          0.0 <= input.elapsed <= MaxReal(0.0, TimeoutFor(config, Current(t))))
  }

  /** The backoffs and calls made so far on the current candidate. */
  function BackoffsHere(t: Task): nat {
    match t.position
    case AtCandidate => 0
    case InFlight(_) => t.retry
    case Asleep(_) => t.retry + 1
    case Ended(_) => if t.index < |t.candidates| then Retries(Current(t)) else 0
  }

  function CallsHere(t: Task): nat {
    match t.position
    case AtCandidate => 0
    case InFlight(_) => t.retry
    case Asleep(_) => t.retry + 1
    case Ended(_) => if t.index < |t.candidates| then Current(t).Tries() else 0
  }

  ghost predicate TimeOk(config: RouterConfig, t: Task) {
    && t.index <= |t.candidates|
    && 0.0 <= t.hinted
    && t.backingOff <= 1.2 * (SleepBefore(config, t.candidates, t.index) + Cap(config, BackoffsHere(t)))
    && t.calling <= CallsBefore(config, t.candidates, t.index)
                    + (if t.index < |t.candidates|
                       then Times(CallsHere(t), MaxReal(0.0, TimeoutFor(config, Current(t)))) else 0.0)
  }

  lemma MoreCalls(n: nat, m: nat, limit: real)
    requires n <= m && 0.0 <= limit
    ensures 0.0 <= Times(n, limit) <= Times(m, limit)
    ensures Times(0, limit) == 0.0 && Times(n + 1, limit) == Times(n, limit) + limit
  {
    assert Times(m, limit) - Times(n, limit) == (m - n) as real * limit >= 0.0;
  }

  lemma DelayBound(config: RouterConfig, retry: nat, jitter: real)
    requires BackoffOk(config) && 0.8 <= jitter <= 1.2
    ensures 0.8 * Backoff(config, retry) <= Delay(config, retry, None, jitter) <= 1.2 * Backoff(config, retry)
    ensures 0.0 <= Delay(config, retry, None, jitter)
  {
    hide Backoff, Jittered;
    CapStep(config, retry);
    Scaled(Backoff(config, retry), jitter);
  }

  lemma Scaled(b: real, jitter: real)
    requires 0.0 <= b && 0.8 <= jitter <= 1.2
    ensures 0.8 * b <= Jittered(b, jitter) <= 1.2 * b
  {
    assert 0.0 <= b * (1.2 - jitter) == 1.2 * b - b * jitter;
    assert 0.0 <= b * (jitter - 0.8) == b * jitter - 0.8 * b;
  }

  /** The delay before jitter doubles from one retry to the next, up to the cap. */
  lemma BackoffDoubles(config: RouterConfig, retry: nat)
    requires BackoffOk(config)
    ensures Backoff(config, 0) == MinReal(config.backoffMax, config.backoffBase)
    ensures Backoff(config, retry + 1) == MinReal(config.backoffMax, 2.0 * Backoff(config, retry))
  {
    var b, p := config.backoffBase, Pow2(retry) as real;
    assert Pow2(retry + 1) as real == 2.0 * p;
    assert b * (2.0 * p) == 2.0 * (b * p);
    assert 0.0 <= b * p;
  }

  /** Leaving the current candidate with at most n backoffs and n + 1 calls made on it. */
  lemma AdvanceTime(config: RouterConfig, t: Task, fate: Fate, n: nat, calls: nat)
    requires BackoffOk(config) && t.index < |t.candidates| && 0.0 <= t.hinted
    requires n <= Retries(Current(t)) && calls <= Current(t).Tries()
    requires t.backingOff <= 1.2 * (SleepBefore(config, t.candidates, t.index) + Cap(config, n))
    requires t.calling <= CallsBefore(config, t.candidates, t.index)
                          + Times(calls, MaxReal(0.0, TimeoutFor(config, Current(t))))
    ensures TimeOk(config, Advance(t, fate))
  {
    hide TimeoutFor, Times, Pow2;
    CapMonotone(config, n, Retries(Current(t)));
    MoreCalls(calls, Current(t).Tries(), MaxReal(0.0, TimeoutFor(config, Current(t))));
    CapZero(config);
    if t.index + 1 < |t.candidates| {
      MoreCalls(0, 0, MaxReal(0.0, TimeoutFor(config, t.candidates[t.index + 1])));
    }
  }

  lemma CapZero(config: RouterConfig)
    requires BackoffOk(config)
    ensures Cap(config, 0) == 0.0
  {
  }

  lemma TryReserveTime(config: RouterConfig, sh: Shared, t: Task, input: Input)
    requires BackoffOk(config) && t.index < |t.candidates| && t.retry < Current(t).Tries() && 0.0 <= t.hinted
    requires t.backingOff <= 1.2 * (SleepBefore(config, t.candidates, t.index) + Cap(config, t.retry))
    requires t.calling <= CallsBefore(config, t.candidates, t.index)
                          + Times(t.retry, MaxReal(0.0, TimeoutFor(config, Current(t))))
    ensures TimeOk(config, TryReserve(sh, t, input).task)
  {
    hide TimeoutFor, Times, Pow2, Cap, SleepBefore, CallsBefore, Q.ReserveIn;
    AdvanceTime(config, t, QuotaRefused, t.retry, t.retry);
  }

  lemma FailTime(config: RouterConfig, sh: Shared, t: Task, input: Input)
    requires BackoffOk(config) && TimeOk(config, t) && Timely(config, t, input)
    requires t.position.InFlight? && t.index < |t.candidates| && t.retry < Current(t).Tries()
    requires !input.outcome.Responded? && !input.outcome.Cancelled?
    ensures TimeOk(config, Fail(config, sh, t, input).task)
  {
    hide TimeoutFor, Times, Pow2, Cap, SleepBefore, CallsBefore, Delay, Backoff, Q.ReleaseIn, Note, ErrorOf;
    var error := ErrorOf(input.outcome);
    MoreCalls(t.retry, t.retry + 1, MaxReal(0.0, TimeoutFor(config, Current(t))));
    CapStep(config, t.retry);
    DelayBound(config, t.retry, input.jitter);
    HintIgnoresJitter(config, t.retry, HintOf(input.outcome), input.jitter);
    var failed := AddAttempt(t, Failed(error)).(calling := t.calling + input.elapsed,
      excluded := if Excludes(error) then t.excluded + {Current(t).providerId} else t.excluded);
    AdvanceTime(config, failed, AttemptsFailed(error), t.retry, t.retry + 1);
  }

  /** A call that ends the route adds at most its own timeout. */
  lemma EndingTime(config: RouterConfig, t: Task, u: Task, elapsed: real)
    requires BackoffOk(config) && TimeOk(config, t)
    requires t.position.InFlight? && t.index < |t.candidates| && t.retry < Current(t).Tries()
    requires 0.0 <= elapsed <= MaxReal(0.0, TimeoutFor(config, Current(t)))
    requires u.candidates == t.candidates && u.index == t.index && u.position.Ended?
    requires u.backingOff == t.backingOff && u.hinted == t.hinted && u.calling == t.calling + elapsed
    ensures TimeOk(config, u)
  {
    hide TimeoutFor, Times, Pow2, Cap, SleepBefore, CallsBefore, MaxReal;
    var limit, tries := MaxReal(0.0, TimeoutFor(config, Current(t))), Current(t).Tries();
    MoreCalls(t.retry, t.retry + 1, limit);
    MoreCalls(t.retry + 1, tries, limit);
    CapMonotone(config, t.retry, Retries(Current(t)));
  }

  lemma FinishTime(config: RouterConfig, sh: Shared, t: Task, input: Input)
    requires BackoffOk(config) && TimeOk(config, t) && Timely(config, t, input)
    requires t.position.InFlight? && t.index < |t.candidates| && t.retry < Current(t).Tries()
    ensures TimeOk(config, FinishCall(config, sh, t, input).task)
  {
    hide TimeOk, TimeoutFor, Times, Pow2, Cap, SleepBefore, CallsBefore, Fail, Q.CommitIn, Q.ReleaseIn, Note;
    if input.outcome.Responded? || input.outcome.Cancelled? {
      EndingTime(config, t, FinishCall(config, sh, t, input).task, input.elapsed);
    } else {
      FailTime(config, sh, t, input);
    }
  }

  lemma HintIgnoresJitter(config: RouterConfig, retry: nat, hint: Option<real>, jitter: real)
    ensures hint.None? ==> Delay(config, retry, hint, jitter) == Delay(config, retry, None, jitter)
  {
  }

  /** With bounded jitter and calls that respect their timeout, every step keeps the time bounds. */
  lemma EveryStepKeepsTime(config: RouterConfig, sh: Shared, t: Task, input: Input)
    requires BackoffOk(config) && RouteOk(t) && TimeOk(config, t) && Timely(config, t, input)
    ensures TimeOk(config, Step(config, sh, t, input).task)
  {
    hide TimeoutFor, Times, Pow2, Cap, SleepBefore, CallsBefore, History, TryReserve, FinishCall, H.Touch, H.Allows, H.Lookup;
    CapZero(config);
    match t.position
    case AtCandidate =>
      if t.index < |t.candidates| {
        AdvanceTime(config, t, ProviderExcluded, 0, 0);
        AdvanceTime(config, t, CircuitOpen, 0, 0);
        AdvanceTime(config, t, NoTries, 0, 0);
        if 0 <= Current(t).maxRetries {
          TryReserveTime(config, sh.(circuits := H.Touch(sh.circuits, Current(t).providerId)), t.(retry := 0), input);
        }
      }
    case InFlight(_) => FinishTime(config, sh, t, input);
    case Asleep(_) =>
      CapMonotone(config, t.retry + 1, Retries(Current(t)));
      MoreCalls(t.retry + 1, Current(t).Tries(), MaxReal(0.0, TimeoutFor(config, Current(t))));
      TryReserveTime(config, sh, t.(retry := t.retry + 1), input);
    case Ended(_) =>
  }

  /** The whole route: backoff sleeps of at most 1.2 * min(r * M, b * (2^r - 1)) per candidate with r
      retries, and calls of at most (r + 1) timeouts per candidate. */
  lemma RouteDuration(config: RouterConfig, t: Task)
    requires BackoffOk(config) && RouteOk(t) && TimeOk(config, t) && t.position.Ended?
    ensures t.backingOff <= 1.2 * SleepBefore(config, t.candidates, |t.candidates|)
    ensures t.calling <= CallsBefore(config, t.candidates, |t.candidates|)
  {
    if t.index < |t.candidates| {
      SumsGrow(config, t.candidates, t.index + 1);
    } else {
      CapZero(config);
    }
  }

  lemma {:induction false} SumsGrow(config: RouterConfig, candidates: seq<ModelConfig>, n: nat)
    requires BackoffOk(config) && n <= |candidates|
    ensures SleepBefore(config, candidates, n) <= SleepBefore(config, candidates, |candidates|)
    ensures CallsBefore(config, candidates, n) <= CallsBefore(config, candidates, |candidates|)
    decreases |candidates| - n
  {
    if n < |candidates| {
      SumsGrow(config, candidates, n + 1);
      CapMonotone(config, 0, Retries(candidates[n]));
      CapZero(config);
      MoreCalls(0, candidates[n].Tries(), MaxReal(0.0, TimeoutFor(config, candidates[n])));
    }
  }

  /** Every step of the visits respects the timeout and the jitter range. */
  ghost predicate TimelyVisits(config: RouterConfig, t: Task, visits: seq<(Shared, Input)>) {
    |visits| != 0 ==>
      var front := visits[..|visits| - 1];
      TimelyVisits(config, t, front) && Timely(config, Visit(config, t, front), visits[|visits| - 1].1)
  }

  lemma {:induction false} VisitTime(config: RouterConfig, t: Task, visits: seq<(Shared, Input)>)
    requires BackoffOk(config) && RouteOk(t) && TimeOk(config, t) && TimelyVisits(config, t, visits)
    ensures RouteOk(Visit(config, t, visits)) && TimeOk(config, Visit(config, t, visits))
  {
    hide RouteOk, TimeOk, Timely, Step;
    if |visits| != 0 {
      var front := visits[..|visits| - 1];
      var (sh, input) := visits[|visits| - 1];
      VisitTime(config, t, front);
      EveryStepKeepsRoute(config, sh, Visit(config, t, front), input);
      EveryStepKeepsTime(config, sh, Visit(config, t, front), input);
    }
  }

  /** In any sequence of shared states a route that has ended spent, over its candidates with r retries and
      timeout T each, at most (r + 1) * T in calls and 1.2 * min(r * M, b * (2^r - 1)) in its own backoffs;
      sleeps that a provider asked for come on top. */
  lemma EveryRouteIsBounded(config: RouterConfig, request: RouterRequest, visits: seq<(Shared, Input)>)
    requires BackoffOk(config) && TimelyVisits(config, Begin(config, request), visits)
    requires Visit(config, Begin(config, request), visits).position.Ended?
    ensures var t := Visit(config, Begin(config, request), visits);
            && t.calling <= CallsBefore(config, t.candidates, |t.candidates|)
            && t.backingOff <= 1.2 * SleepBefore(config, t.candidates, |t.candidates|)
  {
    hide Visit, TimelyVisits;
    BeginOk(config, request);
    CapZero(config);
    VisitTime(config, Begin(config, request), visits);
    RouteDuration(config, Visit(config, Begin(config, request), visits));
  }
}
