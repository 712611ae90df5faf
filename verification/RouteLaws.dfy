/**
 What every step of a route keeps, whatever the shared tracker and breaker answer and whatever other
 routes did in between: these laws mention only the route itself, so they hold in every interleaving.
 */
module RouteLaws {
  import opened Models
  import opened RouteMachine
  import H = HealthSpec

  // ---- attempts come in blocks ----

  ghost predicate RetryableFailure(a: Attempt) {
    a.verdict.Failed? && Retryable(a.verdict.error)
  }

  ghost predicate ExcludingFailure(a: Attempt) {
    a.verdict.Failed? && Excludes(a.verdict.error)
  }

  /** Attempt k opens the block of its candidate, or follows a retryable failure of the same block. */
  ghost predicate Follows(attempts: seq<Attempt>, places: seq<nat>, k: nat)
    requires k < |attempts| && |places| == |attempts|
  {
    if k == 0 || places[k - 1] < places[k] then attempts[k].number == 1
    else
      && places[k - 1] == places[k]
      && attempts[k].number == attempts[k - 1].number + 1
      && RetryableFailure(attempts[k - 1])
  }

  ghost predicate MadeOn(a: Attempt, m: ModelConfig) {
    a.modelId == m.id && a.providerId == m.providerId && a.number <= m.Tries()
  }

  /** Contiguous blocks in candidate order, each numbered from one up to at most the tries of its
      candidate, each attempt but a block's last a retryable failure, and no success but the last. */
  ghost predicate Blocks(t: Task) {
    && |t.places| == |t.attempts|
    && (forall k :: 0 <= k < |t.attempts| ==> t.places[k] < |t.candidates| && t.places[k] <= t.index)
    && (forall k :: 0 <= k < |t.attempts| ==> MadeOn(t.attempts[k], t.candidates[t.places[k]]))
    && (forall k :: 0 <= k < |t.attempts| ==> Follows(t.attempts, t.places, k))
    && (forall k :: 0 <= k < |t.attempts| - 1 ==> t.attempts[k].verdict.Failed?)
  }

  /** A provider is excluded exactly when one of its attempts ended in an authentication, quota or
      rate-limit error, and such an attempt is that provider's last. */
  ghost predicate Exclusions(t: Task) {
    && (forall k :: 0 <= k < |t.attempts| && ExcludingFailure(t.attempts[k]) ==> t.attempts[k].providerId in t.excluded)
    && (forall p :: p in t.excluded ==>
          exists k :: 0 <= k < |t.attempts| && ExcludingFailure(t.attempts[k]) && t.attempts[k].providerId == p)
    && (forall k, l :: 0 <= k < l < |t.attempts| && ExcludingFailure(t.attempts[k]) ==>
          t.attempts[k].providerId != t.attempts[l].providerId)
  }

  /** The block of candidate i ends with attempt k. */
  ghost predicate EndsBlock(places: seq<nat>, k: nat, i: nat)
    requires k < |places|
  {
    places[k] == i && (k + 1 < |places| ==> i < places[k + 1])
  }

  /** The reason candidate i was left behind is borne out by the attempts. */
  ghost predicate FateOk(t: Task, i: nat)
    requires i < |t.fates| && i < |t.candidates| && |t.places| == |t.attempts|
  {
    match t.fates[i]
    case ProviderExcluded =>
      exists k :: 0 <= k < |t.attempts| && t.places[k] < i && ExcludingFailure(t.attempts[k])
                  && t.attempts[k].providerId == t.candidates[i].providerId
    case CircuitOpen => forall k :: 0 <= k < |t.attempts| ==> t.places[k] != i
    case NoTries => t.candidates[i].maxRetries < 0
    case QuotaRefused => 0 <= t.candidates[i].maxRetries
    case AttemptsFailed(e) =>
      exists k :: 0 <= k < |t.attempts| && EndsBlock(t.places, k, i) && t.attempts[k].verdict == Failed(e)
                  && (Retryable(e) ==> t.attempts[k].number == t.candidates[i].Tries())
  }

  /** Every candidate passed has its reason. */
  ghost predicate Fates(t: Task) {
    && |t.places| == |t.attempts|
    && |t.fates| == t.index <= |t.candidates|
    && forall i :: 0 <= i < |t.fates| ==> FateOk(t, i)
  }

  ghost predicate History(t: Task) {
    Blocks(t) && Exclusions(t) && Fates(t)
  }

  // ---- where the route stands ----

  /** No attempt on the current candidate yet. */
  ghost predicate Untried(t: Task) {
    forall k :: 0 <= k < |t.places| ==> t.places[k] < t.index
  }

  /** The latest attempt is number n on the current candidate, and its provider is not excluded. */
  ghost predicate Tried(t: Task, n: nat) {
    && |t.places| == |t.attempts| != 0
    && t.index < |t.candidates|
    && t.places[|t.places| - 1] == t.index
    && t.attempts[|t.attempts| - 1].number == n
  }

  ghost predicate NoSuccess(t: Task) {
    forall k :: 0 <= k < |t.attempts| ==> t.attempts[k].verdict.Failed?
  }

  function TriesBefore(candidates: seq<ModelConfig>, n: nat): nat
    requires n <= |candidates|
  {
    if n == 0 then 0 else TriesBefore(candidates, n - 1) + candidates[n - 1].Tries()
  }

  ghost predicate AtMostTries(t: Task, onCurrent: nat) {
    t.index <= |t.candidates| && |t.attempts| <= TriesBefore(t.candidates, t.index) + onCurrent
  }

  /** The route returns a result exactly when its last attempt is a success; a route that gives up has
      passed every candidate. */
  ghost predicate Stands(t: Task) {
    match t.position
    case AtCandidate => NoSuccess(t) && Untried(t) && AtMostTries(t, 0) && |t.candidates| != 0
    case InFlight(_) =>
      && NoSuccess(t) && t.index < |t.candidates| && t.retry < Current(t).Tries() && AtMostTries(t, t.retry)
      && Current(t).providerId !in t.excluded
      && (if t.retry == 0 then Untried(t) else Tried(t, t.retry) && RetryableFailure(t.attempts[|t.attempts| - 1]))
    case Asleep(_) =>
      && NoSuccess(t) && t.index < |t.candidates| && t.retry < Current(t).maxRetries && AtMostTries(t, t.retry + 1)
      && Current(t).providerId !in t.excluded
      && Tried(t, t.retry + 1) && RetryableFailure(t.attempts[|t.attempts| - 1])
    case Ended(Returned(result)) =>
      && Tried(t, t.retry + 1) && t.retry < Current(t).Tries() && AtMostTries(t, t.retry + 1)
      && t.attempts[|t.attempts| - 1].verdict == Success
      && result.modelId == Current(t).id && result.providerId == Current(t).providerId
      && result.requestId == t.request.requestId && result.attempts == t.attempts
      && (result.usedPremiumFallback <==> Current(t).costTier.Premium?)
    case Ended(AllModelsFailed(attempts)) =>
      NoSuccess(t) && t.index == |t.candidates| != 0 && attempts == t.attempts && AtMostTries(t, 0)
    case Ended(NoEligibleModels) => t.candidates == [] && t.attempts == []
    case Ended(CancelledByCaller) =>
      NoSuccess(t) && t.index < |t.candidates| && AtMostTries(t, Current(t).Tries())
  }

  ghost predicate RouteOk(t: Task) {
    History(t) && Stands(t)
  }

  // ---- every step keeps the laws ----

  lemma BeginOk(config: RouterConfig, request: RouterRequest)
    ensures RouteOk(Begin(config, request))
  {
  }

  lemma MoreFates(t: Task, u: Task, i: nat)
    requires Blocks(t) && Blocks(u) && u.candidates == t.candidates
    requires |t.attempts| <= |u.attempts| && u.attempts[..|t.attempts|] == t.attempts && u.places[..|t.places|] == t.places
    requires i < |t.fates| <= |t.candidates| && i < |u.fates| && u.fates[i] == t.fates[i] && FateOk(t, i)
    requires forall k :: |t.places| <= k < |u.places| ==> i < u.places[k]
    ensures FateOk(u, i)
  {
    assert forall k :: 0 <= k < |t.attempts| ==> u.attempts[k] == t.attempts[k] && u.places[k] == t.places[k];
    match t.fates[i]
    case ProviderExcluded =>
      var k :| 0 <= k < |t.attempts| && t.places[k] < i && ExcludingFailure(t.attempts[k])
               && t.attempts[k].providerId == t.candidates[i].providerId;
      assert u.places[k] < i && ExcludingFailure(u.attempts[k]);
    case AttemptsFailed(e) =>
      var k :| 0 <= k < |t.attempts| && EndsBlock(t.places, k, i) && t.attempts[k].verdict == Failed(e)
               && (Retryable(e) ==> t.attempts[k].number == t.candidates[i].Tries());
      assert EndsBlock(u.places, k, i) && u.attempts[k].verdict == Failed(e);
    case _ =>
  }

  /** Passing over the current candidate for a good reason. */
  lemma AdvanceOk(t: Task, fate: Fate)
    requires History(t) && NoSuccess(t) && t.index < |t.candidates| && AtMostTries(t, Current(t).Tries())
    requires FateOk(t.(fates := t.fates + [fate]), t.index)
    ensures RouteOk(Advance(t, fate))
  {
    hide Follows, ExcludingFailure;
    var u := Advance(t, fate);
    forall i | 0 <= i < |u.fates|
      ensures FateOk(u, i)
    {
      if i < t.index {
        MoreFates(t, u, i);
      } else {
        MoreFates(t.(fates := t.fates + [fate]), u, i);
      }
    }
  }

  /** A further attempt on the current candidate, whose provider is not excluded. */
  lemma AttemptOk(t: Task, verdict: Verdict)
    requires RouteOk(t) && t.position.InFlight?
    ensures var u := AddAttempt(t, verdict);
            && Blocks(u) && Fates(u)
            && Exclusions(if verdict.Failed? && Excludes(verdict.error)
                          then u.(excluded := t.excluded + {Current(t).providerId}) else u)
            && Tried(u, t.retry + 1)
            && AtMostTries(u, t.retry + 1)
  {
    hide FateOk, ExcludingFailure, Follows, Blocks, RetryableFailure;
    AttemptBlocks(t, verdict);
    AttemptFates(t, verdict);
    AttemptExclusions(t, verdict);
  }

  lemma AttemptFates(t: Task, verdict: Verdict)
    requires Blocks(t) && Fates(t) && t.index < |t.candidates| && Blocks(AddAttempt(t, verdict))
    ensures Fates(AddAttempt(t, verdict))
  {
    hide FateOk, Follows;
    var u := AddAttempt(t, verdict);
    forall i | 0 <= i < |u.fates|
      ensures FateOk(u, i)
    {
      assert FateOk(t, i);
      MoreFates(t, u, i);
    }
  }

  lemma AttemptBlocks(t: Task, verdict: Verdict)
    requires Blocks(t) && Stands(t) && t.position.InFlight?
    ensures Blocks(AddAttempt(t, verdict))
  {
    var u := AddAttempt(t, verdict);
    var n := |t.attempts|;
    forall k | 0 <= k < |u.attempts|
      ensures Follows(u.attempts, u.places, k)
    {
      if k < n {
        assert Follows(t.attempts, t.places, k);
        assert u.attempts[k] == t.attempts[k] && u.places[k] == t.places[k];
        assert k == 0 || (u.attempts[k - 1] == t.attempts[k - 1] && u.places[k - 1] == t.places[k - 1]);
      }
    }
  }

  lemma AttemptExclusions(t: Task, verdict: Verdict)
    requires Exclusions(t) && t.index < |t.candidates| && Current(t).providerId !in t.excluded
    ensures var u := AddAttempt(t, verdict);
            Exclusions(if verdict.Failed? && Excludes(verdict.error)
                       then u.(excluded := t.excluded + {Current(t).providerId}) else u)
  {
    var n := |t.attempts|;
    var u := AddAttempt(t, verdict);
    assert forall k :: 0 <= k < n ==> u.attempts[k] == t.attempts[k];
    assert u.attempts[n].providerId == Current(t).providerId;
    forall p | p in t.excluded
      ensures exists k :: 0 <= k < |u.attempts| && ExcludingFailure(u.attempts[k]) && u.attempts[k].providerId == p
    {
      var k :| 0 <= k < n && ExcludingFailure(t.attempts[k]) && t.attempts[k].providerId == p;
      assert u.attempts[k] == t.attempts[k];
    }
  }

  lemma SameHistory(t: Task, u: Task)
    requires History(t)
    requires u.candidates == t.candidates && u.attempts == t.attempts && u.places == t.places
    requires u.excluded == t.excluded && u.fates == t.fates && u.index == t.index
    ensures History(u)
  {
    forall i | 0 <= i < |u.fates|
      ensures FateOk(u, i)
    {
      MoreFates(t, u, i);
    }
  }

  lemma TryReserveOk(sh: Shared, t: Task, input: Input)
    requires History(t) && NoSuccess(t) && t.index < |t.candidates| && t.retry < Current(t).Tries()
    requires AtMostTries(t, t.retry) && Current(t).providerId !in t.excluded
    requires if t.retry == 0 then Untried(t) else Tried(t, t.retry) && RetryableFailure(t.attempts[|t.attempts| - 1])
    ensures RouteOk(TryReserve(sh, t, input).task)
  {
    hide FateOk, Blocks, Exclusions;
    var u := TryReserve(sh, t, input).task;
    if u.position.InFlight? {
      SameHistory(t, u);
    } else {
      RefusedOk(t);
      AdvanceOk(t, QuotaRefused);
    }
  }

  lemma RefusedOk(t: Task)
    requires |t.fates| == t.index < |t.candidates| && |t.places| == |t.attempts| && 0 <= Current(t).maxRetries
    ensures FateOk(t.(fates := t.fates + [QuotaRefused]), t.index)
  {
  }

  lemma AdmitOk(config: RouterConfig, sh: Shared, t: Task, input: Input)
    requires RouteOk(t) && t.position.AtCandidate?
    ensures RouteOk(Admit(config, sh, t, input).task)
  {
    if t.index >= |t.candidates| {
      SameHistory(t, Admit(config, sh, t, input).task);
    } else if Current(t).providerId in t.excluded {
      ExcludedOk(t);
      AdvanceOk(t, ProviderExcluded);
    } else {
      var looked := sh.(circuits := H.Touch(sh.circuits, Current(t).providerId));
      if !H.Allows(H.Lookup(sh.circuits, Current(t).providerId), input.breakerNow, config.cooldown) {
        AdvanceOk(t, CircuitOpen);
      } else if Current(t).maxRetries < 0 {
        AdvanceOk(t, NoTries);
      } else {
        SameHistory(t, t.(retry := 0));
        TryReserveOk(looked, t.(retry := 0), input);
      }
    }
  }

  lemma ExcludedOk(t: Task)
    requires History(t) && Untried(t) && t.index < |t.candidates| && Current(t).providerId in t.excluded
    ensures FateOk(t.(fates := t.fates + [ProviderExcluded]), t.index)
  {
    var k :| 0 <= k < |t.attempts| && ExcludingFailure(t.attempts[k]) && t.attempts[k].providerId == Current(t).providerId;
    assert t.places[k] < t.index;
  }

  lemma SucceedOk(config: RouterConfig, sh: Shared, t: Task, input: Input)
    requires RouteOk(t) && t.position.InFlight? && input.outcome.Responded?
    ensures RouteOk(Succeed(config, sh, t, input).task)
  {
    hide FateOk, Follows;
    AttemptOk(t, Success);
    SameHistory(AddAttempt(t, Success), Succeed(config, sh, t, input).task);
  }

  lemma FailOk(config: RouterConfig, sh: Shared, t: Task, input: Input)
    requires RouteOk(t) && t.position.InFlight? && !input.outcome.Responded? && !input.outcome.Cancelled?
    ensures RouteOk(Fail(config, sh, t, input).task)
  {
    hide FateOk, Blocks, Exclusions;
    var error := ErrorOf(input.outcome);
    var u := AddAttempt(t, Failed(error)).(calling := t.calling + input.elapsed,
      excluded := if Excludes(error) then t.excluded + {Current(t).providerId} else t.excluded);
    AddAttemptHistory(t, error, u);
    if Retryable(error) && t.retry < Current(t).maxRetries {
      SameHistory(u, Fail(config, sh, t, input).task);
    } else {
      FailedOk(u, error);
      AdvanceOk(u, AttemptsFailed(error));
    }
  }

  lemma AddAttemptHistory(t: Task, error: ErrorClass, u: Task)
    requires RouteOk(t) && t.position.InFlight?
    requires u == AddAttempt(t, Failed(error)).(calling := u.calling,
             excluded := if Excludes(error) then t.excluded + {Current(t).providerId} else t.excluded)
    ensures History(u) && NoSuccess(u) && Tried(u, t.retry + 1) && AtMostTries(u, t.retry + 1)
  {
    hide FateOk, Follows, ExcludingFailure, Excludes, TriesBefore;
    AttemptOk(t, Failed(error));
    var v := AddAttempt(t, Failed(error));
    forall i | 0 <= i < |u.fates|
      ensures FateOk(u, i)
    {
      MoreFates(v, u, i);
    }
  }

  lemma FailedOk(u: Task, error: ErrorClass)
    requires |u.fates| == u.index < |u.candidates| && u.retry < Current(u).Tries()
    requires Tried(u, u.retry + 1) && u.attempts[|u.attempts| - 1].verdict == Failed(error)
    requires Retryable(error) ==> u.retry + 1 == Current(u).Tries()
    ensures FateOk(u.(fates := u.fates + [AttemptsFailed(error)]), u.index)
  {
    assert EndsBlock(u.places, |u.attempts| - 1, u.index);
  }

  lemma WakeOk(sh: Shared, t: Task, input: Input)
    requires RouteOk(t) && t.position.Asleep?
    ensures RouteOk(Wake(sh, t, input).task)
  {
    hide History, RetryableFailure, TriesBefore, TryReserve;
    if input.cancelSleep {
      SameHistory(t, Wake(sh, t, input).task);
    } else {
      SameHistory(t, t.(retry := t.retry + 1));
      TryReserveOk(sh, t.(retry := t.retry + 1), input);
    }
  }

  /** Every step of a route, in any shared state and on any input, keeps the laws. */
  lemma EveryStepKeepsRoute(config: RouterConfig, sh: Shared, t: Task, input: Input)
    requires RouteOk(t)
    ensures RouteOk(Step(config, sh, t, input).task)
  {
    match t.position
    case AtCandidate => AdmitOk(config, sh, t, input);
    case InFlight(_) =>
      match input.outcome {
        case Responded(_, _) => SucceedOk(config, sh, t, input);
        case Cancelled => SameHistory(t, FinishCall(config, sh, t, input).task);
        case _ => FailOk(config, sh, t, input);
      }
    case Asleep(_) => WakeOk(sh, t, input);
    case Ended(_) =>
  }
}
