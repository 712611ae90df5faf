/** What the laws of a route mean for its caller: failover is complete, cheapest tier first, and stays
    within policy. */
module Failover {
  import opened Models
  import opened RouteMachine
  import opened RouteLaws
  import opened Concurrency
  import opened ConcurrencyRuns
  import opened ConcurrencyReasons
  import R = Registry

  ghost predicate IsRoute(config: RouterConfig, t: Task) {
    R.UniqueIds(config.models) && RouteOk(t) && t.candidates == R.CandidateModels(config, t.request)
  }

  /** In every interleaving, every route is one of which the laws below speak. */
  lemma EveryRouteOfARun(config: RouterConfig, now: real, actions: seq<Action>, i: nat)
    requires ConfigOk(config) && Run(config, now, actions) && i < |Execute(config, now, actions).tasks|
    ensures IsRoute(config, Execute(config, now, actions).tasks[i])
  {
    EveryReachableStateOk(config, now, actions);
  }

  lemma {:induction false} PlacesOrdered(t: Task, k: nat, l: nat)
    requires Blocks(t) && k <= l < |t.places|
    ensures t.places[k] <= t.places[l]
    decreases l
  {
    if k < l {
      PlacesOrdered(t, k, l - 1);
      assert Follows(t.attempts, t.places, l);
    }
  }

  /** Every candidate this route of the run has left was left for a reason: the attempts bear it out, and
      so does the step of the run at which the breaker, the tracker or the provider gave it. */
  ghost predicate LeftForAReason(config: RouterConfig, now: real, actions: seq<Action>, j: nat, i: nat)
    requires j < |Execute(config, now, actions).tasks|
  {
    var t := Execute(config, now, actions).tasks[j];
    && i < |t.fates| && i < |t.candidates| && |t.places| == |t.attempts|
    && FateOk(t, i)
    && HasReason(config, now, actions, j, i, t.candidates[i], t.fates[i])
  }

  lemma EveryLeftCandidateHasAReason(config: RouterConfig, now: real, actions: seq<Action>, j: nat)
    requires ConfigOk(config) && Run(config, now, actions) && j < |Execute(config, now, actions).tasks|
    ensures var t := Execute(config, now, actions).tasks[j];
            forall i :: 0 <= i < |t.fates| ==> LeftForAReason(config, now, actions, j, i)
  {
    hide FateOk, Execute, Run, ConfigOk, HasReason, Stands, Blocks, Exclusions;
    EveryRouteOfARun(config, now, actions, j);
    var t := Execute(config, now, actions).tasks[j];
    forall i | 0 <= i < |t.fates|
      ensures LeftForAReason(config, now, actions, j, i)
    {
      EveryFateHasItsReason(config, now, actions, j, i);
    }
  }

  /** In every interleaving, a route that returns model m has left every candidate before m for a reason, and
      returns premium only if the request allows it and every non-premium candidate was left before. */
  lemma ReturnedMeansAllBeforeFailed(config: RouterConfig, now: real, actions: seq<Action>, j: nat)
    requires ConfigOk(config) && Run(config, now, actions) && j < |Execute(config, now, actions).tasks|
    requires Execute(config, now, actions).tasks[j].position.Ended?
    requires Execute(config, now, actions).tasks[j].position.ending.Returned?
    ensures var t := Execute(config, now, actions).tasks[j];
            var result := t.position.ending.result;
            && t.index < |t.candidates| && |t.fates| == t.index && |t.places| == |t.attempts|
            && t.candidates == R.CandidateModels(config, t.request)
            && result.modelId == t.candidates[t.index].id
            && result.attempts == t.attempts && |t.attempts| != 0
            && t.attempts[|t.attempts| - 1].verdict == Success
            && t.attempts[|t.attempts| - 1].modelId == result.modelId
            && (forall i :: 0 <= i < t.index ==> LeftForAReason(config, now, actions, j, i))
            && (result.usedPremiumFallback ==>
                  && t.request.allowPremiumFallback
                  && forall i :: 0 <= i < |t.candidates| && !t.candidates[i].costTier.Premium? ==> i < t.index)
  {
    hide LeftForAReason, FateOk, Execute, Run, R.CandidateModels;
    EveryRouteOfARun(config, now, actions, j);
    EveryLeftCandidateHasAReason(config, now, actions, j);
    ReturnedRoute(config, Execute(config, now, actions).tasks[j]);
  }

  lemma ReturnedRoute(config: RouterConfig, t: Task)
    requires IsRoute(config, t) && t.position.Ended? && t.position.ending.Returned?
    ensures var result := t.position.ending.result;
            && t.index < |t.candidates| && |t.attempts| != 0
            && result.modelId == t.candidates[t.index].id
            && t.attempts[|t.attempts| - 1].modelId == result.modelId
            && (result.usedPremiumFallback ==>
                  && t.request.allowPremiumFallback
                  && forall i :: 0 <= i < |t.candidates| && !t.candidates[i].costTier.Premium? ==> i < t.index)
  {
    hide FateOk, Follows, R.MeetsPolicy, R.TriedBefore, R.Permits, R.StrictlySorted, R.CandidateModels;
    R.CandidatesInOrder(config, t.request);
    var n := |t.attempts| - 1;
    assert MadeOn(t.attempts[n], t.candidates[t.places[n]]);
    assert forall i :: t.index <= i < |t.candidates| ==> Current(t).costTier.Rank() <= t.candidates[i].costTier.Rank();
  }

  /** A route has a successful attempt exactly when it has returned a result. */
  lemma SuccessIffReturned(config: RouterConfig, now: real, actions: seq<Action>, j: nat)
    requires ConfigOk(config) && Run(config, now, actions) && j < |Execute(config, now, actions).tasks|
    ensures var t := Execute(config, now, actions).tasks[j];
            (exists k :: 0 <= k < |t.attempts| && t.attempts[k].verdict == Success)
            <==> t.position.Ended? && t.position.ending.Returned?
  {
    hide FateOk, Execute, Run, R.CandidateModels;
    EveryRouteOfARun(config, now, actions, j);
    var t := Execute(config, now, actions).tasks[j];
    assert |t.attempts| != 0 ==> 0 <= |t.attempts| - 1;
  }

  /** In every interleaving, a route fails only when every candidate has been left for a reason, and then
      none of its attempts was a success. */
  lemma FailedMeansEveryCandidateFailed(config: RouterConfig, now: real, actions: seq<Action>, j: nat)
    requires ConfigOk(config) && Run(config, now, actions) && j < |Execute(config, now, actions).tasks|
    requires Execute(config, now, actions).tasks[j].position.Ended?
    requires Execute(config, now, actions).tasks[j].position.ending.AllModelsFailed?
    ensures var t := Execute(config, now, actions).tasks[j];
            && |t.fates| == |t.candidates| && |t.places| == |t.attempts|
            && t.candidates == R.CandidateModels(config, t.request)
            && (forall i :: 0 <= i < |t.candidates| ==> LeftForAReason(config, now, actions, j, i))
            && (forall k :: 0 <= k < |t.attempts| ==> t.attempts[k].verdict.Failed?)
            && t.position.ending.attempts == t.attempts
  {
    hide LeftForAReason, FateOk, Execute, Run, R.CandidateModels;
    EveryRouteOfARun(config, now, actions, j);
    EveryLeftCandidateHasAReason(config, now, actions, j);
  }

  /** Attempted tiers never decrease; before a premium attempt every non-premium candidate has been left. */
  lemma CheapestTierFirst(config: RouterConfig, t: Task, k: nat, l: nat)
    requires IsRoute(config, t) && k <= l < |t.attempts|
    ensures |t.places| == |t.attempts| && t.places[k] < |t.candidates| && t.places[l] < |t.candidates|
    ensures t.candidates[t.places[k]].costTier.Rank() <= t.candidates[t.places[l]].costTier.Rank()
    ensures t.candidates[t.places[l]].costTier.Premium? ==>
              t.request.allowPremiumFallback
              && forall i :: 0 <= i < |t.candidates| && !t.candidates[i].costTier.Premium? ==> i < |t.fates|
  {
    hide FateOk, Follows, R.CandidateModels, R.MeetsPolicy, R.TriedBefore, R.Permits, R.StrictlySorted;
    PlacesOrdered(t, k, l);
    R.CandidatesInOrder(config, t.request);
    var place := t.places[l];
    assert forall i :: place <= i < |t.candidates| ==> t.candidates[place].costTier.Rank() <= t.candidates[i].costTier.Rank();
  }

  /** Code reaches only models the policy permits: every attempt is on a configured, enabled model of an
      enabled provider with the capabilities asked for; for LOCAL_ONLY it is local, for PROPRIETARY local
      or approved, and premium only if the request allows it. */
  lemma AttemptsStayWithinPolicy(config: RouterConfig, now: real, actions: seq<Action>, j: nat, k: nat)
    requires ConfigOk(config) && Run(config, now, actions) && j < |Execute(config, now, actions).tasks|
    requires k < |Execute(config, now, actions).tasks[j].attempts|
    ensures var t := Execute(config, now, actions).tasks[j];
            exists m :: m in config.models && m.id == t.attempts[k].modelId && m.providerId == t.attempts[k].providerId
                        && m.enabled && m.providerId in config.providers && config.providers[m.providerId].enabled
                        && t.request.task.Value() in m.capabilities && t.request.requiredCapabilities <= m.capabilities
                        && (t.request.privacy.LocalOnly? ==> m.isLocal)
                        && (t.request.privacy.Proprietary? ==> m.isLocal || m.approvedForProprietary)
                        && (m.costTier.Premium? ==> t.request.allowPremiumFallback)
  {
    hide FateOk, Follows, R.CandidateModels, R.TriedBefore, R.Permits, R.StrictlySorted, Execute, Run;
    EveryRouteOfARun(config, now, actions, j);
    var t := Execute(config, now, actions).tasks[j];
    R.CandidatesInOrder(config, t.request);
    var m := t.candidates[t.places[k]];
    assert m in t.candidates && MadeOn(t.attempts[k], m);
  }

  /** In all, a route makes at most max_retries + 1 attempts per candidate. */
  lemma AttemptsAreBounded(t: Task)
    requires RouteOk(t)
    ensures |t.attempts| <= TriesBefore(t.candidates, |t.candidates|)
  {
    hide FateOk, Follows;
    if t.index < |t.candidates| {
      TriesGrow(t.candidates, t.index + 1);
    }
  }

  lemma {:induction false} TriesGrow(candidates: seq<ModelConfig>, n: nat)
    requires n <= |candidates|
    ensures TriesBefore(candidates, n) <= TriesBefore(candidates, |candidates|)
    decreases |candidates| - n
  {
    if n < |candidates| {
      TriesGrow(candidates, n + 1);
    }
  }

  /** In every interleaving, after an authentication, quota or rate-limit error no later attempt of the
      route uses that provider. */
  lemma ExcludedProviderIsLeftAlone(config: RouterConfig, now: real, actions: seq<Action>, j: nat, k: nat, l: nat)
    requires ConfigOk(config) && Run(config, now, actions) && j < |Execute(config, now, actions).tasks|
    requires k < l < |Execute(config, now, actions).tasks[j].attempts|
    requires ExcludingFailure(Execute(config, now, actions).tasks[j].attempts[k])
    ensures var t := Execute(config, now, actions).tasks[j];
            t.attempts[l].providerId != t.attempts[k].providerId
  {
    hide FateOk, Execute, Run, R.CandidateModels;
    EveryRouteOfARun(config, now, actions, j);
  }

  /** A candidate is passed over without any of the reasons a caller knows of exactly when its max_retries is
      negative and neither an exclusion nor an open circuit came first. */
  lemma SilentlySkippedIff(t: Task, i: nat)
    requires RouteOk(t) && i < |t.fates|
    ensures i < |t.candidates|
    ensures t.fates[i] == NoTries
            <==> t.candidates[i].maxRetries < 0 && t.fates[i] != ProviderExcluded && t.fates[i] != CircuitOpen
  {
    assert FateOk(t, i);
    if t.fates[i].AttemptsFailed? {
      var k :| 0 <= k < |t.attempts| && EndsBlock(t.places, k, i) && t.attempts[k].verdict == Failed(t.fates[i].error);
      assert MadeOn(t.attempts[k], t.candidates[t.places[k]]);
      NumbersFromOne(t, k);
    }
  }

  lemma {:induction false} NumbersFromOne(t: Task, k: nat)
    requires Blocks(t) && k < |t.attempts|
    ensures 1 <= t.attempts[k].number
  {
    assert Follows(t.attempts, t.places, k);
    if k != 0 && t.places[k - 1] == t.places[k] {
      NumbersFromOne(t, k - 1);
    }
  }
}
