/**
 The router: nested loops over candidates and retries, over a shared tracker, breaker and ledger, which
 other routes may use whenever this one waits. The rest of the environment is a script: entry n is what
 the route learns from outside at its n-th step.
 */
module Router {
  import opened Models
  import opened RouteMachine
  import opened QuotaTracker
  import opened Health
  import opened Ledger
  import Q = QuotaSpec
  import H = HealthSpec
  import R = Registry

  type Script = nat -> Input

  /** The shared state a route found at each of its steps, and what it learnt there. */
  type Visits = seq<(Shared, Input)>

  /** What a route that begins as t in the state start leaves and becomes through these visits. */
  function Played(config: RouterConfig, start: Shared, t: Task, visits: Visits): (Shared, Task) {
    if |visits| == 0 then (start, t)
    else
      var before := Played(config, start, t, visits[..|visits| - 1]);
      var (sh, input) := visits[|visits| - 1];
      var s := Step(config, sh, before.1, input);
      (s.shared, s.task)
  }

  /** Others may change the shared state only while the route waits. */
  predicate Waiting(t: Task) {
    t.position.InFlight? || t.position.Asleep?
  }

  ghost predicate Unbroken(config: RouterConfig, start: Shared, t: Task, visits: Visits) {
    |visits| != 0 ==>
      var front := visits[..|visits| - 1];
      var (left, u) := Played(config, start, t, front);
      Unbroken(config, start, t, front) && (Waiting(u) || visits[|visits| - 1].0 == left)
  }

  /** The trace of a route: its visits so far are the first entries of the script, uninterrupted except where
      it waited, and have brought it to task and the shared state to sh. */
  ghost predicate Traced(config: RouterConfig, start: Shared, first: Task, script: Script, visits: Visits,
                         sh: Shared, task: Task)
  {
    && Unbroken(config, start, first, visits)
    && (forall k :: 0 <= k < |visits| ==> visits[k].1 == script(k))
    && Played(config, start, first, visits) == (sh, task)
  }

  class ModelRouter {
    const config: RouterConfig
    const registry: R.ModelRegistry
    const tracker: InMemoryQuotaTracker
    const breaker: CircuitBreaker
    const ledger: UsageLedger

    constructor (config: RouterConfig, registry: R.ModelRegistry)
      requires registry.models == config.models
      ensures Valid() && fresh(Repr()) && this.config == config
      ensures View() == Shared(map[], map[], [])
    {
      this.config, this.registry := config, registry;
      tracker := new InMemoryQuotaTracker();
      breaker := new CircuitBreaker(config.failureThreshold, config.cooldown);
      ledger := new UsageLedger();
    }

    /** Refused for repeated model identifiers, then for providers without an adapter. */
    static method Create(config: RouterConfig, adapters: set<string>) returns (r: Result<ModelRouter, string>)
      ensures r.Ok? <==> R.UniqueIds(config.models) && forall m :: m in config.models ==> m.providerId in adapters
      ensures r.Ok? ==> r.value.Valid() && fresh(r.value.Repr()) && r.value.config == config
    {
      var registry := R.Create(config.models);
      if registry.Err? {
        return Err(registry.error);
      }
      var missing := (set m | m in config.models :: m.providerId) - adapters;
      if missing != {} {
        return Err("Missing provider adapters");
      }
      assert forall m :: m in config.models && m.providerId !in adapters ==> m.providerId in missing;
      var router := new ModelRouter(config, registry.value);
      return Ok(router);
    }

    ghost predicate Valid()
      reads this, tracker, breaker
    {
      && tracker.Valid() && breaker.Valid()
      && tracker.Repr !! breaker.Repr
      && (ledger as object) !in tracker.Repr && (ledger as object) !in breaker.Repr
      && registry.models == config.models
      && breaker.failureThreshold == config.failureThreshold && breaker.cooldown == config.cooldown
    }

    ghost function Repr(): set<object>
      reads tracker, breaker
    {
      tracker.Repr + breaker.Repr + {ledger}
    }

    ghost function View(): Shared
      requires Valid()
      reads this, tracker, tracker.Repr, breaker, breaker.Repr, ledger
    {
      Shared(tracker.View(), breaker.View(), ledger.records)
    }

    /** The eligible models whose provider is enabled. */
    method Candidates(request: RouterRequest) returns (candidates: seq<ModelConfig>)
      requires Valid()
      ensures candidates == R.CandidateModels(config, request)
    {
      var eligible := R.Eligible(registry, request);
      candidates := R.Keep(eligible, R.EnabledIn(config));
    }

    method Reserve(model: ModelConfig, request: RouterRequest, input: Input) returns (answer: Option<Q.Reservation>)
      requires Valid()
      modifies Repr()
      ensures Valid() && fresh(Repr() - old(Repr()))
      ensures var r := Q.Proposal(model, request.estimatedInputTokens, request.maxOutputTokens, input.freshId);
              var outcome := Q.ReserveIn(old(View()).table, model, r, input.clock);
              View() == old(View()).(table := outcome.0) && answer == outcome.1
    {
      hide Q.ReserveIn;
      answer := tracker.TryReserve(model, request.estimatedInputTokens, request.maxOutputTokens,
                                   input.clock, input.freshId);
    }

    method CommitUsage(r: Q.Reservation, usage: Usage, input: Input)
      requires Valid()
      modifies Repr()
      ensures Valid() && fresh(Repr() - old(Repr()))
      ensures View() == old(View()).(table := Q.CommitIn(old(View()).table, r, usage, input.clock.wall))
    {
      hide Q.CommitIn;
      tracker.Commit(r, usage, input.clock.wall);
    }

    method CountSuccess(provider: string, input: Input)
      requires Valid()
      modifies Repr()
      ensures Valid() && fresh(Repr() - old(Repr()))
      ensures View() == old(View()).(circuits := Note(config, old(View()).circuits, provider, H.Succeeded(input.breakerNow)))
    {
      hide H.Record;
      breaker.Success(provider, input.breakerNow);
    }

    method RecordUsage(record: UsageRecord)
      requires Valid()
      modifies Repr()
      ensures Valid() && fresh(Repr() - old(Repr()))
      ensures View() == old(View()).(records := old(View()).records + [record])
    {
      ledger.Record(record);
    }

    method Finish(model: ModelConfig, request: RouterRequest, r: Q.Reservation, usage: Usage, input: Input)
      requires Valid()
      modifies Repr()
      ensures Valid() && fresh(Repr() - old(Repr()))
      ensures View() == Shared(
                Q.CommitIn(old(View()).table, r, usage, input.clock.wall),
                Note(config, old(View()).circuits, model.providerId, H.Succeeded(input.breakerNow)),
                old(View()).records + [UsageRecord(request.requestId, model.providerId, model.id, request.task, usage)])
    {
      hide Q.CommitIn, Note, View, Valid;
      CommitUsage(r, usage, input);
      CountSuccess(model.providerId, input);
      RecordUsage(UsageRecord(request.requestId, model.providerId, model.id, request.task, usage));
    }

    method Release(r: Q.Reservation, input: Input)
      requires Valid()
      modifies Repr()
      ensures Valid() && fresh(Repr() - old(Repr()))
      ensures View() == old(View()).(table := Q.ReleaseIn(old(View()).table, r, input.clock.wall))
    {
      hide Q.ReleaseIn;
      tracker.Release(r, input.clock.wall);
    }

    method CountFailure(provider: string, input: Input)
      requires Valid()
      modifies Repr()
      ensures Valid() && fresh(Repr() - old(Repr()))
      ensures View() == old(View()).(circuits := Note(config, old(View()).circuits, provider,
                                                       H.Failed(input.breakerNow, input.breakerAgain)))
    {
      hide H.Record;
      breaker.Failure(provider, input.breakerNow, input.breakerAgain);
    }

    method CanAttempt(provider: string, input: Input) returns (allowed: bool)
      requires Valid()
      modifies Repr()
      ensures Valid() && fresh(Repr() - old(Repr()))
      ensures View() == old(View()).(circuits := H.Touch(old(View()).circuits, provider))
      ensures allowed == H.Allows(H.Lookup(old(View()).circuits, provider), input.breakerNow, config.cooldown)
    {
      hide H.Touch, H.Allows;
      allowed := breaker.CanAttempt(provider, input.breakerNow);
    }

    /** Where the route waits for an adapter or sleeps, others run. Whatever they do to the tracker, the breaker
        and the ledger, all that the route may rely on is that these stay valid. */
    method Wait()
      requires Valid()
      modifies Repr()
      ensures Valid() && fresh(Repr() - old(Repr()))
    {
    }

    /** One pass of the retry loop: reserve, call, conclude. It ends the route, or leaves the candidate behind,
        or asks for another pass after a sleep. */
    method TryOnce(model: ModelConfig, request: RouterRequest, script: Script, retry: nat, attempts0: seq<Attempt>,
                   excluded0: set<string>, steps0: nat, ghost start: Shared, ghost first: Task, ghost left0: Shared,
                   ghost before0: Shared, ghost task0: Task, ghost visits0: Visits)
      returns (ended: Option<Ending>, attempts: seq<Attempt>, excluded: set<string>, steps: nat, again: bool,
               ghost task: Task, ghost visits: Visits)
      requires Valid() && |visits0| == steps0
      requires Traced(config, start, first, script, visits0, left0, task0)
      requires Waiting(task0) || before0 == left0
      requires task0.index < |task0.candidates| && Current(task0) == model && task0.request == request
      requires task0.attempts == attempts0 && task0.excluded == excluded0
      requires Step(config, before0, task0, script(steps0))
               == TryReserve(View(), task0.(retry := retry), script(steps0))
      modifies Repr()
      ensures Valid() && fresh(Repr() - old(Repr())) && |visits| == steps
      ensures Traced(config, start, first, script, visits, View(), task)
      ensures task.attempts == attempts && task.excluded == excluded
      ensures task.candidates == task0.candidates && task.request == request
      ensures again ==> task.position.Asleep? && task.index == task0.index && task.retry == retry < model.maxRetries
      ensures !again ==> match ended
                         case Some(ending) => task.position == Ended(ending)
                         case None => task.position.AtCandidate? && task.index == task0.index + 1
    {
      hide Step, Note, Q.ReserveIn, FinishCall, Traced, View, Valid;
      attempts, excluded, again := attempts0, excluded0, false;
      TraceStep(start, first, script, visits0, left0, task0, before0);
      visits := visits0 + [(before0, script(steps0))];
      var answer := Reserve(model, request, script(steps0));
      task := task0.(retry := retry);
      if answer.None? {
        task := Advance(task, QuotaRefused);
        return None, attempts, excluded, steps0 + 1, false, task, visits;
      }
      task, steps := task.(position := InFlight(answer.value)), steps0 + 1;
      ghost var left := View();
      Wait();
      ghost var before := View();
      CallStep(before, task, script(steps));
      TraceStep(start, first, script, visits, left, task, before);
      visits := visits + [(before, script(steps))];
      ended, attempts, excluded, again := Conclude(model, request, answer.value, retry, attempts, excluded,
                                                   script(steps), task);
      task := FinishCall(config, before, task, script(steps)).task;
      steps := steps + 1;
    }

    /** The retry loop on one candidate that the breaker has let through. It ends the route, or leaves the
        candidate behind. */
    method TryModel(model: ModelConfig, request: RouterRequest, script: Script, attempts0: seq<Attempt>,
                    excluded0: set<string>, steps0: nat, ghost start: Shared, ghost first: Task, ghost sh0: Shared,
                    ghost task0: Task, ghost visits0: Visits)
      returns (ended: Option<Ending>, attempts: seq<Attempt>, excluded: set<string>, steps: nat, ghost task: Task,
               ghost visits: Visits)
      requires Valid() && 0 <= model.maxRetries && |visits0| == steps0
      requires Traced(config, start, first, script, visits0, sh0, task0)
      requires task0.index < |task0.candidates| && Current(task0) == model && task0.request == request
      requires task0.attempts == attempts0 && task0.excluded == excluded0
      requires Step(config, sh0, task0, script(steps0)) == TryReserve(View(), task0.(retry := 0), script(steps0))
      modifies Repr()
      ensures Valid() && fresh(Repr() - old(Repr())) && |visits| == steps
      ensures Traced(config, start, first, script, visits, View(), task)
      ensures task.attempts == attempts && task.excluded == excluded
      ensures task.candidates == task0.candidates && task.request == request
      ensures match ended
              case Some(ending) => task.position == Ended(ending)
              case None => task.position.AtCandidate? && task.index == task0.index + 1
    {
      hide Step, TryReserve, Traced, View, Valid;
      attempts, excluded, steps, task, visits := attempts0, excluded0, steps0, task0, visits0;
      ghost var left, before := sh0, sh0;
      var retry := 0;
      while true
        invariant 0 <= retry <= model.maxRetries && |visits| == steps
        invariant Valid() && fresh(Repr() - old(Repr()))
        invariant Traced(config, start, first, script, visits, left, task)
        invariant Waiting(task) || before == left
        invariant task.index == task0.index && task.request == request && task.candidates == task0.candidates
        invariant task.attempts == attempts && task.excluded == excluded
        invariant Step(config, before, task, script(steps))
                  == TryReserve(View(), task.(retry := retry), script(steps))
        decreases model.maxRetries - retry
      {
        var again;
        ended, attempts, excluded, steps, again, task, visits :=
          TryOnce(model, request, script, retry, attempts, excluded, steps, start, first, left, before, task, visits);
        if !again {
          return;
        }
        left := View();
        Wait();
        before := View();
        SleepStep(before, task, script(steps));
        if script(steps).cancelSleep {
          TraceStep(start, first, script, visits, left, task, before);
          visits := visits + [(before, script(steps))];
          task, steps := task.(position := Ended(CancelledByCaller)), steps + 1;
          return Some(CancelledByCaller), attempts, excluded, steps, task, visits;
        }
        retry := retry + 1;
      }
    }

    /** What the loop body does with the outcome of an adapter call. */
    method Conclude(model: ModelConfig, request: RouterRequest, reservation: Q.Reservation, retry: nat,
                    attempts0: seq<Attempt>, excluded0: set<string>, input: Input, ghost task: Task)
      returns (ended: Option<Ending>, attempts: seq<Attempt>, excluded: set<string>, again: bool)
      requires Valid()
      requires task.index < |task.candidates| && Current(task) == model && task.request == request
      requires task.position == InFlight(reservation) && task.retry == retry
      requires task.attempts == attempts0 && task.excluded == excluded0
      modifies Repr()
      ensures Valid() && fresh(Repr() - old(Repr()))
      ensures var s := FinishCall(config, old(View()), task, input);
              && s.shared == View()
              && s.task.attempts == attempts && s.task.excluded == excluded
              && s.task.candidates == task.candidates && s.task.request == request
              && (again ==> s.task.position.Asleep? && s.task.index == task.index && s.task.retry == retry
                            && retry < model.maxRetries)
              && (!again ==> match ended
                             case Some(ending) => s.task.position == Ended(ending)
                             case None => s.task.position.AtCandidate? && s.task.index == task.index + 1)
    {
      hide Note, Q.CommitIn, Q.ReleaseIn, View, Valid, Delay;
      ended, attempts, excluded, again := None, attempts0, excluded0, false;
      if input.outcome.Responded? {
        Finish(model, request, reservation, input.outcome.usage, input);
        attempts := attempts + [Attempt(model.providerId, model.id, retry + 1, Success)];
        var result := RouterResult(request.requestId, model.providerId, model.id, input.outcome.content,
                                   input.outcome.usage, attempts, model.costTier.Premium?);
        ended := Some(Returned(result));
        return;
      }
      Release(reservation, input);
      if input.outcome.Cancelled? {
        ended := Some(CancelledByCaller);
        return;
      }
      var error := ErrorOf(input.outcome);
      attempts := attempts + [Attempt(model.providerId, model.id, retry + 1, Failed(error))];
      if Retryable(error) {
        CountFailure(model.providerId, input);
        again := retry < model.maxRetries;
      } else if Excludes(error) {
        excluded := excluded + {model.providerId};
      } else {
        CountFailure(model.providerId, input);
      }
    }

    /** Routing is the route machine run to its end: whatever others leave where it waits, it makes the
        machine's steps, with the same effect on what is shared, the same attempts and the same ending. */
    method Route(request: RouterRequest, script: Script)
      returns (ending: Ending, attempts: seq<Attempt>, ghost task: Task, ghost visits: Visits)
      requires Valid()
      modifies Repr()
      ensures Valid() && fresh(Repr() - old(Repr()))
      ensures Traced(config, old(View()), Begin(config, request), script, visits, View(), task)
      ensures task.position == Ended(ending) && task.attempts == attempts
    {
      hide Step, H.Touch, H.Allows, H.Lookup, Note, Q.ReserveIn, Q.CommitIn, Q.ReleaseIn, R.CandidateModels,
        Traced, View, Valid;
      ghost var start, first := View(), Begin(config, request);
      var candidates := Candidates(request);
      var steps: nat := 0;
      attempts, task, visits := [], first, [];
      NoTrace(start, first, script);
      if |candidates| == 0 {
        return NoEligibleModels, attempts, task, visits;
      }
      var excluded: set<string> := {};
      for i := 0 to |candidates|
        invariant Valid() && fresh(Repr() - old(Repr())) && |visits| == steps
        invariant Traced(config, start, first, script, visits, View(), task)
        invariant task.position.AtCandidate? && task.index == i && task.request == request
        invariant task.candidates == candidates && task.attempts == attempts && task.excluded == excluded
      {
        var model := candidates[i];
        ghost var before := View();
        AdmitStep(before, task, script(steps));
        ghost var more := visits + [(before, script(steps))];
        TraceStep(start, first, script, visits, before, task, before);
        if model.providerId in excluded {
          task, visits, steps := Advance(task, ProviderExcluded), more, steps + 1;
          continue;
        }
        var allowed := CanAttempt(model.providerId, script(steps));
        if !allowed {
          task, visits, steps := Advance(task, CircuitOpen), more, steps + 1;
          continue;
        }
        if model.maxRetries < 0 {  // range(max_retries + 1) is empty
          task, visits, steps := Advance(task, NoTries), more, steps + 1;
          continue;
        }
        var ended;
        ended, attempts, excluded, steps, task, visits :=
          TryModel(model, request, script, attempts, excluded, steps, start, first, before, task, visits);
        if ended.Some? {
          return ended.value, attempts, task, visits;
        }
      }
      AdmitStep(View(), task, script(steps));
      TraceStep(start, first, script, visits, View(), task, View());
      visits := visits + [(View(), script(steps))];
      ending := AllModelsFailed(attempts);
      task := task.(position := Ended(ending));
    }

    lemma NoTrace(sh: Shared, t: Task, script: Script)
      ensures Traced(config, sh, t, script, [], sh, t)
    {
    }

    /** The next step, in the state the last one left, or in any state if the route waited. */
    lemma TraceStep(start: Shared, first: Task, script: Script, visits: Visits, left: Shared, t: Task, before: Shared)
      requires Traced(config, start, first, script, visits, left, t) && (Waiting(t) || before == left)
      ensures var input := script(|visits|);
              var s := Step(config, before, t, input);
              Traced(config, start, first, script, visits + [(before, input)], s.shared, s.task)
    {
      hide Step;
      var more := visits + [(before, script(|visits|))];
      assert more[..|visits|] == visits;
    }

    lemma AdmitStep(sh: Shared, t: Task, input: Input)
      requires t.position.AtCandidate?
      ensures Step(config, sh, t, input) == Admit(config, sh, t, input)
    {
    }

    lemma CallStep(sh: Shared, t: Task, input: Input)
      requires t.position.InFlight? && t.index < |t.candidates|
      ensures Step(config, sh, t, input) == FinishCall(config, sh, t, input)
    {
    }

    lemma SleepStep(sh: Shared, t: Task, input: Input)
      requires t.position.Asleep? && t.index < |t.candidates|
      ensures Step(config, sh, t, input) == Wake(sh, t, input)
    {
    }
  }
}
