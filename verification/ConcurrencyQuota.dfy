/**
 Every interleaving is a run of the quota tracker: its accounts are those of the legal sequence of operations
 that its actions make, so every law of QuotaRuns holds of every interleaving.
 */
module ConcurrencyQuota {
  import opened Models
  import opened Amounts
  import opened QuotaLaws
  import opened QuotaRuns
  import opened RouteMachine
  import opened Concurrency
  import opened ConcurrencyRuns

  /** The tracker operation an action makes, if any. */
  function OpsOf(config: RouterConfig, sys: System, action: Action): seq<Op> {
    match action
    case StepTask(i, input) =>
      if i >= |sys.tasks| then []
      else
        var op := Step(config, SharedOf(sys), sys.tasks[i], input).op;
        if op.Some? then [op.value] else []
    case Snapshot(clock) => [SnapshotOp(clock)]
    case _ => []
  }

  function OpsOfRun(config: RouterConfig, now: real, actions: seq<Action>): seq<Op> {
    if |actions| == 0 then []
    else
      var front := actions[..|actions| - 1];
      OpsOfRun(config, now, front) + OpsOf(config, Execute(config, now, front), actions[|actions| - 1])
  }

  /** An action makes at most one operation, which is legal, not earlier than those before it, and is what it
      does to the accounts. */
  lemma OpsOfNext(config: RouterConfig, sys: System, action: Action)
    requires ConfigOk(config) && SystemOk(config, sys) && Possible(sys, action)
    ensures var ops, after := OpsOf(config, sys, action), Next(config, sys, action);
            if |ops| == 0 then after.books == sys.books && after.now == sys.now
            else |ops| == 1 && after.books == Apply(sys.books, ops[0]) && after.now == ops[0].clock.monotonic
                 && sys.now <= after.now && Legal(sys.books, ops[0], Catalog(config.models))
  {
    hide ConfigOk, SystemOk, Step, Apply;
    if action.StepTask? && action.task < |sys.tasks| {
      StepIsLegal(config, sys, action.task, action.input);
    }
  }

  lemma PlayOneMore(ops: seq<Op>, op: Op, catalog: map<string, ModelConfig>)
    requires LegalRun(ops, catalog) && Legal(Play(ops), op, catalog)
    requires |ops| != 0 ==> Latest(ops).monotonic <= op.clock.monotonic
    ensures LegalRun(ops + [op], catalog) && Play(ops + [op]) == Apply(Play(ops), op)
  {
    hide Legal, Apply;
    assert (ops + [op])[..|ops|] == ops;
  }

  lemma {:induction false} EveryInterleavingIsAQuotaRun(config: RouterConfig, now: real, actions: seq<Action>)
    requires ConfigOk(config) && Run(config, now, actions)
    ensures var ops := OpsOfRun(config, now, actions);
            && LegalRun(ops, Catalog(config.models))
            && Execute(config, now, actions).books == Play(ops)
            && (|ops| != 0 ==> Latest(ops).monotonic == Execute(config, now, actions).now)
  {
    hide ConfigOk, Possible, OpsOf, Next, SystemOk, Apply, Legal;
    if |actions| != 0 {
      var front := actions[..|actions| - 1];
      var before, action := Execute(config, now, front), actions[|actions| - 1];
      EveryInterleavingIsAQuotaRun(config, now, front);
      EveryReachableStateOk(config, now, front);
      OpsOfNext(config, before, action);
      var ops := OpsOf(config, before, action);
      if |ops| == 1 {
        assert ops == [ops[0]];
        PlayOneMore(OpsOfRun(config, now, front), ops[0], Catalog(config.models));
      } else {
        assert OpsOfRun(config, now, front) + ops == OpsOfRun(config, now, front);
      }
    }
  }

  /** In every interleaving whose operations see UTC dates in order, no date sees more than requests_per_day
      calls of a model reserved. */
  lemma NoDateIsOverbooked(config: RouterConfig, now: real, actions: seq<Action>, model: ModelConfig, d: int)
    requires ConfigOk(config) && Run(config, now, actions) && DatesForward(OpsOfRun(config, now, actions))
    requires model in config.models && model.requestsPerDay.Some?
    requires model.id in Execute(config, now, actions).books.logs
    ensures Sum(Execute(config, now, actions).books.logs[model.id].entries, OnDate(d)).requests
            <= Max(0, model.requestsPerDay.value)
  {
    hide Sum, Execute, Run, OpsOfRun, LegalRun, DatesForward;
    EveryInterleavingIsAQuotaRun(config, now, actions);
    CatalogHolds(config.models, model);
    NothingPlayed();
    DailyRequestsOverRuns(OpsOfRun(config, now, actions), Catalog(config.models), model.id, d);
  }

  lemma NothingPlayed()
    ensures Play([]) == EMPTY
  {
  }

  /** In every interleaving the tokens charged to any window of a model exceed its tokens_per_minute by at most
      the overshoots of the window, and the day's charges its daily limits by at most the overshoots of the
      day and the shortfalls carried into it. */
  lemma ChargesStayWithinLimits(config: RouterConfig, now: real, actions: seq<Action>, model: ModelConfig, t: real)
    requires ConfigOk(config) && Run(config, now, actions) && model in config.models
    requires model.id in Execute(config, now, actions).books.logs
    ensures var log := Execute(config, now, actions).books.logs[model.id];
            var T, U := Sum(log.entries, InPeriod(log.period)), Sum(log.entries, CarriedShortfall(log.period));
            var O := Sum(log.entries, OverInPeriod(log.period));
            && (model.tokensPerMinute.Some? ==>
                  Sum(log.entries, InWindow(t)).tokens
                  <= Max(0, model.tokensPerMinute.value) + Sum(log.entries, OverInWindow(t)).tokens)
            && (model.tokensPerDay.Some? ==> T.tokens <= Max(0, model.tokensPerDay.value) + U.tokens + O.tokens)
            && (model.dailyCostLimit.Some? ==> T.cost <= MaxReal(0.0, model.dailyCostLimit.value) + U.cost + O.cost)
  {
    hide Sum, Execute, Run, OpsOfRun, LegalRun;
    EveryInterleavingIsAQuotaRun(config, now, actions);
    CatalogHolds(config.models, model);
    NothingPlayed();
    var ops := OpsOfRun(config, now, actions);
    DailyLawOverRuns(ops, Catalog(config.models), model.id);
    if model.tokensPerMinute.Some? {
      MinuteTokensOverRuns(ops, Catalog(config.models), model.id, t);
    }
  }
}
