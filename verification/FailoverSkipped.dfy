/** A negative max_retries makes the router give up without trying anyone. */
module FailoverSkipped {
  import opened Models
  import opened RouteMachine
  import opened RouteLaws
  import opened Concurrency
  import opened ConcurrencyRuns
  import opened Failover
  import Q = QuotaSpec
  import R = Registry

  /** Whatever happens, an attempt is numbered from one to max_retries + 1, so no candidate with a negative
      setting is ever attempted. */
  lemma NegativeRetriesMeanNoAttempt(t: Task, k: nat)
    requires RouteOk(t) && k < |t.attempts|
    ensures |t.places| == |t.attempts| && t.places[k] < |t.candidates|
    ensures 1 <= t.attempts[k].number <= t.candidates[t.places[k]].maxRetries + 1
  {
    hide FateOk, Exclusions;
    NumbersFromOne(t, k);
    assert MadeOn(t.attempts[k], t.candidates[t.places[k]]);
  }

  // ---- a concrete run ----

  /** One enabled model without limits, whose max_retries is minus one. */
  const MODEL := ModelConfig("m", "p", {"debugging"}, Free, 100, true, false, false, None, None, None, None, None,
                             0.0, 0.0, -1, None)

  const CONFIG := RouterConfig(map["p" := ProviderConfig("p", true, 30.0)], [MODEL], 1.0, 8.0, 3, 60.0)

  const REQUEST := RouterRequest("r", Debugging, Public, 10, 10, false, {})

  const INPUT := Input(Q.Clock(0.0, 0, 0), "a", 0.0, 0.0, TimerExpired, 0.0, 1.0, false)

  function Actions(): seq<Action> {
    [Spawn(REQUEST), StepTask(0, INPUT), StepTask(0, INPUT)]
  }

  lemma OneCandidate()
    ensures R.CandidateModels(CONFIG, REQUEST) == [MODEL]
  {
    assert R.Permits(MODEL, REQUEST);
    assert [MODEL][..0] == [];
    assert R.Keep([MODEL], R.PermittedBy(REQUEST)) == [MODEL];
    assert R.Sorted([MODEL], REQUEST) == R.Insert(MODEL, [], REQUEST) == [MODEL];
    assert R.Keep([MODEL], R.EnabledIn(CONFIG)) == [MODEL];
  }

  function Passed(): Task {
    Advance(Begin(CONFIG, REQUEST), NoTries)
  }

  lemma OneMore(actions: seq<Action>, action: Action, sys: System)
    requires Run(CONFIG, 0.0, actions) && Execute(CONFIG, 0.0, actions) == sys && Possible(sys, action)
    ensures Run(CONFIG, 0.0, actions + [action]) && Execute(CONFIG, 0.0, actions + [action]) == Next(CONFIG, sys, action)
  {
    assert (actions + [action])[..|actions|] == actions;
  }

  lemma NoActions()
    ensures Run(CONFIG, 0.0, []) && Execute(CONFIG, 0.0, []) == Initial(0.0)
  {
  }

  lemma FirstStep(sh: Shared)
    requires sh.circuits == map[]
    ensures var s := Step(CONFIG, sh, Begin(CONFIG, REQUEST), INPUT);
            s.task == Passed() && s.op.None? && s.shared.table == sh.table
  {
    OneCandidate();
  }

  lemma SecondStep(sh: Shared)
    ensures Step(CONFIG, sh, Passed(), INPUT) == Stepped(sh, Passed().(position := Ended(AllModelsFailed([]))), None)
  {
    OneCandidate();
  }

  /** The only candidate is permitted, enabled, unlimited and healthy; nobody is asked, and the route fails. */
  lemma GivesUpWithoutTrying()
    ensures ConfigOk(CONFIG) && Run(CONFIG, 0.0, Actions())
    ensures var sys := Execute(CONFIG, 0.0, Actions());
            && |sys.tasks| == 1
            && (var t := sys.tasks[0];
                && t.candidates == [MODEL] && MODEL.maxRetries == -1
                && t.position == Ended(AllModelsFailed([])) && t.attempts == [] && t.fates == [NoTries])
  {
    hide Run, Execute, Step, R.CandidateModels;
    OneCandidate();
    NoActions();
    var a := Actions();
    var s0 := Initial(0.0);
    var s1 := Next(CONFIG, s0, a[0]);
    OneMore([], a[0], s0);
    var s2 := Next(CONFIG, s1, a[1]);
    OneMore([] + [a[0]], a[1], s1);
    FirstStep(SharedOf(s1));
    var s3 := Next(CONFIG, s2, a[2]);
    OneMore([] + [a[0]] + [a[1]], a[2], s2);
    SecondStep(SharedOf(s2));
    assert [] + [a[0]] + [a[1]] + [a[2]] == Actions();
  }
}
