/** The router's own routine, with whatever others do while it waits, is one of the interleavings. */
module RouterInSystem {
  import opened Models
  import opened RouteMachine
  import opened RouteLaws
  import opened RouteTime
  import opened Concurrency
  import opened ConcurrencyRuns
  import opened Router

  /** What others do, one action after the other. */
  function Meanwhile(config: RouterConfig, sys: System, actions: seq<Action>): System {
    if |actions| == 0 then sys
    else Next(config, Meanwhile(config, sys, actions[..|actions| - 1]), actions[|actions| - 1])
  }

  /** Before its k-th visit route i lets others(k) happen. */
  function Woven(config: RouterConfig, sys: System, i: nat, others: nat -> seq<Action>, visits: Visits): System {
    if |visits| == 0 then sys
    else
      var n := |visits| - 1;
      var before := Meanwhile(config, Woven(config, sys, i, others, visits[..n]), others(n));
      Next(config, before, StepTask(i, visits[n].1))
  }

  ghost predicate ByOthers(config: RouterConfig, sys: System, i: nat, actions: seq<Action>) {
    |actions| != 0 ==>
      var front, last := actions[..|actions| - 1], actions[|actions| - 1];
      && ByOthers(config, sys, i, front)
      && Possible(Meanwhile(config, sys, front), last) && !(last.StepTask? && last.task == i)
  }

  /** Others are at work in between, and the route finds at each visit what they have left. */
  ghost predicate Found(config: RouterConfig, sys: System, i: nat, others: nat -> seq<Action>, visits: Visits) {
    |visits| != 0 ==>
      var n := |visits| - 1;
      var left := Woven(config, sys, i, others, visits[..n]);
      var before := Meanwhile(config, left, others(n));
      && Found(config, sys, i, others, visits[..n])
      && ByOthers(config, left, i, others(n))
      && SharedOf(before) == visits[n].0 && Possible(before, StepTask(i, visits[n].1))
  }

  lemma {:induction false} OthersLeaveTheRoute(config: RouterConfig, sys: System, i: nat, actions: seq<Action>)
    requires ConfigOk(config) && SystemOk(config, sys) && i < |sys.tasks| && ByOthers(config, sys, i, actions)
    ensures var after := Meanwhile(config, sys, actions);
            SystemOk(config, after) && i < |after.tasks| && after.tasks[i] == sys.tasks[i]
  {
    hide SystemOk, ConfigOk, Possible, Next;
    if |actions| != 0 {
      var front, last := actions[..|actions| - 1], actions[|actions| - 1];
      OthersLeaveTheRoute(config, sys, i, front);
      EveryActionKeepsSystem(config, Meanwhile(config, sys, front), last);
      OtherAction(config, Meanwhile(config, sys, front), i, last);
    }
  }

  lemma OtherAction(config: RouterConfig, sys: System, i: nat, action: Action)
    requires i < |sys.tasks| && !(action.StepTask? && action.task == i)
    ensures i < |Next(config, sys, action).tasks| && Next(config, sys, action).tasks[i] == sys.tasks[i]
  {
    hide Step;
  }

  /** One step of the system at a route is one step of that route over what they share. */
  lemma NextIsStep(config: RouterConfig, sys: System, i: nat, input: Input)
    requires ConfigOk(config) && SystemOk(config, sys) && i < |sys.tasks| && Possible(sys, StepTask(i, input))
    ensures var end, s := Next(config, sys, StepTask(i, input)), Step(config, SharedOf(sys), sys.tasks[i], input);
            && SystemOk(config, end) && i < |end.tasks| && SharedOf(end) == s.shared && end.tasks[i] == s.task
  {
    hide SystemOk, ConfigOk, Possible, Step, Book, Later, ItemsOf;
    StepIsLegal(config, sys, i, input);
    EveryActionKeepsSystem(config, sys, StepTask(i, input));
  }

  /** What ModelRouter.Route makes of its visits is what the system makes of them when the others act in
      between; so every law of reachable systems holds of the tracker, breaker, ledger and attempts it leaves. */
  lemma {:induction false} RouteIsAnInterleaving(config: RouterConfig, sys: System, i: nat, others: nat -> seq<Action>,
                                                 visits: Visits)
    requires ConfigOk(config) && SystemOk(config, sys) && i < |sys.tasks| && Found(config, sys, i, others, visits)
    ensures var end := Woven(config, sys, i, others, visits);
            && SystemOk(config, end) && i < |end.tasks|
            && (SharedOf(end), end.tasks[i]) == Played(config, SharedOf(sys), sys.tasks[i], visits)
  {
    hide SystemOk, ConfigOk, Possible, Step, Next, SharedOf, ByOthers, Meanwhile;
    if |visits| != 0 {
      var n := |visits| - 1;
      var left := Woven(config, sys, i, others, visits[..n]);
      RouteIsAnInterleaving(config, sys, i, others, visits[..n]);
      OthersLeaveTheRoute(config, left, i, others(n));
      NextIsStep(config, Meanwhile(config, left, others(n)), i, visits[n].1);
    }
  }

  lemma {:induction false} PlayedIsVisit(config: RouterConfig, start: Shared, t: Task, visits: Visits)
    ensures Played(config, start, t, visits).1 == Visit(config, t, visits)
  {
    hide Step;
    if |visits| != 0 {
      PlayedIsVisit(config, start, t, visits[..|visits| - 1]);
    }
  }

  /** Whatever others did while ModelRouter.Route waited, its attempts and its ending obey the laws of routes,
      and it was only for a bounded number of visits. */
  lemma RouteObeysTheLaws(config: RouterConfig, start: Shared, request: RouterRequest, script: Script, visits: Visits,
                          sh: Shared, task: Task)
    requires Traced(config, start, Begin(config, request), script, visits, sh, task)
    ensures RouteOk(task)
    ensures task.position.Ended? || |visits| < StepsFrom(Begin(config, request).candidates, 0)
  {
    hide RouteOk, Unbroken, Visit, Begin;
    var t := Begin(config, request);
    BeginOk(config, request);
    PlayedIsVisit(config, start, t, visits);
    VisitProgress(config, t, visits);
    if !task.position.Ended? {
      RemainingPositive(task);
      BeginRemaining(config, request);
    }
  }

  lemma BeginRemaining(config: RouterConfig, request: RouterRequest)
    ensures var t := Begin(config, request); t.index == 0 && Remaining(t) <= StepsFrom(t.candidates, 0)
  {
  }
}
