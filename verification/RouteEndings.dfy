/** How routes end: a route is cancelled only by its caller, and gives up only when no candidate is left. */
module RouteEndings {
  import opened Models
  import opened RouteMachine
  import opened RouteLaws
  import opened RouteAnswers
  import opened Concurrency
  import opened ConcurrencyRuns
  import opened ConcurrencyReasons
  import opened Failover
  import opened Router
  import opened RouterInSystem

  lemma WaitsAtCandidate(t: Task)
    requires RouteOk(t)
    ensures t.position.InFlight? || t.position.Asleep? ==> t.index < |t.candidates|
  {
  }

  // ---- in every interleaving ----

  /** Action n is a step of route j at which its caller cancels. */
  ghost predicate CancelledAt(config: RouterConfig, now: real, actions: seq<Action>, n: nat, j: nat)
    requires n < |actions|
  {
    var before := Execute(config, now, actions[..n]);
    && actions[n].StepTask? && actions[n].task == j && j < |before.tasks|
    && Cancels(before.tasks[j], actions[n].input)
  }

  ghost predicate WasCancelled(config: RouterConfig, now: real, actions: seq<Action>, j: nat) {
    exists n :: 0 <= n < |actions| && CancelledAt(config, now, actions, n, j)
  }

  lemma CancelledEarlier(config: RouterConfig, now: real, actions: seq<Action>, j: nat)
    requires |actions| != 0
    ensures var n := |actions| - 1;
            WasCancelled(config, now, actions, j)
            <==> WasCancelled(config, now, actions[..n], j) || CancelledAt(config, now, actions, n, j)
  {
    hide Execute, Cancels;
    var n := |actions| - 1;
    forall k | 0 <= k < n
      ensures CancelledAt(config, now, actions, k, j) <==> CancelledAt(config, now, actions[..n], k, j)
    {
      assert actions[..n][..k] == actions[..k];
    }
  }

  /** In every interleaving a route ends as cancelled exactly when its caller cancelled one of its calls or its
      sleeps: no error and no timeout ends it so. */
  lemma {:induction false} CancelledIffCallerCancels(config: RouterConfig, now: real, actions: seq<Action>, j: nat)
    requires ConfigOk(config) && Run(config, now, actions) && j < |Execute(config, now, actions).tasks|
    ensures Execute(config, now, actions).tasks[j].position == Ended(CancelledByCaller)
            <==> WasCancelled(config, now, actions, j)
    decreases |actions|
  {
    hide ConfigOk, Possible, Next, WasCancelled;
    if |actions| == 0 {
      NoTasks(config, now);
    } else {
      var n := |actions| - 1;
      var before := Execute(config, now, actions[..n]);
      CancelledEarlier(config, now, actions, j);
      EveryReachableStateOk(config, now, actions[..n]);
      StepOfRun(config, before, actions[n], j);
      if j < |before.tasks| {
        CancelledIffCallerCancels(config, now, actions[..n], j);
      } else {
        NotYetCancelled(config, now, actions[..n], j);
      }
    }
  }

  /** What one action does to the position of route j, as far as cancellation is concerned. */
  lemma StepOfRun(config: RouterConfig, sys: System, action: Action, j: nat)
    requires SystemOk(config, sys) && j < |Next(config, sys, action).tasks|
    ensures var u := Next(config, sys, action).tasks[j];
            u.position == Ended(CancelledByCaller)
            <==> j < |sys.tasks| && (sys.tasks[j].position == Ended(CancelledByCaller)
                                     || (action.StepTask? && action.task == j && Cancels(sys.tasks[j], action.input)))
  {
    hide SystemOk, Step, Book, Later, ItemsOf, Cancels;
    if j < |sys.tasks| && action.StepTask? && action.task == j {
      RouteOfSystem(config, sys, j);
      WaitsAtCandidate(sys.tasks[j]);
      CancelledAfterStep(config, SharedOf(sys), sys.tasks[j], action.input);
    }
  }

  lemma {:induction false} TasksOnlyGrow(config: RouterConfig, now: real, actions: seq<Action>, n: nat)
    requires n <= |actions|
    ensures |Execute(config, now, actions[..n]).tasks| <= |Execute(config, now, actions).tasks|
    decreases |actions|
  {
    hide Step;
    if n == |actions| {
      assert actions[..n] == actions;
    } else {
      assert actions[..|actions| - 1][..n] == actions[..n];
      TasksOnlyGrow(config, now, actions[..|actions| - 1], n);
    }
  }

  lemma NotYetCancelled(config: RouterConfig, now: real, actions: seq<Action>, j: nat)
    requires |Execute(config, now, actions).tasks| <= j
    ensures !WasCancelled(config, now, actions, j)
  {
    hide Execute, Cancels;
    forall n | 0 <= n < |actions|
      ensures !CancelledAt(config, now, actions, n, j)
    {
      TasksOnlyGrow(config, now, actions, n);
    }
  }

  /** In every interleaving a route that has ended was cancelled by its caller, or had no eligible model, or has
      returned a success, or has left every one of its candidates for a reason. */
  lemma EveryEnding(config: RouterConfig, now: real, actions: seq<Action>, j: nat)
    requires ConfigOk(config) && Run(config, now, actions) && j < |Execute(config, now, actions).tasks|
    requires Execute(config, now, actions).tasks[j].position.Ended? && !WasCancelled(config, now, actions, j)
    ensures var t := Execute(config, now, actions).tasks[j];
            && (t.position.ending.NoEligibleModels? <==> |t.candidates| == 0)
            && (t.position.ending.Returned? <==>
                  exists k :: 0 <= k < |t.attempts| && t.attempts[k].verdict == Success)
            && (t.position.ending.AllModelsFailed? <==>
                  |t.candidates| != 0 && |t.fates| == |t.candidates|
                  && forall i :: 0 <= i < |t.candidates| ==> LeftForAReason(config, now, actions, j, i))
  {
    hide Execute, Run, WasCancelled, LeftForAReason, FateOk, Follows;
    CancelledIffCallerCancels(config, now, actions, j);
    EveryRouteOfARun(config, now, actions, j);
    EveryLeftCandidateHasAReason(config, now, actions, j);
    SuccessIffReturned(config, now, actions, j);
  }

  // ---- for a trace of ModelRouter.Route ----

  /** At visit k of the route its caller cancels. */
  ghost predicate CancelledVisit(config: RouterConfig, start: Shared, first: Task, visits: Visits, k: nat)
    requires k < |visits|
  {
    Cancels(Played(config, start, first, visits[..k]).1, visits[k].1)
  }

  lemma {:induction false} PlayedIsOk(config: RouterConfig, start: Shared, first: Task, visits: Visits)
    requires RouteOk(first)
    ensures RouteOk(Played(config, start, first, visits).1)
  {
    hide RouteOk, Step;
    if |visits| != 0 {
      var n := |visits| - 1;
      PlayedIsOk(config, start, first, visits[..n]);
      EveryStepKeepsRoute(config, visits[n].0, Played(config, start, first, visits[..n]).1, visits[n].1);
    }
  }

  /** Whatever others do, a route is cancelled exactly when its caller cancels at one of its visits. */
  lemma {:induction false} CancelledIffVisitCancels(config: RouterConfig, start: Shared, first: Task, visits: Visits)
    requires RouteOk(first) && first.position != Ended(CancelledByCaller)
    ensures Played(config, start, first, visits).1.position == Ended(CancelledByCaller)
            <==> exists k :: 0 <= k < |visits| && CancelledVisit(config, start, first, visits, k)
  {
    hide RouteOk, Step, Cancels;
    if |visits| != 0 {
      var n := |visits| - 1;
      var front := visits[..n];
      var t := Played(config, start, first, front).1;
      CancelledIffVisitCancels(config, start, first, front);
      PlayedIsOk(config, start, first, front);
      WaitsAtCandidate(t);
      CancelledAfterStep(config, visits[n].0, t, visits[n].1);
      forall k | 0 <= k < n
        ensures CancelledVisit(config, start, first, front, k) <==> CancelledVisit(config, start, first, visits, k)
      {
        assert front[..k] == visits[..k];
      }
      assert CancelledVisit(config, start, first, visits, n) <==> Cancels(t, visits[n].1);
      assert (exists k :: 0 <= k < n && CancelledVisit(config, start, first, front, k))
        <==> (exists k :: 0 <= k < n && CancelledVisit(config, start, first, visits, k));
    }
  }

  /** ModelRouter.Route ends as cancelled only if its caller cancels. Otherwise it has no eligible model, or
      returns its one success, or has left every candidate and reports its attempts. */
  lemma RouteEnds(config: RouterConfig, start: Shared, request: RouterRequest, script: Script, visits: Visits,
                  sh: Shared, task: Task)
    requires Traced(config, start, Begin(config, request), script, visits, sh, task) && task.position.Ended?
    ensures task.position.ending.CancelledByCaller?
            <==> exists k :: 0 <= k < |visits| && CancelledVisit(config, start, Begin(config, request), visits, k)
    ensures task.position.ending.NoEligibleModels? <==> |task.candidates| == 0
    ensures task.position.ending.Returned?
            <==> exists k :: 0 <= k < |task.attempts| && task.attempts[k].verdict == Success
    ensures task.position.ending.AllModelsFailed?
            ==> |task.fates| == |task.candidates| && task.position.ending.attempts == task.attempts
  {
    hide Step, Cancels, CancelledVisit, FateOk, Follows, Unbroken, Begin;
    BeginOk(config, request);
    NotCancelledAtFirst(config, request);
    CancelledIffVisitCancels(config, start, Begin(config, request), visits);
    PlayedIsOk(config, start, Begin(config, request), visits);
    assert |task.attempts| != 0 ==> 0 <= |task.attempts| - 1;
  }

  lemma NotCancelledAtFirst(config: RouterConfig, request: RouterRequest)
    ensures Begin(config, request).position != Ended(CancelledByCaller)
  {
  }
}
