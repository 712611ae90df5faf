/**
 Every candidate a route has left was left for a reason: at some step of the run, at that candidate, the
 breaker said no, or the tracker was at a limit, or the provider was excluded, or the last try failed.
 */
module ConcurrencyReasons {
  import opened Models
  import opened QuotaRuns
  import opened QuotaAnswers
  import opened RouteMachine
  import opened RouteLaws
  import opened Concurrency
  import opened ConcurrencyRuns
  import Q = QuotaSpec
  import H = HealthSpec

  // ---- at one step ----

  /** The reservation the route asks for on its current candidate. */
  function Asked(t: Task, input: Input): Q.Reservation
    requires t.index < |t.candidates|
  {
    Q.Proposal(Current(t), t.request.estimatedInputTokens, t.request.maxOutputTokens, input.freshId)
  }

  lemma AskedFigures(t: Task, input: Input)
    requires t.index < |t.candidates|
    ensures var m, i, o := Current(t), Max(0, t.request.estimatedInputTokens), Max(0, t.request.maxOutputTokens);
            Asked(t, input) ==
            Q.Reservation(input.freshId, m.id, i + o,
                          (i as real * m.inputCostPerMillion + o as real * m.outputCostPerMillion) / 1000000.0)
  {
    hide Q.Proposal;
    Q.ProposalFigures(Current(t), t.request.estimatedInputTokens, t.request.maxOutputTokens, input.freshId);
  }

  /** The model's full log is at one of its limits for what the route asks. */
  ghost predicate RefusedAtALimit(books: Books, t: Task, input: Input)
    requires t.index < |t.candidates|
  {
    AtALimit(books, Current(t), Asked(t, input).tokens, Asked(t, input).cost, input.clock)
  }

  /** What made the route leave its current candidate with this fate. */
  ghost predicate Answered(config: RouterConfig, sh: Shared, t: Task, input: Input, fate: Fate)
    requires t.index < |t.candidates|
  {
    var m := Current(t);
    match fate
    case ProviderExcluded => t.position.AtCandidate? && m.providerId in t.excluded
    case CircuitOpen =>
      t.position.AtCandidate? && !H.Allows(H.Lookup(sh.circuits, m.providerId), input.breakerNow, config.cooldown)
    case NoTries => t.position.AtCandidate? && m.maxRetries < 0
    case QuotaRefused => !t.position.InFlight? && Q.ReserveIn(sh.table, m, Asked(t, input), input.clock).1.None?
    case AttemptsFailed(error) =>
      && t.position.InFlight? && !input.outcome.Responded? && !input.outcome.Cancelled?
      && error == ErrorOf(input.outcome) && (Retryable(error) ==> m.maxRetries <= t.retry)
  }

  /** A step leaves the fates as they are or adds that of the current candidate, with what answered it. */
  lemma FateOfStep(config: RouterConfig, sh: Shared, t: Task, input: Input)
    requires RouteOk(t)
    ensures var u := Step(config, sh, t, input).task;
            && u.candidates == t.candidates && |t.fates| == t.index
            && (u.fates == t.fates
                || (&& t.index < |t.candidates| && |u.fates| == t.index + 1 && u.fates[..t.index] == t.fates
                    && Answered(config, sh, t, input, u.fates[t.index])))
  {
    hide Blocks, Exclusions, FateOk, Stands, Q.ReserveIn, Q.CommitIn, Q.ReleaseIn, Note, H.Allows, H.Touch, H.Lookup,
      Delay, ErrorOf;
    var u := Step(config, sh, t, input).task;
    assert |u.fates| == t.index ==> u.fates == t.fates;
  }

  /** A route is refused a reservation only where the full log of the model is at one of its limits. */
  lemma RefusedOnlyAtALimit(config: RouterConfig, sys: System, i: nat, input: Input)
    requires ConfigOk(config) && SystemOk(config, sys) && i < |sys.tasks| && Possible(sys, StepTask(i, input))
    requires sys.tasks[i].index < |sys.tasks[i].candidates|
    requires Next(config, sys, StepTask(i, input)).tasks[i].fates == sys.tasks[i].fates + [QuotaRefused]
    ensures RefusedAtALimit(sys.books, sys.tasks[i], input)
  {
    hide BooksOk, RouteOk, Step, AtALimit, Q.ReserveIn, Book, Later, ItemsOf;
    var t := sys.tasks[i];
    FateOfStep(config, SharedOf(sys), t, input);
    assert (t.fates + [QuotaRefused])[t.index] == QuotaRefused;
    RefusedIffAtALimit(sys.books, Catalog(config.models), sys.now, Current(t), Asked(t, input), input.clock);
  }

  // ---- over a whole run ----

  /** Action n is a step of route i at its candidate c, which is m, and was answered with this fate. */
  ghost predicate AnsweredAt(config: RouterConfig, now: real, actions: seq<Action>, n: nat,
                             i: nat, c: nat, m: ModelConfig, fate: Fate)
    requires n < |actions|
  {
    var before := Execute(config, now, actions[..n]);
    && actions[n].StepTask? && actions[n].task == i && i < |before.tasks|
    && (var t, input := before.tasks[i], actions[n].input;
        && t.index == c < |t.candidates| && Current(t) == m
        && Answered(config, SharedOf(before), t, input, fate)
        && (fate.QuotaRefused? ==> RefusedAtALimit(before.books, t, input)))
  }

  /** At some action of the run. */
  ghost predicate HasReason(config: RouterConfig, now: real, actions: seq<Action>, i: nat, c: nat, m: ModelConfig, fate: Fate) {
    exists n :: 0 <= n < |actions| && AnsweredAt(config, now, actions, n, i, c, m, fate)
  }

  lemma ReasonStays(config: RouterConfig, now: real, actions: seq<Action>, i: nat, c: nat, m: ModelConfig, fate: Fate)
    requires |actions| != 0 && HasReason(config, now, actions[..|actions| - 1], i, c, m, fate)
    ensures HasReason(config, now, actions, i, c, m, fate)
  {
    hide Answered, RefusedAtALimit, Execute;
    var front := actions[..|actions| - 1];
    var n :| 0 <= n < |front| && AnsweredAt(config, now, front, n, i, c, m, fate);
    assert front[..n] == actions[..n];
    assert AnsweredAt(config, now, actions, n, i, c, m, fate);
  }

  /** An action leaves a route's fates alone, or is a step of that route. */
  lemma FatesOfNext(config: RouterConfig, sys: System, action: Action, i: nat)
    requires i < |Next(config, sys, action).tasks| && !(action.StepTask? && action.task == i)
    ensures if i < |sys.tasks| then Next(config, sys, action).tasks[i] == sys.tasks[i]
            else Next(config, sys, action).tasks[i].fates == []
  {
    hide Step;
  }

  /** In every interleaving, each fate of each route was given to it at that candidate by the breaker, by
      the tracker at a limit, by an exclusion, by its setting or by its last try. */
  lemma {:induction false} EveryFateHasItsReason(config: RouterConfig, now: real, actions: seq<Action>, i: nat, c: nat)
    requires ConfigOk(config) && Run(config, now, actions) && i < |Execute(config, now, actions).tasks|
    requires c < |Execute(config, now, actions).tasks[i].fates|
    ensures var t := Execute(config, now, actions).tasks[i];
            c < |t.candidates| && HasReason(config, now, actions, i, c, t.candidates[c], t.fates[c])
    decreases |actions|
  {
    hide HasReason, ConfigOk, Next, Possible;
    var n := |actions| - 1;
    if n < 0 {
      NoTasks(config, now);
    } else {
      var before := Execute(config, now, actions[..n]);
      if actions[n].StepTask? && actions[n].task == i {
        NewFate(config, now, actions, i, c);
      } else {
        FatesOfNext(config, before, actions[n], i);
      }
      if i < |before.tasks| && c < |before.tasks[i].fates| {
        EveryFateHasItsReason(config, now, actions[..n], i, c);
        var t := before.tasks[i];
        ReasonStays(config, now, actions, i, c, t.candidates[c], t.fates[c]);
      }
    }
  }

  lemma NoTasks(config: RouterConfig, now: real)
    ensures Execute(config, now, []).tasks == []
  {
  }

  /** The last action, a step of route i, keeps the fates there were, and has a reason for one it adds. */
  lemma NewFate(config: RouterConfig, now: real, actions: seq<Action>, i: nat, c: nat)
    requires |actions| != 0 && ConfigOk(config) && Run(config, now, actions)
    requires i < |Execute(config, now, actions).tasks| && c < |Execute(config, now, actions).tasks[i].fates|
    requires actions[|actions| - 1].StepTask? && actions[|actions| - 1].task == i
    ensures var before, t := Execute(config, now, actions[..|actions| - 1]), Execute(config, now, actions).tasks[i];
            && i < |before.tasks| && t.candidates == before.tasks[i].candidates
            && (if c < |before.tasks[i].fates| then t.fates[c] == before.tasks[i].fates[c]
                else c < |t.candidates| && HasReason(config, now, actions, i, c, t.candidates[c], t.fates[c]))
  {
    hide SystemOk, BooksOk, RouteOk, Step, Answered, RefusedAtALimit, ConfigOk, Possible, Book, Later, ItemsOf;
    var n := |actions| - 1;
    var before := Execute(config, now, actions[..n]);
    EveryReachableStateOk(config, now, actions[..n]);
    var input := actions[n].input;
    var t, u := before.tasks[i], Execute(config, now, actions).tasks[i];
    RouteOfSystem(config, before, i);
    FateOfStep(config, SharedOf(before), t, input);
    if t.index <= c {
      if u.fates[c].QuotaRefused? {
        RefusalReason(config, before, i, input);
      }
      assert AnsweredAt(config, now, actions, n, i, c, t.candidates[c], u.fates[c]);
    } else {
      assert u.fates[..t.index][c] == u.fates[c];
    }
  }

  lemma RouteOfSystem(config: RouterConfig, sys: System, i: nat)
    requires SystemOk(config, sys) && i < |sys.tasks|
    ensures RouteOk(sys.tasks[i])
  {
    hide RouteOk, BooksOk;
  }

  lemma RefusalReason(config: RouterConfig, sys: System, i: nat, input: Input)
    requires SystemOk(config, sys) && i < |sys.tasks| && Possible(sys, StepTask(i, input))
    requires sys.tasks[i].index < |sys.tasks[i].candidates|
    requires Answered(config, SharedOf(sys), sys.tasks[i], input, QuotaRefused)
    ensures RefusedAtALimit(sys.books, sys.tasks[i], input)
  {
    hide RouteOk, BooksOk, AtALimit, Q.ReserveIn;
    RefusedIffAtALimit(sys.books, Catalog(config.models), sys.now, Current(sys.tasks[i]), Asked(sys.tasks[i], input), input.clock);
  }
}
