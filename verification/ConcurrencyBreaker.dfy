/**
 Router and breaker stay coupled: the circuit of each provider is the replay of what the journal says
 about that provider, and routes turned to a provider only when that history allowed it.
 */
module ConcurrencyBreaker {
  import opened Models
  import opened RouteMachine
  import opened RouteLaws
  import opened RouteAnswers
  import opened Concurrency
  import opened ConcurrencyLaws
  import H = HealthSpec
  import Q = QuotaSpec

  /** What one journal item means for the health of provider p: successes and failures of attempts,
      except authentication, quota and rate-limit errors, and the outcomes of health checks. */
  function HealthOf(item: Item, p: string): seq<H.Event> {
    match item
    case Attempted(_, a, at, again) =>
      if a.providerId != p then []
      else if a.verdict.Success? then [H.Succeeded(at)]
      else if Excludes(a.verdict.error) then []
      else [H.Failed(at, again)]
    case Probed(provider, healthy, at, again) =>
      if provider == p then [ProbeEvent(healthy, at, again)] else []
    case _ => []
  }

  /** A healthy check closes the provider's circuit; an unhealthy one counts as a failure; no other provider's
      circuit changes, and nothing else does. */
  lemma ProbeIsCounted(config: RouterConfig, sys: System, provider: string, healthy: bool, at: real, again: real)
    ensures var after := Next(config, sys, Probe(provider, healthy, at, again));
            && after.books == sys.books && after.records == sys.records && after.tasks == sys.tasks
            && (if healthy then SuccessCounted(sys.circuits, after.circuits, provider, at)
                else FailureCounted(config, sys.circuits, after.circuits, provider, at, again))
  {
    hide SuccessCounted, FailureCounted, Note;
    SuccessIsCounted(config, sys.circuits, provider, at);
    FailureIsCounted(config, sys.circuits, provider, at, again);
  }

  function HealthHistory(journal: seq<Item>, p: string): seq<H.Event> {
    if |journal| == 0 then []
    else HealthHistory(journal[..|journal| - 1], p) + HealthOf(journal[|journal| - 1], p)
  }

  function AttemptsOf(journal: seq<Item>, i: nat): seq<Attempt> {
    if |journal| == 0 then []
    else
      var last := journal[|journal| - 1];
      AttemptsOf(journal[..|journal| - 1], i)
      + (if last.Attempted? && last.task == i then [last.attempt] else [])
  }

  ghost predicate BreakerOk(config: RouterConfig, circuits: H.Circuits, journal: seq<Item>) {
    forall p :: H.Lookup(circuits, p) == H.Replay(HealthHistory(journal, p), config.failureThreshold)
  }

  function BreakerAllows(config: RouterConfig, journal: seq<Item>, p: string, now: real): bool {
    H.Allows(H.Replay(HealthHistory(journal, p), config.failureThreshold), now, config.cooldown)
  }

  /** Item k, if it is about turning to a provider, agrees with the history before it. */
  ghost predicate GateOk(config: RouterConfig, journal: seq<Item>, k: nat)
    requires k < |journal|
  {
    match journal[k]
    case Opened(_, p, now) => BreakerAllows(config, journal[..k], p, now)
    case Turned(_, p, now) => !BreakerAllows(config, journal[..k], p, now)
    case _ => true
  }

  ghost predicate Gates(config: RouterConfig, journal: seq<Item>) {
    forall k :: 0 <= k < |journal| ==> GateOk(config, journal, k)
  }

  /** The attempts of every route are exactly those in the journal, in order. */
  ghost predicate AttemptsJournalled(tasks: seq<Task>, journal: seq<Item>) {
    && (forall i :: 0 <= i < |tasks| ==> AttemptsOf(journal, i) == tasks[i].attempts)
    && (forall i: nat :: |tasks| <= i ==> AttemptsOf(journal, i) == [])
  }

  lemma HistoryAppend(journal: seq<Item>, item: Item, p: string, i: nat)
    ensures HealthHistory(journal + [item], p) == HealthHistory(journal, p) + HealthOf(item, p)
    ensures AttemptsOf(journal + [item], i)
            == AttemptsOf(journal, i) + (if item.Attempted? && item.task == i then [item.attempt] else [])
  {
    assert (journal + [item])[..|journal|] == journal;
  }

  lemma ReplayAppend(h: seq<H.Event>, e: H.Event, threshold: int)
    ensures H.Replay(h + [e], threshold) == H.Step(H.Replay(h, threshold), e, threshold)
  {
    assert (h + [e])[..|h|] == h;
  }

  /** The circuits move exactly as the new item says. */
  ghost predicate Moves(config: RouterConfig, before: H.Circuits, after: H.Circuits, item: Item) {
    forall p ::
      H.Lookup(after, p) ==
        if HealthOf(item, p) == [] then H.Lookup(before, p)
        else H.Step(H.Lookup(before, p), HealthOf(item, p)[0], config.failureThreshold)
  }

  lemma AppendKeepsBreaker(config: RouterConfig, before: H.Circuits, after: H.Circuits, journal: seq<Item>, item: Item)
    requires BreakerOk(config, before, journal) && Moves(config, before, after, item)
    ensures BreakerOk(config, after, journal + [item])
  {
    hide HealthHistory, H.Replay, H.Step;
    forall p: string
      ensures H.Lookup(after, p) == H.Replay(HealthHistory(journal + [item], p), config.failureThreshold)
    {
      HistoryAppend(journal, item, p, 0);
      var h := HealthHistory(journal, p);
      if HealthOf(item, p) == [] {
        assert h + [] == h;
      } else {
        assert HealthOf(item, p) == [HealthOf(item, p)[0]];
        ReplayAppend(h, HealthOf(item, p)[0], config.failureThreshold);
      }
    }
  }

  lemma AppendKeepsGates(config: RouterConfig, journal: seq<Item>, item: Item)
    requires Gates(config, journal)
    requires match item
             case Opened(_, p, now) => BreakerAllows(config, journal, p, now)
             case Turned(_, p, now) => !BreakerAllows(config, journal, p, now)
             case _ => true
    ensures Gates(config, journal + [item])
  {
    hide BreakerAllows;
    var more := journal + [item];
    assert more[..|journal|] == journal;
    forall k | 0 <= k < |more|
      ensures GateOk(config, more, k)
    {
      if k < |journal| {
        assert GateOk(config, journal, k);
        assert more[..k] == journal[..k];
      }
    }
  }

  lemma ProbeMoves(config: RouterConfig, circuits: H.Circuits, provider: string, healthy: bool, at: real, again: real)
    ensures Moves(config, circuits, Note(config, circuits, provider, ProbeEvent(healthy, at, again)),
                  Probed(provider, healthy, at, again))
  {
    hide H.Step;
  }

  /** A step that ends an attempt moves the circuits as that attempt says. */
  lemma AttemptMoves(config: RouterConfig, sh: Shared, i: nat, t: Task, input: Input)
    requires RouteOk(t)
    ensures var s := Step(config, sh, t, input);
            if |t.attempts| < |s.task.attempts| then
              && s.task.attempts == t.attempts + [s.task.attempts[|t.attempts|]]
              && Moves(config, sh.circuits, s.shared.circuits,
                       Attempted(i, s.task.attempts[|t.attempts|], input.breakerNow, input.breakerAgain))
            else SameCircuits(s.shared.circuits, sh.circuits) && s.task.attempts == t.attempts
  {
    hide RouteOk, Step, Q.ReserveIn, Q.CommitIn, Q.ReleaseIn, H.Step, ErrorOf;
    PositionInRange(t);
    EffectOfStep(config, sh, t, input);
  }

  /** The breaker's answer decides whether a route opens a candidate or turns away. */
  lemma GateMoves(config: RouterConfig, sh: Shared, i: nat, t: Task, input: Input)
    requires t.position.AtCandidate? && t.index < |t.candidates|
    ensures var s := Step(config, sh, t, input);
            var allowed := H.Allows(H.Lookup(sh.circuits, Current(t).providerId), input.breakerNow, config.cooldown);
            && (s.task.position.InFlight? ==> allowed)
            && (s.task.fates == t.fates + [CircuitOpen] ==> !allowed)
  {
    hide H.Allows, H.Lookup, H.Touch, Q.ReserveIn;
    assert (t.fates + [ProviderExcluded])[|t.fates|] == ProviderExcluded;
    assert (t.fates + [NoTries])[|t.fates|] == NoTries;
    assert (t.fates + [QuotaRefused])[|t.fates|] == QuotaRefused;
    assert (t.fates + [CircuitOpen])[|t.fates|] == CircuitOpen;
  }

  lemma StepKeepsJournal(config: RouterConfig, sys: System, i: nat, input: Input)
    requires BreakerOk(config, sys.circuits, sys.journal) && Gates(config, sys.journal)
    requires AttemptsJournalled(sys.tasks, sys.journal)
    requires i < |sys.tasks| && RouteOk(sys.tasks[i])
    ensures var next := Next(config, sys, StepTask(i, input));
            && BreakerOk(config, next.circuits, next.journal) && Gates(config, next.journal)
            && AttemptsJournalled(next.tasks, next.journal)
  {
    hide RouteOk, Step, HealthHistory, AttemptsOf, H.Replay, H.Allows, Moves, Gates, Book, Later;
    var t := sys.tasks[i];
    var s := Step(config, SharedOf(sys), t, input);
    var items := ItemsOf(i, t, s.task, input);
    AttemptMoves(config, SharedOf(sys), i, t, input);
    if t.position.AtCandidate? && t.index < |t.candidates| {
      GateMoves(config, SharedOf(sys), i, t, input);
    }
    if items == [] {
      assert sys.journal + items == sys.journal;
    } else {
      var item := items[0];
      assert items == [item];
      if !item.Attempted? {
        QuietMoves(config, sys.circuits, s.shared.circuits, item);
      }
      AppendKeepsBreaker(config, sys.circuits, s.shared.circuits, sys.journal, item);
      AppendKeepsGates(config, sys.journal, item);
      forall j: nat {
        HistoryAppend(sys.journal, item, "", j);
      }
    }
  }

  lemma QuietMoves(config: RouterConfig, before: H.Circuits, after: H.Circuits, item: Item)
    requires SameCircuits(after, before) && (item.Opened? || item.Turned?)
    ensures Moves(config, before, after, item)
  {
  }
}
