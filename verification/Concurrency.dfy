/**
 Any number of routes over one tracker, one breaker and one ledger, with health checks and quota
 snapshots in between.  An action is one atomic step of one of them; a run is any sequence of actions,
 so it is any interleaving.
 */
module Concurrency {
  import opened Models
  import opened QuotaRuns
  import opened RouteMachine
  import QuotaLog
  import Q = QuotaSpec
  import H = HealthSpec
  import L = Ledger
  import R = Registry

  /** What an observer writes down: attempts as they end, health checks, and the answers of the breaker
      when a route turns to a candidate. */
  datatype Item =
    | Attempted(task: nat, attempt: Attempt, at: real, again: real)
    | Probed(provider: string, healthy: bool, at: real, again: real)
    | Opened(task: nat, provider: string, now: real)
    | Turned(task: nat, provider: string, now: real)

  datatype System = System(
    books: Books,
    circuits: H.Circuits,
    records: seq<L.UsageRecord>,
    tasks: seq<Task>,
    journal: seq<Item>,
    now: real)

  datatype Action =
    | Spawn(request: RouterRequest)
    | StepTask(task: nat, input: Input)
    | Probe(provider: string, healthy: bool, at: real, again: real)
    | Snapshot(clock: Q.Clock)

  function Initial(now: real): System {
    System(EMPTY, map[], [], [], [], now)
  }

  function SharedOf(sys: System): Shared {
    Shared(sys.books.table, sys.circuits, sys.records)
  }

  function ItemsOf(i: nat, t: Task, u: Task, input: Input): seq<Item> {
    if |t.attempts| < |u.attempts| then
      [Attempted(i, u.attempts[|t.attempts|], input.breakerNow, input.breakerAgain)]
    else if t.position.AtCandidate? && t.index < |t.candidates| && u.position.InFlight? then
      [Opened(i, Current(t).providerId, input.breakerNow)]
    else if t.position.AtCandidate? && t.index < |t.candidates| && u.fates == t.fates + [CircuitOpen] then
      [Turned(i, Current(t).providerId, input.breakerNow)]
    else []
  }

  function Later(now: real, op: Option<Op>): real {
    if op.Some? then op.value.clock.monotonic else now
  }

  function Book(books: Books, op: Option<Op>): Books {
    if op.Some? then Apply(books, op.value) else books
  }

  function ProbeEvent(healthy: bool, at: real, again: real): H.Event {
    if healthy then H.Succeeded(at) else H.Failed(at, again)
  }

  function Next(config: RouterConfig, sys: System, action: Action): System {
    match action
    case Spawn(request) => sys.(tasks := sys.tasks + [Begin(config, request)])
    case StepTask(i, input) =>
      if i >= |sys.tasks| then sys
      else
        var s := Step(config, SharedOf(sys), sys.tasks[i], input);
        System(Book(sys.books, s.op), s.shared.circuits, s.shared.records, sys.tasks[i := s.task],
               sys.journal + ItemsOf(i, sys.tasks[i], s.task, input), Later(sys.now, s.op))
    case Probe(provider, healthy, at, again) =>
      sys.(circuits := Note(config, sys.circuits, provider, ProbeEvent(healthy, at, again)),
           journal := sys.journal + [Probed(provider, healthy, at, again)])
    case Snapshot(clock) =>
      sys.(books := Apply(sys.books, SnapshotOp(clock)), now := clock.monotonic)
  }

  // ---- what the environment guarantees ----

  ghost predicate Unused(logs: map<string, QuotaLog.Log>, id: string) {
    forall m :: m in logs ==> FreshId(logs, m, id)
  }

  ghost predicate Possible(sys: System, action: Action) {
    match action
    case Spawn(_) => true
    case StepTask(_, input) => sys.now <= input.clock.monotonic && Unused(sys.books.logs, input.freshId)
    case Probe(_, _, _, _) => true
    case Snapshot(clock) => sys.now <= clock.monotonic
  }

  ghost predicate ConfigOk(config: RouterConfig) {
    R.UniqueIds(config.models) && forall m :: m in config.models ==> m.Priced()
  }

  function Catalog(models: seq<ModelConfig>): map<string, ModelConfig> {
    if |models| == 0 then map[]
    else Catalog(models[..|models| - 1])[models[|models| - 1].id := models[|models| - 1]]
  }

  lemma {:induction false} CatalogHolds(models: seq<ModelConfig>, m: ModelConfig)
    requires R.UniqueIds(models) && m in models
    ensures m.id in Catalog(models) && Catalog(models)[m.id] == m
  {
    var front, last := models[..|models| - 1], models[|models| - 1];
    var i :| 0 <= i < |models| && models[i] == m;
    if i < |front| {
      assert front[i] == m && models[i].id != models[|models| - 1].id;
      CatalogHolds(front, m);
    }
  }

  // ---- the effect of one step of one route ----

  ghost predicate SameCircuits(a: H.Circuits, b: H.Circuits) {
    forall p :: H.Lookup(a, p) == H.Lookup(b, p)
  }

  ghost predicate NoAttempt(t: Task, u: Task) {
    u.attempts == t.attempts
  }

  ghost predicate OneAttempt(t: Task, u: Task, verdict: Verdict)
    requires t.index < |t.candidates|
  {
    u.attempts == t.attempts + [Attempt(Current(t).providerId, Current(t).id, t.retry + 1, verdict)]
  }

  ghost predicate EffectOfNothing(sh: Shared, t: Task, s: Stepped) {
    && s.op.None?
    && s.shared.table == sh.table && s.shared.records == sh.records && SameCircuits(s.shared.circuits, sh.circuits)
    && !t.position.InFlight? && !s.task.position.InFlight? && NoAttempt(t, s.task)
  }

  ghost predicate EffectOfReserve(sh: Shared, t: Task, input: Input, s: Stepped) {
    && !t.position.InFlight? && t.index < |t.candidates|
    && s.op == Some(ReserveOp(Current(t), t.request.estimatedInputTokens, t.request.maxOutputTokens,
                              input.freshId, input.clock))
    && (var outcome := Q.ReserveIn(sh.table, Current(t), Proposed(s.op.value), input.clock);
        && s.shared.table == outcome.0
        && (if outcome.1.Some? then s.task.position == InFlight(Proposed(s.op.value)) && s.task.index == t.index
            else !s.task.position.InFlight?))
    && s.shared.records == sh.records && SameCircuits(s.shared.circuits, sh.circuits)
    && NoAttempt(t, s.task)
  }

  ghost predicate EffectOfCommit(config: RouterConfig, sh: Shared, t: Task, input: Input, s: Stepped) {
    && t.position.InFlight? && t.index < |t.candidates| && input.outcome.Responded?
    && (var r, usage := t.position.reservation, input.outcome.usage;
        && s.op == Some(CommitOp(r, usage, input.clock))
        && s.shared.table == Q.CommitIn(sh.table, r, usage, input.clock.wall)
        && s.shared.records == sh.records + [L.UsageRecord(t.request.requestId, Current(t).providerId,
                                                          Current(t).id, t.request.task, usage)])
    && s.shared.circuits == Note(config, sh.circuits, Current(t).providerId, H.Succeeded(input.breakerNow))
    && OneAttempt(t, s.task, Success) && s.task.position.Ended?
  }

  ghost predicate EffectOfRelease(config: RouterConfig, sh: Shared, t: Task, input: Input, s: Stepped) {
    && t.position.InFlight? && t.index < |t.candidates|
    && (var r := t.position.reservation;
        && s.op == Some(ReleaseOp(r, input.clock))
        && s.shared.table == Q.ReleaseIn(sh.table, r, input.clock.wall))
    && s.shared.records == sh.records && !s.task.position.InFlight?
    && (if input.outcome.Cancelled? then s.shared.circuits == sh.circuits && NoAttempt(t, s.task)
        else !input.outcome.Responded?
             && OneAttempt(t, s.task, Failed(ErrorOf(input.outcome)))
             && s.shared.circuits ==
                  if Excludes(ErrorOf(input.outcome)) then sh.circuits
                  else Note(config, sh.circuits, Current(t).providerId, H.Failed(input.breakerNow, input.breakerAgain)))
  }

  lemma TouchKeeps(circuits: H.Circuits, provider: string)
    ensures SameCircuits(H.Touch(circuits, provider), circuits)
  {
  }

  lemma EffectOfStep(config: RouterConfig, sh: Shared, t: Task, input: Input)
    requires t.position.InFlight? || t.position.Asleep? ==> t.index < |t.candidates|
    ensures var s := Step(config, sh, t, input);
            || EffectOfNothing(sh, t, s)
            || EffectOfReserve(sh, t, input, s)
            || EffectOfCommit(config, sh, t, input, s)
            || EffectOfRelease(config, sh, t, input, s)
  {
    hide H.Touch, H.Lookup, H.Allows, Note, Q.ReserveIn, Q.CommitIn, Q.ReleaseIn, Delay, Fail;
    if t.index < |t.candidates| {
      TouchKeeps(sh.circuits, Current(t).providerId);
      ReserveAnswer(sh, t, input);
      ReserveAnswer(sh, t.(retry := 0), input);
      ReserveAnswer(sh, t.(retry := t.retry + 1), input);
      if t.position.InFlight? && !input.outcome.Cancelled? && !input.outcome.Responded? {
        EffectOfFail(config, sh, t, input);
      }
    }
  }

  lemma EffectOfFail(config: RouterConfig, sh: Shared, t: Task, input: Input)
    requires t.position.InFlight? && t.index < |t.candidates|
    requires !input.outcome.Cancelled? && !input.outcome.Responded?
    ensures EffectOfRelease(config, sh, t, input, Fail(config, sh, t, input))
  {
    hide Note, Q.ReleaseIn, Delay, ErrorOf;
  }

  lemma ReserveAnswer(sh: Shared, t: Task, input: Input)
    requires t.index < |t.candidates|
    ensures var op := TryReserve(sh, t, input).op.value;
            var answer := Q.ReserveIn(sh.table, Current(t), Proposed(op), input.clock).1;
            answer.Some? ==> answer.value == Proposed(op)
  {
  }
}
