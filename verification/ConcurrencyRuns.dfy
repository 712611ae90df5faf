/** Every reachable state of the concurrent router, and what follows from it. */
module ConcurrencyRuns {
  import opened Models
  import opened Amounts
  import opened QuotaLog
  import opened QuotaLaws
  import opened QuotaRuns
  import opened RouteMachine
  import opened RouteLaws
  import opened Concurrency
  import opened ConcurrencyLaws
  import opened ConcurrencyLedger
  import opened ConcurrencyBreaker
  import opened ConcurrencyOpens
  import Q = QuotaSpec
  import H = HealthSpec
  import L = Ledger
  import R = Registry

  ghost predicate TasksOk(config: RouterConfig, tasks: seq<Task>) {
    forall i :: 0 <= i < |tasks| ==>
      RouteOk(tasks[i]) && tasks[i].candidates == R.CandidateModels(config, tasks[i].request)
  }

  ghost predicate SystemOk(config: RouterConfig, sys: System) {
    && BooksOk(sys.books, Catalog(config.models), sys.now)
    && TasksOk(config, sys.tasks)
    && Matched(sys.books.table, sys.tasks)
    && LedgerOk(sys.records, sys.books.logs)
    && BreakerOk(config, sys.circuits, sys.journal)
    && Gates(config, sys.journal)
    && AttemptsJournalled(sys.tasks, sys.journal)
    && FirstsOpened(sys.journal)
    && CallsOpened(sys.tasks, sys.journal)
  }

  lemma InitialOk(config: RouterConfig, now: real)
    ensures SystemOk(config, Initial(now))
  {
  }

  lemma CandidateInCatalog(config: RouterConfig, t: Task)
    requires ConfigOk(config) && t.candidates == R.CandidateModels(config, t.request) && t.index < |t.candidates|
    ensures Current(t) in config.models && Current(t).Priced()
    ensures Current(t).id in Catalog(config.models) && Catalog(config.models)[Current(t).id] == Current(t)
  {
    R.CandidatesInOrder(config, t.request);
    assert Current(t) in t.candidates;
    CatalogHolds(config.models, Current(t));
  }

  /** The tracker operation of a step is one the books allow, and its outcome is the step's table. */
  lemma StepIsLegal(config: RouterConfig, sys: System, i: nat, input: Input)
    requires ConfigOk(config) && SystemOk(config, sys) && i < |sys.tasks| && Possible(sys, StepTask(i, input))
    ensures var s := Step(config, SharedOf(sys), sys.tasks[i], input);
            && s.shared.table == Book(sys.books, s.op).table
            && (s.op.Some? ==> Legal(sys.books, s.op.value, Catalog(config.models))
                               && sys.now <= s.op.value.clock.monotonic)
  {
    hide RouteOk, Step, BooksOk, Q.ReserveIn, Q.CommitIn, Q.ReleaseIn, Note, Catalog, R.CandidateModels,
      LedgerOk, BreakerOk, Gates, AttemptsJournalled;
    var t := sys.tasks[i];
    PositionInRange(t);
    EffectOfStep(config, SharedOf(sys), t, input);
    if t.index < |t.candidates| {
      CandidateInCatalog(config, t);
    }
    assert Holds(sys.books.table, t);
    UnusedEverywhere(sys.books.logs, input.freshId);
  }

  lemma UnusedEverywhere(logs: map<string, Log>, id: string)
    requires Unused(logs, id)
    ensures forall m :: FreshId(logs, m, id)
  {
  }

  lemma StepKeepsTasks(config: RouterConfig, sys: System, i: nat, input: Input)
    requires TasksOk(config, sys.tasks) && i < |sys.tasks|
    ensures TasksOk(config, Next(config, sys, StepTask(i, input)).tasks)
  {
    hide RouteOk, Step, R.CandidateModels, Book, Later;
    EveryStepKeepsRoute(config, SharedOf(sys), sys.tasks[i], input);
    StepKeepsCandidates(config, SharedOf(sys), sys.tasks[i], input);
  }

  lemma StepKeepsSystem(config: RouterConfig, sys: System, i: nat, input: Input)
    requires ConfigOk(config) && SystemOk(config, sys) && i < |sys.tasks| && Possible(sys, StepTask(i, input))
    ensures SystemOk(config, Next(config, sys, StepTask(i, input)))
  {
    hide RouteOk, Step, BooksOk, Catalog, Matched, LedgerOk, BreakerOk, Gates, AttemptsJournalled, FirstsOpened, CallsOpened,
      R.CandidateModels, Apply, Legal, Unused;
    var s := Step(config, SharedOf(sys), sys.tasks[i], input);
    StepIsLegal(config, sys, i, input);
    if s.op.Some? {
      EveryOpKeepsBooks(sys.books, s.op.value, Catalog(config.models), sys.now);
    }
    StepKeepsTasks(config, sys, i, input);
    BooksAreFiled(sys.books, Catalog(config.models), sys.now);
    StepKeepsMatched(config, sys, i, input);
    MatchedHolds(sys.books.table, sys.tasks, i);
    StepKeepsLedger(config, sys, i, input);
    StepKeepsJournal(config, sys, i, input);
    StepKeepsOpens(config, sys, i, input);
  }

  lemma MatchedHolds(table: Q.Table, tasks: seq<Task>, i: nat)
    requires Matched(table, tasks) && i < |tasks|
    ensures Holds(table, tasks[i])
  {
  }

  lemma SpawnKeepsSystem(config: RouterConfig, sys: System, request: RouterRequest)
    requires SystemOk(config, sys)
    ensures SystemOk(config, Next(config, sys, Spawn(request)))
  {
    hide BooksOk, LedgerOk, BreakerOk, Gates, RouteOk, R.CandidateModels, AttemptsOf, Held, FirstsOpened, OpensLast;
    var t := Begin(config, request);
    var all := sys.tasks + [t];
    BeginOk(config, request);
    forall m, id | id in Held(sys.books.table, m)
      ensures HeldBySome(all, Held(sys.books.table, m)[id])
    {
      var j := Holder(sys.tasks, Held(sys.books.table, m)[id]);
      assert all[j] == sys.tasks[j];
    }
  }

  lemma ProbeKeepsSystem(config: RouterConfig, sys: System, provider: string, healthy: bool, at: real, again: real)
    requires SystemOk(config, sys)
    ensures SystemOk(config, Next(config, sys, Probe(provider, healthy, at, again)))
  {
    hide BooksOk, LedgerOk, RouteOk, Matched, BreakerOk, Gates, AttemptsOf, Moves, Note, FirstsOpened, CallsOpened;
    var item := Probed(provider, healthy, at, again);
    ProbeMoves(config, sys.circuits, provider, healthy, at, again);
    AppendKeepsBreaker(config, sys.circuits, Note(config, sys.circuits, provider, ProbeEvent(healthy, at, again)),
                       sys.journal, item);
    AppendKeepsGates(config, sys.journal, item);
    ProbeKeepsOpens(sys.tasks, sys.journal, item);
    forall j: nat {
      HistoryAppend(sys.journal, item, provider, j);
    }
  }

  lemma SnapshotKeepsSystem(config: RouterConfig, sys: System, clock: Q.Clock)
    requires SystemOk(config, sys) && sys.now <= clock.monotonic
    ensures SystemOk(config, Next(config, sys, Snapshot(clock)))
  {
    hide BooksOk, RouteOk, BreakerOk, Gates, AttemptsJournalled, FirstsOpened, CallsOpened, RecordedUsages, CommittedUsages;
    EveryOpKeepsBooks(sys.books, SnapshotOp(clock), Catalog(config.models), sys.now);
    var after := Apply(sys.books, SnapshotOp(clock));
    forall m: string
      ensures Held(after.table, m) == Held(sys.books.table, m)
    {
    }
    assert forall i :: 0 <= i < |sys.tasks| ==> Holds(sys.books.table, sys.tasks[i]);
    assert Matched(after.table, sys.tasks);
    forall m: string
      ensures RecordedUsages(sys.records, m) == CommittedOf(after.logs, m)
    {
      ReserveKeepsCommitted(sys.books, SnapshotOp(clock), m);
    }
  }

  lemma EveryActionKeepsSystem(config: RouterConfig, sys: System, action: Action)
    requires ConfigOk(config) && SystemOk(config, sys) && Possible(sys, action)
    ensures SystemOk(config, Next(config, sys, action))
  {
    hide SystemOk, Next, ConfigOk;
    match action
    case Spawn(request) => SpawnKeepsSystem(config, sys, request);
    case StepTask(i, input) =>
      if i < |sys.tasks| {
        StepKeepsSystem(config, sys, i, input);
      } else {
        NoSuchTask(config, sys, i, input);
      }
    case Probe(provider, healthy, at, again) => ProbeKeepsSystem(config, sys, provider, healthy, at, again);
    case Snapshot(clock) => SnapshotKeepsSystem(config, sys, clock);
  }

  lemma NoSuchTask(config: RouterConfig, sys: System, i: nat, input: Input)
    requires |sys.tasks| <= i
    ensures Next(config, sys, StepTask(i, input)) == sys
  {
  }

  // ---- runs ----

  function Execute(config: RouterConfig, now: real, actions: seq<Action>): System {
    if |actions| == 0 then Initial(now)
    else Next(config, Execute(config, now, actions[..|actions| - 1]), actions[|actions| - 1])
  }

  ghost predicate Run(config: RouterConfig, now: real, actions: seq<Action>) {
    |actions| != 0 ==>
      && Run(config, now, actions[..|actions| - 1])
      && Possible(Execute(config, now, actions[..|actions| - 1]), actions[|actions| - 1])
  }

  /** Every state of every interleaving satisfies the system's laws. */
  lemma {:induction false} EveryReachableStateOk(config: RouterConfig, now: real, actions: seq<Action>)
    requires ConfigOk(config) && Run(config, now, actions)
    ensures SystemOk(config, Execute(config, now, actions))
  {
    if |actions| == 0 {
      InitialOk(config, now);
    } else {
      var front := actions[..|actions| - 1];
      EveryReachableStateOk(config, now, front);
      EveryActionKeepsSystem(config, Execute(config, now, front), actions[|actions| - 1]);
    }
  }

  // ---- consequences in every reachable state ----

  /** Concurrent jobs cannot all claim the last slot: in every interleaving and for every instant t, at
      most requests_per_minute calls of a model were reserved in (t - 60, t]; and the requests reserved
      since the last day roll are at most requests_per_day. */
  lemma LastSlotIsClaimedOnce(config: RouterConfig, now: real, actions: seq<Action>, model: ModelConfig, t: real)
    requires ConfigOk(config) && Run(config, now, actions) && model in config.models
    requires model.id in Execute(config, now, actions).books.logs
    ensures var log := Execute(config, now, actions).books.logs[model.id];
            && (model.requestsPerMinute.Some? ==> |StampedIn(log.entries, t)| <= Max(0, model.requestsPerMinute.value))
            && (model.requestsPerDay.Some? ==>
                  Sum(log.entries, InPeriod(log.period)).requests <= Max(0, model.requestsPerDay.value))
  {
    hide Sum, Execute, Run, StampedIn, Account, Catalog, Matched, LedgerOk, BreakerOk, Gates, TasksOk;
    var sys := Execute(config, now, actions);
    EveryReachableStateOk(config, now, actions);
    CatalogHolds(config.models, model);
    assert ModelOk(sys.books.table[model.id], sys.books.logs[model.id], model.id, Catalog(config.models), sys.now);
    WindowCounts(sys.books.logs[model.id].entries, t);
  }

  /** When no call is in flight, every reservation has been settled. */
  lemma NothingLeftBehind(config: RouterConfig, now: real, actions: seq<Action>, m: string)
    requires ConfigOk(config) && Run(config, now, actions)
    requires forall i :: 0 <= i < |Execute(config, now, actions).tasks| ==>
               !Execute(config, now, actions).tasks[i].position.InFlight?
    ensures Held(Execute(config, now, actions).books.table, m) == map[]
  {
    hide Execute, Run, BooksOk, LedgerOk, BreakerOk, Gates, TasksOk, Held;
    var sys := Execute(config, now, actions);
    EveryReachableStateOk(config, now, actions);
    assert forall id :: id in Held(sys.books.table, m) ==> HeldBySome(sys.tasks, Held(sys.books.table, m)[id]);
  }

  /** In every interleaving with health checks: the circuit of each provider is the replay of the successes,
      the failures other than authentication, quota and rate-limit errors, and the health outcomes of
      that provider, in order; the routes' attempts are those in the journal; routes open a candidate
      exactly where that history allows it, and the first attempt of a block follows such an opening. */
  lemma RouterAndBreakerStayCoupled(config: RouterConfig, now: real, actions: seq<Action>)
    requires ConfigOk(config) && Run(config, now, actions)
    ensures var sys := Execute(config, now, actions);
            && (forall p :: H.Lookup(sys.circuits, p) == H.Replay(HealthHistory(sys.journal, p), config.failureThreshold))
            && (forall i :: 0 <= i < |sys.tasks| ==> AttemptsOf(sys.journal, i) == sys.tasks[i].attempts)
            && (forall k :: 0 <= k < |sys.journal| ==>
                  GateOk(config, sys.journal, k) && FirstOpened(sys.journal, k))
  {
    hide Execute, Run, BooksOk, Matched, TasksOk, LedgerOk, HealthHistory, AttemptsOf, GateOk, FirstOpened;
    EveryReachableStateOk(config, now, actions);
  }

  /** In every interleaving a reservation is outstanding in the log exactly while a call holds it. */
  lemma OutstandingIffInFlight(config: RouterConfig, now: real, actions: seq<Action>, m: string, i: nat)
    requires ConfigOk(config) && Run(config, now, actions) && m in Execute(config, now, actions).books.logs
    requires i < |Execute(config, now, actions).books.logs[m].entries|
    ensures var sys := Execute(config, now, actions);
            var e := sys.books.logs[m].entries[i];
            e.status.Outstanding? <==> HeldBySome(sys.tasks, e.reservation)
  {
    hide Execute, Run, LedgerOk, BreakerOk, Gates, TasksOk, Drift, Capped, HeldBySome, RecentTimes, RecentEvents;
    var sys := Execute(config, now, actions);
    EveryReachableStateOk(config, now, actions);
    var s, log := sys.books.table[m], sys.books.logs[m];
    var e := log.entries[i];
    assert ModelOk(s, log, m, Catalog(config.models), sys.now);
    assert EntryOk(e, m, log);
    if e.status.Outstanding? {
      OutstandingIsHeld(s, log, m, i);
      assert e.reservation.id in Held(sys.books.table, m);
    }
    if HeldBySome(sys.tasks, e.reservation) {
      var j := Holder(sys.tasks, e.reservation);
      assert Holds(sys.books.table, sys.tasks[j]);
      var k := FindOutstanding(s, log, m, e.reservation);
    }
  }

  /** In every interleaving the ledger has one record per committed reservation of a model, with its usage;
      for non-negative usage its totals are the model's committed charges. */
  lemma QuotaAndLedgerAgree(config: RouterConfig, now: real, actions: seq<Action>, m: string)
    requires ConfigOk(config) && Run(config, now, actions) && m in Execute(config, now, actions).books.logs
    requires NonNegativeUsages(Execute(config, now, actions).records, m)
    ensures var sys := Execute(config, now, actions);
            var total := L.Total(L.OfModel(sys.records, m));
            var charged := Sum(sys.books.logs[m].entries, CommittedCharge());
            && RecordedUsages(sys.records, m) == CommittedUsages(sys.books.logs[m].entries)
            && total.requests == charged.requests
            && total.inputTokens + total.outputTokens == charged.tokens
            && total.cost == charged.cost
  {
    hide Execute, Run, BooksOk, Matched, BreakerOk, Gates, TasksOk, Sum, RecordedUsages, CommittedUsages, NonNegativeUsages;
    EveryReachableStateOk(config, now, actions);
    LedgerEqualsQuota(Execute(config, now, actions).records, Execute(config, now, actions).books.logs, m);
  }
}
