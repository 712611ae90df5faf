/**
 Runs of the whole tracker: any sequence of reservations, commits, releases and snapshots over any
 number of models, kept together with the never-evicted log of each model.
 */
module QuotaRuns {
  import opened Models
  import opened Amounts
  import opened QuotaSpec
  import opened QuotaLog
  import opened QuotaLaws

  datatype Op =
    | ReserveOp(model: ModelConfig, inputTokens: int, outputTokens: int, id: string, clock: Clock)
    | CommitOp(reservation: Reservation, usage: Usage, clock: Clock)
    | ReleaseOp(reservation: Reservation, clock: Clock)
    | SnapshotOp(clock: Clock)

  datatype Books = Books(table: Table, logs: map<string, Log>)

  const EMPTY := Books(map[], map[])

  function LogFor(logs: map<string, Log>, modelId: string, clock: Clock): Log {
    if modelId in logs then logs[modelId] else EmptyLog(clock.wall, clock.monotonic)
  }

  function Proposed(op: Op): Reservation
    requires op.ReserveOp?
  {
    Proposal(op.model, op.inputTokens, op.outputTokens, op.id)
  }

  function Apply(b: Books, op: Op): Books {
    match op
    case ReserveOp(model, _, _, _, clock) =>
      var (table, answer) := ReserveIn(b.table, model, Proposed(op), clock);
      var rolled := RollLog(LogFor(b.logs, model.id, clock), clock.monotonic, clock.today);
      Books(table, b.logs[model.id := if answer.Some? then GrantLog(rolled, answer.value) else rolled])
    case CommitOp(r, usage, clock) =>
      var log := LogFor(b.logs, r.modelId, clock);
      Books(CommitIn(b.table, r, usage, clock.wall), b.logs[r.modelId := CommitLog(log, r.id, usage)])
    case ReleaseOp(r, clock) =>
      var log := LogFor(b.logs, r.modelId, clock);
      Books(ReleaseIn(b.table, r, clock.wall), b.logs[r.modelId := ReleaseLog(log, r.id)])
    case SnapshotOp(clock) =>
      Books(RollAll(b.table, clock.monotonic, clock.today),
            map m | m in b.logs :: RollLog(b.logs[m], clock.monotonic, clock.today))
  }

  // ---- what the callers and the environment guarantee ----

  /** Settling takes back what reserving handed out. */
  ghost predicate Genuine(table: Table, r: Reservation) {
    r.modelId in table && r.id in table[r.modelId].reservations ==> table[r.modelId].reservations[r.id] == r
  }

  ghost predicate FreshId(logs: map<string, Log>, modelId: string, id: string) {
    modelId in logs ==>
      forall i :: 0 <= i < |logs[modelId].entries| ==> logs[modelId].entries[i].reservation.id != id
  }

  ghost predicate Legal(b: Books, op: Op, catalog: map<string, ModelConfig>) {
    match op
    case ReserveOp(model, _, _, id, _) =>
      model.id in catalog && catalog[model.id] == model && model.Priced() && FreshId(b.logs, model.id, id)
    case CommitOp(r, _, _) => Genuine(b.table, r)
    case ReleaseOp(r, _) => Genuine(b.table, r)
    case SnapshotOp(_) => true
  }

  // ---- what every operation keeps ----

  ghost predicate ModelOk(s: State, log: Log, modelId: string, catalog: map<string, ModelConfig>, now: real) {
    && Account(s, log, modelId)
    && log.rolledAt <= now
    && (modelId in catalog ==> Capped(log, catalog[modelId]))
  }

  ghost predicate BooksOk(b: Books, catalog: map<string, ModelConfig>, now: real) {
    && b.table.Keys == b.logs.Keys
    && forall m :: m in b.table ==> ModelOk(b.table[m], b.logs[m], m, catalog, now)
  }

  lemma ModelOkFresh(modelId: string, catalog: map<string, ModelConfig>, day: int, now: real)
    ensures ModelOk(Fresh(day), EmptyLog(day, now), modelId, catalog, now)
  {
  }

  lemma ModelOkRoll(s: State, log: Log, modelId: string, catalog: map<string, ModelConfig>, now: real, today: int)
    requires ModelOk(s, log, modelId, catalog, now)
    ensures ModelOk(Roll(s, now, today), RollLog(log, now, today), modelId, catalog, now)
  {
    hide Roll, Coupled, Drift, Capped, WellFormed;
    assert Coupled(s, log, modelId) && Drift(s, log);
    CoupledRoll(s, log, modelId, now, today);
    DriftRoll(s, log, modelId, now, today);
    if modelId in catalog {
      CoupledIsWellFormed(s, log, modelId);
      CappedRoll(log, modelId, catalog[modelId], now, today);
    }
  }

  lemma CoupledIsWellFormed(s: State, log: Log, modelId: string)
    requires Coupled(s, log, modelId)
    ensures WellFormed(log, modelId)
  {
  }

  lemma EstimatesNonNegative(model: ModelConfig, inputTokens: int, outputTokens: int)
    requires model.Priced()
    ensures 0.0 <= EstimatedCost(model, inputTokens, outputTokens)
  {
    var i, o := Max(0, inputTokens) as real, Max(0, outputTokens) as real;
    assert 0.0 <= i * model.inputCostPerMillion && 0.0 <= o * model.outputCostPerMillion;
  }

  lemma ModelOkReserve(s: State, log: Log, catalog: map<string, ModelConfig>, r: Reservation,
                       model: ModelConfig, clock: Clock)
    requires ModelOk(s, log, model.id, catalog, clock.monotonic)
    requires model.id in catalog && catalog[model.id] == model
    requires r.modelId == model.id && 0 <= r.tokens && 0.0 <= r.cost
    requires forall i :: 0 <= i < |log.entries| ==> log.entries[i].reservation.id != r.id
    ensures var (s', answer) := Reserve(s, model, r, clock);
            var rolled := RollLog(log, clock.monotonic, clock.today);
            ModelOk(s', if answer.Some? then GrantLog(rolled, r) else rolled, model.id, catalog, clock.monotonic)
  {
    hide Roll, Coupled, Drift, MinuteCap, DayCap, WellFormed, Grant, Admits;
    var s', log' := Roll(s, clock.monotonic, clock.today), RollLog(log, clock.monotonic, clock.today);
    ModelOkRoll(s, log, model.id, catalog, clock.monotonic, clock.today);
    if Admits(s', model, r.tokens, r.cost) {
      CoupledGrant(s', log', model.id, r);
      DriftGrant(s', log', r);
      CoupledIsWellFormed(s', log', model.id);
      MinuteCapGrant(s', log', model, r);
      DayCapGrant(s', log', model, r);
    }
  }

  lemma ModelOkCommit(s: State, log: Log, modelId: string, catalog: map<string, ModelConfig>,
                      now: real, r: Reservation, usage: Usage)
    requires ModelOk(s, log, modelId, catalog, now)
    requires r.id in s.reservations ==> s.reservations[r.id] == r
    ensures ModelOk(Commit(s, r, usage), CommitLog(log, r.id, usage), modelId, catalog, now)
  {
    if r.id in s.reservations {
      hide Commit, Coupled, Drift, Capped;
      CoupledCommit(s, log, modelId, r, usage);
      DriftCommit(s, log, modelId, r, usage);
      if modelId in catalog {
        CappedCommit(s, log, catalog[modelId], modelId, r, usage);
      }
    } else {
      SettleAbsent(s, log, modelId, r.id, Committed(usage, log.period));
    }
  }

  lemma ModelOkRelease(s: State, log: Log, modelId: string, catalog: map<string, ModelConfig>,
                       now: real, r: Reservation)
    requires ModelOk(s, log, modelId, catalog, now)
    requires r.id in s.reservations ==> s.reservations[r.id] == r
    ensures ModelOk(Release(s, r), ReleaseLog(log, r.id), modelId, catalog, now)
  {
    if r.id in s.reservations {
      hide Release, Coupled, Drift, Capped;
      CoupledRelease(s, log, modelId, r);
      DriftRelease(s, log, modelId, r);
      if modelId in catalog {
        CappedRelease(s, log, catalog[modelId], modelId, r);
      }
    } else {
      SettleAbsent(s, log, modelId, r.id, Released(log.period));
    }
  }

  lemma SettleAbsent(s: State, log: Log, modelId: string, id: string, status: Status)
    requires Coupled(s, log, modelId) && id !in s.reservations
    ensures log.(entries := Settle(log.entries, id, status)) == log
  {
    forall i | 0 <= i < |log.entries|
      ensures Settle(log.entries, id, status)[i] == log.entries[i]
    {
    }
    assert Settle(log.entries, id, status) == log.entries;
  }

  /** Every legal operation keeps every account: coupling, drift bounds and limits. */
  lemma EveryOpKeepsBooks(b: Books, op: Op, catalog: map<string, ModelConfig>, now: real)
    requires BooksOk(b, catalog, now) && Legal(b, op, catalog) && now <= op.clock.monotonic
    ensures BooksOk(Apply(b, op), catalog, op.clock.monotonic)
  {
    hide Account, Capped, Reserve, Commit, Release, Roll;
    var clock := op.clock;
    assert forall m :: m in b.table ==> ModelOk(b.table[m], b.logs[m], m, catalog, clock.monotonic);
    match op
    case ReserveOp(model, inTokens, outTokens, _, _) =>
      ModelOkFresh(model.id, catalog, clock.wall, clock.monotonic);
      EstimatesNonNegative(model, inTokens, outTokens);
      ModelOkReserve(Lookup(b.table, model.id, clock.wall), LogFor(b.logs, model.id, clock), catalog,
                     Proposed(op), model, clock);
      ReserveAnswers(Lookup(b.table, model.id, clock.wall), model, Proposed(op), clock);
    case CommitOp(r, usage, _) =>
      ModelOkFresh(r.modelId, catalog, clock.wall, clock.monotonic);
      ModelOkCommit(Lookup(b.table, r.modelId, clock.wall), LogFor(b.logs, r.modelId, clock), r.modelId,
                    catalog, clock.monotonic, r, usage);
    case ReleaseOp(r, _) =>
      ModelOkFresh(r.modelId, catalog, clock.wall, clock.monotonic);
      ModelOkRelease(Lookup(b.table, r.modelId, clock.wall), LogFor(b.logs, r.modelId, clock), r.modelId,
                     catalog, clock.monotonic, r);
    case SnapshotOp(_) =>
      forall m | m in b.table
        ensures ModelOk(Roll(b.table[m], clock.monotonic, clock.today),
                        RollLog(b.logs[m], clock.monotonic, clock.today), m, catalog, clock.monotonic)
      {
        ModelOkRoll(b.table[m], b.logs[m], m, catalog, clock.monotonic, clock.today);
      }
  }

  lemma ReserveAnswers(s: State, model: ModelConfig, r: Reservation, clock: Clock)
    ensures Reserve(s, model, r, clock).1.Some? ==> Reserve(s, model, r, clock).1.value == r
  {
  }

  // ---- whole runs ----

  function Play(ops: seq<Op>): Books {
    if |ops| == 0 then EMPTY else Apply(Play(ops[..|ops| - 1]), ops[|ops| - 1])
  }

  function Latest(ops: seq<Op>): Clock
    requires |ops| != 0
  {
    ops[|ops| - 1].clock
  }

  /** Callers are genuine, identifiers fresh, and the monotonic clock never goes back. */
  ghost predicate LegalRun(ops: seq<Op>, catalog: map<string, ModelConfig>) {
    |ops| != 0 ==>
      var front := ops[..|ops| - 1];
      && LegalRun(front, catalog)
      && (|front| != 0 ==> Latest(front).monotonic <= Latest(ops).monotonic)
      && Legal(Play(front), ops[|ops| - 1], catalog)
  }

  lemma {:induction false} EveryRunKeepsBooks(ops: seq<Op>, catalog: map<string, ModelConfig>)
    requires LegalRun(ops, catalog) && |ops| != 0
    ensures BooksOk(Play(ops), catalog, Latest(ops).monotonic)
  {
    var front := ops[..|ops| - 1];
    if |front| == 0 {
      assert BooksOk(EMPTY, catalog, Latest(ops).monotonic);
      EveryOpKeepsBooks(EMPTY, ops[|ops| - 1], catalog, Latest(ops).monotonic);
    } else {
      EveryRunKeepsBooks(front, catalog);
      EveryOpKeepsBooks(Play(front), ops[|ops| - 1], catalog, Latest(front).monotonic);
    }
  }

  // ---- the log is a history: it only grows, and each reservation is settled at most once ----

  ghost predicate Extends(before: seq<Entry>, after: seq<Entry>) {
    && |before| <= |after|
    && forall i :: 0 <= i < |before| ==>
         && after[i].reservation == before[i].reservation && after[i].stamp == before[i].stamp
         && after[i].date == before[i].date && after[i].period == before[i].period
         && (!before[i].status.Outstanding? ==> after[i] == before[i])
  }

  lemma HistoryOnlyGrows(b: Books, op: Op, m: string)
    requires m in b.logs
    ensures m in Apply(b, op).logs && Extends(b.logs[m].entries, Apply(b, op).logs[m].entries)
  {
  }

  /** Which entries are stamped in (t - 60, t]. */
  ghost function StampedIn(entries: seq<Entry>, t: real): set<int> {
    set i | 0 <= i < |entries| && Within(entries[i], t)
  }

  lemma StampedLast(entries: seq<Entry>, t: real)
    requires |entries| != 0
    ensures var n := |entries| - 1;
            |StampedIn(entries, t)| == |StampedIn(entries[..n], t)| + if Within(entries[n], t) then 1 else 0
  {
    var n := |entries| - 1;
    var before := StampedIn(entries[..n], t);
    assert StampedIn(entries, t) == before + if Within(entries[n], t) then {n} else {};
  }

  /** The number of requests charged to a window is the number of grants stamped in it. */
  lemma {:induction false} WindowCounts(entries: seq<Entry>, t: real)
    ensures Sum(entries, InWindow(t)).requests == |StampedIn(entries, t)|
  {
    hide StampedIn;
    if |entries| == 0 {
      assert StampedIn(entries, t) == {} by { NoneStamped(entries, t); }
    } else {
      WindowCounts(entries[..|entries| - 1], t);
      StampedLast(entries, t);
    }
  }

  lemma NoneStamped(entries: seq<Entry>, t: real)
    requires |entries| == 0
    ensures StampedIn(entries, t) == {}
  {
  }

  ghost predicate RunOn(ops: seq<Op>, catalog: map<string, ModelConfig>, m: string) {
    LegalRun(ops, catalog) && |ops| != 0 && m in Play(ops).logs
  }

  lemma AccountOfRun(ops: seq<Op>, catalog: map<string, ModelConfig>, m: string)
    requires RunOn(ops, catalog, m)
    ensures m in Play(ops).table
    ensures ModelOk(Play(ops).table[m], Play(ops).logs[m], m, catalog, Latest(ops).monotonic)
  {
    EveryRunKeepsBooks(ops, catalog);
  }

  /** Over every run and for every instant t, a model is granted at most requests_per_minute
      reservations with a stamp in (t - 60, t]. */
  lemma MinuteRequestsOverRuns(ops: seq<Op>, catalog: map<string, ModelConfig>, m: string, t: real)
    requires RunOn(ops, catalog, m) && m in catalog && catalog[m].requestsPerMinute.Some?
    ensures |StampedIn(Play(ops).logs[m].entries, t)| <= Max(0, catalog[m].requestsPerMinute.value)
  {
    hide Sum, Play, StampedIn, Account, LegalRun;
    AccountOfRun(ops, catalog, m);
    WindowCounts(Play(ops).logs[m].entries, t);
    assert MinuteCap(Play(ops).logs[m], catalog[m]);
  }

  /** The charges of any window exceed tokens_per_minute by at most what its commits exceeded their
      estimates by. */
  lemma MinuteTokensOverRuns(ops: seq<Op>, catalog: map<string, ModelConfig>, m: string, t: real)
    requires RunOn(ops, catalog, m) && m in catalog && catalog[m].tokensPerMinute.Some?
    ensures var entries := Play(ops).logs[m].entries;
            Sum(entries, InWindow(t)).tokens
            <= Max(0, catalog[m].tokensPerMinute.value) + Sum(entries, OverInWindow(t)).tokens
  {
    hide Sum, Play, Account, LegalRun;
    AccountOfRun(ops, catalog, m);
    assert MinuteCap(Play(ops).logs[m], catalog[m]);
  }

  /** Each daily counter lies between T - S + A and T + A, with T the charges of its period, S the estimates
      and A the actuals of reservations carried over from an earlier day; and T exceeds a daily limit by at
      most what carried reservations stayed below their estimates plus the overshoots of the period. */
  lemma DailyLawOverRuns(ops: seq<Op>, catalog: map<string, ModelConfig>, m: string)
    requires RunOn(ops, catalog, m)
    ensures m in Play(ops).table
    ensures var s, log := Play(ops).table[m], Play(ops).logs[m];
            var T, S := Sum(log.entries, InPeriod(log.period)), Sum(log.entries, CarriedEstimate(log.period));
            var A, O := Sum(log.entries, CarriedActual(log.period)), Sum(log.entries, OverInPeriod(log.period));
            var U := Sum(log.entries, CarriedShortfall(log.period));
            && s.dailyRequests == T.requests
            && T.tokens - S.tokens + A.tokens <= s.dailyTokens <= T.tokens + A.tokens
            && T.cost - S.cost + A.cost <= s.dailyCost <= T.cost + A.cost
            && (m in catalog && catalog[m].tokensPerDay.Some? ==>
                  T.tokens <= Max(0, catalog[m].tokensPerDay.value) + U.tokens + O.tokens)
            && (m in catalog && catalog[m].dailyCostLimit.Some? ==>
                  T.cost <= MaxReal(0.0, catalog[m].dailyCostLimit.value) + U.cost + O.cost)
  {
    hide Sum, Play, LegalRun, Coupled;
    AccountOfRun(ops, catalog, m);
  }

  // ---- dates that never go back ----

  ghost predicate DatesOk(b: Books, catalog: map<string, ModelConfig>, today: int) {
    forall m :: m in b.logs ==>
      && (|b.logs[m].entries| != 0 ==> b.logs[m].day <= today)
      && (m in catalog ==> DateCap(b.logs[m], catalog[m]))
  }

  lemma DateCapRolled(log: Log, modelId: string, model: ModelConfig, now: real, today: int)
    requires WellFormed(log, modelId) && DateCap(log, model) && (|log.entries| != 0 ==> log.day <= today)
    ensures DateCap(RollLog(log, now, today), model)
  {
    if |log.entries| != 0 {
      DateCapRoll(log, modelId, model, now, today);
    }
  }

  lemma EveryOpKeepsDates(b: Books, op: Op, catalog: map<string, ModelConfig>, now: real, today: int)
    requires BooksOk(b, catalog, now) && DatesOk(b, catalog, today) && Legal(b, op, catalog)
    requires now <= op.clock.monotonic && today <= op.clock.today
    ensures DatesOk(Apply(b, op), catalog, op.clock.today)
  {
    hide DateCap, Account, Capped, WellFormed, Reserve, Roll, Commit, Release;
    var clock := op.clock;
    AllWellFormed(b, catalog, now);
    match op
    case ReserveOp(model, _, _, _, _) =>
      DateCapFresh(model, clock);
      ModelOkFresh(model.id, catalog, clock.wall, clock.monotonic);
      assert model.id in b.table ==> ModelOk(b.table[model.id], b.logs[model.id], model.id, catalog, now);
      DateCapReserve(Lookup(b.table, model.id, clock.wall), LogFor(b.logs, model.id, clock), catalog,
                     model, Proposed(op), clock);
      ReserveAnswers(Lookup(b.table, model.id, clock.wall), model, Proposed(op), clock);
    case CommitOp(r, usage, _) =>
      var log := LogFor(b.logs, r.modelId, clock);
      if r.modelId in catalog {
        DateCapFresh(catalog[r.modelId], clock);
        DateCapSettle(log, catalog[r.modelId], r.id, Committed(usage, log.period));
      }
    case ReleaseOp(r, _) =>
      var log := LogFor(b.logs, r.modelId, clock);
      if r.modelId in catalog {
        DateCapFresh(catalog[r.modelId], clock);
        DateCapSettle(log, catalog[r.modelId], r.id, Released(log.period));
      }
    case SnapshotOp(_) =>
      forall m | m in b.logs && m in catalog
        ensures DateCap(RollLog(b.logs[m], clock.monotonic, clock.today), catalog[m])
      {
        DateCapRolled(b.logs[m], m, catalog[m], clock.monotonic, clock.today);
      }
  }

  lemma DateCapFresh(model: ModelConfig, clock: Clock)
    ensures DateCap(EmptyLog(clock.wall, clock.monotonic), model)
  {
  }

  lemma AllWellFormed(b: Books, catalog: map<string, ModelConfig>, now: real)
    requires BooksOk(b, catalog, now)
    ensures forall m :: m in b.logs ==> WellFormed(b.logs[m], m)
  {
    forall m | m in b.logs
      ensures WellFormed(b.logs[m], m)
    {
      assert ModelOk(b.table[m], b.logs[m], m, catalog, now);
    }
  }

  lemma DateCapReserve(s: State, log: Log, catalog: map<string, ModelConfig>, model: ModelConfig,
                       r: Reservation, clock: Clock)
    requires ModelOk(s, log, model.id, catalog, clock.monotonic) && DateCap(log, model)
    requires |log.entries| != 0 ==> log.day <= clock.today
    ensures var rolled := RollLog(log, clock.monotonic, clock.today);
            DateCap(if Reserve(s, model, r, clock).1.Some? then GrantLog(rolled, r) else rolled, model)
  {
    hide Coupled, Drift, DateCap, Admits, Roll, RollLog, GrantLog, WellFormed, Capped;
    var s', rolled := Roll(s, clock.monotonic, clock.today), RollLog(log, clock.monotonic, clock.today);
    ModelOkRoll(s, log, model.id, catalog, clock.monotonic, clock.today);
    CoupledIsWellFormed(s, log, model.id);
    DateCapRolled(log, model.id, model, clock.monotonic, clock.today);
    if Admits(s', model, r.tokens, r.cost) {
      DateCapGrant(s', rolled, model, r);
    }
  }

  ghost predicate DatesForward(ops: seq<Op>) {
    forall i, j :: 0 <= i < j < |ops| ==> ops[i].clock.today <= ops[j].clock.today
  }

  lemma {:induction false} EveryRunKeepsDates(ops: seq<Op>, catalog: map<string, ModelConfig>)
    requires LegalRun(ops, catalog) && DatesForward(ops) && |ops| != 0
    ensures DatesOk(Play(ops), catalog, Latest(ops).today)
  {
    var front := ops[..|ops| - 1];
    if |front| == 0 {
      EveryOpKeepsDates(EMPTY, ops[|ops| - 1], catalog, Latest(ops).monotonic, Latest(ops).today);
    } else {
      EveryRunKeepsDates(front, catalog);
      EveryRunKeepsBooks(front, catalog);
      EveryOpKeepsDates(Play(front), ops[|ops| - 1], catalog, Latest(front).monotonic, Latest(front).today);
    }
  }

  /** With a UTC date that never goes back, no date sees more than requests_per_day grants. */
  lemma DailyRequestsOverRuns(ops: seq<Op>, catalog: map<string, ModelConfig>, m: string, d: int)
    requires RunOn(ops, catalog, m) && DatesForward(ops) && m in catalog && catalog[m].requestsPerDay.Some?
    ensures Sum(Play(ops).logs[m].entries, OnDate(d)).requests <= Max(0, catalog[m].requestsPerDay.value)
  {
    EveryRunKeepsDates(ops, catalog);
  }
}
