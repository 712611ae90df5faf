/**
 The laws of one model's quota account, each kept by every operation: how far the daily counters
 can drift from the log, and which limits hold over every minute, every day period and every date.
 */
module QuotaLaws {
  import opened Models
  import opened Amounts
  import opened QuotaSpec
  import opened QuotaLog

  // ---- what is summed ----

  function InPeriod(p: nat): Entry -> Amount {
    (e: Entry) => if e.period == p then Charge(e) else ZERO
  }

  function OverInPeriod(p: nat): Entry -> Amount {
    (e: Entry) => if e.period == p then Overshoot(e) else ZERO
  }

  predicate CarriedInto(e: Entry, p: nat) {
    e.period < p && !e.status.Outstanding? && e.status.settled == p
  }

  /** Estimates of reservations made before period p and settled in it. */
  function CarriedEstimate(p: nat): Entry -> Amount {
    (e: Entry) => if CarriedInto(e, p) then Amount(0, e.reservation.tokens, e.reservation.cost) else ZERO
  }

  /** Actual usage of reservations made before period p and committed in it. */
  function CarriedActual(p: nat): Entry -> Amount {
    (e: Entry) => if CarriedInto(e, p) && e.status.Committed?
                  then Amount(0, Actual(e.status.usage).tokens, Actual(e.status.usage).cost) else ZERO
  }

  /** What reservations made before period p and settled in it stayed below their estimates. */
  function CarriedShortfall(p: nat): Entry -> Amount {
    (e: Entry) => if CarriedInto(e, p) then Shortfall(e) else ZERO
  }

  predicate Within(e: Entry, t: real) {
    t - 60.0 < e.stamp <= t
  }

  function InWindow(t: real): Entry -> Amount {
    (e: Entry) => if Within(e, t) then Charge(e) else ZERO
  }

  function OverInWindow(t: real): Entry -> Amount {
    (e: Entry) => if Within(e, t) then Overshoot(e) else ZERO
  }

  function OnDate(d: int): Entry -> Amount {
    (e: Entry) => if e.date == d then Amount(1, 0, 0.0) else ZERO
  }

  // ---- the laws ----

  /** With T the charges of this period, S and A the estimates and actuals carried into it:
      the request counter is exact, and T - S + A <= counter <= T + A for tokens and for cost. */
  ghost predicate Drift(s: State, log: Log) {
    var T := Sum(log.entries, InPeriod(log.period));
    var S := Sum(log.entries, CarriedEstimate(log.period));
    var A := Sum(log.entries, CarriedActual(log.period));
    && s.dailyRequests == T.requests
    && T.tokens - S.tokens + A.tokens <= s.dailyTokens <= T.tokens + A.tokens
    && T.cost - S.cost + A.cost <= s.dailyCost <= T.cost + A.cost
  }

  /** At every instant t, not only at those where the tracker looked. */
  ghost predicate MinuteCap(log: Log, model: ModelConfig) {
    forall t: real ::
      && (model.requestsPerMinute.Some? ==>
            Sum(log.entries, InWindow(t)).requests <= Max(0, model.requestsPerMinute.value))
      && (model.tokensPerMinute.Some? ==>
            Sum(log.entries, InWindow(t)).tokens
            <= Max(0, model.tokensPerMinute.value) + Sum(log.entries, OverInWindow(t)).tokens)
  }

  /** A day's charges exceed its limits by at most the carried shortfalls and the day's overshoots. */
  ghost predicate DayCap(log: Log, model: ModelConfig) {
    var T := Sum(log.entries, InPeriod(log.period));
    var U := Sum(log.entries, CarriedShortfall(log.period));
    var O := Sum(log.entries, OverInPeriod(log.period));
    && (model.requestsPerDay.Some? ==> T.requests <= Max(0, model.requestsPerDay.value))
    && (model.tokensPerDay.Some? ==> T.tokens <= Max(0, model.tokensPerDay.value) + U.tokens + O.tokens)
    && (model.dailyCostLimit.Some? ==> T.cost <= MaxReal(0.0, model.dailyCostLimit.value) + U.cost + O.cost)
  }

  /** Needs a UTC date that never goes back; then each date has at most requests_per_day grants. */
  ghost predicate DateCap(log: Log, model: ModelConfig) {
    && (forall i :: 0 <= i < |log.entries| && log.entries[i].period < log.period ==> log.entries[i].date < log.day)
    && (model.requestsPerDay.Some? ==>
          forall d: int :: Sum(log.entries, OnDate(d)).requests <= Max(0, model.requestsPerDay.value))
  }

  ghost predicate Account(s: State, log: Log, modelId: string) {
    Coupled(s, log, modelId) && Drift(s, log)
  }

  ghost predicate Capped(log: Log, model: ModelConfig) {
    MinuteCap(log, model) && DayCap(log, model)
  }

  // ---- the deques hold the window's sums ----

  lemma {:induction false} WindowOfDeques(entries: seq<Entry>, now: real)
    requires forall i :: 0 <= i < |entries| ==> entries[i].stamp <= now
    ensures |RecentTimes(entries, now - 60.0)| == Sum(entries, InWindow(now)).requests
    ensures MinuteTokens(RecentEvents(entries, now - 60.0)) == Sum(entries, InWindow(now)).tokens
  {
    if |entries| != 0 {
      var front, last := entries[..|entries| - 1], entries[|entries| - 1];
      WindowOfDeques(front, now);
      var es := RecentEvents(front, now - 60.0);
      if Within(last, now) && !last.status.Released? {
        var x := TokenEvent(last.stamp, last.reservation.id, Charge(last).tokens);
        assert (es + [x])[..|es|] == es;
      } else {
        assert RecentEvents(entries, now - 60.0) == es;
      }
    }
  }

  // ---- rolling ----

  lemma NothingNew(log: Log, modelId: string, p: nat)
    requires WellFormed(log, modelId) && log.period < p
    ensures Sum(log.entries, InPeriod(p)) == ZERO
    ensures Sum(log.entries, CarriedEstimate(p)) == ZERO
    ensures Sum(log.entries, CarriedActual(p)) == ZERO
    ensures Sum(log.entries, CarriedShortfall(p)) == ZERO
    ensures Sum(log.entries, OverInPeriod(p)) == ZERO
  {
    forall i | 0 <= i < |log.entries|
      ensures log.entries[i].period != p && !CarriedInto(log.entries[i], p)
    {
      assert EntryOk(log.entries[i], modelId, log);
    }
    SumZero(log.entries, InPeriod(p));
    SumZero(log.entries, CarriedEstimate(p));
    SumZero(log.entries, CarriedActual(p));
    SumZero(log.entries, CarriedShortfall(p));
    SumZero(log.entries, OverInPeriod(p));
  }

  lemma DriftRoll(s: State, log: Log, modelId: string, now: real, today: int)
    requires Account(s, log, modelId)
    ensures Drift(Roll(s, now, today), RollLog(log, now, today))
  {
    hide Sum, RecentTimes, RecentEvents, DropTimes, DropEvents;
    if s.day != today {
      NothingNew(log, modelId, log.period + 1);
    }
  }

  lemma CappedRoll(log: Log, modelId: string, model: ModelConfig, now: real, today: int)
    requires WellFormed(log, modelId) && Capped(log, model)
    ensures Capped(RollLog(log, now, today), model)
  {
    hide Sum;
    if log.day != today {
      NothingNew(log, modelId, log.period + 1);
    }
  }

  // ---- granting ----

  lemma DriftGrant(s: State, log: Log, r: Reservation)
    requires Drift(s, log)
    ensures Drift(Grant(s, r, log.rolledAt), GrantLog(log, r))
  {
    hide Sum;
    var e := Entry(r, log.rolledAt, log.day, log.period, Outstanding);
    SumAppend(log.entries, e, InPeriod(log.period));
    SumAppend(log.entries, e, CarriedEstimate(log.period));
    SumAppend(log.entries, e, CarriedActual(log.period));
  }

  lemma ChargesNonNegative(log: Log, modelId: string)
    requires WellFormed(log, modelId)
    ensures forall i :: 0 <= i < |log.entries| ==>
              AtMost(ZERO, Charge(log.entries[i])) && AtMost(ZERO, Overshoot(log.entries[i]))
  {
    forall i | 0 <= i < |log.entries|
      ensures AtMost(ZERO, Charge(log.entries[i])) && AtMost(ZERO, Overshoot(log.entries[i]))
    {
      assert EntryOk(log.entries[i], modelId, log);
    }
  }

  /** A window seen from a later instant holds no more of the past than the window at the grant. */
  lemma LaterWindow(log: Log, modelId: string, t: real)
    requires WellFormed(log, modelId) && log.rolledAt <= t
    ensures AtMost(Sum(log.entries, InWindow(t)), Sum(log.entries, InWindow(log.rolledAt)))
    ensures AtMost(ZERO, Sum(log.entries, OverInWindow(t)))
  {
    ChargesNonNegative(log, modelId);
    forall i | 0 <= i < |log.entries|
      ensures AtMost(InWindow(t)(log.entries[i]), InWindow(log.rolledAt)(log.entries[i]))
    {
      assert EntryOk(log.entries[i], modelId, log);
    }
    SumAtMost(log.entries, InWindow(t), InWindow(log.rolledAt));
    SumNonNegative(log.entries, OverInWindow(t));
  }

  lemma MinuteCapGrant(s: State, log: Log, model: ModelConfig, r: Reservation)
    requires Coupled(s, log, model.id) && MinuteCap(log, model) && Admits(s, model, r.tokens, r.cost)
    requires 0 <= r.tokens && 0.0 <= r.cost
    ensures MinuteCap(GrantLog(log, r), model)
  {
    hide Sum, RecentTimes, RecentEvents, MinuteTokens, TableOfOutstanding;
    var e := Entry(r, log.rolledAt, log.day, log.period, Outstanding);
    assert forall i :: 0 <= i < |log.entries| ==> EntryOk(log.entries[i], model.id, log);
    WindowOfDeques(log.entries, log.rolledAt);
    forall t: real
      ensures model.requestsPerMinute.Some? ==>
                Sum(GrantLog(log, r).entries, InWindow(t)).requests <= Max(0, model.requestsPerMinute.value)
      ensures model.tokensPerMinute.Some? ==>
                Sum(GrantLog(log, r).entries, InWindow(t)).tokens
                <= Max(0, model.tokensPerMinute.value) + Sum(GrantLog(log, r).entries, OverInWindow(t)).tokens
    {
      SumAppend(log.entries, e, InWindow(t));
      SumAppend(log.entries, e, OverInWindow(t));
      if log.rolledAt <= t {
        LaterWindow(log, model.id, t);
      }
    }
  }

  /** What was carried in costs at most what was charged for it and what it stayed below its estimates. */
  lemma CarryBalance(log: Log, p: nat)
    ensures AtMost(Sum(log.entries, CarriedEstimate(p)),
                   Plus(Sum(log.entries, CarriedActual(p)), Sum(log.entries, CarriedShortfall(p))))
  {
    SumAtMostBoth(log.entries, CarriedEstimate(p), CarriedActual(p), CarriedShortfall(p));
  }

  lemma DayCapGrant(s: State, log: Log, model: ModelConfig, r: Reservation)
    requires Drift(s, log) && DayCap(log, model) && Admits(s, model, r.tokens, r.cost)
    requires WellFormed(log, model.id)
    ensures DayCap(GrantLog(log, r), model)
  {
    hide Sum;
    var e := Entry(r, log.rolledAt, log.day, log.period, Outstanding);
    SumAppend(log.entries, e, InPeriod(log.period));
    SumAppend(log.entries, e, CarriedShortfall(log.period));
    SumAppend(log.entries, e, OverInPeriod(log.period));
    CarryBalance(log, log.period);
    ChargesNonNegative(log, model.id);
    SumNonNegative(log.entries, OverInPeriod(log.period));
  }

  // ---- settling ----

  /** Settling entry i in the current period, as seen by each of the sums. */
  lemma SumsAfterSettle(log: Log, i: nat, status: Status)
    requires i < |log.entries| && log.entries[i].status.Outstanding?
    requires !status.Outstanding? && status.settled == log.period
    requires log.entries[i].period <= log.period
    ensures var p := log.period;
            var e := log.entries[i];
            var e' := e.(status := status);
            var after := log.entries[i := e'];
            && Plus(Sum(after, InPeriod(p)), InPeriod(p)(e)) == Plus(Sum(log.entries, InPeriod(p)), InPeriod(p)(e'))
            && Sum(after, CarriedEstimate(p)) == Plus(Sum(log.entries, CarriedEstimate(p)), CarriedEstimate(p)(e'))
            && Sum(after, CarriedActual(p)) == Plus(Sum(log.entries, CarriedActual(p)), CarriedActual(p)(e'))
            && Sum(after, CarriedShortfall(p)) == Plus(Sum(log.entries, CarriedShortfall(p)), CarriedShortfall(p)(e'))
            && Sum(after, OverInPeriod(p)) == Plus(Sum(log.entries, OverInPeriod(p)), OverInPeriod(p)(e'))
  {
    hide Sum;
    var e' := log.entries[i].(status := status);
    SumUpdate(log.entries, i, e', InPeriod(log.period));
    SumUpdate(log.entries, i, e', CarriedEstimate(log.period));
    SumUpdate(log.entries, i, e', CarriedActual(log.period));
    SumUpdate(log.entries, i, e', CarriedShortfall(log.period));
    SumUpdate(log.entries, i, e', OverInPeriod(log.period));
  }

  lemma DriftCommit(s: State, log: Log, modelId: string, r: Reservation, usage: Usage)
    requires Account(s, log, modelId) && r.id in s.reservations && s.reservations[r.id] == r
    ensures Drift(Commit(s, r, usage), CommitLog(log, r.id, usage))
  {
    hide Sum;
    var i := FindOutstanding(s, log, modelId, r);
    assert EntryOk(log.entries[i], modelId, log);
    SumsAfterSettle(log, i, Committed(usage, log.period));
  }

  lemma DriftRelease(s: State, log: Log, modelId: string, r: Reservation)
    requires Account(s, log, modelId) && r.id in s.reservations && s.reservations[r.id] == r
    ensures Drift(Release(s, r), ReleaseLog(log, r.id))
  {
    hide Sum;
    var i := FindOutstanding(s, log, modelId, r);
    assert EntryOk(log.entries[i], modelId, log);
    SumsAfterSettle(log, i, Released(log.period));
    CoupledRelease(s, log, modelId, r);
    var after := ReleaseLog(log, r.id);
    ChargesNonNegative(after, modelId);
    SumNonNegative(after.entries, InPeriod(log.period));
    SumNonNegative(after.entries, CarriedActual(log.period));
  }

  lemma CappedSettle(log: Log, modelId: string, model: ModelConfig, i: nat, status: Status)
    requires WellFormed(log, modelId) && Capped(log, model)
    requires i < |log.entries| && log.entries[i].status.Outstanding?
    requires !status.Outstanding? && status.settled == log.period
    ensures Capped(log.(entries := log.entries[i := log.entries[i].(status := status)]), model)
  {
    hide Sum;
    var e := log.entries[i];
    var e' := e.(status := status);
    var after := log.entries[i := e'];
    assert EntryOk(e, modelId, log);
    SumsAfterSettle(log, i, status);
    forall t: real
      ensures Sum(after, InWindow(t)).requests == Sum(log.entries, InWindow(t)).requests
      ensures Sum(after, InWindow(t)).tokens - Sum(after, OverInWindow(t)).tokens
              <= Sum(log.entries, InWindow(t)).tokens - Sum(log.entries, OverInWindow(t)).tokens
    {
      SumUpdate(log.entries, i, e', InWindow(t));
      SumUpdate(log.entries, i, e', OverInWindow(t));
    }
  }

  lemma CappedCommit(s: State, log: Log, model: ModelConfig, modelId: string, r: Reservation, usage: Usage)
    requires Account(s, log, modelId) && Capped(log, model) && r.id in s.reservations && s.reservations[r.id] == r
    ensures Capped(CommitLog(log, r.id, usage), model)
  {
    hide Sum;
    var i := FindOutstanding(s, log, modelId, r);
    CappedSettle(log, modelId, model, i, Committed(usage, log.period));
  }

  lemma CappedRelease(s: State, log: Log, model: ModelConfig, modelId: string, r: Reservation)
    requires Account(s, log, modelId) && Capped(log, model) && r.id in s.reservations && s.reservations[r.id] == r
    ensures Capped(ReleaseLog(log, r.id), model)
  {
    hide Sum;
    var i := FindOutstanding(s, log, modelId, r);
    CappedSettle(log, modelId, model, i, Released(log.period));
  }

  // ---- grants per date ----

  lemma DateCapRoll(log: Log, modelId: string, model: ModelConfig, now: real, today: int)
    requires WellFormed(log, modelId) && DateCap(log, model) && log.day <= today
    ensures DateCap(RollLog(log, now, today), model)
  {
    assert forall i :: 0 <= i < |log.entries| ==> EntryOk(log.entries[i], modelId, log);
  }

  lemma DateCapGrant(s: State, log: Log, model: ModelConfig, r: Reservation)
    requires Account(s, log, model.id) && DateCap(log, model) && Admits(s, model, r.tokens, r.cost)
    ensures DateCap(GrantLog(log, r), model)
  {
    var e := Entry(r, log.rolledAt, log.day, log.period, Outstanding);
    ChargesNonNegative(log, model.id);
    forall i | 0 <= i < |log.entries|
      ensures AtMost(OnDate(log.day)(log.entries[i]), InPeriod(log.period)(log.entries[i]))
    {
      assert EntryOk(log.entries[i], model.id, log);
    }
    SumAtMost(log.entries, OnDate(log.day), InPeriod(log.period));
    forall d: int
      ensures model.requestsPerDay.Some? ==>
                Sum(GrantLog(log, r).entries, OnDate(d)).requests <= Max(0, model.requestsPerDay.value)
    {
      SumAppend(log.entries, e, OnDate(d));
    }
  }

  lemma DateCapSettle(log: Log, model: ModelConfig, id: string, status: Status)
    requires DateCap(log, model)
    ensures DateCap(log.(entries := Settle(log.entries, id, status)), model)
  {
    forall d: int
      ensures Sum(Settle(log.entries, id, status), OnDate(d)) == Sum(log.entries, OnDate(d))
    {
      SameDates(log.entries, Settle(log.entries, id, status), d);
    }
  }

  lemma {:induction false} SameDates(a: seq<Entry>, b: seq<Entry>, d: int)
    requires |a| == |b| && forall i :: 0 <= i < |a| ==> a[i].date == b[i].date
    ensures Sum(a, OnDate(d)) == Sum(b, OnDate(d))
  {
    if |a| != 0 {
      SameDates(a[..|a| - 1], b[..|b| - 1], d);
    }
  }

  // ---- when the daily counters are exact ----

  ghost predicate NothingCarried(log: Log) {
    forall i :: 0 <= i < |log.entries| ==> !CarriedInto(log.entries[i], log.period)
  }

  /** If no reservation was settled in a later period than it was made in, the counters are the
      committed actuals plus the outstanding estimates of the period. */
  lemma ExactWithoutCarry(s: State, log: Log)
    requires Drift(s, log) && NothingCarried(log)
    ensures Amount(s.dailyRequests, s.dailyTokens, s.dailyCost) == Sum(log.entries, InPeriod(log.period))
  {
    hide Sum;
    SumZero(log.entries, CarriedEstimate(log.period));
    SumZero(log.entries, CarriedActual(log.period));
  }

  lemma OutstandingIsHeld(s: State, log: Log, modelId: string, i: nat)
    requires Coupled(s, log, modelId) && i < |log.entries| && log.entries[i].status.Outstanding?
    ensures var r := log.entries[i].reservation; r.id in s.reservations && s.reservations[r.id] == r
  {
    var r := log.entries[i].reservation;
    assert r.id in s.reservations;
    assert HasOutstanding(log.entries, s.reservations[r.id]);
  }

  // ---- deciding and reporting as the full log does ----

  /** The evicting tracker decides as one that recomputes the requests of the minute and the day and the
      tokens of the minute from the whole log; and the tokens and the cost of the day too, when nothing
      was carried into it. */
  lemma DecidesAsTheFullLog(s: State, log: Log, model: ModelConfig, r: Reservation, clock: Clock)
    requires Account(s, log, model.id) && log.rolledAt <= clock.monotonic
    ensures var rolled := Roll(s, clock.monotonic, clock.today);
            var log' := RollLog(log, clock.monotonic, clock.today);
            var window := Sum(log.entries, InWindow(clock.monotonic));
            var today := Sum(log.entries, InPeriod(log'.period));
            && (Reserve(s, model, r, clock).1.Some? <==>
                WithinLimits(model, window.requests, today.requests, window.tokens,
                             rolled.dailyTokens, rolled.dailyCost, r.tokens, r.cost))
            && (NothingCarried(log') ==>
                  (Reserve(s, model, r, clock).1.Some? <==>
                   WithinLimits(model, window.requests, today.requests, window.tokens,
                                today.tokens, today.cost, r.tokens, r.cost)))
  {
    hide Sum, RecentTimes, RecentEvents, DropTimes, DropEvents, NothingCarried;
    CoupledRoll(s, log, model.id, clock.monotonic, clock.today);
    DriftRoll(s, log, model.id, clock.monotonic, clock.today);
    WindowOfDeques(log.entries, clock.monotonic);
    var log' := RollLog(log, clock.monotonic, clock.today);
    if NothingCarried(log') {
      ExactWithoutCarry(Roll(s, clock.monotonic, clock.today), log');
    }
  }

  /** What a snapshot reports is what the whole log says at that instant; the tokens and the cost of the
      day up to what was carried into it, and exactly when nothing was. */
  lemma ReportMatchesLog(s: State, log: Log, modelId: string, now: real, today: int)
    requires Account(s, log, modelId) && log.rolledAt <= now
    ensures var report := ReportOf(Roll(s, now, today));
            var log' := RollLog(log, now, today);
            var window := Sum(log.entries, InWindow(now));
            var T, S := Sum(log.entries, InPeriod(log'.period)), Sum(log.entries, CarriedEstimate(log'.period));
            var A := Sum(log.entries, CarriedActual(log'.period));
            && report.day == today
            && report.requestsLastMinute == window.requests && report.tokensLastMinute == window.tokens
            && report.requestsToday == T.requests
            && T.tokens - S.tokens + A.tokens <= report.tokensToday <= T.tokens + A.tokens
            && T.cost - S.cost + A.cost <= report.costToday <= T.cost + A.cost
            && (NothingCarried(log') ==> report.tokensToday == T.tokens && report.costToday == T.cost)
  {
    hide Sum, RecentTimes, RecentEvents, DropTimes, DropEvents, NothingCarried;
    CoupledRoll(s, log, modelId, now, today);
    DriftRoll(s, log, modelId, now, today);
    WindowOfDeques(log.entries, now);
    if NothingCarried(RollLog(log, now, today)) {
      ExactWithoutCarry(Roll(s, now, today), RollLog(log, now, today));
    }
  }
}
