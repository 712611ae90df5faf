/**
 When exactly the daily limits on tokens and cost hold.  The tracker compares its counters with the limits,
 so the limits hold as long as the counters are not below the charges of the day: here is what keeps them
 there, which calls do not, and that the next reservation overruns the limit exactly when they are.
 */
module QuotaDays {
  import opened Models
  import opened Amounts
  import opened QuotaSpec
  import opened QuotaLog
  import opened QuotaLaws
  import opened QuotaRuns

  /** What the reservations made since the last day roll are charged by now. */
  ghost function Today(log: Log): Amount {
    Sum(log.entries, InPeriod(log.period))
  }

  // ---- nothing carried across a day roll ----

  /** If nothing was carried, releasing a reservation of the period never meets the clamps. */
  lemma ClampIdleWithoutCarry(s: State, log: Log, modelId: string, r: Reservation)
    requires Account(s, log, modelId) && NothingCarried(log)
    requires r.id in s.reservations && s.reservations[r.id] == r
    requires forall i :: 0 <= i < |log.entries| && log.entries[i].reservation.id == r.id ==>
               log.entries[i].period == log.period
    ensures Release(s, r).dailyTokens == s.dailyTokens - r.tokens
    ensures Release(s, r).dailyCost == s.dailyCost - r.cost
  {
    var i := FindOutstanding(s, log, modelId, r);
    ExactWithoutCarry(s, log);
    ChargesNonNegative(log, modelId);
    SumCovers(log.entries, i, InPeriod(log.period));
  }

  /** If no call carried into the day stayed below its estimate, and no call of the day went above its own,
      the day's charges stay within its limits. */
  lemma DayLimitWithoutShortfall(log: Log, model: ModelConfig)
    requires DayCap(log, model)
    requires forall i :: 0 <= i < |log.entries| && CarriedInto(log.entries[i], log.period) ==>
               Shortfall(log.entries[i]) == ZERO
    requires forall i :: 0 <= i < |log.entries| && log.entries[i].period == log.period ==>
               Overshoot(log.entries[i]) == ZERO
    ensures model.tokensPerDay.Some? ==> Today(log).tokens <= Max(0, model.tokensPerDay.value)
    ensures model.dailyCostLimit.Some? ==> Today(log).cost <= MaxReal(0.0, model.dailyCostLimit.value)
  {
    SumZero(log.entries, CarriedShortfall(log.period));
    SumZero(log.entries, OverInPeriod(log.period));
  }

  // ---- which calls keep the counters exact ----

  /** Settling entry i, seen by the charges of the day: those of another day are not touched. */
  lemma TodayAfterSettle(s: State, log: Log, modelId: string, i: nat, status: Status)
    requires Account(s, log, modelId) && i < |log.entries| && log.entries[i].status.Outstanding?
    requires !status.Outstanding? && status.settled == log.period
    ensures var e := log.entries[i];
            var after := log.(entries := Settle(log.entries, e.reservation.id, status));
            && e.reservation.id in s.reservations && s.reservations[e.reservation.id] == e.reservation
            && (if e.period == log.period
                then Plus(Today(after), Charge(e)) == Plus(Today(log), Charge(e.(status := status)))
                else Today(after) == Today(log))
  {
    hide Sum;
    OutstandingIsHeld(s, log, modelId, i);
    var j := FindOutstanding(s, log, modelId, log.entries[i].reservation);
    assert j == i;
    assert EntryOk(log.entries[i], modelId, log);
    SumsAfterSettle(log, i, status);
  }

  /** From an exact counter, a commit leaves it exact exactly when the reservation was made in the current
      period or cost just what it was estimated at; for tokens and for cost. */
  lemma CommitStaysExactIff(s: State, log: Log, modelId: string, i: nat, usage: Usage)
    requires Account(s, log, modelId) && i < |log.entries| && log.entries[i].status.Outstanding?
    ensures var r := log.entries[i].reservation;
            var s', after := Commit(s, r, usage), CommitLog(log, r.id, usage);
            && (s.dailyTokens == Today(log).tokens ==>
                  (s'.dailyTokens == Today(after).tokens
                   <==> log.entries[i].period == log.period || Actual(usage).tokens == r.tokens))
            && (s.dailyCost == Today(log).cost ==>
                  (s'.dailyCost == Today(after).cost
                   <==> log.entries[i].period == log.period || Actual(usage).cost == r.cost))
  {
    hide Account, Today;
    TodayAfterSettle(s, log, modelId, i, Committed(usage, log.period));
  }

  lemma TodayNonNegative(s: State, log: Log, modelId: string)
    requires Account(s, log, modelId)
    ensures AtMost(ZERO, Today(log))
    ensures forall i :: 0 <= i < |log.entries| ==> 0 <= log.entries[i].reservation.tokens && 0.0 <= log.entries[i].reservation.cost
    ensures forall i :: 0 <= i < |log.entries| && log.entries[i].period == log.period ==>
              AtMost(Charge(log.entries[i]), Today(log))
  {
    assert forall i :: 0 <= i < |log.entries| ==> EntryOk(log.entries[i], modelId, log);
    ChargesNonNegative(log, modelId);
    SumNonNegative(log.entries, InPeriod(log.period));
    forall i | 0 <= i < |log.entries| && log.entries[i].period == log.period
      ensures AtMost(Charge(log.entries[i]), Today(log))
    {
      SumCovers(log.entries, i, InPeriod(log.period));
    }
  }

  /** From an exact counter, a release leaves it exact exactly when the reservation was made in the current
      period, or had nothing to give back, or the counter already stood at zero; for tokens and for cost. */
  lemma ReleaseStaysExactIff(s: State, log: Log, modelId: string, i: nat)
    requires Account(s, log, modelId) && i < |log.entries| && log.entries[i].status.Outstanding?
    ensures var r := log.entries[i].reservation;
            var s', after := Release(s, r), ReleaseLog(log, r.id);
            && (s.dailyTokens == Today(log).tokens ==>
                  (s'.dailyTokens == Today(after).tokens
                   <==> log.entries[i].period == log.period || r.tokens == 0 || s.dailyTokens == 0))
            && (s.dailyCost == Today(log).cost ==>
                  (s'.dailyCost == Today(after).cost
                   <==> log.entries[i].period == log.period || r.cost == 0.0 || s.dailyCost == 0.0))
  {
    hide Account, Today;
    TodayAfterSettle(s, log, modelId, i, Released(log.period));
    TodayNonNegative(s, log, modelId);
  }

  // ---- which calls keep the counters from falling below the charges ----

  /** A counter not below the charges stays so through a commit exactly when the reservation is of this
      period, or stays below its estimate by no more than the counter is above the charges; from an exact
      counter, exactly when it is of this period or used at least its estimate. */
  lemma CommitKeepsCoverIff(s: State, log: Log, modelId: string, i: nat, usage: Usage)
    requires Account(s, log, modelId) && i < |log.entries| && log.entries[i].status.Outstanding?
    ensures var e, r := log.entries[i], log.entries[i].reservation;
            var s', after := Commit(s, r, usage), CommitLog(log, r.id, usage);
            && (Today(log).tokens <= s.dailyTokens ==>
                  (Today(after).tokens <= s'.dailyTokens
                   <==> e.period == log.period
                        || r.tokens - Actual(usage).tokens <= s.dailyTokens - Today(log).tokens))
            && (Today(log).cost <= s.dailyCost ==>
                  (Today(after).cost <= s'.dailyCost
                   <==> e.period == log.period || r.cost - Actual(usage).cost <= s.dailyCost - Today(log).cost))
            && (s.dailyTokens == Today(log).tokens ==>
                  (Today(after).tokens <= s'.dailyTokens
                   <==> e.period == log.period || r.tokens <= Actual(usage).tokens))
            && (s.dailyCost == Today(log).cost ==>
                  (Today(after).cost <= s'.dailyCost
                   <==> e.period == log.period || r.cost <= Actual(usage).cost))
  {
    hide Account, Today;
    TodayAfterSettle(s, log, modelId, i, Committed(usage, log.period));
  }

  /** The same for a release, which gives back the whole estimate, but never more than the counter holds. */
  lemma ReleaseKeepsCoverIff(s: State, log: Log, modelId: string, i: nat)
    requires Account(s, log, modelId) && i < |log.entries| && log.entries[i].status.Outstanding?
    ensures var e, r := log.entries[i], log.entries[i].reservation;
            var s', after := Release(s, r), ReleaseLog(log, r.id);
            && (Today(log).tokens <= s.dailyTokens ==>
                  (Today(after).tokens <= s'.dailyTokens
                   <==> e.period == log.period || Today(log).tokens == 0
                        || r.tokens <= s.dailyTokens - Today(log).tokens))
            && (Today(log).cost <= s.dailyCost ==>
                  (Today(after).cost <= s'.dailyCost
                   <==> e.period == log.period || Today(log).cost == 0.0
                        || r.cost <= s.dailyCost - Today(log).cost))
            && (s.dailyTokens == Today(log).tokens ==>
                  (Today(after).tokens <= s'.dailyTokens
                   <==> e.period == log.period || r.tokens == 0 || s.dailyTokens == 0))
            && (s.dailyCost == Today(log).cost ==>
                  (Today(after).cost <= s'.dailyCost
                   <==> e.period == log.period || r.cost == 0.0 || s.dailyCost == 0.0))
  {
    hide Account, Today;
    TodayAfterSettle(s, log, modelId, i, Released(log.period));
    TodayNonNegative(s, log, modelId);
  }

  /** Rolling and granting never take a counter below the charges. */
  lemma GrantKeepsCover(s: State, log: Log, r: Reservation)
    ensures Today(GrantLog(log, r)) == Plus(Today(log), Estimate(r))
    ensures Today(GrantLog(log, r)).tokens - Grant(s, r, log.rolledAt).dailyTokens == Today(log).tokens - s.dailyTokens
    ensures Today(GrantLog(log, r)).cost - Grant(s, r, log.rolledAt).dailyCost == Today(log).cost - s.dailyCost
  {
    hide Sum;
    SumAppend(log.entries, Entry(r, log.rolledAt, log.day, log.period, Outstanding), InPeriod(log.period));
  }

  /** A counter below the charges means that some call carried into the day stayed below its estimate. */
  lemma UncoveredMeansShortfall(s: State, log: Log)
    requires Drift(s, log)
    ensures s.dailyTokens < Today(log).tokens ==>
              exists i :: 0 <= i < |log.entries| && CarriedInto(log.entries[i], log.period)
                          && 0 < Shortfall(log.entries[i]).tokens
    ensures s.dailyCost < Today(log).cost ==>
              exists i :: 0 <= i < |log.entries| && CarriedInto(log.entries[i], log.period)
                          && 0.0 < Shortfall(log.entries[i]).cost
  {
    hide Sum;
    CarryBalance(log, log.period);
    if forall i :: 0 <= i < |log.entries| && CarriedInto(log.entries[i], log.period) ==> Shortfall(log.entries[i]).tokens <= 0 {
      NoTokens(log.entries, CarriedShortfall(log.period));
    }
    if forall i :: 0 <= i < |log.entries| && CarriedInto(log.entries[i], log.period) ==> Shortfall(log.entries[i]).cost <= 0.0 {
      NoCost(log.entries, CarriedShortfall(log.period));
    }
  }

  lemma {:induction false} NoTokens(entries: seq<Entry>, f: Entry -> Amount)
    requires forall i :: 0 <= i < |entries| ==> f(entries[i]).tokens <= 0
    ensures Sum(entries, f).tokens <= 0
  {
    if |entries| != 0 {
      NoTokens(entries[..|entries| - 1], f);
    }
  }

  lemma {:induction false} NoCost(entries: seq<Entry>, f: Entry -> Amount)
    requires forall i :: 0 <= i < |entries| ==> f(entries[i]).cost <= 0.0
    ensures Sum(entries, f).cost <= 0.0
  {
    if |entries| != 0 {
      NoCost(entries[..|entries| - 1], f);
    }
  }

  // ---- the next reservation ----

  /** The model's state and log once a reservation has rolled them, and before it is decided. */
  function StateAt(b: Books, m: string, clock: Clock): State {
    Roll(Lookup(b.table, m, clock.wall), clock.monotonic, clock.today)
  }

  function LogAt(b: Books, m: string, clock: Clock): Log {
    RollLog(LogFor(b.logs, m, clock), clock.monotonic, clock.today)
  }

  /** The charges of the day after a request for a reservation, granted or not. */
  ghost function TodayAfter(b: Books, op: Op): Amount
    requires op.ReserveOp?
  {
    Today(Apply(b, op).logs[op.model.id])
  }

  /** The other four limits leave room for a reservation. */
  ghost predicate RoomButForTokens(s: State, model: ModelConfig, r: Reservation) {
    Admits(s, model.(tokensPerDay := None), r.tokens, r.cost)
  }

  ghost predicate RoomButForCost(s: State, model: ModelConfig, r: Reservation) {
    Admits(s, model.(dailyCostLimit := None), r.tokens, r.cost)
  }

  /** Exactly which requests take the day past its limits: those for more than the limit leaves above the
      charges, though not more than it leaves above the counter. */
  lemma OverrunsIff(b: Books, op: Op)
    requires op.ReserveOp?
    ensures var s, T, r := StateAt(b, op.model.id, op.clock), Today(LogAt(b, op.model.id, op.clock)), Proposed(op);
            && (forall limit :: op.model.tokensPerDay == Some(limit) && T.tokens <= limit ==>
                  (limit < TodayAfter(b, op).tokens
                   <==> RoomButForTokens(s, op.model, r) && limit - T.tokens < r.tokens <= limit - s.dailyTokens))
            && (forall limit :: op.model.dailyCostLimit == Some(limit) && T.cost <= limit ==>
                  (limit < TodayAfter(b, op).cost
                   <==> RoomButForCost(s, op.model, r) && limit - T.cost < r.cost <= limit - s.dailyCost))
  {
    hide Today, Roll, RollLog, GrantLog, Grant;
    GrantKeepsCover(StateAt(b, op.model.id, op.clock), LogAt(b, op.model.id, op.clock), Proposed(op));
  }

  /** The request for n input tokens and no output. */
  function Ask(model: ModelConfig, n: nat, id: string, clock: Clock): Op {
    ReserveOp(model, n, 0, id, clock)
  }

  /** At a counter within the limit, no next reservation takes the day past the limit if and only if the
      counter is not below the charges: otherwise one for all that the counter leaves does, where the other
      limits have room for it. Whether a request is legal does not depend on its size. */
  lemma NextStaysWithinTokensIff(b: Books, model: ModelConfig, id: string, clock: Clock, limit: int)
    requires model.tokensPerDay == Some(limit) && StateAt(b, model.id, clock).dailyTokens <= limit
    requires var s := StateAt(b, model.id, clock);
             RoomButForTokens(s, model, Proposed(Ask(model, limit - s.dailyTokens, id, clock)))
    ensures (forall inTokens, outTokens :: TodayAfter(b, ReserveOp(model, inTokens, outTokens, id, clock)).tokens <= limit)
            <==> Today(LogAt(b, model.id, clock)).tokens <= StateAt(b, model.id, clock).dailyTokens
  {
    hide Today, TodayAfter, Roll, RollLog;
    var s, T := StateAt(b, model.id, clock), Today(LogAt(b, model.id, clock));
    if T.tokens <= s.dailyTokens {
      forall inTokens, outTokens
        ensures TodayAfter(b, ReserveOp(model, inTokens, outTokens, id, clock)).tokens <= limit
      {
        OverrunsIff(b, ReserveOp(model, inTokens, outTokens, id, clock));
      }
    } else {
      var op := ReserveOp(model, limit - s.dailyTokens, 0, id, clock);
      GrantedCharges(b, op);
    }
  }

  /** The same for cost, where some number of tokens costs exactly what the counter leaves. */
  lemma NextStaysWithinCostIff(b: Books, model: ModelConfig, id: string, clock: Clock, limit: real, n: nat)
    requires model.dailyCostLimit == Some(limit)
    requires Proposed(Ask(model, n, id, clock)).cost == limit - StateAt(b, model.id, clock).dailyCost >= 0.0
    requires RoomButForCost(StateAt(b, model.id, clock), model, Proposed(Ask(model, n, id, clock)))
    ensures (forall inTokens, outTokens :: TodayAfter(b, ReserveOp(model, inTokens, outTokens, id, clock)).cost <= limit)
            <==> Today(LogAt(b, model.id, clock)).cost <= StateAt(b, model.id, clock).dailyCost
  {
    hide Today, TodayAfter, Roll, RollLog;
    var s, T := StateAt(b, model.id, clock), Today(LogAt(b, model.id, clock));
    if T.cost <= s.dailyCost {
      forall inTokens, outTokens
        ensures TodayAfter(b, ReserveOp(model, inTokens, outTokens, id, clock)).cost <= limit
      {
        OverrunsIff(b, ReserveOp(model, inTokens, outTokens, id, clock));
      }
    } else {
      var op := ReserveOp(model, n, 0, id, clock);
      GrantedCharges(b, op);
    }
  }

  lemma GrantedCharges(b: Books, op: Op)
    requires op.ReserveOp?
    ensures var s, r := StateAt(b, op.model.id, op.clock), Proposed(op);
            Admits(s, op.model, r.tokens, r.cost) ==>
              TodayAfter(b, op) == Plus(Today(LogAt(b, op.model.id, op.clock)), Estimate(r))
  {
    hide Today, Roll, RollLog, GrantLog, Grant;
    GrantKeepsCover(StateAt(b, op.model.id, op.clock), LogAt(b, op.model.id, op.clock), Proposed(op));
  }
}
