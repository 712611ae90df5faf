/**
 The tracker itself: a table of per-model states that its methods update in place.  Every method
 is verified against the value-level function of QuotaSpec.
 */
module QuotaTracker {
  import opened Models
  import opened QuotaSpec

  class QuotaState {
    var requestTimes: seq<real>
    var tokenEvents: seq<TokenEvent>
    var day: int
    var dailyRequests: int
    var dailyTokens: int
    var dailyCost: real
    var reservations: map<string, Reservation>

    constructor (day: int)
      ensures View() == Fresh(day)
    {
      requestTimes, tokenEvents, this.day := [], [], day;
      dailyRequests, dailyTokens, dailyCost := 0, 0, 0.0;
      reservations := map[];
    }

    function View(): State
      reads this
    {
      State(requestTimes, tokenEvents, day, dailyRequests, dailyTokens, dailyCost, reservations)
    }

    method RollWindows(now: real, today: int)
      modifies this
      ensures View() == Roll(old(View()), now, today)
    {
      var minuteAgo := now - 60.0;
      ghost var start := View();
      while |requestTimes| != 0 && requestTimes[0] <= minuteAgo
        invariant DropTimes(requestTimes, minuteAgo) == DropTimes(start.requestTimes, minuteAgo)
        invariant View() == start.(requestTimes := requestTimes)
        decreases |requestTimes|
      {
        requestTimes := requestTimes[1..];
      }
      while |tokenEvents| != 0 && tokenEvents[0].stamp <= minuteAgo
        invariant DropEvents(tokenEvents, minuteAgo) == DropEvents(start.tokenEvents, minuteAgo)
        invariant View() ==
          start.(requestTimes := DropTimes(start.requestTimes, minuteAgo), tokenEvents := tokenEvents)
        decreases |tokenEvents|
      {
        tokenEvents := tokenEvents[1..];
      }
      if day != today {
        day := today;
        dailyRequests := 0;
        dailyTokens := 0;
        dailyCost := 0.0;
      }
    }

    /** The body of try_reserve under the lock, for the state of one model. */
    method Reserve(model: ModelConfig, reservation: Reservation, clock: Clock) returns (answer: Option<Reservation>)
      modifies this
      ensures View() == QuotaSpec.Reserve(old(View()), model, reservation, clock).0
      ensures answer == QuotaSpec.Reserve(old(View()), model, reservation, clock).1
    {
      var now := clock.monotonic;
      RollWindows(now, clock.today);
      var minuteTokens := MinuteTokens(tokenEvents);
      if model.requestsPerMinute.Some? && |requestTimes| >= model.requestsPerMinute.value {
        return None;
      }
      if model.requestsPerDay.Some? && dailyRequests >= model.requestsPerDay.value {
        return None;
      }
      if model.tokensPerMinute.Some? && minuteTokens + reservation.tokens > model.tokensPerMinute.value {
        return None;
      }
      if model.tokensPerDay.Some? && dailyTokens + reservation.tokens > model.tokensPerDay.value {
        return None;
      }
      if model.dailyCostLimit.Some? && dailyCost + reservation.cost > model.dailyCostLimit.value {
        return None;
      }
      requestTimes := requestTimes + [now];
      tokenEvents := tokenEvents + [TokenEvent(now, reservation.id, reservation.tokens)];
      dailyRequests := dailyRequests + 1;
      dailyTokens := dailyTokens + reservation.tokens;
      dailyCost := dailyCost + reservation.cost;
      reservations := reservations[reservation.id := reservation];
      return Some(reservation);
    }

    method Commit(reservation: Reservation, usage: Usage)
      modifies this
      ensures View() == QuotaSpec.Commit(old(View()), reservation, usage)
    {
      if reservation.id !in reservations {
        return;
      }
      reservations := reservations - {reservation.id};
      var actualTokens := Max(0, usage.TotalTokens());
      dailyTokens := dailyTokens + (actualTokens - reservation.tokens);
      dailyCost := dailyCost + (MaxReal(0.0, usage.costUsd) - reservation.cost);
      tokenEvents := Recharge(tokenEvents, reservation.id, actualTokens);
    }

    method Release(reservation: Reservation)
      modifies this
      ensures View() == QuotaSpec.Release(old(View()), reservation)
    {
      if reservation.id !in reservations {
        return;
      }
      reservations := reservations - {reservation.id};
      dailyTokens := Max(0, dailyTokens - reservation.tokens);
      dailyCost := MaxReal(0.0, dailyCost - reservation.cost);
      tokenEvents := Without(tokenEvents, reservation.id);
    }
  }

  class InMemoryQuotaTracker {
    var states: map<string, QuotaState>
    ghost var Repr: set<object>

    ghost predicate Valid()
      reads this
    {
      && this in Repr
      && (forall a :: a in states ==> states[a] in Repr)
      && (forall a, b :: a in states && b in states && a != b ==> states[a] != states[b])
    }

    ghost function View(): Table
      requires Valid()
      reads this, Repr
    {
      map m | m in states :: states[m].View()
    }

    constructor ()
      ensures Valid() && fresh(Repr) && View() == map[]
    {
      states := map[];
      Repr := {this};
    }

    /** The default dictionary: a missing model gets a fresh state. */
    method StateOf(modelId: string, wall: int) returns (state: QuotaState)
      requires Valid()
      modifies this
      ensures Valid() && fresh(Repr - old(Repr))
      ensures modelId in states && states[modelId] == state
      ensures View() == old(View())[modelId := Lookup(old(View()), modelId, wall)]
    {
      if modelId !in states {
        state := new QuotaState(wall);
        states := states[modelId := state];
        Repr := Repr + {state};
      } else {
        state := states[modelId];
      }
    }

    /** Changing one state changes one entry of the table. */
    twostate lemma OneChanged(modelId: string)
      requires old(Valid()) && modelId in old(states) && unchanged(this)
      requires forall m :: m in states && m != modelId ==> unchanged(states[m])
      ensures Valid() && Repr == old(Repr)
      ensures View() == old(View())[modelId := states[modelId].View()]
    {
    }

    /** Asks for the input and output tokens at the model's prices per million; a negative number counts as none. */
    method TryReserve(model: ModelConfig, inputTokens: int, outputTokens: int, clock: Clock, id: string)
      returns (answer: Option<Reservation>)
      requires Valid()
      modifies Repr
      ensures Valid() && fresh(Repr - old(Repr))
      ensures var i, o := Max(0, inputTokens), Max(0, outputTokens);
              var cost := (i as real * model.inputCostPerMillion + o as real * model.outputCostPerMillion) / 1000000.0;
              var r := Reservation(id, model.id, i + o, cost);
              r == Proposal(model, inputTokens, outputTokens, id)
      ensures var r := Proposal(model, inputTokens, outputTokens, id);
              && View() == ReserveIn(old(View()), model, r, clock).0
              && answer == ReserveIn(old(View()), model, r, clock).1
    {
      hide QuotaSpec.Reserve, ModelConfig.EstimateCost;
      ProposalFigures(model, inputTokens, outputTokens, id);
      var estimatedTokens := Max(0, inputTokens) + Max(0, outputTokens);
      var estimatedCost := model.EstimateCost(Max(0, inputTokens), Max(0, outputTokens));
      var state := StateOf(model.id, clock.wall);
      label Found:
      ghost var found := View();
      var reservation := Reservation(id, model.id, estimatedTokens, estimatedCost);
      answer := state.Reserve(model, reservation, clock);
      assert reservation == Proposal(model, inputTokens, outputTokens, id);
      assert found[model.id] == Lookup(old(View()), model.id, clock.wall);
      assert answer == ReserveIn(old(View()), model, reservation, clock).1;
      OneChanged@Found(model.id);
    }

    method Commit(reservation: Reservation, usage: Usage, wall: int)
      requires Valid()
      modifies Repr
      ensures Valid() && fresh(Repr - old(Repr))
      ensures View() == CommitIn(old(View()), reservation, usage, wall)
    {
      hide QuotaSpec.Commit;
      var state := StateOf(reservation.modelId, wall);
      label Found:
      assert View()[reservation.modelId] == Lookup(old(View()), reservation.modelId, wall);
      state.Commit(reservation, usage);
      OneChanged@Found(reservation.modelId);
    }

    method Release(reservation: Reservation, wall: int)
      requires Valid()
      modifies Repr
      ensures Valid() && fresh(Repr - old(Repr))
      ensures View() == ReleaseIn(old(View()), reservation, wall)
    {
      hide QuotaSpec.Release;
      var state := StateOf(reservation.modelId, wall);
      label Found:
      assert View()[reservation.modelId] == Lookup(old(View()), reservation.modelId, wall);
      state.Release(reservation);
      OneChanged@Found(reservation.modelId);
    }

    /** One turn of the snapshot loop. */
    method RollOne(modelId: string, clock: Clock) returns (report: Report)
      requires Valid() && modelId in states
      modifies states[modelId]
      ensures Valid() && Repr == old(Repr)
      ensures View() == old(View())[modelId := Roll(old(View())[modelId], clock.monotonic, clock.today)]
      ensures report == ReportOf(View()[modelId])
    {
      hide Roll, ReportOf;
      var state := states[modelId];
      state.RollWindows(clock.monotonic, clock.today);
      OneChanged(modelId);
      report := ReportOf(state.View());
    }

    method Snapshot(clock: Clock) returns (result: map<string, Report>)
      requires Valid()
      modifies Repr
      ensures Valid() && Repr == old(Repr)
      ensures View() == RollAll(old(View()), clock.monotonic, clock.today)
      ensures result == map m | m in View() :: ReportOf(View()[m])
    {
      hide Roll, ReportOf, Partly, Reports, RollAll;
      ghost var start := View();
      result := map[];
      var pending := states.Keys;
      assert pending == start.Keys;
      ReportsNone(start, clock);
      PartlyAll(start, clock);
      while pending != {}
        invariant Valid() && Repr == old(Repr) && states == old(states) && pending <= start.Keys
        invariant View() == Partly(start, pending, clock)
        invariant result == Reports(start, pending, clock)
        decreases pending
      {
        var modelId :| modelId in pending;
        PartlyStep(start, pending, modelId, clock);
        ReportsStep(start, pending, modelId, clock);
        var report := RollOne(modelId, clock);
        result := result[modelId := report];
        pending := pending - {modelId};
      }
    }
  }

  /** A snapshot under way: the models still pending have not been rolled. */
  ghost function Partly(start: Table, pending: set<string>, clock: Clock): Table {
    map m | m in start :: if m in pending then start[m] else Roll(start[m], clock.monotonic, clock.today)
  }

  ghost function Reports(start: Table, pending: set<string>, clock: Clock): map<string, Report> {
    map m | m in start && m !in pending :: ReportOf(Roll(start[m], clock.monotonic, clock.today))
  }

  lemma ReportsNone(start: Table, clock: Clock)
    ensures Reports(start, start.Keys, clock) == map[]
    ensures var rolled := RollAll(start, clock.monotonic, clock.today);
            Reports(start, {}, clock) == map m | m in rolled :: ReportOf(rolled[m])
  {
  }

  lemma ReportsStep(start: Table, pending: set<string>, m: string, clock: Clock)
    requires m in pending && m in start
    ensures Reports(start, pending - {m}, clock)
            == Reports(start, pending, clock)[m := ReportOf(Roll(start[m], clock.monotonic, clock.today))]
  {
  }

  lemma PartlyAll(start: Table, clock: Clock)
    ensures Partly(start, start.Keys, clock) == start
    ensures Partly(start, {}, clock) == RollAll(start, clock.monotonic, clock.today)
  {
  }

  lemma PartlyStep(start: Table, pending: set<string>, m: string, clock: Clock)
    requires m in pending && m in start
    ensures m in Partly(start, pending, clock) && Partly(start, pending, clock)[m] == start[m]
    ensures Partly(start, pending - {m}, clock)
            == Partly(start, pending, clock)[m := Roll(start[m], clock.monotonic, clock.today)]
  {
  }
}
