/**
 The quota tracker on values: what each of its operations does to the state of one model
 and to the table of all models.  The class in QuotaTracker is verified against these
 functions, and every law about runs is proved about them.
 */
module QuotaSpec {
  import opened Models

  /** The three clocks a tracker operation may read: the monotonic clock, the injected UTC date,
      and the wall date a newly created state starts from. Dates are day numbers. */
  datatype Clock = Clock(monotonic: real, today: int, wall: int)

  datatype Reservation = Reservation(id: string, modelId: string, tokens: int, cost: real)

  datatype TokenEvent = TokenEvent(stamp: real, id: string, tokens: int)

  datatype State = State(
    requestTimes: seq<real>,
    tokenEvents: seq<TokenEvent>,
    day: int,
    dailyRequests: int,
    dailyTokens: int,
    dailyCost: real,
    reservations: map<string, Reservation>)

  function Fresh(day: int): State {
    State([], [], day, 0, 0, 0.0, map[])
  }

  function DropTimes(times: seq<real>, minuteAgo: real): seq<real> {
    if |times| != 0 && times[0] <= minuteAgo then DropTimes(times[1..], minuteAgo) else times
  }

  function DropEvents(events: seq<TokenEvent>, minuteAgo: real): seq<TokenEvent> {
    if |events| != 0 && events[0].stamp <= minuteAgo then DropEvents(events[1..], minuteAgo) else events
  }

  function Roll(s: State, now: real, today: int): State {
    var t := s.(requestTimes := DropTimes(s.requestTimes, now - 60.0),
                tokenEvents := DropEvents(s.tokenEvents, now - 60.0));
    if s.day == today then t else t.(day := today, dailyRequests := 0, dailyTokens := 0, dailyCost := 0.0)
  }

  function MinuteTokens(events: seq<TokenEvent>): int {
    if |events| == 0 then 0 else MinuteTokens(events[..|events| - 1]) + events[|events| - 1].tokens
  }

  function EstimatedTokens(inputTokens: int, outputTokens: int): nat {
    Max(0, inputTokens) + Max(0, outputTokens)
  }

  function EstimatedCost(model: ModelConfig, inputTokens: int, outputTokens: int): real {
    model.EstimateCost(Max(0, inputTokens), Max(0, outputTokens))
  }

  /** The five limit checks of a reservation, given the five figures they are compared with. */
  predicate WithinLimits(model: ModelConfig, minuteRequests: int, dayRequests: int,
                         minuteTokens: int, dayTokens: int, dayCost: real, tokens: int, cost: real)
  {
    && (model.requestsPerMinute.Some? ==> minuteRequests < model.requestsPerMinute.value)
    && (model.requestsPerDay.Some? ==> dayRequests < model.requestsPerDay.value)
    && (model.tokensPerMinute.Some? ==> minuteTokens + tokens <= model.tokensPerMinute.value)
    && (model.tokensPerDay.Some? ==> dayTokens + tokens <= model.tokensPerDay.value)
    && (model.dailyCostLimit.Some? ==> dayCost + cost <= model.dailyCostLimit.value)
  }

  predicate Admits(s: State, model: ModelConfig, tokens: int, cost: real) {
    WithinLimits(model, |s.requestTimes|, s.dailyRequests, MinuteTokens(s.tokenEvents),
                 s.dailyTokens, s.dailyCost, tokens, cost)
  }

  function Grant(s: State, r: Reservation, now: real): State {
    s.(requestTimes := s.requestTimes + [now],
       tokenEvents := s.tokenEvents + [TokenEvent(now, r.id, r.tokens)],
       dailyRequests := s.dailyRequests + 1,
       dailyTokens := s.dailyTokens + r.tokens,
       dailyCost := s.dailyCost + r.cost,
       reservations := s.reservations[r.id := r])
  }

  /** The reservation that would be made under the fresh identifier id. */
  function Proposal(model: ModelConfig, inputTokens: int, outputTokens: int, id: string): Reservation {
    Reservation(id, model.id, EstimatedTokens(inputTokens, outputTokens),
                EstimatedCost(model, inputTokens, outputTokens))
  }

  /** What a reservation is for: the input and output tokens, at the prices per million. */
  lemma ProposalFigures(model: ModelConfig, inputTokens: int, outputTokens: int, id: string)
    ensures var i, o := Max(0, inputTokens), Max(0, outputTokens);
            Proposal(model, inputTokens, outputTokens, id) ==
            Reservation(id, model.id, i + o,
                        (i as real * model.inputCostPerMillion + o as real * model.outputCostPerMillion) / 1000000.0)
  {
  }

  function Reserve(s: State, model: ModelConfig, r: Reservation, clock: Clock): (State, Option<Reservation>) {
    var rolled := Roll(s, clock.monotonic, clock.today);
    if Admits(rolled, model, r.tokens, r.cost)
    then (Grant(rolled, r, clock.monotonic), Some(r))
    else (rolled, None)
  }

  function Recharge(events: seq<TokenEvent>, id: string, tokens: int): (r: seq<TokenEvent>)
    ensures |r| == |events|
  {
    if |events| == 0 then []
    else
      var last := events[|events| - 1];
      Recharge(events[..|events| - 1], id, tokens) + [if last.id == id then last.(tokens := tokens) else last]
  }

  function Without(events: seq<TokenEvent>, id: string): seq<TokenEvent> {
    if |events| == 0 then []
    else
      var last := events[|events| - 1];
      Without(events[..|events| - 1], id) + (if last.id == id then [] else [last])
  }

  function Commit(s: State, r: Reservation, usage: Usage): State {
    if r.id !in s.reservations then s
    else
      var actual := Max(0, usage.TotalTokens());
      s.(reservations := s.reservations - {r.id},
         dailyTokens := s.dailyTokens + (actual - r.tokens),
         dailyCost := s.dailyCost + (MaxReal(0.0, usage.costUsd) - r.cost),
         tokenEvents := Recharge(s.tokenEvents, r.id, actual))
  }

  function Release(s: State, r: Reservation): State {
    if r.id !in s.reservations then s
    else
      s.(reservations := s.reservations - {r.id},
         dailyTokens := Max(0, s.dailyTokens - r.tokens),
         dailyCost := MaxReal(0.0, s.dailyCost - r.cost),
         tokenEvents := Without(s.tokenEvents, r.id))
  }

  // ---- the table of all models ----

  type Table = map<string, State>

  function Lookup(table: Table, modelId: string, wall: int): State {
    if modelId in table then table[modelId] else Fresh(wall)
  }

  function ReserveIn(table: Table, model: ModelConfig, r: Reservation, clock: Clock): (Table, Option<Reservation>) {
    var outcome := Reserve(Lookup(table, model.id, clock.wall), model, r, clock);
    (table[model.id := outcome.0], outcome.1)
  }

  function CommitIn(table: Table, r: Reservation, usage: Usage, wall: int): Table {
    table[r.modelId := Commit(Lookup(table, r.modelId, wall), r, usage)]
  }

  function ReleaseIn(table: Table, r: Reservation, wall: int): Table {
    table[r.modelId := Release(Lookup(table, r.modelId, wall), r)]
  }

  function RollAll(table: Table, now: real, today: int): Table {
    map m | m in table :: Roll(table[m], now, today)
  }

  datatype Report = Report(day: int, requestsLastMinute: int, tokensLastMinute: int,
                           requestsToday: int, tokensToday: int, costToday: real)

  function ReportOf(s: State): Report {
    Report(s.day, |s.requestTimes|, MinuteTokens(s.tokenEvents), s.dailyRequests, s.dailyTokens, s.dailyCost)
  }

  /** Settling a reservation a second time, either way, changes nothing. */
  lemma SettledOnce(table: Table, r: Reservation, usage: Usage, again: Usage, wall: int, later: int)
    ensures var c := CommitIn(table, r, usage, wall); CommitIn(c, r, again, later) == c && ReleaseIn(c, r, later) == c
    ensures var d := ReleaseIn(table, r, wall); CommitIn(d, r, again, later) == d && ReleaseIn(d, r, later) == d
  {
    var s := Lookup(table, r.modelId, wall);
    var c, d := Commit(s, r, usage), Release(s, r);
    assert r.id !in c.reservations && r.id !in d.reservations;
    assert table[r.modelId := c][r.modelId := c] == table[r.modelId := c];
    assert table[r.modelId := d][r.modelId := d] == table[r.modelId := d];
  }
}
