/** What a reservation carried across midnight can do to the daily limits: two concrete runs. */
module QuotaMidnight {
  import opened Models
  import opened Amounts
  import opened QuotaSpec
  import opened QuotaLog
  import opened QuotaLaws
  import opened QuotaRuns

  /** A model limited to ten tokens and a cost of ten a day, at one per input token, and nothing else. */
  const MODEL := ModelConfig("m", "p", {}, Free, 100, true, false, false, None, None, None, Some(10), Some(10.0),
                             1000000.0, 0.0, 2, None)

  const CATALOG := map["m" := MODEL]

  /** Ten tokens are reserved on day 0; on day 1 the call turns out to have used none. */
  function Carried(): seq<Op> {
    [ReserveOp(MODEL, 10, 0, "a", Clock(0.0, 0, 0)),
     SnapshotOp(Clock(1.0, 1, 1)),
     CommitOp(Reservation("a", "m", 10, 10.0), Usage(0, 0, 0.0), Clock(2.0, 1, 1))]
  }

  /** ... and then twenty tokens are asked for on day 1. */
  function Exceeding(): seq<Op> {
    Carried() + [LAST]
  }

  function Carry(status: Status): Entry {
    Entry(Reservation("a", "m", 10, 10.0), 0.0, 0, 0, status)
  }

  lemma OneMore(ops: seq<Op>, op: Op, b: Books, after: Books)
    requires LegalRun(ops, CATALOG) && Play(ops) == b && Legal(b, op, CATALOG) && Apply(b, op) == after
    requires |ops| != 0 ==> Latest(ops).monotonic <= op.clock.monotonic
    ensures LegalRun(ops + [op], CATALOG) && Play(ops + [op]) == after
  {
    assert (ops + [op])[..|ops|] == ops;
  }

  /** Both counters of day 1 stand at minus ten. */
  lemma CounterGoesNegative()
    ensures LegalRun(Carried(), CATALOG) && DatesForward(Carried())
    ensures "m" in Play(Carried()).table
    ensures Play(Carried()).table["m"].dailyTokens == -10
    ensures Play(Carried()).table["m"].dailyCost == -10.0
    ensures Play(Carried()) == AfterCarry()
  {
    hide LegalRun, Play, Apply;
    var ops := Carried();
    NoOps();
    FirstReserve();
    OneMore([], ops[0], EMPTY, AfterReserve());
    assert [] + [ops[0]] == [ops[0]];
    RollOver();
    OneMore([ops[0]], ops[1], AfterReserve(), AfterRoll());
    LateCommit();
    OneMore([ops[0]] + [ops[1]], ops[2], AfterRoll(), AfterCarry());
    assert [ops[0]] + [ops[1]] + [ops[2]] == ops;
  }

  lemma NoOps()
    ensures LegalRun([], CATALOG) && Play([]) == EMPTY
  {
  }

  function AfterReserve(): Books {
    var r := Reservation("a", "m", 10, 10.0);
    Books(map["m" := State([0.0], [TokenEvent(0.0, "a", 10)], 0, 1, 10, 10.0, map["a" := r])],
          map["m" := Log([Carry(Outstanding)], 0, 0, 0.0)])
  }

  function AfterRoll(): Books {
    var r := Reservation("a", "m", 10, 10.0);
    Books(map["m" := State([0.0], [TokenEvent(0.0, "a", 10)], 1, 0, 0, 0.0, map["a" := r])],
          map["m" := Log([Carry(Outstanding)], 1, 1, 1.0)])
  }

  function AfterCarry(): Books {
    Books(map["m" := State([0.0], [TokenEvent(0.0, "a", 0)], 1, 0, -10, -10.0, map[])],
          map["m" := Log([Carry(Committed(Usage(0, 0, 0.0), 1))], 1, 1, 1.0)])
  }

  lemma FirstReserve()
    ensures Apply(EMPTY, Carried()[0]) == AfterReserve()
  {
    assert Roll(Fresh(0), 0.0, 0) == Fresh(0);
    assert Proposed(Carried()[0]) == Reservation("a", "m", 10, 10.0);
    assert [] + [0.0] == [0.0];
    assert [] + [TokenEvent(0.0, "a", 10)] == [TokenEvent(0.0, "a", 10)];
    assert [] + [Carry(Outstanding)] == [Carry(Outstanding)];
  }

  lemma RollOver()
    ensures Apply(AfterReserve(), Carried()[1]) == AfterRoll()
  {
    var s := AfterReserve().table["m"];
    assert DropTimes(s.requestTimes, 1.0 - 60.0) == s.requestTimes;
    assert DropEvents(s.tokenEvents, 1.0 - 60.0) == s.tokenEvents;
  }

  lemma LateCommit()
    ensures Apply(AfterRoll(), Carried()[2]) == AfterCarry()
  {
    var s := AfterRoll().table["m"];
    assert s.tokenEvents[..0] == [];
    assert Recharge(s.tokenEvents, "a", 0) == [TokenEvent(0.0, "a", 0)];
    assert s.reservations - {"a"} == map[];
    assert Settle([Carry(Outstanding)], "a", Committed(Usage(0, 0, 0.0), 1)) == [Carry(Committed(Usage(0, 0, 0.0), 1))];
  }

  /** With both limits at ten, day 1 is charged twenty tokens at a cost of twenty, although no commit exceeded
      its estimate. */
  lemma DayLimitExceeded()
    ensures LegalRun(Exceeding(), CATALOG) && DatesForward(Exceeding())
    ensures "m" in Play(Exceeding()).logs
    ensures var log := Play(Exceeding()).logs["m"];
            && (forall i :: 0 <= i < |log.entries| ==> Overshoot(log.entries[i]) == ZERO)
            && Sum(log.entries, InPeriod(log.period)).tokens == 20 && MODEL.tokensPerDay == Some(10)
            && Sum(log.entries, InPeriod(log.period)).cost == 20.0 && MODEL.dailyCostLimit == Some(10.0)
  {
    hide LegalRun, Play, Apply, AfterCarry, Sum, InPeriod, Legal;
    CounterGoesNegative();
    LastReserve();
    OneMore(Carried(), LAST, AfterCarry(), Apply(AfterCarry(), LAST));
    DayOneCharges();
  }

  const LAST := ReserveOp(MODEL, 20, 0, "b", Clock(3.0, 1, 1))

  function DayOne(): seq<Entry> {
    [Carry(Committed(Usage(0, 0, 0.0), 1)), Entry(Reservation("b", "m", 20, 20.0), 3.0, 1, 1, Outstanding)]
  }

  lemma DayOneCharges()
    ensures Sum(DayOne(), InPeriod(1)) == Amount(1, 20, 20.0)
  {
    hide Sum;
    SumOfTwo(DayOne()[0], DayOne()[1], InPeriod(1));
  }

  lemma SumOfTwo(x: Entry, y: Entry, f: Entry -> Amount)
    ensures Sum([x, y], f) == Plus(f(x), f(y))
  {
    SumAppend([], x, f);
    SumAppend([x], y, f);
    assert [x] == [] + [x] && [x, y] == [x] + [y];
  }

  lemma LastReserve()
    ensures Legal(AfterCarry(), LAST, CATALOG)
    ensures "m" in Apply(AfterCarry(), LAST).logs && Apply(AfterCarry(), LAST).logs["m"] == Log(DayOne(), 1, 1, 3.0)
  {
    var s := AfterCarry().table["m"];
    assert DropTimes(s.requestTimes, 3.0 - 60.0) == s.requestTimes;
    assert DropEvents(s.tokenEvents, 3.0 - 60.0) == s.tokenEvents;
    assert Proposed(LAST) == Reservation("b", "m", 20, 20.0);
  }
}
