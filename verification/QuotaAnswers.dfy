/** What a request for a reservation is answered, in terms of the never-evicted log and of the request alone. */
module QuotaAnswers {
  import opened Models
  import opened Amounts
  import opened QuotaSpec
  import opened QuotaLog
  import opened QuotaLaws
  import opened QuotaRuns

  /** The model's full log is at one of its five limits for so many tokens at such a cost; the tokens and the
      cost of the day are the counters', or the log's own when nothing was carried into the day. */
  ghost predicate AtALimit(books: Books, m: ModelConfig, tokens: int, cost: real, clock: Clock) {
    var log := LogFor(books.logs, m.id, clock);
    var log' := RollLog(log, clock.monotonic, clock.today);
    var rolled := Roll(Lookup(books.table, m.id, clock.wall), clock.monotonic, clock.today);
    var window := Sum(log.entries, InWindow(clock.monotonic));
    var today := Sum(log.entries, InPeriod(log'.period));
    && (|| (m.requestsPerMinute.Some? && window.requests >= m.requestsPerMinute.value)
        || (m.requestsPerDay.Some? && today.requests >= m.requestsPerDay.value)
        || (m.tokensPerMinute.Some? && window.tokens + tokens > m.tokensPerMinute.value)
        || (m.tokensPerDay.Some? && rolled.dailyTokens + tokens > m.tokensPerDay.value)
        || (m.dailyCostLimit.Some? && rolled.dailyCost + cost > m.dailyCostLimit.value))
    && (NothingCarried(log') ==> rolled.dailyTokens == today.tokens && rolled.dailyCost == today.cost)
  }

  /** The tracker refuses exactly where the full log of the model is at one of its limits, and grants what it
      was asked for. */
  lemma RefusedIffAtALimit(books: Books, catalog: map<string, ModelConfig>, now: real, m: ModelConfig,
                           r: Reservation, clock: Clock)
    requires BooksOk(books, catalog, now) && now <= clock.monotonic
    ensures ReserveIn(books.table, m, r, clock).1
            == if AtALimit(books, m, r.tokens, r.cost, clock) then None else Some(r)
  {
    hide Sum, Coupled, Capped, NothingCarried, Roll, Admits;
    var s, log := Lookup(books.table, m.id, clock.wall), LogFor(books.logs, m.id, clock);
    ModelOkFresh(m.id, catalog, clock.wall, clock.monotonic);
    assert m.id in books.table ==> ModelOk(books.table[m.id], books.logs[m.id], m.id, catalog, now);
    DecidesAsTheFullLog(s, log, m, r, clock);
    DriftRoll(s, log, m.id, clock.monotonic, clock.today);
    if NothingCarried(RollLog(log, clock.monotonic, clock.today)) {
      ExactWithoutCarry(Roll(s, clock.monotonic, clock.today), RollLog(log, clock.monotonic, clock.today));
    }
  }

  /** A request for input and output tokens, negative numbers counting as none, at the model's prices per
      million, is refused exactly at one of the five limits; then the log stays as it is. Otherwise one entry
      is added, for exactly these tokens and this cost, at this instant and on this date. */
  lemma RequestIsDecidedByTheLog(books: Books, catalog: map<string, ModelConfig>, now: real, m: ModelConfig,
                                 inputTokens: int, outputTokens: int, id: string, clock: Clock)
    requires BooksOk(books, catalog, now) && now <= clock.monotonic
    ensures var i, o := Max(0, inputTokens), Max(0, outputTokens);
            var cost := (i as real * m.inputCostPerMillion + o as real * m.outputCostPerMillion) / 1000000.0;
            var r := Reservation(id, m.id, i + o, cost);
            var log := LogFor(books.logs, m.id, clock);
            var after := Apply(books, ReserveOp(m, inputTokens, outputTokens, id, clock)).logs[m.id];
            && ReserveIn(books.table, m, r, clock).1 == (if AtALimit(books, m, i + o, cost, clock) then None else Some(r))
            && after.entries == (if AtALimit(books, m, i + o, cost, clock) then log.entries
                                 else log.entries + [Entry(r, clock.monotonic, clock.today, after.period, Outstanding)])
  {
    hide AtALimit, ReserveIn, Proposal, BooksOk;
    ProposalFigures(m, inputTokens, outputTokens, id);
    RefusedIffAtALimit(books, catalog, now, m, Proposal(m, inputTokens, outputTokens, id), clock);
  }

  /** The log with entry i settled. */
  function WithStatus(log: Log, i: nat, status: Status): seq<Entry>
    requires i < |log.entries|
  {
    log.entries[i := log.entries[i].(status := status)]
  }

  /** A commit of an outstanding reservation charges it, from now on and wherever it is counted, with the input
      and output tokens used and the cost reported, negative figures counting as none; the counters of the
      day exchange the estimate for these. */
  lemma CommitCharges(books: Books, catalog: map<string, ModelConfig>, now: real, m: string, i: nat, usage: Usage,
                      clock: Clock)
    requires BooksOk(books, catalog, now) && m in books.logs
    requires i < |books.logs[m].entries| && books.logs[m].entries[i].status.Outstanding?
    ensures var r := books.logs[m].entries[i].reservation;
            var after := Apply(books, CommitOp(r, usage, clock));
            var tokens, cost := Max(0, usage.inputTokens + usage.outputTokens), MaxReal(0.0, usage.costUsd);
            && r.modelId == m && m in after.table && m in after.logs && m in books.table
            && after.logs[m].entries == WithStatus(books.logs[m], i, Committed(usage, books.logs[m].period))
            && Charge(after.logs[m].entries[i]) == Amount(1, tokens, cost)
            && after.table[m].dailyRequests == books.table[m].dailyRequests
            && after.table[m].dailyTokens == books.table[m].dailyTokens - r.tokens + tokens
            && after.table[m].dailyCost == books.table[m].dailyCost - r.cost + cost
            && after.table[m].reservations == books.table[m].reservations - {r.id}
  {
    hide Capped, Drift, Recharge, RecentTimes, RecentEvents;
    var j := OutstandingAt(books, catalog, now, m, i);
  }

  /** A release charges it with the request alone; the counters give the estimate back, but keep at least zero. */
  lemma ReleaseCharges(books: Books, catalog: map<string, ModelConfig>, now: real, m: string, i: nat, clock: Clock)
    requires BooksOk(books, catalog, now) && m in books.logs
    requires i < |books.logs[m].entries| && books.logs[m].entries[i].status.Outstanding?
    ensures var r := books.logs[m].entries[i].reservation;
            var after := Apply(books, ReleaseOp(r, clock));
            && r.modelId == m && m in after.table && m in after.logs && m in books.table
            && after.logs[m].entries == WithStatus(books.logs[m], i, Released(books.logs[m].period))
            && Charge(after.logs[m].entries[i]) == Amount(1, 0, 0.0)
            && after.table[m].dailyRequests == books.table[m].dailyRequests
            && after.table[m].dailyTokens == Max(0, books.table[m].dailyTokens - r.tokens)
            && after.table[m].dailyCost == MaxReal(0.0, books.table[m].dailyCost - r.cost)
            && after.table[m].reservations == books.table[m].reservations - {r.id}
  {
    hide Capped, Drift, Without, RecentTimes, RecentEvents;
    var j := OutstandingAt(books, catalog, now, m, i);
  }

  lemma OutstandingAt(books: Books, catalog: map<string, ModelConfig>, now: real, m: string, i: nat) returns (j: nat)
    requires BooksOk(books, catalog, now) && m in books.logs
    requires i < |books.logs[m].entries| && books.logs[m].entries[i].status.Outstanding?
    ensures j == i && m in books.table
    ensures var r := books.logs[m].entries[i].reservation;
            && r.modelId == m && r.id in books.table[m].reservations && books.table[m].reservations[r.id] == r
            && forall st :: Settle(books.logs[m].entries, r.id, st) == WithStatus(books.logs[m], i, st)
  {
    hide Capped, Drift, RecentTimes, RecentEvents;
    var s, log := books.table[m], books.logs[m];
    assert ModelOk(s, log, m, catalog, now);
    assert EntryOk(log.entries[i], m, log);
    OutstandingIsHeld(s, log, m, i);
    j := FindOutstanding(s, log, m, log.entries[i].reservation);
  }
}
