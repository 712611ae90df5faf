/** Quota and ledger agree: what is committed against a model's quota is what the ledger records for it. */
module ConcurrencyLedger {
  import opened Models
  import opened Amounts
  import opened QuotaLog
  import opened QuotaLaws
  import opened QuotaRuns
  import opened RouteMachine
  import opened RouteLaws
  import opened Concurrency
  import opened ConcurrencyLaws
  import Q = QuotaSpec
  import L = Ledger

  function CommittedUsages(entries: seq<Entry>): multiset<Usage> {
    if |entries| == 0 then multiset{}
    else
      var last := entries[|entries| - 1];
      CommittedUsages(entries[..|entries| - 1])
      + (if last.status.Committed? then multiset{last.status.usage} else multiset{})
  }

  function RecordedUsages(records: seq<L.UsageRecord>, m: string): multiset<Usage> {
    if |records| == 0 then multiset{}
    else
      var last := records[|records| - 1];
      RecordedUsages(records[..|records| - 1], m) + (if last.modelId == m then multiset{last.usage} else multiset{})
  }

  function CommittedOf(logs: map<string, Log>, m: string): multiset<Usage> {
    if m in logs then CommittedUsages(logs[m].entries) else multiset{}
  }

  /** One record for each committed reservation of the model, with the same usage. */
  ghost predicate LedgerOk(records: seq<L.UsageRecord>, logs: map<string, Log>) {
    forall m :: RecordedUsages(records, m) == CommittedOf(logs, m)
  }

  lemma RecordedAppend(records: seq<L.UsageRecord>, r: L.UsageRecord, m: string)
    ensures RecordedUsages(records + [r], m)
            == RecordedUsages(records, m) + (if r.modelId == m then multiset{r.usage} else multiset{})
  {
    assert (records + [r])[..|records|] == records;
  }

  lemma CommittedAppend(entries: seq<Entry>, e: Entry)
    requires e.status.Outstanding?
    ensures CommittedUsages(entries + [e]) == CommittedUsages(entries)
  {
    assert (entries + [e])[..|entries|] == entries;
  }

  lemma {:induction false} CommittedUpdate(entries: seq<Entry>, i: nat, status: Status)
    requires i < |entries| && entries[i].status.Outstanding? && !status.Outstanding?
    ensures CommittedUsages(entries[i := entries[i].(status := status)])
            == CommittedUsages(entries) + (if status.Committed? then multiset{status.usage} else multiset{})
  {
    var n := |entries| - 1;
    var after := entries[i := entries[i].(status := status)];
    if i == n {
      assert after[..n] == entries[..n];
    } else {
      assert after[..n] == entries[..n][i := entries[..n][i].(status := status)];
      CommittedUpdate(entries[..n], i, status);
    }
  }

  /** Settling an outstanding reservation, as seen by the log of its model. */
  lemma CommittedAfterSettle(b: Books, catalog: map<string, ModelConfig>, now: real, r: Q.Reservation, status: Status)
    requires BooksOk(b, catalog, now) && r.id in Held(b.table, r.modelId) && Held(b.table, r.modelId)[r.id] == r
    requires !status.Outstanding?
    ensures r.modelId in b.logs
    ensures CommittedUsages(Settle(b.logs[r.modelId].entries, r.id, status))
            == CommittedUsages(b.logs[r.modelId].entries)
               + (if status.Committed? then multiset{status.usage} else multiset{})
  {
    hide Drift, Capped, CommittedUsages;
    var m := r.modelId;
    assert ModelOk(b.table[m], b.logs[m], m, catalog, now);
    var i := FindOutstanding(b.table[m], b.logs[m], m, r);
    CommittedUpdate(b.logs[m].entries, i, status);
  }

  lemma ReserveKeepsCommitted(b: Books, op: Op, m: string)
    requires op.ReserveOp? || op.SnapshotOp?
    ensures CommittedOf(Apply(b, op).logs, m) == CommittedOf(b.logs, m)
  {
    if op.ReserveOp? && m == op.model.id {
      var log := LogFor(b.logs, m, op.clock);
      var answer := Q.ReserveIn(b.table, op.model, Proposed(op), op.clock).1;
      var rolled := RollLog(log, op.clock.monotonic, op.clock.today);
      if answer.Some? {
        CommittedAppend(rolled.entries, Entry(answer.value, rolled.rolledAt, rolled.day, rolled.period, Outstanding));
      }
    }
  }

  lemma StepKeepsLedger(config: RouterConfig, sys: System, i: nat, input: Input)
    requires BooksOk(sys.books, Catalog(config.models), sys.now) && LedgerOk(sys.records, sys.books.logs)
    requires i < |sys.tasks| && RouteOk(sys.tasks[i]) && Holds(sys.books.table, sys.tasks[i])
    ensures var s := Step(config, SharedOf(sys), sys.tasks[i], input);
            LedgerOk(s.shared.records, Book(sys.books, s.op).logs)
  {
    hide RouteOk, Step, BooksOk, Q.ReserveIn, Q.CommitIn, Q.ReleaseIn, Note, Catalog, Settle, CommittedUsages, RecordedUsages;
    var t := sys.tasks[i];
    var s := Step(config, SharedOf(sys), t, input);
    PositionInRange(t);
    EffectOfStep(config, SharedOf(sys), t, input);
    if EffectOfReserve(SharedOf(sys), t, input, s) {
      forall m: string
        ensures RecordedUsages(s.shared.records, m) == CommittedOf(Book(sys.books, s.op).logs, m)
      {
        ReserveKeepsCommitted(sys.books, s.op.value, m);
      }
    } else if EffectOfCommit(config, SharedOf(sys), t, input, s) {
      CommitKeepsLedger(config, sys, t, input, s);
    } else if EffectOfRelease(config, SharedOf(sys), t, input, s) {
      var r := t.position.reservation;
      BooksHaveLogs(sys.books, Catalog(config.models), sys.now, r.modelId);
      CommittedAfterSettle(sys.books, Catalog(config.models), sys.now, r, Released(sys.books.logs[r.modelId].period));
    }
  }

  lemma CommitKeepsLedger(config: RouterConfig, sys: System, t: Task, input: Input, s: Stepped)
    requires BooksOk(sys.books, Catalog(config.models), sys.now) && LedgerOk(sys.records, sys.books.logs)
    requires Holds(sys.books.table, t) && EffectOfCommit(config, SharedOf(sys), t, input, s)
    ensures LedgerOk(s.shared.records, Book(sys.books, s.op).logs)
  {
    hide BooksOk, Q.CommitIn, Note, Catalog, Settle, CommittedUsages, RecordedUsages;
    var r, usage := t.position.reservation, input.outcome.usage;
    BooksHaveLogs(sys.books, Catalog(config.models), sys.now, r.modelId);
    CommittedAfterSettle(sys.books, Catalog(config.models), sys.now, r,
                         Committed(usage, sys.books.logs[r.modelId].period));
    forall m: string
      ensures RecordedUsages(s.shared.records, m) == CommittedOf(Book(sys.books, s.op).logs, m)
    {
      RecordedAppend(sys.records, L.UsageRecord(t.request.requestId, Current(t).providerId, Current(t).id,
                                                t.request.task, usage), m);
    }
  }

  lemma BooksHaveLogs(b: Books, catalog: map<string, ModelConfig>, now: real, m: string)
    requires BooksOk(b, catalog, now)
    ensures m in b.table <==> m in b.logs
  {
  }

  // ---- the same agreement in figures ----

  function CommittedCharge(): Entry -> Amount {
    (e: Entry) => if e.status.Committed? then Actual(e.status.usage) else ZERO
  }

  /** The charges of a bag of usages, in whatever order they are added. */
  ghost function BagSum(usages: multiset<Usage>): Amount
    decreases |usages|
  {
    if |usages| == 0 then ZERO
    else
      var u :| u in usages;
      Plus(Actual(u), BagSum(usages - multiset{u}))
  }

  lemma BagPick(usages: multiset<Usage>) returns (u: Usage)
    requires |usages| != 0
    ensures u in usages && BagSum(usages) == Plus(Actual(u), BagSum(usages - multiset{u}))
  {
    u :| u in usages && BagSum(usages) == Plus(Actual(u), BagSum(usages - multiset{u}));
  }

  lemma {:induction false} BagTakeOut(usages: multiset<Usage>, u: Usage)
    requires u in usages
    ensures BagSum(usages) == Plus(Actual(u), BagSum(usages - multiset{u}))
    decreases |usages|
  {
    hide BagSum, Actual;
    var v := BagPick(usages);
    if v != u {
      BagTakeOut(usages - multiset{v}, u);
      BagTakeOut(usages - multiset{u}, v);
      assert usages - multiset{v} - multiset{u} == usages - multiset{u} - multiset{v};
    }
  }

  lemma BagAdd(usages: multiset<Usage>, u: Usage)
    ensures BagSum(usages + multiset{u}) == Plus(BagSum(usages), Actual(u))
  {
    hide BagSum, Actual;
    BagTakeOut(usages + multiset{u}, u);
    assert usages + multiset{u} - multiset{u} == usages;
  }

  lemma NoBag()
    ensures BagSum(multiset{}) == ZERO
  {
  }

  lemma {:induction false} CommittedSum(entries: seq<Entry>)
    ensures Sum(entries, CommittedCharge()) == BagSum(CommittedUsages(entries))
  {
    hide BagSum, Actual;
    NoBag();
    if |entries| != 0 {
      var front, last := entries[..|entries| - 1], entries[|entries| - 1];
      CommittedSum(front);
      if last.status.Committed? {
        BagAdd(CommittedUsages(front), last.status.usage);
      } else {
        assert CommittedUsages(entries) == CommittedUsages(front);
      }
    }
  }

  ghost predicate NonNegativeUsages(records: seq<L.UsageRecord>, m: string) {
    forall i :: 0 <= i < |records| && records[i].modelId == m ==> records[i].usage.NonNegative()
  }

  lemma {:induction false} RecordedSum(records: seq<L.UsageRecord>, m: string)
    requires NonNegativeUsages(records, m)
    ensures var total, charged := L.Total(L.OfModel(records, m)), BagSum(RecordedUsages(records, m));
            && total.requests == charged.requests
            && total.inputTokens + total.outputTokens == charged.tokens
            && total.cost == charged.cost
  {
    hide BagSum;
    NoBag();
    if |records| != 0 {
      var front, last := records[..|records| - 1], records[|records| - 1];
      RecordedSum(front, m);
      if last.modelId == m {
        BagAdd(RecordedUsages(front, m), last.usage);
        L.TotalAppend(L.OfModel(front, m), last);
      } else {
        assert RecordedUsages(records, m) == RecordedUsages(front, m);
        assert L.OfModel(records, m) == L.OfModel(front, m);
      }
    }
  }

  /** For non-negative usage the ledger's totals of a model are its committed quota charges. */
  lemma LedgerEqualsQuota(records: seq<L.UsageRecord>, logs: map<string, Log>, m: string)
    requires LedgerOk(records, logs) && m in logs && NonNegativeUsages(records, m)
    ensures var total, charged := L.Total(L.OfModel(records, m)), Sum(logs[m].entries, CommittedCharge());
            && total.requests == charged.requests
            && total.inputTokens + total.outputTokens == charged.tokens
            && total.cost == charged.cost
  {
    RecordedSum(records, m);
    CommittedSum(logs[m].entries);
  }
}
