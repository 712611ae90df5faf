/** The usage ledger: an append-only list of records and its report grouped by model. */
module Ledger {
  import opened Models

  datatype UsageRecord = UsageRecord(requestId: string, providerId: string, modelId: string, task: TaskType, usage: Usage)

  datatype Totals = Totals(requests: int, inputTokens: int, outputTokens: int, cost: real)

  const NOTHING := Totals(0, 0, 0, 0.0)

  function Add(a: Totals, b: Totals): Totals {
    Totals(a.requests + b.requests, a.inputTokens + b.inputTokens, a.outputTokens + b.outputTokens, a.cost + b.cost)
  }

  function One(r: UsageRecord): Totals {
    Totals(1, r.usage.inputTokens, r.usage.outputTokens, r.usage.costUsd)
  }

  function Total(records: seq<UsageRecord>): Totals {
    if |records| == 0 then NOTHING else Add(Total(records[..|records| - 1]), One(records[|records| - 1]))
  }

  function OfModel(records: seq<UsageRecord>, m: string): seq<UsageRecord> {
    if |records| == 0 then []
    else
      var last := records[|records| - 1];
      OfModel(records[..|records| - 1], m) + (if last.modelId == m then [last] else [])
  }

  datatype Report = Report(totalRequests: int, totalCost: real, byModel: map<string, Totals>)

  /** Each model with a record is listed, with the totals of exactly its own records. */
  ghost predicate Grouped(byModel: map<string, Totals>, records: seq<UsageRecord>) {
    && byModel.Keys == (set r | r in records :: r.modelId)
    && forall m :: m in byModel ==> byModel[m] == Total(OfModel(records, m))
  }

  // ---- the figures of a report, one by one ----

  function Requests(records: seq<UsageRecord>, m: string): nat {
    |set i | 0 <= i < |records| && records[i].modelId == m|
  }

  function InputTokens(records: seq<UsageRecord>, m: string): int {
    if |records| == 0 then 0
    else
      var n := |records| - 1;
      InputTokens(records[..n], m) + if records[n].modelId == m then records[n].usage.inputTokens else 0
  }

  function OutputTokens(records: seq<UsageRecord>, m: string): int {
    if |records| == 0 then 0
    else
      var n := |records| - 1;
      OutputTokens(records[..n], m) + if records[n].modelId == m then records[n].usage.outputTokens else 0
  }

  function Cost(records: seq<UsageRecord>, m: string): real {
    if |records| == 0 then 0.0
    else
      var n := |records| - 1;
      Cost(records[..n], m) + if records[n].modelId == m then records[n].usage.costUsd else 0.0
  }

  function CostOfAll(records: seq<UsageRecord>): real {
    if |records| == 0 then 0.0 else CostOfAll(records[..|records| - 1]) + records[|records| - 1].usage.costUsd
  }

  lemma RequestsLast(records: seq<UsageRecord>, m: string)
    requires |records| != 0
    ensures var n := |records| - 1;
            Requests(records, m) == Requests(records[..n], m) + if records[n].modelId == m then 1 else 0
  {
    var n := |records| - 1;
    var before := set i | 0 <= i < n && records[..n][i].modelId == m;
    assert (set i | 0 <= i < |records| && records[i].modelId == m)
        == before + if records[n].modelId == m then {n} else {};
  }

  /** The totals of a model are the number of its records and the sums of their fields. */
  lemma {:induction false} TotalByField(records: seq<UsageRecord>, m: string)
    ensures Total(OfModel(records, m))
            == Totals(Requests(records, m), InputTokens(records, m), OutputTokens(records, m), Cost(records, m))
  {
    if |records| != 0 {
      var n := |records| - 1;
      TotalByField(records[..n], m);
      RequestsLast(records, m);
      if records[n].modelId == m {
        TotalAppend(OfModel(records[..n], m), records[n]);
      } else {
        assert OfModel(records, m) == OfModel(records[..n], m);
      }
    }
  }

  lemma {:induction false} TotalCostByField(records: seq<UsageRecord>)
    ensures Total(records).cost == CostOfAll(records)
  {
    if |records| != 0 {
      TotalCostByField(records[..|records| - 1]);
    }
  }

  class UsageLedger {
    var records: seq<UsageRecord>

    constructor ()
      ensures records == []
    {
      records := [];
    }

    method Record(record: UsageRecord)
      modifies this
      ensures records == old(records) + [record]
    {
      records := records + [record];
    }

    /** Every model with a record is listed, with the number of its records and the sums of their fields. */
    method Snapshot() returns (report: Report)
      ensures report.byModel.Keys == (set r | r in records :: r.modelId)
      ensures forall m :: m in report.byModel ==>
                && report.byModel[m].requests == Requests(records, m)
                && report.byModel[m].inputTokens == InputTokens(records, m)
                && report.byModel[m].outputTokens == OutputTokens(records, m)
                && report.byModel[m].cost == Cost(records, m)
      ensures report.totalCost == CostOfAll(records)
      ensures Grouped(report.byModel, records)
      ensures report.totalRequests == |records| && report.totalCost == Total(records).cost
      ensures GrandTotal(report.byModel) == Total(records)
    {
      hide Grouped, GrandTotal, Total;
      StartEmpty();
      var byModel: map<string, Totals> := map[];
      var totalCost := 0.0;
      for i := 0 to |records|
        invariant Grouped(byModel, records[..i])
        invariant totalCost == Total(records[..i]).cost
        invariant GrandTotal(byModel) == Total(records[..i])
      {
        var record := records[i];
        var totals := if record.modelId in byModel then byModel[record.modelId] else NOTHING;
        GroupOne(byModel, records[..i], record);
        GrandUpdate(byModel, record.modelId, One(record));
        TotalAppend(records[..i], record);
        assert records[..i + 1] == records[..i] + [record];
        byModel := byModel[record.modelId := Add(totals, One(record))];
        totalCost := totalCost + record.usage.costUsd;
      }
      assert records[..|records|] == records;
      report := Report(|records|, totalCost, byModel);
      TotalCostByField(records);
      GroupedByField(byModel, records);
    }
  }

  lemma GroupedByField(byModel: map<string, Totals>, records: seq<UsageRecord>)
    requires Grouped(byModel, records)
    ensures byModel.Keys == (set r | r in records :: r.modelId)
    ensures forall m :: m in byModel ==>
              byModel[m]
              == Totals(Requests(records, m), InputTokens(records, m), OutputTokens(records, m), Cost(records, m))
  {
    forall m: string {
      TotalByField(records, m);
    }
  }

  lemma TotalAppend(records: seq<UsageRecord>, r: UsageRecord)
    ensures Total(records + [r]) == Add(Total(records), One(r))
  {
    assert (records + [r])[..|records|] == records;
  }

  lemma {:induction false} OfAbsentModel(records: seq<UsageRecord>, m: string)
    requires forall r :: r in records ==> r.modelId != m
    ensures OfModel(records, m) == []
  {
    if |records| != 0 {
      OfAbsentModel(records[..|records| - 1], m);
    }
  }

  lemma OfModelAppend(records: seq<UsageRecord>, r: UsageRecord, m: string)
    ensures OfModel(records + [r], m) == OfModel(records, m) + (if r.modelId == m then [r] else [])
  {
    assert (records + [r])[..|records|] == records;
  }

  /** Counting one more record keeps the grouping. */
  lemma GroupOne(byModel: map<string, Totals>, records: seq<UsageRecord>, r: UsageRecord)
    requires Grouped(byModel, records)
    ensures var totals := if r.modelId in byModel then byModel[r.modelId] else NOTHING;
            Grouped(byModel[r.modelId := Add(totals, One(r))], records + [r])
  {
    hide OfModel, Total;
    var totals := if r.modelId in byModel then byModel[r.modelId] else NOTHING;
    var more, all := byModel[r.modelId := Add(totals, One(r))], records + [r];
    assert more.Keys == (set x | x in all :: x.modelId) by {
      assert all[|records|] == r;
      assert forall x :: x in all <==> x in records || x == r;
    }
    forall m | m in more
      ensures more[m] == Total(OfModel(all, m))
    {
      OfModelAppend(records, r, m);
      if m == r.modelId {
        if m !in byModel {
          OfAbsentModel(records, m);
          TotalOfNothing();
        }
        TotalAppend(OfModel(records, m), r);
      } else {
        assert OfModel(records, m) + [] == OfModel(records, m);
      }
    }
  }

  lemma TotalOfNothing()
    ensures Total([]) == NOTHING
  {
  }

  // ---- the grouped totals add up to the flat total ----

  ghost function GrandTotal(byModel: map<string, Totals>): Totals
    decreases |byModel|
  {
    if |byModel| == 0 then NOTHING
    else
      var m :| m in byModel;
      assert (byModel - {m}).Keys == byModel.Keys - {m};
      Add(byModel[m], GrandTotal(byModel - {m}))
  }

  lemma GrandPick(byModel: map<string, Totals>) returns (k: string)
    requires |byModel| != 0
    ensures k in byModel && GrandTotal(byModel) == Add(byModel[k], GrandTotal(byModel - {k}))
  {
    k :| k in byModel && GrandTotal(byModel) == Add(byModel[k], GrandTotal(byModel - {k}));
  }

  /** The grand total does not depend on the order in which models are added. */
  lemma {:induction false} GrandTakeOut(byModel: map<string, Totals>, m: string)
    requires m in byModel
    ensures GrandTotal(byModel) == Add(byModel[m], GrandTotal(byModel - {m}))
    decreases |byModel|
  {
    hide GrandTotal;
    var k := GrandPick(byModel);
    if k != m {
      var withoutK, withoutM := byModel - {k}, byModel - {m};
      assert withoutK.Keys == byModel.Keys - {k} && withoutM.Keys == byModel.Keys - {m};
      assert |withoutK.Keys| < |byModel.Keys| && |withoutM.Keys| < |byModel.Keys|;
      GrandTakeOut(withoutK, m);
      GrandTakeOut(withoutM, k);
      assert withoutK - {m} == withoutM - {k};
    }
  }

  lemma GrandUpdate(byModel: map<string, Totals>, m: string, more: Totals)
    ensures var totals := if m in byModel then byModel[m] else NOTHING;
            GrandTotal(byModel[m := Add(totals, more)]) == Add(GrandTotal(byModel), more)
  {
    hide GrandTotal;
    var totals := if m in byModel then byModel[m] else NOTHING;
    var after := byModel[m := Add(totals, more)];
    GrandTakeOut(after, m);
    assert after - {m} == byModel - {m};
    if m in byModel {
      GrandTakeOut(byModel, m);
    } else {
      assert byModel - {m} == byModel;
    }
  }

  lemma StartEmpty()
    ensures Grouped(map[], []) && GrandTotal(map[]) == NOTHING && Total([]) == NOTHING
  {
  }
}
