/**
 The never-evicted log of one model's reservations, and the coupling between that log and
 the evicting state of QuotaSpec: the two deques are the log filtered by time, the table of
 reservations is the log filtered by status.
 */
module QuotaLog {
  import opened Models
  import opened Amounts
  import opened QuotaSpec

  /** What became of a granted reservation; settled counts the day rolls before that happened. */
  datatype Status = Outstanding | Committed(usage: Usage, settled: nat) | Released(settled: nat)

  /** One granted reservation; period counts the day rolls before it was granted. */
  datatype Entry = Entry(reservation: Reservation, stamp: real, date: int, period: nat, status: Status)

  datatype Log = Log(entries: seq<Entry>, period: nat, day: int, rolledAt: real)

  function EmptyLog(day: int, now: real): Log {
    Log([], 0, day, now)
  }

  function RollLog(log: Log, now: real, today: int): Log {
    log.(rolledAt := now, day := today, period := if log.day == today then log.period else log.period + 1)
  }

  function GrantLog(log: Log, r: Reservation): Log {
    log.(entries := log.entries + [Entry(r, log.rolledAt, log.day, log.period, Outstanding)])
  }

  function Settle(entries: seq<Entry>, id: string, status: Status): seq<Entry> {
    seq(|entries|, i requires 0 <= i < |entries| =>
      if entries[i].reservation.id == id && entries[i].status.Outstanding?
      then entries[i].(status := status) else entries[i])
  }

  function CommitLog(log: Log, id: string, usage: Usage): Log {
    log.(entries := Settle(log.entries, id, Committed(usage, log.period)))
  }

  function ReleaseLog(log: Log, id: string): Log {
    log.(entries := Settle(log.entries, id, Released(log.period)))
  }

  // ---- what an entry is charged ----

  function Estimate(r: Reservation): Amount {
    Amount(1, r.tokens, r.cost)
  }

  function Actual(u: Usage): Amount {
    Amount(1, Max(0, u.TotalTokens()), MaxReal(0.0, u.costUsd))
  }

  /** An attempted request always counts; its tokens and cost follow its status. */
  function Charge(e: Entry): Amount {
    match e.status
    case Outstanding => Estimate(e.reservation)
    case Committed(usage, _) => Actual(usage)
    case Released(_) => Amount(1, 0, 0.0)
  }

  /** How far a commit went beyond its estimate. */
  function Overshoot(e: Entry): Amount {
    match e.status
    case Committed(u, _) =>
      Amount(0, Max(0, Actual(u).tokens - e.reservation.tokens), MaxReal(0.0, Actual(u).cost - e.reservation.cost))
    case _ => ZERO
  }

  /** How far a settlement stayed below its estimate; a release by all of it. */
  function Shortfall(e: Entry): Amount {
    match e.status
    case Committed(u, _) =>
      Amount(0, Max(0, e.reservation.tokens - Actual(u).tokens), MaxReal(0.0, e.reservation.cost - Actual(u).cost))
    case Released(_) => Amount(0, e.reservation.tokens, e.reservation.cost)
    case Outstanding => ZERO
  }

  /** The filtered log, oldest first: stamps after the horizon. */
  function RecentTimes(entries: seq<Entry>, horizon: real): seq<real> {
    if |entries| == 0 then []
    else
      var last := entries[|entries| - 1];
      RecentTimes(entries[..|entries| - 1], horizon) + (if horizon < last.stamp then [last.stamp] else [])
  }

  /** The one token event an entry contributes, or none. */
  function EventOf(e: Entry, horizon: real): seq<TokenEvent> {
    if horizon < e.stamp && !e.status.Released?
    then [TokenEvent(e.stamp, e.reservation.id, Charge(e).tokens)] else []
  }

  /** The filtered log, oldest first: unreleased entries after the horizon at their current charge. */
  function RecentEvents(entries: seq<Entry>, horizon: real): seq<TokenEvent> {
    if |entries| == 0 then []
    else RecentEvents(entries[..|entries| - 1], horizon) + EventOf(entries[|entries| - 1], horizon)
  }

  // ---- the coupling ----

  ghost predicate Ordered(entries: seq<Entry>) {
    forall i, j :: 0 <= i < j < |entries| ==> entries[i].stamp <= entries[j].stamp
  }

  ghost predicate DistinctIds(entries: seq<Entry>) {
    forall i, j :: 0 <= i < j < |entries| ==> entries[i].reservation.id != entries[j].reservation.id
  }

  ghost predicate EntryOk(e: Entry, modelId: string, log: Log) {
    && e.reservation.modelId == modelId
    && 0 <= e.reservation.tokens && 0.0 <= e.reservation.cost
    && e.stamp <= log.rolledAt
    && e.period <= log.period
    && (e.period == log.period ==> e.date == log.day)
    && (!e.status.Outstanding? ==> e.period <= e.status.settled <= log.period)
  }

  ghost predicate WellFormed(log: Log, modelId: string) {
    && Ordered(log.entries)
    && DistinctIds(log.entries)
    && forall i :: 0 <= i < |log.entries| ==> EntryOk(log.entries[i], modelId, log)
  }

  ghost predicate HasOutstanding(entries: seq<Entry>, r: Reservation) {
    exists i :: 0 <= i < |entries| && entries[i].reservation == r && entries[i].status.Outstanding?
  }

  ghost predicate TableOfOutstanding(reservations: map<string, Reservation>, entries: seq<Entry>) {
    && (forall id :: id in reservations ==> reservations[id].id == id && HasOutstanding(entries, reservations[id]))
    && (forall i :: 0 <= i < |entries| && entries[i].status.Outstanding? ==>
          entries[i].reservation.id in reservations)
  }

  ghost predicate Coupled(s: State, log: Log, modelId: string) {
    && WellFormed(log, modelId)
    && s.day == log.day
    && s.requestTimes == RecentTimes(log.entries, log.rolledAt - 60.0)
    && s.tokenEvents == RecentEvents(log.entries, log.rolledAt - 60.0)
    && TableOfOutstanding(s.reservations, log.entries)
  }

  /** Where a reservation held by the table stands in the log. */
  lemma FindOutstanding(s: State, log: Log, modelId: string, r: Reservation) returns (i: nat)
    requires Coupled(s, log, modelId) && r.id in s.reservations && s.reservations[r.id] == r
    ensures i < |log.entries| && log.entries[i].reservation == r && log.entries[i].status.Outstanding?
    ensures forall st :: Settle(log.entries, r.id, st) == log.entries[i := log.entries[i].(status := st)]
  {
    assert HasOutstanding(log.entries, r);
    i :| 0 <= i < |log.entries| && log.entries[i].reservation == r && log.entries[i].status.Outstanding?;
    forall st
      ensures Settle(log.entries, r.id, st) == log.entries[i := log.entries[i].(status := st)]
    {
      assert forall j :: 0 <= j < |log.entries| && log.entries[j].reservation.id == r.id ==> j == i;
    }
  }

  // ---- eviction from the front is filtering by time ----

  lemma {:induction false} DropTimesAppend(times: seq<real>, x: real, h: real)
    ensures h < x ==> DropTimes(times + [x], h) == DropTimes(times, h) + [x]
  {
    if times == [] {
      assert DropTimes([x], h) == if x <= h then DropTimes([x][1..], h) else [x];
    } else {
      assert (times + [x])[1..] == times[1..] + [x];
      DropTimesAppend(times[1..], x, h);
    }
  }

  lemma {:induction false} DropTimesAll(times: seq<real>, h: real)
    requires forall i :: 0 <= i < |times| ==> times[i] <= h
    ensures DropTimes(times, h) == []
  {
    if |times| != 0 {
      DropTimesAll(times[1..], h);
    }
  }

  lemma {:induction false} RecentTimesBounded(entries: seq<Entry>, h: real, top: real)
    requires forall i :: 0 <= i < |entries| ==> entries[i].stamp <= top
    ensures forall i :: 0 <= i < |RecentTimes(entries, h)| ==> RecentTimes(entries, h)[i] <= top
  {
    if |entries| != 0 {
      RecentTimesBounded(entries[..|entries| - 1], h, top);
    }
  }

  lemma {:induction false} EvictTimes(entries: seq<Entry>, h: real, later: real)
    requires Ordered(entries) && h <= later
    ensures DropTimes(RecentTimes(entries, h), later) == RecentTimes(entries, later)
  {
    if |entries| != 0 {
      var front, last := entries[..|entries| - 1], entries[|entries| - 1];
      EvictTimes(front, h, later);
      if later < last.stamp {
        DropTimesAppend(RecentTimes(front, h), last.stamp, later);
      } else {
        RecentTimesBounded(entries, h, later);
        DropTimesAll(RecentTimes(entries, h), later);
        RecentTimesBounded(front, h, later);
        DropTimesAll(RecentTimes(front, h), later);
      }
    }
  }

  lemma {:induction false} DropEventsAppend(events: seq<TokenEvent>, x: TokenEvent, h: real)
    ensures h < x.stamp ==> DropEvents(events + [x], h) == DropEvents(events, h) + [x]
  {
    if events == [] {
      assert DropEvents([x], h) == if x.stamp <= h then DropEvents([x][1..], h) else [x];
    } else {
      assert (events + [x])[1..] == events[1..] + [x];
      DropEventsAppend(events[1..], x, h);
    }
  }

  lemma {:induction false} DropEventsAll(events: seq<TokenEvent>, h: real)
    requires forall i :: 0 <= i < |events| ==> events[i].stamp <= h
    ensures DropEvents(events, h) == []
  {
    if |events| != 0 {
      DropEventsAll(events[1..], h);
    }
  }

  lemma {:induction false} RecentEventsBounded(entries: seq<Entry>, h: real, top: real)
    requires forall i :: 0 <= i < |entries| ==> entries[i].stamp <= top
    ensures forall i :: 0 <= i < |RecentEvents(entries, h)| ==> RecentEvents(entries, h)[i].stamp <= top
  {
    if |entries| != 0 {
      RecentEventsBounded(entries[..|entries| - 1], h, top);
    }
  }

  lemma {:induction false} EvictEvents(entries: seq<Entry>, h: real, later: real)
    requires Ordered(entries) && h <= later
    ensures DropEvents(RecentEvents(entries, h), later) == RecentEvents(entries, later)
  {
    if |entries| != 0 {
      var front, last := entries[..|entries| - 1], entries[|entries| - 1];
      EvictEvents(front, h, later);
      if later < last.stamp {
        if last.status.Released? {
          assert RecentEvents(entries, h) == RecentEvents(front, h);
          assert RecentEvents(entries, later) == RecentEvents(front, later);
        } else {
          DropEventsAppend(RecentEvents(front, h), EventOf(last, h)[0], later);
        }
      } else {
        RecentEventsBounded(entries, h, later);
        DropEventsAll(RecentEvents(entries, h), later);
        RecentEventsBounded(front, h, later);
        DropEventsAll(RecentEvents(front, h), later);
      }
    }
  }

  // ---- settling rebuilds the token deque exactly where the log changed ----

  lemma RebuildOne(events: seq<TokenEvent>, x: TokenEvent, id: string, tokens: int)
    ensures Recharge(events + [x], id, tokens)
            == Recharge(events, id, tokens) + [if x.id == id then x.(tokens := tokens) else x]
    ensures Without(events + [x], id) == Without(events, id) + (if x.id == id then [] else [x])
  {
    var both := events + [x];
    assert both[..|both| - 1] == events && both[|both| - 1] == x;
  }

  /** Rebuilding distributes over the log: the front, then the event of the last entry. */
  lemma RebuildLast(entries: seq<Entry>, h: real, id: string, tokens: int)
    requires |entries| != 0
    ensures var front, own := RecentEvents(entries[..|entries| - 1], h), EventOf(entries[|entries| - 1], h);
            var mine := entries[|entries| - 1].reservation.id == id;
            && Recharge(RecentEvents(entries, h), id, tokens)
               == Recharge(front, id, tokens) + (if mine && own != [] then [own[0].(tokens := tokens)] else own)
            && Without(RecentEvents(entries, h), id) == Without(front, id) + (if mine then [] else own)
  {
    var front, own := RecentEvents(entries[..|entries| - 1], h), EventOf(entries[|entries| - 1], h);
    if own == [] {
      assert front + own == front;
    } else {
      RebuildOne(front, own[0], id, tokens);
    }
  }

  lemma {:induction false} ForeignEvents(entries: seq<Entry>, h: real, id: string, tokens: int)
    requires forall i :: 0 <= i < |entries| ==> entries[i].reservation.id != id
    ensures Recharge(RecentEvents(entries, h), id, tokens) == RecentEvents(entries, h)
    ensures Without(RecentEvents(entries, h), id) == RecentEvents(entries, h)
  {
    hide Recharge, Without;
    if |entries| == 0 {
      RebuildNothing(id, tokens);
    } else {
      ForeignEvents(entries[..|entries| - 1], h, id, tokens);
      RebuildLast(entries, h, id, tokens);
    }
  }

  lemma RebuildNothing(id: string, tokens: int)
    ensures Recharge([], id, tokens) == [] && Without([], id) == []
  {
  }

  lemma {:induction false} SettleEvents(entries: seq<Entry>, h: real, i: nat, status: Status)
    requires i < |entries| && DistinctIds(entries) && entries[i].status.Outstanding? && !status.Outstanding?
    ensures var id := entries[i].reservation.id;
            var after := entries[i := entries[i].(status := status)];
            RecentEvents(after, h) ==
              if status.Released? then Without(RecentEvents(entries, h), id)
              else Recharge(RecentEvents(entries, h), id, Actual(status.usage).tokens)
  {
    hide Recharge, Without, Actual;
    var n := |entries| - 1;
    var id := entries[i].reservation.id;
    var after := entries[i := entries[i].(status := status)];
    var tokens := if status.Released? then 0 else Actual(status.usage).tokens;
    RebuildLast(entries, h, id, tokens);
    if i == n {
      assert after[..n] == entries[..n];
      ForeignEvents(entries[..n], h, id, tokens);
    } else {
      assert after[..n] == entries[..n][i := entries[..n][i].(status := status)];
      SettleEvents(entries[..n], h, i, status);
    }
  }

  // ---- every operation keeps the coupling ----

  lemma CoupledRoll(s: State, log: Log, modelId: string, now: real, today: int)
    requires Coupled(s, log, modelId) && log.rolledAt <= now
    ensures Coupled(Roll(s, now, today), RollLog(log, now, today), modelId)
  {
    EvictTimes(log.entries, log.rolledAt - 60.0, now - 60.0);
    EvictEvents(log.entries, log.rolledAt - 60.0, now - 60.0);
  }

  lemma TableGrant(reservations: map<string, Reservation>, entries: seq<Entry>, e: Entry)
    requires TableOfOutstanding(reservations, entries) && e.status.Outstanding?
    requires forall i :: 0 <= i < |entries| ==> entries[i].reservation.id != e.reservation.id
    ensures TableOfOutstanding(reservations[e.reservation.id := e.reservation], entries + [e])
  {
    var more, after := reservations[e.reservation.id := e.reservation], entries + [e];
    assert after[|entries|] == e;
    forall id | id in more
      ensures more[id].id == id && HasOutstanding(after, more[id])
    {
      if id != e.reservation.id {
        assert HasOutstanding(entries, reservations[id]);
        var i :| 0 <= i < |entries| && entries[i].reservation == reservations[id] && entries[i].status.Outstanding?;
        assert after[i] == entries[i];
      }
    }
  }

  lemma CoupledGrant(s: State, log: Log, modelId: string, r: Reservation)
    requires Coupled(s, log, modelId)
    requires r.modelId == modelId && 0 <= r.tokens && 0.0 <= r.cost
    requires forall i :: 0 <= i < |log.entries| ==> log.entries[i].reservation.id != r.id
    ensures Coupled(Grant(s, r, log.rolledAt), GrantLog(log, r), modelId)
  {
    hide TableOfOutstanding, WellFormed, RecentTimes, RecentEvents;
    var e := Entry(r, log.rolledAt, log.day, log.period, Outstanding);
    TableGrant(s.reservations, log.entries, e);
    WellFormedGrant(log, modelId, r);
    RecentGrant(log.entries, e, log.rolledAt - 60.0);
  }

  lemma WellFormedGrant(log: Log, modelId: string, r: Reservation)
    requires WellFormed(log, modelId)
    requires r.modelId == modelId && 0 <= r.tokens && 0.0 <= r.cost
    requires forall i :: 0 <= i < |log.entries| ==> log.entries[i].reservation.id != r.id
    ensures WellFormed(GrantLog(log, r), modelId)
  {
    assert forall i :: 0 <= i < |log.entries| ==> EntryOk(log.entries[i], modelId, log);
  }

  lemma RecentGrant(entries: seq<Entry>, e: Entry, horizon: real)
    requires horizon < e.stamp && e.status.Outstanding?
    ensures RecentTimes(entries + [e], horizon) == RecentTimes(entries, horizon) + [e.stamp]
    ensures RecentEvents(entries + [e], horizon)
            == RecentEvents(entries, horizon) + [TokenEvent(e.stamp, e.reservation.id, e.reservation.tokens)]
  {
    assert (entries + [e])[..|entries|] == entries;
  }

  lemma WellFormedSettle(log: Log, modelId: string, i: nat, status: Status)
    requires WellFormed(log, modelId)
    requires i < |log.entries| && log.entries[i].status.Outstanding?
    requires !status.Outstanding? && status.settled == log.period
    ensures WellFormed(log.(entries := log.entries[i := log.entries[i].(status := status)]), modelId)
  {
    var after := log.entries[i := log.entries[i].(status := status)];
    assert forall j :: 0 <= j < |after| ==>
        after[j].reservation == log.entries[j].reservation && after[j].stamp == log.entries[j].stamp;
    assert EntryOk(log.entries[i], modelId, log);
    assert EntryOk(after[i], modelId, log);
    assert forall j :: 0 <= j < |after| ==> EntryOk(after[j], modelId, log);
  }

  lemma TableSettle(reservations: map<string, Reservation>, entries: seq<Entry>, i: nat, status: Status)
    requires TableOfOutstanding(reservations, entries) && DistinctIds(entries)
    requires i < |entries| && entries[i].status.Outstanding? && !status.Outstanding?
    ensures TableOfOutstanding(reservations - {entries[i].reservation.id}, entries[i := entries[i].(status := status)])
  {
    var after := entries[i := entries[i].(status := status)];
    var rest := reservations - {entries[i].reservation.id};
    forall id | id in rest
      ensures rest[id].id == id && HasOutstanding(after, rest[id])
    {
      assert HasOutstanding(entries, reservations[id]);
      var j :| 0 <= j < |entries| && entries[j].reservation == reservations[id] && entries[j].status.Outstanding?;
      assert after[j] == entries[j];
    }
    forall j | 0 <= j < |after| && after[j].status.Outstanding?
      ensures after[j].reservation.id in rest
    {
      assert after[j] == entries[j];
    }
  }

  lemma {:induction false} TimesIgnoreStatus(a: seq<Entry>, b: seq<Entry>, h: real)
    requires |a| == |b| && forall i :: 0 <= i < |a| ==> a[i].stamp == b[i].stamp
    ensures RecentTimes(a, h) == RecentTimes(b, h)
  {
    if |a| != 0 {
      TimesIgnoreStatus(a[..|a| - 1], b[..|b| - 1], h);
    }
  }

  lemma CoupledCommit(s: State, log: Log, modelId: string, r: Reservation, usage: Usage)
    requires Coupled(s, log, modelId)
    requires r.id in s.reservations && s.reservations[r.id] == r
    ensures Coupled(Commit(s, r, usage), CommitLog(log, r.id, usage), modelId)
  {
    var i := FindOutstanding(s, log, modelId, r);
    CoupledSettle(s, log, modelId, i, Committed(usage, log.period), Commit(s, r, usage));
  }

  lemma CoupledRelease(s: State, log: Log, modelId: string, r: Reservation)
    requires Coupled(s, log, modelId)
    requires r.id in s.reservations && s.reservations[r.id] == r
    ensures Coupled(Release(s, r), ReleaseLog(log, r.id), modelId)
  {
    var i := FindOutstanding(s, log, modelId, r);
    CoupledSettle(s, log, modelId, i, Released(log.period), Release(s, r));
  }

  lemma CoupledSettle(s: State, log: Log, modelId: string, i: nat, status: Status, t: State)
    requires Coupled(s, log, modelId)
    requires i < |log.entries| && log.entries[i].status.Outstanding?
    requires !status.Outstanding? && status.settled == log.period
    requires t.day == s.day && t.requestTimes == s.requestTimes
    requires t.reservations == s.reservations - {log.entries[i].reservation.id}
    requires t.tokenEvents ==
             if status.Released? then Without(s.tokenEvents, log.entries[i].reservation.id)
             else Recharge(s.tokenEvents, log.entries[i].reservation.id, Actual(status.usage).tokens)
    ensures Coupled(t, log.(entries := log.entries[i := log.entries[i].(status := status)]), modelId)
  {
    hide RecentTimes, RecentEvents, Recharge, Without;
    var after := log.entries[i := log.entries[i].(status := status)];
    WellFormedSettle(log, modelId, i, status);
    TableSettle(s.reservations, log.entries, i, status);
    SettleEvents(log.entries, log.rolledAt - 60.0, i, status);
    TimesIgnoreStatus(log.entries, after, log.rolledAt - 60.0);
  }
}
