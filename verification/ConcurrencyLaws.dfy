/** What every action keeps and every reachable state of the concurrent router satisfies. */
module ConcurrencyLaws {
  import opened Models
  import opened QuotaLog
  import opened QuotaLaws
  import opened QuotaRuns
  import opened RouteMachine
  import opened RouteLaws
  import opened Concurrency
  import Q = QuotaSpec
  import H = HealthSpec

  // ---- reservations and calls in flight ----

  function Held(table: Q.Table, m: string): map<string, Q.Reservation> {
    if m in table then table[m].reservations else map[]
  }

  ghost predicate Holds(table: Q.Table, t: Task) {
    t.position.InFlight? ==>
      var r := t.position.reservation;
      && r.id in Held(table, r.modelId) && Held(table, r.modelId)[r.id] == r
      && t.index < |t.candidates| && r.modelId == Current(t).id
  }

  ghost predicate HeldBySome(tasks: seq<Task>, r: Q.Reservation) {
    exists i :: 0 <= i < |tasks| && tasks[i].position == InFlight(r)
  }

  /** Outstanding reservations correspond one to one with adapter calls in flight. */
  ghost predicate Matched(table: Q.Table, tasks: seq<Task>) {
    && (forall i :: 0 <= i < |tasks| ==> Holds(table, tasks[i]))
    && (forall i, j :: 0 <= i < j < |tasks| && tasks[i].position.InFlight? ==> tasks[i].position != tasks[j].position)
    && (forall m, id :: id in Held(table, m) ==> HeldBySome(tasks, Held(table, m)[id]))
  }

  /** Reservations are filed under their own identifier and model. */
  ghost predicate Filed(table: Q.Table) {
    forall m, id :: id in Held(table, m) ==> Held(table, m)[id].id == id && Held(table, m)[id].modelId == m
  }

  ghost predicate NotHeld(table: Q.Table, id: string) {
    forall m :: id !in Held(table, m)
  }

  ghost predicate SameHeld(after: Q.Table, before: Q.Table) {
    forall m :: Held(after, m) == Held(before, m)
  }

  ghost predicate Added(after: Q.Table, before: Q.Table, r: Q.Reservation) {
    forall m :: Held(after, m) == if m == r.modelId then Held(before, m)[r.id := r] else Held(before, m)
  }

  ghost predicate Removed(after: Q.Table, before: Q.Table, r: Q.Reservation) {
    forall m :: Held(after, m) == if m == r.modelId then Held(before, m) - {r.id} else Held(before, m)
  }

  lemma BooksAreFiled(b: Books, catalog: map<string, ModelConfig>, now: real)
    requires BooksOk(b, catalog, now)
    ensures Filed(b.table)
    ensures forall id :: Unused(b.logs, id) ==> NotHeld(b.table, id)
  {
    hide Drift, Capped, RecentTimes, RecentEvents;
    forall m, id | id in Held(b.table, m)
      ensures Held(b.table, m)[id].id == id && Held(b.table, m)[id].modelId == m
      ensures !FreshId(b.logs, m, id)
    {
      assert ModelOk(b.table[m], b.logs[m], m, catalog, now);
      var r := b.table[m].reservations[id];
      assert HasOutstanding(b.logs[m].entries, r);
      var i :| 0 <= i < |b.logs[m].entries| && b.logs[m].entries[i].reservation == r && b.logs[m].entries[i].status.Outstanding?;
      assert EntryOk(b.logs[m].entries[i], m, b.logs[m]);
    }
  }

  lemma HeldAfterReserve(table: Q.Table, model: ModelConfig, r: Q.Reservation, clock: Q.Clock)
    requires r.modelId == model.id
    ensures var (after, answer) := Q.ReserveIn(table, model, r, clock);
            if answer.Some? then Added(after, table, r) else SameHeld(after, table)
  {
  }

  lemma HeldAfterSettle(table: Q.Table, r: Q.Reservation, usage: Usage, wall: int)
    ensures Removed(Q.CommitIn(table, r, usage, wall), table, r)
    ensures Removed(Q.ReleaseIn(table, r, wall), table, r)
  {
    if r.id !in Held(table, r.modelId) {
      assert Held(table, r.modelId) - {r.id} == Held(table, r.modelId);
    }
  }

  lemma SomeHolder(tasks: seq<Task>, i: nat, r: Q.Reservation)
    requires i < |tasks| && tasks[i].position == InFlight(r)
    ensures HeldBySome(tasks, r)
  {
  }

  /** A new call takes a fresh reservation. */
  lemma MatchedGrant(table: Q.Table, after: Q.Table, tasks: seq<Task>, i: nat, u: Task, r: Q.Reservation)
    requires Matched(table, tasks) && Filed(table) && NotHeld(table, r.id) && Added(after, table, r)
    requires i < |tasks| && !tasks[i].position.InFlight? && u.position == InFlight(r)
    requires u.index < |u.candidates| && Current(u).id == r.modelId
    ensures Matched(after, tasks[i := u])
  {
    hide HeldBySome;
    var all := tasks[i := u];
    assert forall j :: 0 <= j < |tasks| ==> Holds(table, tasks[j]);
    assert forall j :: 0 <= j < |all| ==> Holds(after, all[j]);
    forall m, id | id in Held(after, m)
      ensures HeldBySome(all, Held(after, m)[id])
    {
      if id == r.id && m == r.modelId {
        SomeHolder(all, i, r);
      } else {
        var j := Holder(tasks, Held(table, m)[id]);
        SomeHolder(all, j, Held(table, m)[id]);
      }
    }
  }

  lemma Holder(tasks: seq<Task>, r: Q.Reservation) returns (j: nat)
    requires HeldBySome(tasks, r)
    ensures j < |tasks| && tasks[j].position == InFlight(r)
  {
    j :| 0 <= j < |tasks| && tasks[j].position == InFlight(r);
  }

  /** The end of a call gives exactly its own reservation back. */
  lemma MatchedSettle(table: Q.Table, after: Q.Table, tasks: seq<Task>, i: nat, u: Task)
    requires Matched(table, tasks) && Filed(table)
    requires i < |tasks| && tasks[i].position.InFlight? && !u.position.InFlight?
    requires Removed(after, table, tasks[i].position.reservation)
    ensures Matched(after, tasks[i := u])
  {
    hide HeldBySome;
    var all := tasks[i := u];
    assert forall j :: 0 <= j < |tasks| ==> Holds(table, tasks[j]);
    assert forall j :: 0 <= j < |all| && j != i ==> tasks[j].position != tasks[i].position;
    assert forall j :: 0 <= j < |all| ==> Holds(after, all[j]);
    forall m, id | id in Held(after, m)
      ensures HeldBySome(all, Held(after, m)[id])
    {
      var j := Holder(tasks, Held(table, m)[id]);
      SomeHolder(all, j, Held(table, m)[id]);
    }
  }

  lemma MatchedSame(table: Q.Table, after: Q.Table, tasks: seq<Task>, i: nat, u: Task)
    requires Matched(table, tasks) && SameHeld(after, table)
    requires i < |tasks| && !tasks[i].position.InFlight? && !u.position.InFlight?
    ensures Matched(after, tasks[i := u])
  {
    hide HeldBySome;
    assert forall j :: 0 <= j < |tasks| ==> Holds(table, tasks[j]);
    forall m, id | id in Held(after, m)
      ensures HeldBySome(tasks[i := u], Held(after, m)[id])
    {
      var j := Holder(tasks, Held(table, m)[id]);
      SomeHolder(tasks[i := u], j, Held(table, m)[id]);
    }
  }

  lemma StepKeepsMatched(config: RouterConfig, sys: System, i: nat, input: Input)
    requires Matched(sys.books.table, sys.tasks) && Filed(sys.books.table) && NotHeld(sys.books.table, input.freshId)
    requires i < |sys.tasks| && RouteOk(sys.tasks[i])
    ensures var s := Step(config, SharedOf(sys), sys.tasks[i], input);
            Matched(s.shared.table, sys.tasks[i := s.task])
  {
    hide RouteOk, Matched, Step, Filed, NotHeld, Added, Removed, Q.ReserveIn, Q.CommitIn, Q.ReleaseIn, Note;
    var t := sys.tasks[i];
    var s := Step(config, SharedOf(sys), t, input);
    PositionInRange(t);
    EffectOfStep(config, SharedOf(sys), t, input);
    StepKeepsCandidates(config, SharedOf(sys), t, input);
    if EffectOfNothing(SharedOf(sys), t, s) {
      MatchedSame(sys.books.table, s.shared.table, sys.tasks, i, s.task);
    } else if EffectOfReserve(SharedOf(sys), t, input, s) {
      var r := Proposed(s.op.value);
      HeldAfterReserve(sys.books.table, Current(t), r, input.clock);
      if s.task.position.InFlight? {
        MatchedGrant(sys.books.table, s.shared.table, sys.tasks, i, s.task, r);
      } else {
        MatchedSame(sys.books.table, s.shared.table, sys.tasks, i, s.task);
      }
    } else {
      HeldAfterSettle(sys.books.table, t.position.reservation,
                      if input.outcome.Responded? then input.outcome.usage else Usage(0, 0, 0.0), input.clock.wall);
      MatchedSettle(sys.books.table, s.shared.table, sys.tasks, i, s.task);
    }
  }

  lemma PositionInRange(t: Task)
    requires RouteOk(t)
    ensures t.position.InFlight? || t.position.Asleep? ==> t.index < |t.candidates|
  {
  }

  lemma StepKeepsCandidates(config: RouterConfig, sh: Shared, t: Task, input: Input)
    ensures var u := Step(config, sh, t, input).task; u.candidates == t.candidates && u.request == t.request
  {
    hide Q.ReserveIn, Q.CommitIn, Q.ReleaseIn, Note, H.Allows, H.Touch, H.Lookup, Delay;
  }
}
