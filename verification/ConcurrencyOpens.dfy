/** The first attempt of every block was opened by the breaker: in the journal, the item of its route
    just before it is the opening of that provider. */
module ConcurrencyOpens {
  import opened Models
  import opened RouteMachine
  import opened RouteLaws
  import opened Concurrency
  import opened ConcurrencyLaws
  import H = HealthSpec
  import Q = QuotaSpec

  predicate IsOf(item: Item, i: nat) {
    !item.Probed? && item.task == i
  }

  /** The latest item of route i. */
  function LastOf(journal: seq<Item>, i: nat): Option<Item> {
    if |journal| == 0 then None
    else if IsOf(journal[|journal| - 1], i) then Some(journal[|journal| - 1])
    else LastOf(journal[..|journal| - 1], i)
  }

  ghost predicate OpensLast(journal: seq<Item>, i: nat, provider: string) {
    LastOf(journal, i).Some? && LastOf(journal, i).value.Opened? && LastOf(journal, i).value.provider == provider
  }

  ghost predicate FirstOpened(journal: seq<Item>, k: nat)
    requires k < |journal|
  {
    journal[k].Attempted? && journal[k].attempt.number == 1 ==>
      OpensLast(journal[..k], journal[k].task, journal[k].attempt.providerId)
  }

  ghost predicate FirstsOpened(journal: seq<Item>) {
    forall k :: 0 <= k < |journal| ==> FirstOpened(journal, k)
  }

  ghost predicate FirstCall(t: Task) {
    t.position.InFlight? && t.retry == 0 && t.index < |t.candidates|
  }

  ghost predicate CallsOpened(tasks: seq<Task>, journal: seq<Item>) {
    forall i :: 0 <= i < |tasks| && FirstCall(tasks[i]) ==> OpensLast(journal, i, Current(tasks[i]).providerId)
  }

  lemma LastAppend(journal: seq<Item>, item: Item, i: nat)
    ensures LastOf(journal + [item], i) == if IsOf(item, i) then Some(item) else LastOf(journal, i)
  {
    assert (journal + [item])[..|journal|] == journal;
  }

  lemma AppendKeepsFirsts(journal: seq<Item>, item: Item)
    requires FirstsOpened(journal)
    requires item.Attempted? && item.attempt.number == 1 ==> OpensLast(journal, item.task, item.attempt.providerId)
    ensures FirstsOpened(journal + [item])
  {
    hide OpensLast;
    var more := journal + [item];
    assert more[..|journal|] == journal;
    forall k | 0 <= k < |more|
      ensures FirstOpened(more, k)
    {
      if k < |journal| {
        assert FirstOpened(journal, k);
        assert more[..k] == journal[..k];
      }
    }
  }

  /** A step makes a first call only from a candidate, and an attempt only from a call. */
  lemma CallMoves(config: RouterConfig, sh: Shared, t: Task, input: Input)
    requires RouteOk(t)
    ensures var u := Step(config, sh, t, input).task;
            && (FirstCall(u) ==> t.position.AtCandidate? && u.index == t.index && u.candidates == t.candidates
                                 && t.index < |t.candidates| && u.attempts == t.attempts)
            && (|t.attempts| < |u.attempts| ==>
                  t.position.InFlight? && t.index < |t.candidates|
                  && u.attempts[|t.attempts|].number == t.retry + 1
                  && u.attempts[|t.attempts|].providerId == Current(t).providerId && !u.position.InFlight?)
  {
    hide RouteOk, Q.ReserveIn, Q.CommitIn, Q.ReleaseIn, Note, H.Allows, H.Touch, H.Lookup, Delay, ErrorOf;
    PositionInRange(t);
  }

  lemma StepKeepsOpens(config: RouterConfig, sys: System, i: nat, input: Input)
    requires FirstsOpened(sys.journal) && CallsOpened(sys.tasks, sys.journal)
    requires i < |sys.tasks| && RouteOk(sys.tasks[i])
    ensures var next := Next(config, sys, StepTask(i, input));
            FirstsOpened(next.journal) && CallsOpened(next.tasks, next.journal)
  {
    hide RouteOk, Step, FirstsOpened, Book, Later, LastOf;
    var t := sys.tasks[i];
    var s := Step(config, SharedOf(sys), t, input);
    var items := ItemsOf(i, t, s.task, input);
    CallMoves(config, SharedOf(sys), t, input);
    if items == [] {
      assert sys.journal + items == sys.journal;
    } else {
      var item := items[0];
      assert items == [item];
      AppendKeepsFirsts(sys.journal, item);
      forall j: nat {
        LastAppend(sys.journal, item, j);
      }
    }
  }

  lemma ProbeKeepsOpens(tasks: seq<Task>, journal: seq<Item>, item: Item)
    requires FirstsOpened(journal) && CallsOpened(tasks, journal) && item.Probed?
    ensures FirstsOpened(journal + [item]) && CallsOpened(tasks, journal + [item])
  {
    hide LastOf;
    AppendKeepsFirsts(journal, item);
    forall j: nat {
      LastAppend(journal, item, j);
    }
  }
}
