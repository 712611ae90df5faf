/**
 The circuit breaker on values, and its meaning: the state of a provider is a summary of the
 provider's whole history of successes and failures.
 */
module HealthSpec {
  import opened Models

  datatype Circuit = Circuit(
    consecutiveFailures: int,
    openedAt: Option<real>,
    lastSuccessAt: Option<real>,
    lastFailureAt: Option<real>)

  const CLOSED := Circuit(0, None, None, None)

  /** A failure reads the clock once for its own stamp and once more when it opens the circuit. */
  datatype Event = Succeeded(at: real) | Failed(at: real, openAt: real)

  function OnSuccess(c: Circuit, at: real): Circuit {
    c.(consecutiveFailures := 0, openedAt := None, lastSuccessAt := Some(at))
  }

  function OnFailure(c: Circuit, at: real, openAt: real, threshold: int): Circuit {
    var failures := c.consecutiveFailures + 1;
    var counted := c.(consecutiveFailures := failures, lastFailureAt := Some(at));
    if failures >= threshold then counted.(openedAt := Some(openAt)) else counted
  }

  predicate Allows(c: Circuit, now: real, cooldown: real) {
    c.openedAt.None? || now - c.openedAt.value >= cooldown
  }

  function Step(c: Circuit, event: Event, threshold: int): Circuit {
    match event
    case Succeeded(at) => OnSuccess(c, at)
    case Failed(at, openAt) => OnFailure(c, at, openAt, threshold)
  }

  function Replay(history: seq<Event>, threshold: int): Circuit {
    if |history| == 0 then CLOSED
    else Step(Replay(history[..|history| - 1], threshold), history[|history| - 1], threshold)
  }

  // ---- the table of all providers ----

  type Circuits = map<string, Circuit>

  function Lookup(circuits: Circuits, provider: string): Circuit {
    if provider in circuits then circuits[provider] else CLOSED
  }

  function Touch(circuits: Circuits, provider: string): Circuits {
    circuits[provider := Lookup(circuits, provider)]
  }

  function Record(circuits: Circuits, provider: string, event: Event, threshold: int): Circuits {
    circuits[provider := Step(Lookup(circuits, provider), event, threshold)]
  }

  datatype Report = Report(consecutiveFailures: int, circuitOpen: bool,
                           lastSuccessAt: Option<real>, lastFailureAt: Option<real>)

  function ReportOf(c: Circuit, now: real, cooldown: real): Report {
    Report(c.consecutiveFailures, c.openedAt.Some? && now - c.openedAt.value < cooldown,
           c.lastSuccessAt, c.lastFailureAt)
  }

  // ---- what the history says ----

  /** k is the length of the run of failures at the end of the history. */
  ghost predicate TrailingRun(history: seq<Event>, k: nat) {
    && k <= |history|
    && (forall i :: |history| - k <= i < |history| ==> history[i].Failed?)
    && (k < |history| ==> history[|history| - k - 1].Succeeded?)
  }

  ghost predicate LatestSuccess(history: seq<Event>, at: Option<real>) {
    match at
    case None => forall i :: 0 <= i < |history| ==> history[i].Failed?
    case Some(t) =>
      exists i :: 0 <= i < |history| && history[i] == Succeeded(t)
                  && forall j :: i < j < |history| ==> history[j].Failed?
  }

  ghost predicate LatestFailure(history: seq<Event>, at: Option<real>) {
    match at
    case None => forall i :: 0 <= i < |history| ==> history[i].Succeeded?
    case Some(t) =>
      exists i :: 0 <= i < |history| && history[i].Failed? && history[i].at == t
                  && forall j :: i < j < |history| ==> history[j].Succeeded?
  }

  lemma FailureLater(history: seq<Event>, last: Event, at: Option<real>)
    requires LatestFailure(history, at)
    ensures LatestFailure(history + [last], if last.Failed? then Some(last.at) else at)
  {
    var more := history + [last];
    if last.Failed? {
      assert more[|history|] == last;
    } else if at.Some? {
      var i :| 0 <= i < |history| && history[i].Failed? && history[i].at == at.value
               && forall j :: i < j < |history| ==> history[j].Succeeded?;
      assert more[i] == history[i];
    }
  }

  lemma {:induction false} ReplayKeepsLatestFailure(history: seq<Event>, threshold: int)
    ensures LatestFailure(history, Replay(history, threshold).lastFailureAt)
  {
    if |history| != 0 {
      hide LatestFailure;
      var front, last := history[..|history| - 1], history[|history| - 1];
      ReplayKeepsLatestFailure(front, threshold);
      FailureLater(front, last, Replay(front, threshold).lastFailureAt);
      assert history == front + [last];
    }
  }

  /** The circuit is open after this history: the run reached the threshold (a run of at least one). */
  ghost predicate Tripped(history: seq<Event>, k: nat, threshold: int) {
    k != 0 && k >= threshold
  }

  /** The state of a provider summarises its history: the length of the trailing run, the latest
      success, and, exactly when the run reached the threshold, the stamp of the latest failure. */
  lemma {:induction false} ReplaySummarises(history: seq<Event>, threshold: int)
    ensures var c := Replay(history, threshold);
            && 0 <= c.consecutiveFailures
            && TrailingRun(history, c.consecutiveFailures)
            && LatestSuccess(history, c.lastSuccessAt)
            && (c.openedAt.Some? <==> Tripped(history, c.consecutiveFailures, threshold))
            && (c.openedAt.Some? ==> c.openedAt.value == history[|history| - 1].openAt)
  {
    if |history| != 0 {
      var front, last := history[..|history| - 1], history[|history| - 1];
      ReplaySummarises(front, threshold);
      var before := Replay(front, threshold);
      var after := Replay(history, threshold);
      assert forall i :: 0 <= i < |front| ==> front[i] == history[i];
      if last.Succeeded? {
        assert history[|front|] == Succeeded(after.lastSuccessAt.value);
      } else if before.lastSuccessAt.Some? {
        var i :| 0 <= i < |front| && front[i] == Succeeded(before.lastSuccessAt.value)
                 && forall j :: i < j < |front| ==> front[j].Failed?;
        assert history[i] == Succeeded(after.lastSuccessAt.value);
      }
    }
  }

  /** A provider may be attempted exactly when its trailing run is short of the threshold or the
      cooldown has passed since the latest failure opened the circuit; the report says the opposite. */
  lemma AllowsByHistory(history: seq<Event>, threshold: int, cooldown: real, now: real, k: nat)
    requires TrailingRun(history, k)
    ensures Allows(Replay(history, threshold), now, cooldown)
            <==> !Tripped(history, k, threshold) || now - history[|history| - 1].openAt >= cooldown
    ensures ReportOf(Replay(history, threshold), now, cooldown).circuitOpen
            <==> !Allows(Replay(history, threshold), now, cooldown)
  {
    ReplaySummarises(history, threshold);
    assert k == Replay(history, threshold).consecutiveFailures;
  }

  /** A snapshot reports the length of the trailing run of failures, the latest success and the latest failure,
      and an open circuit while the run has reached the threshold and the cooldown has not passed since. */
  lemma ReportByHistory(history: seq<Event>, threshold: int, cooldown: real, now: real)
    ensures var report := ReportOf(Replay(history, threshold), now, cooldown);
            && 0 <= report.consecutiveFailures && TrailingRun(history, report.consecutiveFailures)
            && LatestSuccess(history, report.lastSuccessAt)
            && LatestFailure(history, report.lastFailureAt)
            && (report.circuitOpen <==>
                  && 0 < report.consecutiveFailures && threshold <= report.consecutiveFailures
                  && now - history[|history| - 1].openAt < cooldown)
  {
    hide LatestSuccess, LatestFailure;
    ReplaySummarises(history, threshold);
    ReplayKeepsLatestFailure(history, threshold);
  }

  /** Once the circuit is open, one further failure, however late, keeps it open for a full cooldown. */
  lemma OneMoreFailureReopens(history: seq<Event>, threshold: int, cooldown: real, at: real, openAt: real, now: real)
    requires Replay(history, threshold).openedAt.Some?
    ensures Allows(Replay(history + [Failed(at, openAt)], threshold), now, cooldown) <==> now >= openAt + cooldown
  {
    ReplaySummarises(history, threshold);
    assert (history + [Failed(at, openAt)])[..|history|] == history;
  }

  /** One success closes the circuit, whatever came before. */
  lemma SuccessCloses(history: seq<Event>, threshold: int, cooldown: real, at: real, now: real)
    ensures Allows(Replay(history + [Succeeded(at)], threshold), now, cooldown)
    ensures Replay(history + [Succeeded(at)], threshold).consecutiveFailures == 0
  {
    assert (history + [Succeeded(at)])[..|history|] == history;
  }
}
