# Modernization AI Router: a verified model

This project models the routing engine of the Modernization AI Router in Dafny and proves what it
promises: limits that hold over every window of every run, routes that fail over completely and stay
within policy, and a tracker, a breaker and a ledger that stay consistent when any number of routes run
at once. Two bounded-output routines of the sandbox worker are modelled as well.

`dafny verify dfyconfig.toml` checks everything.

## How it is built

- `Models` holds the immutable records; `Amounts` the sums of requests, tokens and cost.
- The stateful components are classes whose methods update their fields: `QuotaTracker`, `Health`,
  `Ledger`, `Router`. Each method is verified against a function on values (`QuotaSpec`, `HealthSpec`,
  `RouteMachine`), and the laws are proved about those functions.
- `QuotaLog` is the obvious specification of the quota tracker: a log that is never evicted, filtered by
  time and by status. `QuotaLaws` and `QuotaRuns` prove that the evicting tracker refines it and which
  limits hold over every run; `QuotaAnswers` says what each request and each settlement is answered and charged,
  in terms of the log and of the request alone. `QuotaDays` says when exactly the daily limits on tokens and cost hold, and
  `QuotaMidnight` shows a run in which both are missed.
- `RouteMachine` is one route as a machine whose steps end where the router really waits: for the adapter
  and for a backoff sleep. `RouteAnswers` states the answer of each step case by case, `RouteLaws`
  and `RouteTime` are the laws of one route in any shared state.
  `Router.ModelRouter.Route` has the nested loops and is proved to run that machine, whatever others do to
  the tracker, the breaker and the ledger while it waits.
- `Concurrency` is any number of routes, health checks and quota snapshots over the same shared state, one
  atomic action at a time; `ConcurrencyLaws`, `ConcurrencyLedger`, `ConcurrencyBreaker` and
  `ConcurrencyOpens` are its invariants, and `ConcurrencyRuns` the theorems about every interleaving.
  `ConcurrencyQuota` shows that every interleaving is a run of the quota tracker, `ConcurrencyReasons` that
  each candidate left has its reason in the run, `Failover` what this means for the caller,
  `RouterInSystem` that `Route` is one of the routes of such a system, and `RouteEndings` how routes end.
- `Execution` is bounded reading, output compaction and verification up to the first failure.

## Assumptions

- The monotonic clock of the tracker does not go back. The UTC date may, except in the law that counts
  grants per date (`QuotaRuns.DailyRequestsOverRuns`), which needs dates in order.
- Reservation identifiers are fresh, model configurations are fixed per identifier, prices are not
  negative; whoever settles a reservation passes back the one that was handed out.
- Backoff base and cap are not negative, jitter is within [0.8, 1.2], calls respect their timeout; only the
  time bounds need this. Costs and times are exact reals.
- No lock body waits, so each locked operation is one atomic step. The model interleaves at least as finely
  as the source: a route may also be interrupted between two candidates.
- The bounds read a limit below zero as zero.
- Every model's provider is configured: `load_config` refuses a file where it is not
  (src/modernization_router/config.py:85-87). Where a configuration made by hand leaves one out, the model
  here drops the candidate and the code raises KeyError.

## Where the code differs from its documentation

- The routing diagram of the repository's README puts the quota reservation before the circuit check; the
  code checks the circuit first, once per model, and reserves afterwards, again before each retry. The
  model follows the code.
- The tokens-per-day and daily-cost limits are not exact across midnight. A reservation made before a day
  roll and settled after it moves the new day's counters, down to below zero; then the next reservations may
  overrun the limit although no call exceeded its estimate. `QuotaMidnight.DayLimitExceeded` gives the run,
  for tokens and for cost. The limit holds as long as the counter is not below the day's charges, and a next
  reservation can overrun it exactly when it is (`QuotaDays.NextStaysWithinTokensIff`,
  `QuotaDays.NextStaysWithinCostIff`); from an exact counter a commit keeps this if and only if the
  reservation is of this day or used at least its estimate (`QuotaDays.CommitKeepsCoverIff`,
  `QuotaDays.ReleaseKeepsCoverIff`). Over all runs the overrun is at most what calls carried into the day
  stayed below their estimates (`QuotaRuns.DailyLawOverRuns`).
- A negative `max_retries` is not rejected: such a model is passed over in silence
  (`Failover.SilentlySkippedIff`; `FailoverSkipped.GivesUpWithoutTrying` gives the run).
- `backoff_max_seconds` does not cap a provider's Retry-After hint, so the sleep bound is on the router's
  own backoffs and hinted sleeps come on top (`RouteTime.EveryRouteIsBounded`).

## Model

| member | source | states |
|---|---|---|
| QuotaTracker.QuotaState.RollWindows | src/modernization_router/quota.py:47-58 | the two eviction loops and the day roll leave exactly the rolled state |
| QuotaTracker.QuotaState.Reserve | src/modernization_router/quota.py:71-114 | the five limit checks in order, then the whole new state of a grant, or the rolled state of a refusal |
| QuotaTracker.QuotaState.Commit | src/modernization_router/quota.py:116-127 | exchanges the estimate for the actual usage in both counters and in the token events; nothing if already settled |
| QuotaTracker.QuotaState.Release | src/modernization_router/quota.py:129-139 | gives the estimate back, clamped at zero, and drops the token event; the request still counts |
| QuotaTracker.InMemoryQuotaTracker.TryReserve | src/modernization_router/quota.py:60-114 | asks for the non-negative input plus output tokens at the prices per million, changes the state of this model only, created on first use, and answers as the specification |
| QuotaTracker.InMemoryQuotaTracker.Commit | src/modernization_router/quota.py:116-127 | commits in the reservation's own model and leaves every other model alone |
| QuotaTracker.InMemoryQuotaTracker.Release | src/modernization_router/quota.py:129-139 | releases in the reservation's own model and leaves every other model alone |
| QuotaTracker.InMemoryQuotaTracker.Snapshot | src/modernization_router/quota.py:141-155 | rolls every model once and reports the rolled figures, whatever the iteration order |
| QuotaSpec.SettledOnce | src/modernization_router/quota.py:119-134 | a second commit or release of a reservation changes nothing at all |
| QuotaLog.EvictTimes | src/modernization_router/quota.py:48-50 | popping from the front is filtering the whole log by time |
| QuotaLog.EvictEvents | src/modernization_router/quota.py:48-52 | the same for token events, with released entries left out |
| QuotaLog.SettleEvents | src/modernization_router/quota.py:124-139 | rebuilding the token events agrees with settling one entry of the log, evicted or not |
| QuotaLaws.DecidesAsTheFullLog | src/modernization_router/quota.py:71-100 | a reservation is granted exactly when minute requests, minute tokens and day requests recomputed from the never-evicted log, and the daily token and cost counters, are within the limits; with nothing carried into the day those two are the log's as well |
| QuotaLaws.ReportMatchesLog | src/modernization_router/quota.py:141-155 | the snapshot's minute figures and day requests are those of the full log at that instant; its day tokens and cost lie between T - S + A and T + A, and are the log's when nothing was carried |
| QuotaLaws.DriftCommit | src/modernization_router/quota.py:121-123 | a commit keeps T - S + A <= counter <= T + A for tokens and cost, across day rolls |
| QuotaLaws.DriftRelease | src/modernization_router/quota.py:135-136 | a release keeps the same bounds, through its clamp |
| QuotaLaws.MinuteCapGrant | src/modernization_router/quota.py:75-109 | a grant keeps the per-minute request and token limits for every instant, past and future |
| QuotaLaws.DayCapGrant | src/modernization_router/quota.py:81-112 | a grant keeps the day's limits up to carried shortfalls and overshoots |
| QuotaLaws.ExactWithoutCarry | src/modernization_router/quota.py:110-123 | with nothing settled across a day roll, the counters are committed actuals plus outstanding estimates |
| QuotaAnswers.RefusedIffAtALimit | src/modernization_router/quota.py:76-114 | the tracker refuses if and only if the full log of the model is at one of the five limits, and otherwise grants what was asked |
| QuotaAnswers.RequestIsDecidedByTheLog | src/modernization_router/quota.py:67-114 | with the literal figures max(0, input) + max(0, output) tokens and their cost at the prices per million: refused exactly at a limit, otherwise logged with exactly these figures, stamp and date |
| QuotaAnswers.CommitCharges | src/modernization_router/quota.py:116-127 | a commit charges the tokens and the cost actually used, negative ones as none, and exchanges the estimate for them in the counters |
| QuotaAnswers.ReleaseCharges | src/modernization_router/quota.py:129-139 | a release charges the request alone and gives the estimate back, clamped at zero |
| QuotaDays.ClampIdleWithoutCarry | src/modernization_router/quota.py:135-136 | with nothing carried, the clamps of a release never change a value |
| QuotaDays.DayLimitWithoutShortfall | src/modernization_router/quota.py:91-100 | the day's tokens and cost stay within their limits if no call carried into the day stayed below its estimate and none of the day went above |
| QuotaDays.UncoveredMeansShortfall | src/modernization_router/quota.py:121-136 | a counter below the day's charges means that some call carried into the day stayed below its estimate |
| QuotaDays.CommitStaysExactIff | src/modernization_router/quota.py:121-123 | a commit keeps an exact counter exact if and only if the reservation is of this day or cost its estimate, for tokens and for cost |
| QuotaDays.ReleaseStaysExactIff | src/modernization_router/quota.py:135-136 | a release keeps it exact if and only if the reservation is of this day, or empty, or the counter is at zero, for tokens and for cost |
| QuotaDays.CommitKeepsCoverIff | src/modernization_router/quota.py:121-123 | a commit keeps a counter from falling below the charges if and only if the reservation is of this day or its shortfall is no more than the counter is above them; from an exact counter, if and only if it is of this day or used at least its estimate |
| QuotaDays.ReleaseKeepsCoverIff | src/modernization_router/quota.py:135-136 | a release does so if and only if the reservation is of this day, or nothing is charged, or its estimate is no more than the counter is above the charges |
| QuotaDays.OverrunsIff | src/modernization_router/quota.py:91-112 | a request takes the day past a limit if and only if the other limits have room and it is for more than the limit leaves above the charges but not more than it leaves above the counter |
| QuotaDays.NextStaysWithinTokensIff | src/modernization_router/quota.py:91-111 | from a counter within tokens_per_day, where the other limits have room for what is left, no next reservation takes the day past it if and only if the counter is not below the charges |
| QuotaDays.NextStaysWithinCostIff | src/modernization_router/quota.py:96-112 | the same for the daily cost limit, where some number of tokens costs what is left |
| QuotaRuns.EveryOpKeepsBooks | src/modernization_router/quota.py:47-155 | every operation on the table of all models keeps coupling, drift bounds and limits of every model |
| QuotaRuns.EveryRunKeepsBooks | src/modernization_router/quota.py:33-155 | so does every run of reservations, commits, releases and snapshots |
| QuotaRuns.HistoryOnlyGrows | src/modernization_router/quota.py:108-139 | the log only grows, and a settled entry never changes again |
| QuotaRuns.MinuteRequestsOverRuns | src/modernization_router/quota.py:76-80 | over every run and at every instant t, at most requests_per_minute grants are stamped in (t - 60, t] |
| QuotaRuns.MinuteTokensOverRuns | src/modernization_router/quota.py:86-90 | over every run and at every instant, the window's charges exceed tokens_per_minute by at most the overshoots of its commits |
| QuotaRuns.DailyLawOverRuns | src/modernization_router/quota.py:53-136 | over every run, the drift bounds of the daily counters and the day's limits up to carried shortfalls and overshoots |
| QuotaRuns.DailyRequestsOverRuns | src/modernization_router/quota.py:53-85 | with dates in order, no UTC date sees more than requests_per_day grants |
| QuotaMidnight.CounterGoesNegative | src/modernization_router/quota.py:53-123 | a legal run after which the day's token and cost counters are minus ten |
| QuotaMidnight.DayLimitExceeded | src/modernization_router/quota.py:91-100 | a legal run without overshoot that charges twenty tokens and a cost of twenty to a day limited to ten of each |
| Health.CircuitBreaker.CanAttempt | src/modernization_router/health.py:31-36 | answers from this provider's circuit, creating a closed one on first use, and changes nothing else |
| Health.CircuitBreaker.Success | src/modernization_router/health.py:38-43 | records one success for this provider and leaves the others alone |
| Health.CircuitBreaker.Failure | src/modernization_router/health.py:45-51 | records one failure for this provider, with the second clock reading when it opens |
| Health.CircuitBreaker.Snapshot | src/modernization_router/health.py:53-65 | reports every known circuit |
| HealthSpec.ReplaySummarises | src/modernization_router/health.py:38-51 | after any history the counter is the trailing run of failures, and the circuit is open iff that run reached the threshold, since the latest failure |
| HealthSpec.AllowsByHistory | src/modernization_router/health.py:31-65 | an attempt is allowed iff the run is short or the cooldown has passed; the report says the opposite at the same instant |
| HealthSpec.ReportByHistory | src/modernization_router/health.py:53-65 | the snapshot reports the trailing run of failures, the latest success, the latest failure, and an open circuit during the cooldown |
| HealthSpec.OneMoreFailureReopens | src/modernization_router/health.py:45-51 | from an open circuit one more failure blocks for exactly one full cooldown |
| HealthSpec.SuccessCloses | src/modernization_router/health.py:38-43 | one success closes the circuit whatever came before |
| Ledger.UsageLedger.Record | src/modernization_router/accounting.py:26-28 | appends exactly this record |
| Ledger.UsageLedger.Snapshot | src/modernization_router/accounting.py:30-45 | lists each model with the number of its records and the sums of their input tokens, output tokens and cost, the cost of all records, and groups that add up to the flat totals |
| Registry.Create | src/modernization_router/registry.py:9-13 | succeeds if and only if the model identifiers are pairwise different |
| Registry.Eligible | src/modernization_router/registry.py:15-44 | the filter loop and the sort give the specified sequence; a model is in it if and only if it is configured, enabled, capable, premium only if allowed, local for LOCAL_ONLY, local or approved for PROPRIETARY |
| Registry.KeyOrder | src/modernization_router/registry.py:31-44 | rank, priority, estimated cost and identifier form a strict total order on different identifiers |
| Registry.EligibleIsSortedFilter | src/modernization_router/registry.py:15-44 | the result holds exactly the models that meet the policy, free before cheap before standard before premium, then by priority, cost and identifier |
| Registry.ConfigurationOrderIrrelevant | src/modernization_router/registry.py:31-44 | any two orders of the same models give the same result |
| Registry.TighteningOnlyRemoves | src/modernization_router/registry.py:16-29 | a stricter privacy mode, more capabilities or no premium only removes candidates and reorders none |
| Registry.CandidatesInOrder | src/modernization_router/router.py:57-62 | candidates are exactly the models of enabled providers that meet the policy, by tier, then priority, then cost, then identifier |
| Registry.DisablingOnlyRemoves | src/modernization_router/router.py:57-62 | disabling providers only removes candidates |
| RouteLaws.EveryStepKeepsRoute | src/modernization_router/router.py:83-226 | any step in any shared state keeps attempt blocks, exclusions, fates that the attempts bear out, and where the route stands |
| RouteAnswers.AnswerOfCall | src/modernization_router/router.py:114-226 | the answer to each outcome of a call: retried after a sleep while retries are left, next candidate, provider left for good, result returned, or cancelled; with its attempt, circuit and record |
| RouteAnswers.AnswerAtCandidate | src/modernization_router/router.py:83-109 | at a candidate: fails past the last, passes an excluded provider, an open circuit and a negative setting, otherwise asks the tracker |
| RouteAnswers.AnswerOfSleep | src/modernization_router/router.py:203-214 | after a sleep: cancelled, or the tracker is asked for the next retry |
| RouteAnswers.TimeoutChoice | src/modernization_router/router.py:114-117 | a non-zero model timeout comes before the provider's |
| RouteTime.EveryRouteEnds | src/modernization_router/router.py:83-94 | every route ends within two steps per try and one per candidate plus one, whatever other routes do |
| RouteTime.DelayBound | src/modernization_router/router.py:205-213 | a backoff stays within a fifth of its delay before jitter |
| RouteTime.BackoffDoubles | src/modernization_router/router.py:207-210 | that delay doubles with each retry up to the cap |
| RouteTime.EveryRouteIsBounded | src/modernization_router/router.py:114-214 | call time and backoff time of a whole route are bounded by its candidates' retries, timeouts, base and cap |
| Failover.SuccessIffReturned | src/modernization_router/router.py:134-166 | a route has a successful attempt exactly when it returned a result |
| RouteEndings.CancelledIffCallerCancels | src/modernization_router/router.py:167-169 | in every interleaving a route ends as cancelled if and only if its caller cancelled one of its calls or sleeps |
| RouteEndings.EveryEnding | src/modernization_router/router.py:64-235 | in every interleaving a route that ended otherwise had no candidate, or returned its success, or has left every candidate for a reason, each exactly then |
| ConcurrencyReasons.FateOfStep | src/modernization_router/router.py:83-226 | a step adds at most the fate of the current candidate, and only what the breaker, the tracker, an exclusion, the setting or the last try answered |
| ConcurrencyReasons.EveryFateHasItsReason | src/modernization_router/router.py:83-226 | in every interleaving each fate was given at a step of the run at that candidate, where the breaker said no or the tracker was at a limit |
| Failover.ReturnedMeansAllBeforeFailed | src/modernization_router/router.py:83-166 | in every interleaving the predecessors of a returned model all have a reason in the run; premium only after every non-premium candidate |
| Failover.FailedMeansEveryCandidateFailed | src/modernization_router/router.py:232-235 | the failure error means every candidate has a reason in the run and no attempt succeeded |
| Failover.CheapestTierFirst | src/modernization_router/router.py:83-109 | attempted tiers never decrease |
| Failover.AttemptsStayWithinPolicy | src/modernization_router/registry.py:18-29 | every attempt of every interleaving is on an enabled model with the capabilities, locality, approval and tier the request permits |
| Failover.AttemptsAreBounded | src/modernization_router/router.py:94-109 | at most max_retries + 1 attempts per candidate in all |
| Failover.ExcludedProviderIsLeftAlone | src/modernization_router/router.py:215-223 | after an authentication, quota or rate-limit error the route never uses that provider again |
| Failover.SilentlySkippedIff | src/modernization_router/router.py:83-94 | a candidate is passed over without a reason exactly when its max_retries is negative and neither an exclusion nor an open circuit came first |
| FailoverSkipped.NegativeRetriesMeanNoAttempt | src/modernization_router/router.py:94-109 | attempts are numbered from one to max_retries + 1, so none is ever made on a candidate with a negative setting |
| FailoverSkipped.GivesUpWithoutTrying | src/modernization_router/router.py:83-94 | a run that ends in the failure error with no attempts although its one candidate is permitted, unlimited and healthy |
| Router.ModelRouter.Create | src/modernization_router/router.py:33-55 | refused exactly for repeated identifiers or a provider without adapter |
| Router.ModelRouter.Candidates | src/modernization_router/router.py:57-62 | the candidate list of the request |
| Router.ModelRouter.Route | src/modernization_router/router.py:64-235 | for every script, and whatever others leave in tracker, breaker and ledger where it waits, the nested loops make the steps of the route machine and end with its shared state, attempts and ending |
| Router.ModelRouter.TryModel | src/modernization_router/router.py:94-226 | the retry loop on one candidate makes the machine's steps, under the same interference |
| Router.ModelRouter.TryOnce | src/modernization_router/router.py:94-142 | one pass of it does |
| Router.ModelRouter.Conclude | src/modernization_router/router.py:118-226 | what follows an adapter outcome is one step of the machine |
| RouterInSystem.RouteIsAnInterleaving | src/modernization_router/router.py:64-235 | what Route makes of its visits is what the system makes of them with the others' actions in between, so every law of reachable systems applies to it |
| RouterInSystem.RouteObeysTheLaws | src/modernization_router/router.py:64-235 | a trace of Route obeys the laws of routes and has ended within the bound on steps, under any interference |
| RouteEndings.RouteEnds | src/modernization_router/router.py:64-235 | under any interference Route ends as cancelled if and only if its caller cancels, without candidates as not eligible, and otherwise returns its success or has left every candidate |
| Concurrency.EffectOfStep | src/modernization_router/router.py:83-226 | a step does nothing shared, or asks for one reservation, or commits with one record and one success, or releases its own reservation |
| ConcurrencyLaws.StepKeepsMatched | src/modernization_router/router.py:95-179 | a step keeps reservations and calls in flight in one-to-one correspondence |
| ConcurrencyLedger.LedgerEqualsQuota | src/modernization_router/router.py:122-133 | equal bags of usages give equal requests, tokens and cost in ledger and quota |
| ConcurrencyBreaker.ProbeIsCounted | src/modernization_router/router.py:237-246 | a healthy check closes its provider's circuit, an unhealthy one counts as a failure, and nothing else changes |
| ConcurrencyBreaker.StepKeepsJournal | src/modernization_router/router.py:124-225 | a step moves circuits, attempts and journal together |
| ConcurrencyOpens.StepKeepsOpens | src/modernization_router/router.py:86-109 | a first attempt always follows its route's own opening by the breaker |
| ConcurrencyRuns.EveryActionKeepsSystem | src/modernization_router/router.py:64-257 | every atomic action of routes, health checks and snapshots keeps all invariants |
| ConcurrencyRuns.EveryReachableStateOk | src/modernization_router/router.py:64-257 | every state of every interleaving satisfies them |
| ConcurrencyRuns.LastSlotIsClaimedOnce | src/modernization_router/quota.py:71-114 | in every interleaving the request limits per minute and per day hold |
| ConcurrencyRuns.NothingLeftBehind | src/modernization_router/router.py:118-179 | when no call is in flight no reservation is outstanding |
| ConcurrencyRuns.OutstandingIffInFlight | src/modernization_router/router.py:95-179 | a logged reservation is outstanding exactly while some call holds it |
| ConcurrencyRuns.QuotaAndLedgerAgree | src/modernization_router/router.py:122-133 | in every interleaving ledger records and committed reservations of a model correspond one to one, with equal totals |
| ConcurrencyRuns.RouterAndBreakerStayCoupled | src/modernization_router/router.py:86-246 | in every interleaving each circuit replays exactly its successes, countable failures and health outcomes, and openings agree with it |
| ConcurrencyReasons.RefusedOnlyAtALimit | src/modernization_router/router.py:95-109 | a quota refusal happens only where the full log is at one of the five limits, a model's first reservation included |
| ConcurrencyQuota.EveryInterleavingIsAQuotaRun | src/modernization_router/router.py:95-179 | the accounts of every interleaving are those of a legal run of the tracker's operations |
| ConcurrencyQuota.NoDateIsOverbooked | src/modernization_router/quota.py:81-85 | in every interleaving that sees dates in order, no UTC date has more than requests_per_day grants |
| ConcurrencyQuota.ChargesStayWithinLimits | src/modernization_router/quota.py:86-100 | in every interleaving the token window and the day's tokens and cost stay within their limits up to overshoots and carried shortfalls |
| Execution.ReadBounded | src/modernization_router/execution.py:213-229 | however the stream is chunked, what is kept is the prefix of its content of limit bytes, or all if there are fewer, and truncated holds iff there were more |
| Execution.ContentOfWhole | src/modernization_router/execution.py:220-229 | the content of a stream of non-empty chunks depends only on their concatenation |
| Execution.ContentEnds | src/modernization_router/execution.py:222-224 | the first empty chunk ends the stream |
| Execution.DiagnosticSummary | src/modernization_router/execution.py:56-72 | the loop over selected and seen gives the compacted summary |
| Execution.SummaryListing | src/modernization_router/execution.py:56-72 | the summary, literally: the no-output text, or the header and, once each by first occurrence, the error lines with fewer than forty error lines before them and the last forty lines, cut to max_chars |
| Execution.FilterPlaces | src/modernization_router/execution.py:62 | the error lines stand at increasing places, the i-th with i error lines before it |
| Execution.DistinctLists | src/modernization_router/execution.py:64-69 | the selected lines are exactly the picked ones, without repeats, by first occurrence |
| Execution.FirstOccurrencesUnique | src/modernization_router/execution.py:64-69 | that description determines the listing |
| Execution.Verify | src/modernization_router/execution.py:330-337 | the runs up to and including the first failure; succeeded iff there is a request and all pass |
| Execution.DiagnosticsAreOfTheLastRun | src/modernization_router/execution.py:315-321 | the diagnostics of such a report are a bounded prefix of the last run's summary, or empty |
| Execution.DiagnosticsOfOneMore | src/modernization_router/execution.py:319-321 | for any report, a passing run adds nothing and a failing one its summary, with an empty line between summaries |

## Left out

- HTTP adapters, response decoding and credentials: foreign I/O; an adapter call is an outcome taken from the environment.
- The mapping from HTTP status to error class: a flat table; error classes are a datatype.
- Web API, browser interface, configuration parsing and the service facade: forwarding and field copying.
- Docker commands, process control, path checks, decoding and ANSI stripping: foreign calls; strip, line splitting and the error pattern are parameters of the summary.
- Logging, latency, response metadata, message text and rounding of reported costs: they decide nothing in the modelled code.
- Cancellation while waiting for an uncontended lock, and exceptions other than CancelledError outside Exception: not part of this model.
- Router.ModelRouter.Route: the scheduler is not modelled; Wait, where others run, has an empty body, and Route is verified against its contract, which allows any valid state of tracker, breaker and ledger.
- Router.ModelRouter.TryModel: the retry loop and its body are methods of their own here, to keep each proof small.
- Router.ModelRouter.Candidates: does not raise KeyError for a model whose provider is not configured, because configurations are loaded with every provider present.
- Registry.Eligible: the built-in sort is an insertion sort here; the order is strict on unique identifiers, so every sort gives the same sequence.
- Execution.Verify: the executor is a function of the position and the request.
