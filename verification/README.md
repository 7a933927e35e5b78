# A verified model of the gateway's routing, limits and agent runs

This project models the parts of the LLM gateway whose behaviour is hard to see from any one
function, and proves what they promise over every input, every run and every interleaving.

- **Routing protocol** (`Errors`, `Legs`, `Router`, `RouterSafety`, `RouterTheorems`, `Outcomes`, `Records`,
  `AttemptLimits`, `LockOut`, `Progress`). A request walks its candidates; each call is admitted by a breaker, waits
  for a slot, is tried with retries, may be hedged or streamed, and is settled. Steps are the stretches of code
  between two awaits, in any order, with any outcome, timeout, cancellation and a clock that moves only when nothing
  is due. `Planning`, `PlanLaws` and `RoutedPlans` say which providers are called, and carry that through the protocol.
- **The pieces it is made of** (`Breaker`, `Limiter`, `TwoBuckets`, `LimitedLegs`): the circuit breaker and the
  reservation buckets as objects with a value each, and theorems over all their runs.
- **Cron** (`Calendar`, `Cron`): the skip-ahead search equals a minute-by-minute scan.
- **Agent runs** (`Context`, `Harness`): histories sent to the model stay well formed through tool calls, approvals,
  resumes and compaction.
- **Keeping count** (`Cache`, `Window`, `Budgets`, `BudgetLaws`, `Ledger`, `LedgerLaws`): each structure against a
  history-based specification.
- **Tasks** (`TaskBoard`, `Tasks`, `TaskLaws`): one worker per agent, with cancellation between any two steps.
- **Texts** (`SqlSplit`, `SqlLaws`, `Pii`): the statement splitter, the card check digit, detection and masking.
- **Policies** (`PolicyStore`): parsing, and runtime edits over a file that may be reloaded.

Objects the program updates in place are classes whose methods are proved to compute a function of the old state;
the theorems are about those functions. Times are exact numbers passed in; money and tokens are exact too. `dafny
verify dfyconfig.toml` checks everything.

Where a promise turned out not to hold on every input, the code is modelled as it is, a lemma gives an input that
breaks it, and another says exactly when it holds:

- both rates kept by the instants requests pass: `Limiter.HeldBackRequestsOvershoot`, `TwoBuckets.ConformIff`;
- the bound on upstream attempts: `AttemptLimits.OneTooMany` and `TwoTooMany`, `AttemptLimits.BoundedIff`;
- a breaker that locks nobody out: `LockOut.LocksOut`, `LockOut.NeverLocksIff`;
- only a plan's first choice repeats: `Planning.RepeatNeedNotBeFirst`, `Planning.FirstRepeatsIff`;
- waiting as told is enough: `Window.PlaceMayBeTaken` and `TableMayStayFull`, `Window.WaitingForWindow` and
  `WaitingForTable`;
- usage is remembered for the window: `Budgets.DroppedSubjectStartsOver`, `Budgets.TrackedIff` and `NeverDroppedIff`;
- a removed policy stays removed: `PolicyStore.RemovedNameMayReturn`, `PolicyStore.StaysAwayIff`.

## Model

| member | source | states |
|---|---|---|
| RouterTheorems.SettledExactlyOnce | src/coreai/router.py:805-961 | in every reachable state each breaker admission has been settled once if its call ended and not at all otherwise; a slot is taken at most once and returned exactly once |
| Outcomes.ArrivesWith | src/coreai/router.py:437-490 | a request arrives with its candidates, none tried, and its deadline counted from now |
| Outcomes.EndsHow | src/coreai/router.py:478-600 | a request that is over was aborted if and only if its caller cancelled it; otherwise it returned a response if and only if one of its calls was answered |
| Outcomes.EndsAsAnswered | src/coreai/router.py:478-600 | a request that returns has an answered call; one that raises has none and no call left |
| Outcomes.PassedFor | src/coreai/router.py:492-567 | in every run, a candidate is passed only because it was asked already as a partner, its breaker refused, its call failed with one of the eight errors other providers may help with, or both calls of a pair failed so and not at the deadline, with failover on |
| Outcomes.RaisedFor | src/coreai/router.py:525-600 | in every run, a request raises only when no candidate is left, when its call failed in any other way or after its stream began, or when a pair failed and may not go on |
| Outcomes.SkippedWasAsked | src/coreai/router.py:1539-1596 | a candidate is skipped only if its provider was called before as the partner of a hedged call |
| Outcomes.CallsIfAdmitted | src/coreai/router.py:492-540 | a candidate that is not skipped is called if its breaker admits it, with a partner to be asked after the delay exactly if hedging is on, the request does not stream and the next candidate is another provider not yet asked |
| Outcomes.AsksPartnerIf | src/coreai/router.py:1539-1596 | after the hedge delay the partner is called exactly if its breaker admits it, and is not asked again |
| Outcomes.FirstAnswerWins | src/coreai/router.py:1539-1596 | the first answer of a pair is the response and the other call is cancelled |
| Outcomes.AbortCancels | src/coreai/router.py:1539-1596 | a cancelled request cancels the calls it waits for, except in the first hedge wait |
| RouterTheorems.SlotsNeverExceeded | src/coreai/limiter.py:113-181 | slots given out are those of the calls that hold one, never more than configured |
| RouterTheorems.ProbesAccounted | src/coreai/circuit_breaker.py:69-110 | a half-open breaker counts no more probes than calls admitted in this half-open phase are unsettled, late results of earlier phases included |
| RouterTheorems.NeverLockedOut | src/coreai/router.py:478-595 | a provider with nothing in flight has all its slots, and its breaker admits a call now or once the reset timeout has passed |
| LockOut.NeverLocksIff | src/coreai/circuit_breaker.py:60-78 | a provider with nothing in flight is admitted now or after the reset timeout, in every state of every run, if and only if half-open calls are allowed at all |
| LockOut.LocksOut | src/coreai/circuit_breaker.py:94-123 | with no half-open call allowed, a run of requests that fail with any of the seven errors of a provider reaches a state where nothing is in flight and the breaker refuses every call at whatever time |
| LockOut.LockedForGood | src/coreai/circuit_breaker.py:50-78 | once locked out, a provider stays so in the rest of the run, whatever happens |
| RouterTheorems.AttemptsBeforeDeadline | src/coreai/deadline.py:24-44 | no upstream attempt of any call, hedges included, starts at or after the deadline of its request |
| RouterTheorems.OverByDeadline | src/coreai/router.py:478-567 | past its deadline a request is over or delivers a stream opened in time, and no other call of it is still running, not even of an abandoned hedge |
| RouterTheorems.NeverStuck | src/coreai/router.py:1539-1596 | in every reachable state some step other than a new request or a cancellation is possible: what is due can be done, and when nothing is due time can pass |
| Progress.StepsBounded | src/coreai/router.py:478-595 | in no run does a request with n candidates take more than n(3m+7)+3 steps, over its own turns and all its calls, where m is the most attempts a call may make |
| Progress.StepWorks | src/coreai/router.py:478-595 | each step of a request uses up some of the steps it has left, and no other event gives any request more |
| Progress.ReachesTime | src/coreai/router.py:478-595 | from every reachable state the clock reaches any later time in finitely many steps, without new requests or cancellations |
| Progress.ComesToItsEnd | src/coreai/deadline.py:24-44 | from every reachable state the protocol by itself reaches one where each request with a deadline is over or delivers a stream it opened in time |
| RouterTheorems.AttemptsBounded | src/coreai/retry.py:79-108 | n candidates cost at most n-1 times the smaller of the two attempt limits plus the full limit, over retries, failovers and hedges |
| AttemptLimits.BoundedIff | src/coreai/retry.py:79-108 | with failover and two usable providers, that bound holds in every state of every run if and only if both attempt limits are at least 1 |
| AttemptLimits.OneTooMany | src/coreai/retry.py:79-108 | with no attempt allowed at all a run still makes one |
| AttemptLimits.TwoTooMany | src/coreai/retry.py:172-184 | with a failover limit of 0, or below, a run with two candidates makes more attempts than the bound |
| Planning.OneWithoutFailover | src/coreai/router.py:1182-1188 | without failover a plan has one candidate at most, so no request fails over |
| RouterTheorems.OnlyCandidatesCalled | src/coreai/router.py:492-518 | every provider called for a request is one of its candidates |
| Legs.AttemptsWithinDeadline | src/coreai/deadline.py:24-44 | an attempt starts only before the deadline, with the timeout or what is left of the deadline, whichever is shorter; otherwise the call fails with the deadline error and no attempt is made |
| Legs.StepKeepsLeg | src/coreai/router.py:858-890 | every step of one call settles its slot and its breaker admission exactly when it ends and never twice: an answer is recorded as a success, one of the seven errors of a provider as a failure if the call ran, and anything else as nothing |
| Legs.RetriedIff | src/coreai/retry.py:79-108 | a failed attempt is followed by another exactly if retries are on, the error is one of the five transient ones, attempts are left, the provider asked for no longer wait than allowed, and the wait ends before the deadline |
| Legs.EndsBy | src/coreai/router.py:858-960 | which events end a call, and with which outcome |
| Records.BreakerIsHistory | src/coreai/router.py:805-961 | in every run the breaker of each provider is where the admissions, answers, failures and other ends of its calls have taken it, in their order |
| Records.HistoryInOrder | src/coreai/router.py:805-961 | those happen in clock order, so what holds for every run of a breaker holds for each breaker of the router |
| Records.ClosedHasCounted | src/coreai/circuit_breaker.py:80-104 | in every run a closed breaker has counted exactly the failures of its provider since the last answer, fewer than the threshold |
| Records.AnswerCloses | src/coreai/router.py:885-905 | an answered call leaves the breaker of its provider closed with no failures, unless it is open and its timeout has not passed |
| Records.FailureCounts | src/coreai/router.py:885-905 | a call that failed by any of the seven errors of a provider opens a half-open breaker, and a closed one at the threshold |
| Legs.LegCanMove | src/coreai/router.py:858-890 | a call whose timer has come, or that is being cancelled, always has a step to take |
| LimitedLegs.SlotWaitIsTheLimiters | src/coreai/router.py:805-823 | a call that gets a slot is refused exactly if the limiter rejects it for its wait, and otherwise runs from the instant the limiter admits it |
| RouterSafety.StepKeeps | src/coreai/router.py:478-595 | every event of the protocol keeps the accounts of slots and probes, the phases of requests and the deadlines |
| RouterSafety.EveryRun | src/coreai/router.py:690-782 | the protocol invariant holds in every state of every run, streams included |
| RoutedPlans.CandidatesFixed | src/coreai/router.py:440-441 | a request keeps the candidates it arrived with, whatever else happens |
| RoutedPlans.CallsFollowPlan | src/coreai/router.py:492-518 | in every run, every provider really called for a planned and screened request is local if the request is private, permitted by the policy in force if nothing is pinned, and the pinned one otherwise |
| RoutedPlans.CalledWasAdmitting | src/coreai/router.py:1089-1188 | without a pin, the breaker of every provider called was letting calls through when the request was planned |
| Planning.PlanSafe | src/coreai/router.py:1089-1188 | what a plan may name: local providers for private requests; registered, admitted and permitted ones without a pin |
| Planning.OrderEligible | src/coreai/router.py:1337-1407 | a policy's order names only registered providers it permits, in its chain if it is bound to one, whose breaker would admit a call |
| Planning.RankBestFirst | src/coreai/router.py:1409-1451 | a ranking by cost or latency names every eligible provider, best first, those over the latency ceiling after those within it |
| Planning.PolicyFirst | src/coreai/router.py:1377-1397 | the pinned provider, the owner of the policy's model, or the first eligible one of a fallback chain comes first |
| PlanLaws.OrderOrWhyNot | src/coreai/router.py:1337-1375 | a policy gives an order exactly if some registered provider it permits admits calls; otherwise the reason tells whether it permits any |
| PlanLaws.OrderComplete | src/coreai/router.py:1337-1407 | with failover every provider that a policy permits and that admits calls is planned, of its chain if it has one |
| PlanLaws.OnlyFirst | src/coreai/router.py:1398-1400 | without failover, or for a model asked for by name, only the first choice is |
| PlanLaws.ChainOrder | src/coreai/router.py:1387-1397 | providers of the chain are tried in its order, unless a pin, a ranking or a model of the policy has put one in front |
| PlanLaws.SecondForFallbackModel | src/coreai/router.py:1298-1314 | the owner of the fallback model comes second, if it is eligible, and first as well or the policy bound to no order |
| PlanLaws.InTurn | src/coreai/router.py:1419-1421 | round robin goes through the eligible providers from the cursor on and around |
| PlanLaws.SortStable | src/coreai/router.py:1422-1440 | equal estimates leave providers in their order |
| PlanLaws.ModelsOf | src/coreai/router.py:1134-1188 | which model each choice of a plan uses |
| PlanLaws.OwnersOnly | src/coreai/router.py:1288-1297 | a model with a known owner is asked of its owner only |
| PlanLaws.UnguidedPlan | src/coreai/router.py:1175-1188 | without a policy every provider that admits calls is planned, the selected one first, unless there is no failover or an unknown model |
| PlanLaws.AnyMayBeSelected | src/coreai/router.py:1175-1188 | whoever admits calls may be the one selected |
| PlanLaws.PlannedIff | src/coreai/router.py:1134-1188 | when there is a plan |
| PlanLaws.WhyNoPlan | src/coreai/router.py:1134-1188 | and the reason when there is none |
| PlanLaws.PrivatePlan | src/coreai/router.py:1089-1112 | a private request keeps exactly its local choices, and is refused if there are none |
| PlanLaws.OpenPlan | src/coreai/router.py:1089-1112 | any other keeps all, reordered by difficulty unless pinned |
| Planning.PlanRepeats | src/coreai/router.py:1298-1314 | in the final plan only the first choice of the planned order may occur twice, and then twice in a row |
| Planning.PlanAnyRepeats | src/coreai/router.py:1298-1314 | before reordering the repeated first choice takes the first two places |
| Planning.ReorderStable | src/coreai/router.py:1114-1132 | reordering by difficulty is a permutation that keeps the order within local and within cloud candidates |
| Planning.ReorderParts | src/coreai/router.py:1114-1132 | the wanted kind comes first and the other kind after it, each in its old order |
| Planning.FirstStaysIff | src/coreai/router.py:1114-1132 | the planned first choice stays first exactly if it is of the wanted kind or no candidate is |
| Planning.FirstRepeatsIff | src/coreai/router.py:1298-1314 | only the first choice of the final plan repeats if and only if the plan is not reordered, no provider repeats, the planned first choice is of the wanted kind, or no candidate is |
| Planning.ReorderRepeatsIff | src/coreai/router.py:1114-1132 | the same for reordering any candidate list in which only the first may repeat |
| Planning.RepeatNeedNotBeFirst | src/coreai/router.py:1298-1314 | an easy request under a policy with two cloud models repeats the cloud provider behind a local one |
| Planning.Screen | src/coreai/router.py:1190-1228 | pinned or single candidates that cannot serve give their own error; otherwise exactly those that can serve are kept, and a budget problem is reported before any other when none is left |
| Breaker.CircuitBreaker.Current | src/coreai/circuit_breaker.py:50-58 | asking for the state moves an open breaker to half-open once its timeout has passed |
| Breaker.CircuitBreaker.WouldAdmit | src/coreai/circuit_breaker.py:60-67 | the answer `allow` would give, without taking a probe |
| Breaker.CircuitBreaker.Admit | src/coreai/circuit_breaker.py:69-78 | admission, taking a probe in half-open |
| Breaker.CircuitBreaker.RecordSuccess | src/coreai/circuit_breaker.py:80-92 | a success closes a half-open breaker and clears the count of a closed one |
| Breaker.CircuitBreaker.RecordFailure | src/coreai/circuit_breaker.py:94-104 | a failure opens the breaker from half-open or at the threshold |
| Breaker.CircuitBreaker.GiveBack | src/coreai/circuit_breaker.py:106-110 | an admission without outcome returns its probe |
| Breaker.CircuitBreaker.OpenNow | src/coreai/circuit_breaker.py:118-123 | opening counts, restarts the timeout and forgets probes |
| Breaker.ClosedBelowThreshold | src/coreai/circuit_breaker.py:94-104 | while closed, the failure count is below the threshold, in any order of events |
| Breaker.CountsSinceSuccess | src/coreai/circuit_breaker.py:80-104 | while closed, the failure count is the number of failures after the last success |
| Breaker.OpensAtThreshold | src/coreai/circuit_breaker.py:94-123 | a closed breaker opens with the failure that makes them as many as the threshold, and with nothing else |
| Breaker.ProbeDecides | src/coreai/circuit_breaker.py:50-123 | a half-open breaker is closed by a success, opened again by a failure, and left by nothing else; an open one ignores everything until its timeout has passed |
| Breaker.HalfOpenAdmissions | src/coreai/circuit_breaker.py:69-110 | a half-open breaker counts the calls admitted and not given back; so it admits no more than allowed plus one for each given back |
| Breaker.OpeningsApart | src/coreai/circuit_breaker.py:50-58 | consecutive openings are at least a reset timeout apart |
| Breaker.OpenedAtMost | src/coreai/circuit_breaker.py:118-123 | the number of openings is at most one plus the time since the first over the reset timeout |
| Breaker.LeavingOpenTakesReset | src/coreai/circuit_breaker.py:50-58 | a breaker that was opened and is not open has waited its reset timeout |
| Breaker.AdmittedByOpenings | src/coreai/circuit_breaker.py:69-104 | while every call fails, one at a time, admissions are the threshold plus one per later opening |
| Breaker.AdmittedAtMost | src/coreai/circuit_breaker.py:69-104 | against a provider that always fails, admissions are at most the threshold plus the time since the first opening over the reset timeout |
| Limiter.TokenBucket.TakeReservation | src/coreai/limiter.py:58-71 | a reservation refills, charges at most the capacity and returns the wait until its debt is refilled |
| Limiter.TokenBucket.GiveBack | src/coreai/limiter.py:73-75 | a refund never fills the bucket beyond its capacity |
| Limiter.ProviderLimiter.Acquire | src/coreai/limiter.py:113-175 | with a slot a request is rejected exactly if the wait both buckets ask for exceeds what is left of its limit, interrupted exactly if cancelled during a wait it may take, and otherwise admitted, holding one slot, at the instant both have covered it; a rejected one leaves slots and counters, and both buckets as if only refilled |
| Limiter.RateWaitCoversBoth | src/coreai/limiter.py:146-160 | the wait of a request covers its debt in both buckets, and no more than the later |
| Limiter.ProviderLimiter.Release | src/coreai/limiter.py:177-181 | a slot is returned only while one is held |
| Limiter.RefundUndoesReserve | src/coreai/limiter.py:146-175 | reserving and refunding at one instant leaves exactly the refilled bucket |
| Limiter.RateConformance | src/coreai/limiter.py:43-75 | in any window, the charges a bucket covers are at most its capacity plus its rate times the window |
| Limiter.ChargedBetween | src/coreai/limiter.py:43-75 | the same from any covered reservation to any later one |
| Limiter.CoveredInOrder | src/coreai/limiter.py:58-71 | a bucket covers reservations in the order they were made |
| Limiter.AdmittedInOrder | src/coreai/limiter.py:146-175 | requests pass in reservation order even under the later of two buckets |
| Limiter.ConformanceUnderTwo | src/coreai/limiter.py:146-175 | by the instants requests really pass, a window exceeds the bound by at most the refill its first request was held back for by the other bucket |
| Limiter.HeldBackRequestsOvershoot | src/coreai/limiter.py:146-175 | two requests a minute and 1200 tokens a minute let three requests pass within ten seconds |
| TwoBuckets.ConformIff | src/coreai/limiter.py:113-175 | with costs from lo to hi tokens, each of the two rates is kept by the instants requests pass, in every window of every run, if and only if the dearest request costs no larger share of the token rate than of the request rate, or the cheapest no smaller one |
| TwoBuckets.OneSidedConforms | src/coreai/limiter.py:113-175 | with costs on one side of the balance of the rates both bounds hold |
| TwoBuckets.TwoSidedBreaks | src/coreai/limiter.py:113-175 | with costs on both sides a burst of dear requests and then cheap ones breaks the request rate, and the opposite burst the token rate, for any two rates |
| TwoBuckets.AdmittedByHeavier | src/coreai/limiter.py:146-175 | if every request is a larger share of one bucket, that bucket alone decides when requests pass |
| CronSearch.Field | src/harness/cron.py:15-33 | a field is accepted exactly if all its parts are valid, and then holds exactly the values its parts select |
| CronSearch.PartSelects | src/harness/cron.py:15-33 | what each form of a part selects: the values from its start to its end in steps |
| CronSearch.Parse | src/harness/cron.py:35-48 | accepted exactly if all five fields are; 7 means Sunday |
| CronSearch.NextAfter | src/harness/cron.py:55-72 | the result is a full minute after the given time at which minute, hour, month and day fields hold on the Gregorian calendar, by both day fields if one is a star and by either otherwise, and no earlier one does; without a result none ever does |
| CronSearch.FiresIffMatches | src/harness/cron.py:49-53 | seconds since 1970 and minutes of the calendar agree on which minutes match |
| CronSearch.SkipAhead | src/harness/cron.py:58-71 | each jump passes over non-matching minutes only |
| CronSearch.MonthAdvances | src/harness/cron.py:58-71 | adding 32 days to the first and going back to day one is the next month, and nothing between matches |
| CronSearch.HourAdvances | src/harness/cron.py:58-71 | the jump to the next full hour passes over non-matching minutes only |
| CronSearch.NextFittingDay | src/harness/cron.py:49-53 | if any day fits, one fits within a bounded number of days of every day, 29 February across a skipped leap year included |
| CronSearch.FuelDecreases | src/harness/cron.py:55-72 | every jump lowers a bounded measure of the steps left to the next match, so the loop's limit is never reached before it |
| Calendar.DateOfOrdinal | src/harness/cron.py:55-72 | counting days and reading the date back is the identity on the Gregorian calendar |
| Calendar.OrdinalOfDateOf | src/harness/cron.py:55-72 | and the other way round |
| Calendar.OrdinalIsCivil | src/harness/cron.py:55-72 | the day number of a date is the usual closed form of the Gregorian rules |
| Calendar.EpochDay | src/harness/cron.py:55-72 | 1970-01-01 is day 719162 from 0001-01-01 |
| Context.Turns | src/harness/context.py:28-37 | the turns put together are the history, and tool results stay in the turn of their call |
| Context.Compact | src/harness/context.py:47-100 | a history is changed exactly if it is too long; turns are dropped from the front while it is still too long with a note and no longer, the last turn stays, and exactly the dropped messages are what the note condenses |
| Context.DropOldest | src/harness/context.py:70-94 | the messages dropped are those before the first turn from which the history fits, or before the last turn if none does |
| Context.CompactedIsWellFormed | src/harness/context.py:47-100 | compaction keeps every tool call with exactly its results, the task untouched and the last message |
| Context.ShrunkAt | src/harness/context.py:60-69 | only tool results outside the recent window and longer than 300 characters are shortened, to their first 300 |
| Context.BlocksSuffix | src/harness/context.py:74-94 | a tail that does not start with a tool result is made of complete exchanges |
| Harness.HarnessRunner.Execute | src/harness/runner.py:179-224 | over any resumes, every history ever sent is well formed with the task first, and tools that need approval ran only after an approval of that very call; the run goes on until an answer of the environment stops it, and gets the status and reason for that answer; a decision applies to the call it was asked about; a finished run is not touched |
| Harness.HarnessRunner.Resume | src/harness/runner.py:197-206 | a resumed run finishes the calls it waited for, with the decision for the first; a new one makes its plan first, if it is to |
| Harness.HarnessRunner.Turn | src/harness/runner.py:207-224 | one turn ends the run or completes one step within the limit |
| Harness.HarnessRunner.Plan | src/harness/runner.py:239-295 | the plan is asked for once and put behind the task |
| Harness.HarnessRunner.Tools | src/harness/runner.py:379-441 | calls are answered in order, once each, or the run waits with the unanswered rest pending |
| Harness.HarnessRunner.OneCall | src/harness/runner.py:379-441 | a call that needs approval makes the run wait without being made; one a human denied is answered without being made; any other is made once, and its output is the answer |
| Harness.HarnessRunner.Wait | src/harness/runner.py:443-453 | the waiting run stores the history and the calls still to answer |
| Harness.HarnessRunner.Model | src/harness/runner.py:316-377 | what is sent is the kept history, compacted if it is too long, and the reply is the one acted on |
| Harness.HarnessRunner.End | src/harness/runner.py:486-515 | the stored history is the run's, and only a pause can be resumed |
| Harness.ResultAnswers | src/harness/runner.py:379-441 | a result for the first open call leaves exactly the other calls open |
| Harness.RunKeepsApproved | src/harness/runner.py:379-441 | running a call keeps the approval rule if it was asked about and approved just before |
| Cache.MemoryCache.Get | src/coreai/cache.py:63-71 | a hit is the latest value set and not expired; an unexpired key hits if fewer than the limit of other keys were touched since |
| Cache.MemoryCache.Set | src/coreai/cache.py:73-85 | negative lifetimes are refused, 0 deletes, anything else is found afterwards; evictions are counted exactly |
| Cache.MemoryCache.Purged | src/coreai/cache.py:87-93 | exactly the expired entries leave, and their number is returned |
| Cache.HitIsLatest | src/coreai/cache.py:63-71 | in every run a stored entry is what was last set and not deleted |
| Cache.MustHit | src/coreai/cache.py:63-84 | in every run an unexpired, undeleted key is found while fewer than the limit of other keys were touched since |
| Cache.NeverOverfull | src/coreai/cache.py:73-84 | the number of entries never exceeds the limit |
| Cache.LeavesOnlyIf | src/coreai/cache.py:73-84 | a live entry leaves only by deletion, clearing, replacement, or when more live entries than the limit exist |
| Cache.RoomForAll | src/coreai/cache.py:73-84 | with room for it a new value drops nothing else, expired or not |
| Cache.ExcessIsEvicted | src/coreai/cache.py:73-84 | the evictions counted are the live items pushed out |
| Window.RateLimit.Check | src/api/middleware.py:68-99 | the object computes the step the theorems are about |
| Window.DecidedByHistory | src/api/middleware.py:68-113 | accepted or refused depends on the history of accepted requests and the last sweep alone, and exactly how |
| Window.NeverMoreThanRpm | src/api/middleware.py:68-99 | at most the limit of accepted requests of a client in any half-open minute, whatever is swept |
| Window.AcceptedSpaced | src/api/middleware.py:89-99 | an accepted request is a minute later than the one as many places before it as the limit |
| Window.TableBounded | src/api/middleware.py:79-87 | the table of clients never outgrows its bound |
| Window.WaitingForWindow | src/api/middleware.py:89-99 | whoever else asks meanwhile, a client refused for its full window that asks again after exactly the unrounded wait is let in if and only if it is still active at the sweep due then or fewer clients are active than the table holds |
| Window.WaitingFreesWindow | src/api/middleware.py:93-96 | in particular it is let in if all other requests meanwhile come before that moment |
| Window.WaitingForTable | src/api/middleware.py:79-113 | whoever else asks meanwhile, a client refused for a full table that asks again after the minute is let in if and only if fewer clients are active at the sweep due then than the table holds |
| Window.WaitingFreesTable | src/api/middleware.py:80-85 | in particular it is let in if nobody asks meanwhile |
| Window.TableMayStayFull | src/api/middleware.py:80-113 | with other requests meanwhile, a full table may still be full after the minute |
| Window.PlaceMayBeTaken | src/api/middleware.py:80-113 | a request at the very moment a place gets free may take it |
| Budgets.BudgetManager.Check | src/coreai/budgets.py:189-213 | a request of a caller or for a model is refused exactly if it would go over a limit, in the order requests, tokens, cost; the limit is named and the refusal counted |
| Budgets.BudgetManager.Current | src/coreai/budgets.py:177-187 | usage starts over in a new window, the subject becomes the most recent, and the table is trimmed |
| Budgets.BudgetManager.Count | src/coreai/budgets.py:215-234 | recording adds to the current window and warns if due |
| Budgets.BudgetManager.Status | src/coreai/budgets.py:236-258 | a query tells the usage of the current window, and also makes the subject the most recent one, which may evict another |
| Budgets.OvershootBounded | src/coreai/budgets.py:177-234 | with at most k requests between check and record, and fewer other limited subjects than the table holds acting between two acts of this one, no window counts more than the cap plus k-1, requests straddling windows included |
| BudgetLaws.DecidedBySpending | src/coreai/budgets.py:189-234 | for a subject not forgotten meanwhile, a check passes or names its limit by the requests, tokens and cost recorded in the window it falls into |
| BudgetLaws.WindowOf | src/coreai/budgets.py:177-187 | a window starts at a multiple of its length and holds the moments up to the next |
| BudgetLaws.RefusalsCounted | src/coreai/budgets.py:196-213 | the number of rejections is the number of checks that did not pass |
| BudgetLaws.AlertedExactly | src/coreai/budgets.py:116-142 | exactly one alert for each window in which a check was refused, and one for each in which the cost recorded reached the warning |
| Budgets.AlertedOnce | src/coreai/budgets.py:116-137 | each kind of alert is sent at most once per subject and window, if fewer other limited subjects than the table holds act between two acts of this one |
| Budgets.ZeroBlocksEverything | src/coreai/budgets.py:189-213 | after any run a limit of 0 blocks every request, whichever limit it is |
| Budgets.TableBounded | src/coreai/budgets.py:177-187 | the usage table never exceeds its bound |
| Budgets.TrackedIff | src/coreai/budgets.py:160-240 | after any run of checks, records and queries, of callers and of models, a subject is in the table if and only if it acted and fewer distinct other limited subjects than the table holds acted since |
| Budgets.NeverDroppedIff | src/coreai/budgets.py:160-240 | a subject is never evicted if and only if fewer others than the table holds act between two of its acts |
| Budgets.DroppedSubjectStartsOver | src/coreai/budgets.py:177-187 | a subject that is evicted passes its cap again in the same window |
| Ledger.UsageLedger.Record | src/coreai/usage.py:79-110 | a call is added to its hour's row, placed by hour even when the clock went back, and old rows are pruned |
| Ledger.UsageLedger.Prune | src/coreai/usage.py:70-77 | rows leave from the oldest end |
| Ledger.UsageLedger.Summarise | src/coreai/usage.py:112-167 | bad bounds are refused; otherwise matching rows are aggregated by period and chosen dimensions |
| Ledger.EveryRun | src/coreai/usage.py:70-110 | whatever the clock does, rows stay sorted, one per bucket, within the row limit and the retention of the last call |
| Ledger.PrunesPrefix | src/coreai/usage.py:70-77 | pruning drops exactly a prefix: rows past retention or over the limit, and none that is neither |
| Ledger.RowsAccount | src/coreai/usage.py:79-110 | for every choice of hours and dimensions, the rows add up to the calls recorded and not pruned since |
| Ledger.ReportSums | src/coreai/usage.py:139-153 | for every choice of groups, a report adds up to the matching rows of those groups |
| Ledger.ReportTotals | src/coreai/usage.py:139-153 | unrounded report totals are the totals of the matching rows |
| Ledger.GroupsListed | src/coreai/usage.py:139-153 | a group is listed exactly if some matching row belongs to it |
| Ledger.DayRollsUp | src/coreai/usage.py:137-153 | in every run the day report lists exactly the days of the hour report, each with the sum of its hours |
| Ledger.DaysAreHoursDays | src/coreai/usage.py:137-153 | a day is listed if and only if one of its hours is |
| Ledger.BoundsExact | src/coreai/usage.py:127-147 | hour-aligned bounds select exactly the retained calls made from `since` up to but not including `until` |
| LedgerLaws.LineIsSum | src/coreai/usage.py:79-153 | in every run each line of a report is the sum of the retained calls made in its hour or day and in the range asked for, with its dimensions |
| LedgerLaws.CallHasLine | src/coreai/usage.py:139-153 | and every such call has its line |
| LedgerLaws.LeavesFor | src/coreai/usage.py:70-77 | a row leaves only if its hour is past retention, or as one of the oldest of too many |
| TaskBoard.Orchestrator.Store | src/coreai/orchestrator.py:73-80 | a status change, and the oldest finished tasks over the limit leave |
| TaskBoard.Orchestrator.CompleteTask | src/coreai/orchestrator.py:171-188 | the task is completed, no longer active, and counted once for its agent |
| TaskBoard.Orchestrator.FailTask | src/coreai/orchestrator.py:190-205 | the same for a failure |
| TaskBoard.Orchestrator.CancelTask | src/coreai/orchestrator.py:207-217 | the task is cancelled and no longer active; unknown tasks are ignored |
| TaskBoard.Orchestrator.AssignTask | src/coreai/orchestrator.py:144-158 | a registered agent gets a pending, active task and its total grows; an unknown agent is refused |
| TaskBoard.SettleKeeps | src/coreai/orchestrator.py:73-80 | settling a task keeps active and finished exact, changes no other task and drops settled ones only |
| TaskBoard.SettleCounts | src/coreai/orchestrator.py:171-217 | settling moves one task of its agent from active to completed, failed or cancelled |
| Tasks.TaskRunner.Submit | src/coreai/task_runner.py:44-52 | a known task joins its agent's queue |
| Tasks.TaskRunner.Take | src/coreai/task_runner.py:54-62 | the queue gives out its first entry; a run starts unless the task is no longer pending |
| Tasks.TaskRunner.Begin | src/coreai/task_runner.py:74-80 | a run that was cancelled before it began does nothing; one without its agent fails the task |
| Tasks.TaskRunner.End | src/coreai/task_runner.py:85-118 | a result counts only while the task still runs; every other end fails it unless it is settled |
| Tasks.TaskRunner.Cancel | src/coreai/task_runner.py:120-129 | exactly unsettled tasks can be cancelled, and a run of theirs is told to stop |
| Tasks.OneRunningPerAgent | src/coreai/task_runner.py:54-80 | in every interleaving two running tasks of one agent are the same task |
| Tasks.SettledForever | src/coreai/task_runner.py:99-129 | once settled, a task keeps its status for as long as it is stored, whatever happens |
| Tasks.StoreExact | src/coreai/orchestrator.py:73-80 | active exactly while pending or running; finished tasks kept once each and within the limit |
| Tasks.TotalsAddUp | src/coreai/orchestrator.py:144-217 | an agent's total is what completed, failed, was cancelled or is active |
| Tasks.TakesFirst | src/coreai/task_runner.py:44-62 | the task taken is the oldest of the highest-priority pending ones queued |
| Tasks.StepMoves | src/coreai/task_runner.py:54-129 | each step changes at most one task, from pending to running or from unsettled to settled |
| TaskLaws.AssignDoes | src/coreai/orchestrator.py:144-158 | a new task is pending, active and counted, with the agent and priority given |
| TaskLaws.SubmitDoes | src/coreai/task_runner.py:44-52 | submitting adds one entry with the priority of the task to the queue of its agent |
| TaskLaws.DequeueDoes | src/coreai/task_runner.py:54-62 | the entry taken is one no other comes before, and its task is run exactly if it is pending |
| TaskLaws.StartDoes | src/coreai/task_runner.py:74-80 | in every run, a run that begins makes its task running unless stopped, or fails it without its agent |
| TaskLaws.FinishDoes | src/coreai/task_runner.py:85-118 | in every run, a run that ends completes its task if it returned a result, fails it if not, and leaves a settled one alone |
| TaskLaws.CancelDoes | src/coreai/task_runner.py:120-129 | cancelling settles an unsettled task as cancelled and stops its run |
| TaskLaws.CountersExact | src/coreai/orchestrator.py:144-217 | in every run the counters of an agent are the numbers of its tasks assigned, completed and failed |
| SqlSplit.SplitStatements | src/database/migrations.py:70-103 | the loop computes the statements that the laws determine |
| SqlLaws.CutLaw | src/database/migrations.py:78-103 | after any text that ends outside quotes and comments a semicolon separates: what is before and behind it is split alone |
| SqlLaws.CommentLaw | src/database/migrations.py:86-89 | a comment outside quotes is as good as nothing, up to the line feed that ends it |
| SqlLaws.LastCommentLaw | src/database/migrations.py:86-89 | and up to the end of the script on its last line |
| SqlLaws.PieceLaw | src/database/migrations.py:102-103 | a piece without separator or comment is returned, stripped, whatever it says, unless it is empty or BEGIN or COMMIT in any mix of cases |
| SqlSplit.SplitJoinSplit | src/database/migrations.py:70-103 | splitting, joining with semicolons and splitting again gives the same list, for every input |
| SqlSplit.SplitOfJoin | src/database/migrations.py:70-103 | joining any list the splitter can return and splitting it gives the list back |
| SqlSplit.StatementsSplittable | src/database/migrations.py:78-103 | statements hold no separator or comment outside quotes, are stripped, not empty and not BEGIN or COMMIT; only the last may be unterminated |
| SqlSplit.QuotedTextUnchanged | src/database/migrations.py:78-103 | the terminated quotes of the statements are those of the script, in order and unchanged |
| Pii.LuhnValid | src/guardrails/pii.py:16-23 | the loop computes the weighted sum from the right |
| Pii.SingleDigitChange | src/guardrails/pii.py:16-23 | changing one digit of a valid number makes it invalid |
| Pii.NeighbourSwap | src/guardrails/pii.py:16-23 | swapping two different neighbours goes unnoticed exactly for 0 and 9 |
| Pii.OneCheckDigit | src/guardrails/pii.py:16-23 | every prefix has exactly one check digit |
| Pii.Detect | src/guardrails/pii.py:55-68 | findings are in text order and apart from each other |
| Pii.EveryMatchCovered | src/guardrails/pii.py:55-68 | every validated match of a selected rule is kept or overlaps a finding of its own or an earlier rule |
| Pii.Counts | src/guardrails/pii.py:16-30 | a card number counts exactly if it has 13 to 19 digits and the right check digit |
| Pii.DigitsInOrder | src/guardrails/pii.py:26-30 | the digits of a match are its characters from 0 to 9 in order |
| Pii.OnlyMatches | src/guardrails/pii.py:55-68 | every finding is a validated match of a selected rule |
| Pii.Redact | src/guardrails/pii.py:71-80 | the text read character by character, each finding's stretch replaced by its marker |
| PolicyStore.ParsePolicies | src/coreai/policy.py:128-257 | every problem of every policy is reported, and a document is accepted only without any |
| PolicyStore.ParsedAlone | src/coreai/policy.py:149-257 | parsing several policies together is parsing each alone |
| PolicyStore.AcceptedWellFormed | src/coreai/policy.py:149-257 | an accepted policy has weights that add up to one, a chain without repeats, disjoint allow and deny lists, and what its strategy needs |
| PolicyStore.AcceptedMeans | src/coreai/policy.py:149-257 | an accepted policy has the lists, names and limits of its fields, and weights in their proportion or 70 to 30 |
| PolicyStore.ReportedIff | src/coreai/policy.py:149-257 | which problems are reported for a policy, each exactly if its field is wrong |
| PolicyStore.AcceptedAnyway | src/coreai/policy.py:347-355 | what was accepted against the registered providers is accepted without them, so merging edits cannot fail |
| PolicyStore.EffectiveIsInForce | src/coreai/policy.py:313-387 | after any reloads, edits and removals a name's policy is its runtime edit if any, else the last valid file's unless removed at runtime |
| PolicyStore.EditsAndRemovalsDisjoint | src/coreai/policy.py:357-387 | no name is both edited and removed |
| PolicyStore.InvalidChangesNothing | src/coreai/policy.py:320-345 | a rejected file or edit changes no policy, edit or removal |
| PolicyStore.InForceWellFormed | src/coreai/policy.py:313-387 | every policy in force is well formed, as the planner needs it |
| PolicyStore.RemovedNameMayReturn | src/coreai/policy.py:377-387 | a policy set at runtime under a name the file lacks is in force, its removal takes it away, and the next file with the name brings it back unset |
| PolicyStore.StaysAwayIff | src/coreai/policy.py:320-387 | after any history, a removed name has no policy until it is set again, whatever else follows, if and only if the last valid file has the name or it is hidden already |
| PolicyStore.PolicyOverlay.Load | src/coreai/policy.py:320-345 | a reload leaves exactly the policies in force by the history |
| PolicyStore.PolicyOverlay.SetPolicy | src/coreai/policy.py:357-375 | an edit is in force or refused without any change |
| PolicyStore.PolicyOverlay.RemovePolicy | src/coreai/policy.py:377-387 | tells whether the name had a policy in force, and removes it |

## Left out

- HTTP routes, request conversion, authentication, storage back ends, tracing, metrics and user interfaces: input and output around the logic modelled here.
- Floating point: times, money, scores and weights are exact and finite; rounding in reports and in the cron clock, and years beyond 9999, are not modelled.
- Retry waits and jitter: a wait before the next attempt is any length the caller chooses; attempts, kinds of error and deadlines are modelled.
- Semaphore queues: the order in which waiters get slots is arbitrary, and `wait_for` ends exactly at its timeout.
- Changing or dropping providers while calls are in flight: limiters and breakers are those the run started with. `Router.embed` settles some errors only and is left out.
- Limiter.RateConformance: counts what a bucket covers; a waiter cancelled during its rate wait gives its charge back and is not part of the sequence of kept reservations.
- TwoBuckets.ConformIff: is about the buckets alone; concurrency slots only delay reservations, and with too few of them the breaking burst may not occur.
- Streams: after the first chunk a stream ends in any way at any time; idle timeouts and usage counting are not modelled.
- Scores, latencies and provider selection are arbitrary tables; the order among equal scores is stable. Capability and model-budget verdicts in screening are arbitrary. Naming an unknown policy is not modelled.
- Cron text: the fields come already split into parts, with the star flags as the text has them.
- Harness: token estimates, the summariser, model replies and tool results are arbitrary; a crash or cancellation while tools run is not modelled. A compacted history can still be too long: the last turn stays, and the note may be longer than what was allowed for it.
- Tasks: terminating an agent, registering an agent twice and a dispatch that raises a cancellation nobody asked for are not events of the model; the last of these would leave the task running for ever.
- Budgets: changes of limits at runtime, counting several calls of a model at once, and the alert callback's own failures; alerts are the list of those sent.
- Budgets.OvershootBounded: needs that fewer other subjects than the table holds act between two acts of the subject; `Budgets.DroppedSubjectStartsOver` shows why.
- Ledger.UsageLedger.Summarise: groups come in the order they first occur; sorting them by name and rounding costs is not modelled, nor is the CSV export.
- Window: deriving a client's key from headers, rounding the wait in the response header, and a limit below one.
- Pii.Detect: the matches of each pattern are given; digits of a card are ASCII digits. Patterns never match an empty stretch.
- PolicyStore.AcceptedWellFormed: numbers are finite; a policy file may also hold `.nan` and `.inf`, which pass every comparison of the parser, so that the scaled weights are not numbers.
- PolicyStore.ParsePolicies: YAML typing is done (fields are absent, unusable or of their type), and several unknown providers in one field are one problem.
- Cache: copying of values and the Redis back end; keys and values are texts.
- Easier duplicates (legacy agent managers, drain counters, health decay) add nothing hard.
