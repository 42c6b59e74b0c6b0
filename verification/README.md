# InferCore control plane: a verified model

InferCore is a control plane in front of model-serving backends. One request to it is normalised, checked against its
tenant's policy and rate limit, admitted under a concurrency limit, routed to a backend by rules and cost, sent there
with a chain of fallbacks, and recorded in a ledger from which it can be replayed. Beside that path run a health cache,
a bounded store of latency records, a timeout-spike signal, a batching telemetry exporter and a file-backed knowledge
base. This project models these parts in Dafny and proves what they promise, for every input, every run and every
interleaving.

| File | Models | Main results |
|---|---|---|
| `Admission.dfy` | the compare-and-swap slot counter | counter = admitted and unreleased requests under any interleaving, exact verdicts, bounded retries |
| `HealthCache.dfy` | time to live plus single flight, with a second look | probe sweeps are spaced by the time to live, a look hands one out only within it, waiters share one result, callers only get copies |
| `TimeoutSpike.dfy` | the tumbling timeout counter | active means three timeouts in the last minute; a quiet run has at most three in any minute; exact agreement with the rolling rule |
| `Slo.dfy` | the bounded store and the scaling aggregates | capacity, expiry, retention and records that say what the calls said, for any map iteration order; exactly when eviction ends |
| `SamplingOrder.dfy` | what the aggregates owe to iteration order and sort stability | exactly when they depend on neither |
| `Policy.dfy` | policy and the per-tenant limiter | exact decision rule, admissions per second and span, and isolation for any stamps; the plain bounds for ordered stamps |
| `Config.dfy`, `Router.dfy` | validation, rules, default, first healthy, cost | acceptance = well-formedness; routing totality if and only if references resolve; the fold is the argmin |
| `Reliability.dfy` | the fallback chain | the loop makes exactly the one execution its declarative meaning allows; which error fires which trigger |
| `Ledger.dfy`, `Rag.dfy`, `Pipeline.dfy`, `Orchestration.dfy` | the whole run over ledger, steps, slots and signal | traces follow the declared plan, one terminal status, the answer of the first stage to fail, the knowledge base and chunks a run uses |
| `Serving.dfy`, `Replay.dfy` | the run as the server wires it, and its replay | no unhealthy backend is invoked; current and exact replay reproduce the online decisions |
| `EndToEnd.dfy` | a run of the imperative orchestrator followed by a replay from the same store | the trace, row, health and replay theorems, about what the run leaves in the ledger |
| `Interleaving.dfy`, `ConcurrentRuns.dfy` | any number of runs at once, step by step, over one ledger, slot counter, limiter and scaling signal | in every interleaving each run leaves what it would leave alone, for the limiter state and count it found; the shared parts are what their histories make of them |
| `Exporter.dfy` | batching and posting under concurrent flushes | nothing lost, duplicated or reordered before posting; every record enqueued is sent, dropped, in flight or buffered, as multisets |
| `Retrieval.dfy` | tokenizer, overlap score, top five | tokens are the maximal runs, round trip, top-k selection |
| `Text.dfy`, `Types.dfy` | trimming, lowercasing, requests, normalisation | normalisation is idempotent, also through the ledger's JSON |

Concurrent parts (admission, health cache, exporter, whole runs) are state machines over atomic steps of any number of goroutines,
with theorems over every run; beside each stands the class with the code's own fields and loops. Clock readings are
parameters, floating-point numbers are `real`, JSON is lossless except that an empty context is omitted and comes back
nil, and backends, knowledge bases and HTTP answers are arbitrary functions. Unicode tables are a parameter
(`Text.CharTable`).

## What turned out different from the documentation or from expectation

- Validation compares trimmed backend names (`internal/config/config.go:293`, `internal/config/config.go:344`) but lookup
  is exact (`internal/config/config.go:475`). A configuration with a name stored untrimmed can be accepted and then fail
  to route (`Router.UntrimmedNameBreaksRouting`); a fallback rule can be dead because either of its ends is stored
  untrimmed (`Reliability.UntrimmedOriginKillsTheRule`); and exact replay can aim at a name no backend bears
  (`Replay.UntrimmedPrimaryIsMissed`). `Router.RoutingIsTotalIff` says exactly when an accepted configuration routes
  totally, `Reliability.RulesAreLiveIff` when every fallback rule is live, and `Replay.ExactReplayAimsAtPrimaryIff` when
  exact replay aims at the online primary; under the same configuration it never calls another backend
  (`Replay.ExactReplayUnderTheSameConfig`).
- The cost optimiser compares estimated totals with the base's unit cost (`internal/router/rule_router.go:118`), so its
  choice is not always the cheapest by total (`Router.CheaperTotalCanBeIgnored`); `Router.CheapestByTotalIff` gives the
  exact condition.
- A fallback rule's trigger only decides whether to move on; the next candidate is the next in the list, not the target
  of the rule that fired (`Reliability.FiringRuleDoesNotPickTheTarget`); the target is called next exactly when the next
  runnable candidate bears its name (`Reliability.NextCandidateIsCalled`).
- A failed execution reports `UsedFallback` as soon as fallback candidates existed, called or not
  (`Reliability.UncalledFallbackCountsAsUsed`); `Reliability.FailureFlagIff` says exactly when the report agrees with a
  fallback having been called. The error of a candidate skipped at the end hides that of the last call
  (`Reliability.SkippedFallbackHidesTheDeadline`), exactly under the condition of `Reliability.FailureErrorIff`; with a
  probed health snapshot that cannot happen (`Serving.ProbedFailureIsTheLastCalls`), so no deadline is hidden from the
  504 answer or the spike signal.
- The limiter reads the clock before taking the lock (`internal/policy/basic_engine.go:89-90`). With stamps out of order
  a tenant can exceed its limit within a second (`Policy.OutOfOrderStampsExceedTheLimit`). For any stamps,
  `Policy.PerSecondRuleIff` says exactly which calls the per-second rule decides, `Policy.AdmittedIsTheBlockSum` and
  `Policy.SpanBoundIff` how many calls are admitted in a second or a span and so when the bounds hold, and
  `Policy.IsolationIff` when a decision ignores the other tenants, which it need not
  (`Policy.AnotherTenantUnlocksTheLimit`).
- The comment on the spike threshold calls the window rolling (`internal/server/server.go:67`); it tumbles.
  `TimeoutSpike.RollingRuleIff` says exactly when the two differ. A quiet run has at most three timeouts in any
  minute, and three do occur (`TimeoutSpike.ThreeTimeoutsCanGoUnnoticed`).
- A record with an empty request id that is strictly the oldest stalls capacity eviction for good
  (`Slo.EmptyIdStalls`). `Slo.NoIdleRoundIff` says exactly when the loop ends whatever the iteration order, and that is
  all `Slo.MemoryEngine.Record` asks for.
- Ties in completion time can make the scaling aggregates depend on map iteration order
  (`SamplingOrder.AmbiguityIsReachable`): exactly when there are four samples or more and two tied across the
  midpoint count differently (`SamplingOrder.AggregatesAreDeterminedIff`).

## Model

| member | source | states |
|---|---|---|
| Admission.CounterIsTheHolders | internal/server/server.go:243-273 | over every interleaving of load, swap, add and release steps of any number of goroutines the counter equals the number of admitted, unreleased requests, and in reject mode never exceeds the limit |
| Admission.Verdicts | internal/server/server.go:250-272 | a request is rejected only in reject mode and only while exactly `limit` requests hold a slot; it is degraded exactly when the count at its winning swap was at or above the limit |
| Admission.FailedSwapsAreBounded | internal/server/server.go:255-271 | failed swaps are at most the counter changes times the largest number of goroutines between load and swap at any moment of the run, and at most the changes times the other goroutines |
| Admission.UndisturbedSwapSucceeds | internal/server/server.go:255-271 | a swap fails only if another goroutine changed the counter since the load |
| Admission.CounterReturnsToZero | internal/server/server.go:243-273 | once every run was rejected or released its slot, the counter is 0 |
| Admission.StepInv | internal/server/server.go:243-273 | every atomic step keeps the protocol's invariant |
| Admission.ModeOf | internal/server/server.go:245-252 | unlimited exactly without a positive limit; otherwise that limit, and of the actions validation accepts exactly a blank one and "degrade" degrade |
| Admission.InferSlots.BeginInferLoad | internal/server/server.go:243-273 | with arbitrary changes by others between load and swap, the counter moves by their sum plus the slot taken, and reject and degrade are decided by the count found |
| HealthCache.SweepsAreSpaced | internal/server/server.go:275-303 | under any concurrent callers at most one probe sweep runs at a time and each starts at least the time to live after the completion recorded for the one before |
| HealthCache.WaitersShareTheResult | internal/server/server.go:285-302 | a waiter always has a leader, and gets the leader's result when the flight ends |
| HealthCache.HandedOutIsRecent | internal/server/server.go:281-312 | a sweep is handed out without probing, at the first look or the second, exactly if it is the last and was completed less than the time to live before |
| HealthCache.StaleCallerSweeps | internal/server/server.go:285-302 | a caller that asks the time to live or more after the last completion, with no flight to join, probes anew and is handed that sweep, stamped with its completion |
| HealthCache.WithoutRecheckSweepsCrowd | internal/server/server.go:286-289 | without the second look inside the flight two sweeps can follow at once |
| HealthCache.StepInv | internal/server/server.go:275-312 | every step of the cache protocol keeps its invariant |
| HealthCache.ProbeBackendHealth | internal/server/server.go:316-330 | the snapshot names every configured backend, false without an adapter and otherwise what the adapter answers |
| HealthCache.ProbedSelectableHasAdapter | internal/server/server.go:316-330 | a configured backend that routing may select from a probed snapshot has an adapter and answered healthy |
| HealthCache.ProbedExactly | internal/server/server.go:316-330 | a probed snapshot names exactly the configured backends and marks one healthy exactly if it has an adapter that answered so |
| HealthCache.Cache.PeekFresh | internal/server/server.go:305-312 | answers exactly if there is a snapshot stored less than the time to live before, with a new copy of it |
| HealthCache.Cache.CachedBackendHealth | internal/server/server.go:276-303 | returns a new map: of the snapshot if fresh, of the result of the flight joined, or of the snapshot the caller's own flight leaves, kept if fresh by then and otherwise probed anew and stamped with its completion; fresh means stored less than the time to live before |
| HealthCache.CallerCannotAlterTheCache | internal/server/server.go:276-312 | whatever a caller writes into the map it got, the cached snapshot and the map shared by waiters keep their contents |
| TimeoutSpike.SpikeSignal.RecordTimeoutSpike | internal/server/server.go:852-861 | opens a window at the first timeout or more than a minute after the last opening, and counts in it |
| TimeoutSpike.SpikeSignal.TimeoutSpikeActive | internal/server/server.go:863-870 | active exactly when the window is no older than a minute and holds three timeouts |
| TimeoutSpike.SpikeSignal.NoteTimeoutForScaling | internal/server/server.go:838-850 | only deadline errors and upstream timeouts are recorded |
| TimeoutSpike.CounterCountsTheWindow | internal/server/server.go:852-861 | the counted timeouts all lie in the full history since the window opened, within a minute of it |
| TimeoutSpike.ActiveMeansThreeInTheLastMinute | internal/server/server.go:863-870 | whenever the signal is active, at least three timeouts of the full history lie in the last minute |
| TimeoutSpike.QuietRunsHaveAtMostThreePerMinute | internal/server/server.go:852-870 | if the signal is never active throughout a run, any one-minute interval contains at most three timeouts |
| TimeoutSpike.ThreeTimeoutsCanGoUnnoticed | internal/server/server.go:67-68 | a run with three timeouts within a minute in which the signal is never active |
| TimeoutSpike.RollingRuleIff | internal/server/server.go:852-870 | exactly when the tumbling window agrees with the rolling rule |
| Slo.MemoryEngine.constructor | internal/slo/memory_engine.go:31-45 | non-positive settings give 10000 records and ten minutes |
| Slo.MemoryEngine.Record | internal/slo/memory_engine.go:47-77 | updates the record of the call, inserting it if absent, then evicts: expired records go, at most `maxRecords` and as many as possible stay, none dropped for capacity is newer than one kept; asks only for what eviction needs to end |
| Slo.MemoryEngine.EvictLocked | internal/slo/memory_engine.go:193-203 | the eviction loop ends and leaves what `Evicts` allows, for any map iteration order |
| Slo.MemoryEngine.DropExpired | internal/slo/memory_engine.go:194-199 | exactly the unexpired records stay |
| Slo.MemoryEngine.EvictOneOldest | internal/slo/memory_engine.go:212-230 | removes some oldest record, unless its id is empty |
| Slo.ReachesCapacity | internal/slo/memory_engine.go:200-230 | a round of capacity eviction makes progress for every iteration order exactly when the empty id is not among the oldest; a strictly oldest empty id stalls it |
| Slo.NoIdleRoundIff | internal/slo/memory_engine.go:200-202 | every iteration order reaches capacity without an idle round if and only if the empty id is not live or at least as many live records are strictly older as have to go |
| Slo.EmptyIdStalls | internal/slo/memory_engine.go:200-230 | with room for one record, an empty id followed by another id leaves the loop of the second call where it is for good |
| Slo.StoreStaysBounded | internal/slo/memory_engine.go:193-230 | after every call of any sequence at most `maxRecords` records, none expired at that call's eviction time, and at most one capacity eviction per call |
| Slo.UncompletedRecordsAreRetained | internal/slo/memory_engine.go:184-230 | with an increasing clock and completions not in the future, an uncompleted record within its age is dropped only after `maxRecords` distinct other ids were touched since its insertion |
| Slo.PresentRecordsAgreeWithTheLog | internal/slo/memory_engine.go:47-77 | while a record is present it and its snapshot equal those of a store that never evicts, fed with the calls since the insertion |
| Slo.LogFromFirstTouch | internal/slo/memory_engine.go:184-191 | for an id first touched there, that is the log of the whole run |
| Slo.LogRecordsTheCalls | internal/slo/memory_engine.go:47-77 | in a store that never evicts, a record has the clock of the call that inserted it, the stamps of the last start, first-token and completion calls for its id, none where there was no such call, and the fallback flag exactly if a fallback was recorded |
| Slo.PresentRecordsHoldTheirCalls | internal/slo/memory_engine.go:47-77 | the same of a record present ever since its insertion, whatever was evicted meanwhile |
| Slo.EvictsIff | internal/slo/memory_engine.go:193-230 | eviction keeps records as they are, at most `maxRecords`, each completed, or else inserted, no more than `maxAge` ago; it drops another such one only if `maxRecords` are left, none older |
| Slo.SnapshotOf | internal/slo/memory_engine.go:141-182 | durations are the elapsed whole milliseconds, never negative; a per-token time is given exactly when a millisecond passed after the first token, and is a 32nd of that time but at least 1 |
| Slo.ElapsedMs | internal/slo/memory_engine.go:150-176 | the whole milliseconds between two stamps, and 0 if one is missing or they are out of order |
| Slo.MemoryEngine.SnapshotFor | internal/slo/memory_engine.go:141-182 | the stored record's snapshot, or zeros for an unknown id |
| Slo.MemoryEngine.ScalingAggregates | internal/slo/memory_engine.go:79-139 | the aggregates of some sampling that holds each completed record once, sorted by completion |
| Slo.MemoryEngine.CollectSamples | internal/slo/memory_engine.go:83-103 | one sample for each completed record, in any order |
| Slo.SampleMeaning | internal/slo/memory_engine.go:91-103 | there is one sample for each record with a start and an end, with its end, its flag and the milliseconds from start to first token, or to the end without one |
| Slo.Summarise | internal/slo/memory_engine.go:107-138 | the running sums give the aggregates of the two halves |
| Slo.AggregatesRanges | internal/slo/memory_engine.go:104-138 | the ratio is not negative, the rate lies in 0..1, fewer than four samples give 1 and 0, the newer half ends no earlier than the older |
| Slo.EqualTtftGivesRatioOne | internal/slo/memory_engine.go:113-138 | equal times to first token of at least a millisecond give ratio 1 |
| Slo.ConstantHalvesGiveTheirRatio | internal/slo/memory_engine.go:108-128 | if the times to first token are constant in each half, the ratio is the newer one over the older, or over one millisecond if that is more |
| Slo.RateIsTheShare | internal/slo/memory_engine.go:130-138 | from four samples on the rate is the share of fallbacks in the newer half |
| SamplingOrder.AggregatesIgnoreIterationOrder | internal/slo/memory_engine.go:82-139 | with pairwise distinct completion times there is only one sorted sampling |
| SamplingOrder.AggregatesAreDeterminedIff | internal/slo/memory_engine.go:104-139 | the aggregates depend on neither iteration order nor sort stability if and only if there are fewer than four samples or samples tied across the midpoint have equal times to first token and fallback flags |
| SamplingOrder.SwappedTies | internal/slo/memory_engine.go:104-139 | swapping two tied samples that count differently gives a sorted sampling with other aggregates |
| SamplingOrder.AgreeingTiesDetermine | internal/slo/memory_engine.go:104-139 | if ties across the midpoint count alike, any two sorted samplings have the same aggregates |
| SamplingOrder.TiesMakeAggregatesAmbiguous | internal/slo/memory_engine.go:104-139 | a store with two sorted samplings of different ratio |
| SamplingOrder.AmbiguityIsReachable | internal/slo/memory_engine.go:47-139 | eight Record* calls with an increasing clock lead to such a store |
| Policy.BasicEngine.AllowByRateLimit | internal/policy/basic_engine.go:84-105 | the limiter's state and verdict are those of the specification's step |
| Policy.BasicEngine.Evaluate | internal/policy/basic_engine.go:29-82 | the decision and the limiter afterwards are those of `Decide` |
| Policy.CounterMeaning | internal/policy/basic_engine.go:84-105 | a tenant's counter is its number of calls in the current block of equal stamps, capped at its limit |
| Policy.AdmittedIffBelowLimitInBlock | internal/policy/basic_engine.go:84-105 | for any stamps, a limited call is admitted exactly when the tenant made fewer calls than its limit in the current block of equal stamps |
| Policy.AdmittedIffAmongFirstInSecond | internal/policy/basic_engine.go:84-105 | with stamps in lock order, a tenant's i-th limited call in a second is admitted exactly when i is at most its limit |
| Policy.DecisionsIgnoreOtherTenants | internal/policy/basic_engine.go:84-105 | removing all other tenants' calls from the run changes none of a tenant's decisions |
| Policy.AdmittedInOneSecond | internal/policy/basic_engine.go:84-105 | a tenant is admitted in a second as often as it calls, up to its limit |
| Policy.SpanBound | internal/policy/basic_engine.go:84-105 | over any span of k seconds a tenant is admitted at most k times its limit |
| Policy.OutOfOrderStampsExceedTheLimit | internal/policy/basic_engine.go:89-92 | with stamps out of order the per-second bound can fail |
| Policy.PerSecondRuleIff | internal/policy/basic_engine.go:89-105 | for any stamps, a call is decided by the tenant's earlier calls in the second unless these, but not those of the current block, have used up the limit |
| Policy.AdmittedIsTheBlockSum | internal/policy/basic_engine.go:84-105 | for any stamps, a tenant's admissions in a second are the sum over the second's blocks of its calls there, up to the limit each |
| Policy.SpanBoundIff | internal/policy/basic_engine.go:84-105 | for any stamps, the admissions over k seconds are the block sums, and stay within k times the limit exactly when these do |
| Policy.IsolationIff | internal/policy/basic_engine.go:84-105 | for any stamps, removing the other tenants' calls changes a decision exactly when it joins blocks to one that has used up the limit |
| Policy.AnotherTenantUnlocksTheLimit | internal/policy/basic_engine.go:91-95 | a call admitted only because another tenant's call reset the window in between |
| Policy.DecideIsOneCall | internal/policy/basic_engine.go:29-105 | an evaluation is one call of the limiter, if nothing else speaks against the request, and allows exactly if that call is admitted |
| Policy.AllowedIff | internal/policy/basic_engine.go:29-82 | allowed exactly when the tenant is known, agent use is enabled and in limits, the estimate fits the budget and the limiter admits; earlier refusals leave the limiter alone |
| Policy.DecisionReason | internal/policy/basic_engine.go:29-82 | the reason is the first thing that speaks against the request, in the order tenant, agent use, agent limits, budget in tokens, rate limit, and otherwise "allowed" |
| Policy.FilledMeaning | internal/policy/basic_engine.go:38-44 | a request keeps its own priority and gets its tenant's exactly if it has none; in all else filling in is normalising |
| Policy.BudgetInTokens | internal/policy/basic_engine.go:180-186 | a budget pays for one unit and 256 tokens for each further one; without a limit 256 tokens count |
| Policy.FilledTwice | internal/policy/basic_engine.go:38-44 | filling in priority and defaults gives the same after a trip through the ledger's JSON and normalisation, and nothing new the second time |
| Policy.DecisionSurvivesTheLedger | internal/policy/basic_engine.go:29-82 | policy decides on the request a row stands for as on the request that was run |
| Config.BackendByName | internal/config/config.go:473-480 | finds a backend of exactly that name if there is one |
| Config.LookupIsEarliest | internal/config/config.go:473-480 | the backend found is the earliest of that name |
| Config.TenantByID | internal/config/config.go:464-471 | finds a tenant of exactly that id if there is one |
| Config.ValidateBackends | internal/config/config.go:287-345 | accepts exactly non-blank, supported, pairwise distinct trimmed names, and collects them |
| Config.ValidateTenants | internal/config/config.go:347-357 | accepts exactly non-blank, pairwise distinct trimmed ids |
| Config.AcceptedTenantsAreFound | internal/config/config.go:347-357 | in an accepted configuration every tenant is found under its id, and a blank id finds none |
| Config.ValidateRules | internal/config/config.go:363-375 | accepts exactly named, pairwise distinct rules with known targets |
| Config.ValidateAction | internal/config/config.go:377-383 | accepts exactly a blank overload action, "reject" and "degrade", trimmed and in any case |
| Config.ValidateFallback | internal/config/config.go:385-400 | accepts exactly rules with known ends and at least one trigger, all of them known |
| Config.ValidateTimeouts | internal/config/config.go:262-281 | accepts exactly HTTP timeouts between 0 and 24 hours |
| Config.Validate | internal/config/config.go:283-400 | accepts exactly the well-formed configurations |
| Config.ReferenceResolvesIffTrimmed | internal/config/config.go:293-344 | a reference that validation accepted resolves by exact lookup exactly when the backend it names is stored trimmed |
| Config.ValidatedReferencesResolve | internal/config/config.go:359-391 | with trimmed names every reference of an accepted configuration resolves |
| Router.SelectRouteImpl | internal/router/rule_router.go:24-36 | the route is that of the specification, error cases included |
| Router.OptimizeByCost | internal/router/rule_router.go:109-150 | the loop keeps the base unless an eligible total is below the base's unit cost, and then takes the least total, earliest first; a degraded request keeps the base |
| Router.DegradedRoutingKeepsTheBase | internal/router/rule_router.go:24-36 | a context already done is all the router looks at; otherwise a degraded request goes to the documented base choice and any other to the cost choice from it |
| Router.CostChoiceMayServe | internal/router/rule_router.go:117-150 | the choice is the base or a backend not marked unhealthy that has a capability for the task type and fits the budget, at its estimated total and with a reason naming the base's; no such backend is estimated below it |
| Router.ServesIff | internal/router/rule_router.go:152-174 | a backend serves a task type if it has a capability sufficient for it: chat or summarization for "simple", reasoning for "complex", its own name otherwise; any backend serves a request without a task type |
| Router.FirstHealthyBackend | internal/router/rule_router.go:95-107 | the earliest selectable backend, and none exactly when all are marked unhealthy |
| Router.CostFoldIsTheCostChoice | internal/router/rule_router.go:109-150 | the running minimum satisfies the declarative cost choice, and nothing else does |
| Router.RuleChoiceIsFirstUsable | internal/router/rule_router.go:53-93 | the rule chosen is the first that matches and whose backend is not marked unhealthy, and none is chosen only if there is none |
| Router.SuccessIsBaseChoice | internal/router/rule_router.go:53-107 | whenever a base is chosen it is the first usable rule's, else the default, else the first selectable backend, whatever references resolve |
| Router.BaseFollowsTheFirstFittingRule | internal/router/rule_router.go:176-187 | the base is that of the first rule each of whose conditions is blank or met and whose backend is not marked unhealthy; without one it is the default, or not if that is marked unhealthy |
| Router.ReasonNamesTheRule | internal/config/config.go:363-371 | in an accepted configuration the reason of a base chosen for a rule tells which rule it was |
| Router.RoutingIsTotalFor | internal/router/rule_router.go:24-107 | if the default and the matching rules resolve, routing with a live context fails exactly when every backend is marked unhealthy, and is otherwise optimised from the first usable rule, else the default, else the first selectable |
| Router.ValidatedRoutingIsTotal | internal/config/config.go:283-400 | the same for every accepted configuration with trimmed names |
| Router.RoutingIsTotalIff | internal/router/rule_router.go:53-93 | an accepted configuration routes every request totally if and only if the default and the target of every matchable rule resolve |
| Router.StrandedBackendFails | internal/router/rule_router.go:61-86 | a reference to a backend stored untrimmed makes routing fail although that backend is healthy |
| Router.RoutedBackendIsSelectable | internal/router/rule_router.go:24-150 | no route names a backend marked unhealthy, and every route names a configured one |
| Router.UntrimmedNameBreaksRouting | internal/config/config.go:293-344 | an accepted configuration in which no request can be routed |
| Router.OptimisedIsStrictSaving | internal/router/rule_router.go:118-147 | leaving the base is a strict saving in estimated total and fits the budget |
| Router.CostIgnoresBackendOrder | internal/router/rule_router.go:109-150 | the resulting cost is the same for any permutation of the backends |
| Router.CheapestByTotalIff | internal/router/rule_router.go:117-147 | exactly when the choice is cheapest by estimated total |
| Router.CheaperTotalCanBeIgnored | internal/cost/simple_engine.go:13-24 | a case in which a lower total is passed over |
| Router.EstimateAtLeastUnit | internal/cost/simple_engine.go:13-24 | an estimated total is at least the unit cost, and above it if that is positive |
| Router.EstimatePerThousandTokens | internal/cost/simple_engine.go:13-24 | an estimate is the unit cost and that much again per thousand tokens, 256 without a limit |
| Router.UnknownTenantIsZero | internal/router/rule_router.go:24-36 | a request of an unknown tenant is routed without class, budget and limit |
| Reliability.ShouldFallbackImpl | internal/reliability/manager.go:115-132 | moves on exactly when fallback is enabled and a rule of that very backend lists the error's class |
| Reliability.FiredTrigger | internal/reliability/manager.go:115-159 | an upstream error of kind timeout, backend_unhealthy, upstream_4xx or upstream_5xx fires that trigger and of any other kind backend_error; without a kind a deadline fires timeout, else a message containing "unhealthy" in any case backend_unhealthy, else backend_error |
| Reliability.AcceptedTriggersFire | internal/config/config.go:385-400 | in an accepted configuration every rule lists a trigger, each trigger listed is fired by some error, and no error fires another than the accepted ones |
| Reliability.ForcedPrimary | internal/reliability/manager.go:47-63 | a forced backend takes the primary's place, is called first if it can be, and alone without fallback; unless one is forced the options are ignored |
| Reliability.NothingCalled | internal/reliability/manager.go:66-75 | if no call is made, every candidate lacks an adapter or a configuration, and the error says which the last one lacks |
| Reliability.ExecuteWithFallbackOpts | internal/reliability/manager.go:40-113 | the calls made are an execution of the candidates, forced primary and no-fallback options included, and the result is that of the calls |
| Reliability.TryCandidates | internal/reliability/manager.go:64-112 | the loop's calls and the result it reports, including the error kept after skipped candidates |
| Reliability.TraceIsExecution | internal/reliability/manager.go:64-112 | the calls are for a prefix of the runnable candidates in order, each but the last failed with a class a rule of that backend lists, and the run stops early only at a success or a failure without such a rule |
| Reliability.ExecutionUnique | internal/reliability/manager.go:64-112 | candidates and answers determine the calls completely |
| Reliability.ExecutionResultMeaning | internal/reliability/manager.go:76-112 | success exactly when some call succeeded, which is when there is no error, then reported for the last call with `UsedFallback` exactly when its index is positive; on failure the primary is named, every call failed, `UsedFallback` says that there were fallback candidates, and the error is the last call's or that of the last candidate being skipped |
| Reliability.FailureFlagIff | internal/reliability/manager.go:105-112 | for a failure, `UsedFallback` agrees with a fallback having been called exactly when there was none, or one is runnable and the primary, if runnable, fell through |
| Reliability.FailureErrorIff | internal/reliability/manager.go:66-112 | for a failure, the error is the last call's exactly when that call did not fall through or the last candidate is runnable |
| Reliability.UncalledFallbackCountsAsUsed | internal/reliability/manager.go:96-112 | a failure after one call, to the primary, that reports a fallback as used |
| Reliability.SkippedFallbackHidesTheDeadline | internal/reliability/manager.go:66-75 | a deadline of the only call, reported as a missing adapter |
| Reliability.FallbackNeverStreams | internal/reliability/manager.go:79-82 | with stream fallback off no candidate after the first is asked to stream, and nothing else of the request changes |
| Reliability.WithoutFallbackOneCall | internal/reliability/manager.go:47-63 | without fallback there is at most one call |
| Reliability.BuildFallback | internal/server/server.go:627-647 | the loop builds the fallback list of the specification |
| Reliability.FallbackList | internal/server/server.go:627-647 | every entry is a configured backend not marked unhealthy |
| Reliability.FallbackEntries | internal/server/server.go:627-647 | every entry is the target of one of the primary's rules, at its unit cost, with a reason naming the primary |
| Reliability.HealthyTargetsAreListed | internal/server/server.go:627-647 | every target of the primary's rules that resolves and is not marked unhealthy is listed |
| Reliability.ValidatedFallbackKeepsEveryRule | internal/server/server.go:627-647 | in an accepted configuration with trimmed names the list is exactly the healthy targets of the primary's rules |
| Reliability.FallbackKeepsEveryRuleIff | internal/server/server.go:632-636 | no rule of a given origin is ever dropped for its target if and only if every target resolves |
| Reliability.RulesAreLiveIff | internal/server/server.go:627-647 | every fallback rule of an accepted configuration takes effect for the backend it names as its origin if and only if both its ends resolve |
| Reliability.UntrimmedOriginKillsTheRule | internal/server/server.go:629-632 | an accepted configuration whose one rule has a resolving target and takes effect for no backend, error or snapshot |
| Reliability.FiringRuleDoesNotPickTheTarget | internal/reliability/manager.go:96-131 | a failure firing the rule to one backend is followed by a call to another, the next in the list |
| Reliability.SecondCandidateIsNext | internal/reliability/manager.go:96-99 | after a first failure that fires any rule the second candidate is called |
| Reliability.NextCandidateIsCalled | internal/reliability/manager.go:64-99 | after every call that fires a rule the next runnable candidate is called, if there is one; so a rule's target is called next exactly when that candidate bears its name |
| Ledger.MemoryStore.CreateRequest | internal/requests/memory.go:24-33 | adds the row with an empty trace, or refuses a known id and changes nothing |
| Ledger.MemoryStore.UpdateRequest | internal/requests/memory.go:35-59 | exactly the patched fields of that row change, or nothing for an unknown id |
| Ledger.MemoryStore.AppendStep | internal/requests/memory.go:61-69 | appends to that request's trace, or changes nothing for an unknown id |
| Ledger.StepWriter.Run | internal/execution/steps.go:36-80 | appends one step with the next index and the status its error gives; for an unknown request only the index moves |
| Rag.RagMeaning | internal/server/infer_rag.go:28-65 | retrieval fails as not configured exactly without a base that has an adapter, as invalid exactly if there is one but nothing is asked for; otherwise what is asked for goes to that base, and the answers of base and reranker decide |
| Rag.NamedBaseIsUsed | internal/server/server.go:511-521 | a base named in the context is the one used; without a name it is the first configured one |
| Rag.AskedIsRagQuery | internal/server/server.go:497-509 | what is asked for is the query of the context, trimmed, if not blank, and otherwise the text of the input |
| Rag.MergeMeaning | internal/retrieval/merge.go:10-22 | merging changes the input only: it adds the chunks and one text that holds the text of every chunk in order, with a blank line between any two and nothing else |
| Pipeline.TraceFollowsThePlan | internal/inferexec/plan.go:25-40 | recorded step types are a non-empty prefix of the plan of the final request type, numbered from 0, only the last can be failed, and the trace is the whole plan exactly on success, which is when the row ends as success and the answer is one |
| Pipeline.RecordedSteps | internal/inferexec/orchestrator.go:60-210 | the steps recorded by each way a run can end; the last is marked failed exactly if it is what failed |
| Pipeline.StepsNameTheirBackends | internal/inferexec/orchestrator.go:60-210 | the route and backend-call steps name the primary, the retrieve step the knowledge base used, the rerank step the reranker, the finalize step the backend that answered, the others none |
| Pipeline.RetrievalOfARun | internal/server/infer_rag.go:28-65 | a run for retrieval that got past routing asks the request's base, records that in its trace, and executes the request with the reranked chunks exactly if both succeed |
| Pipeline.StopOfFits | internal/inferexec/orchestrator.go:45-216 | how far a run gets fits its request type |
| Pipeline.RowRemembersRouting | internal/inferexec/orchestrator.go:143-156 | the row holds a policy snapshot exactly when the run got past routing, and names the primary in it |
| Pipeline.RowKeepsTheRequest | internal/server/server.go:435-457 | the row keeps the ids, the classification, the input and the context of the request; and past routing the reasons, whether it was degraded and the requests holding a slot |
| Pipeline.GatewayTimeoutIff | internal/inferexec/budget.go:9-24 | the answer is 504 exactly when what policy, the router or the backends answered was a deadline error and the request context had reached its deadline by then |
| Pipeline.AnswerByStages | internal/inferexec/orchestrator.go:66-216 | any other answer is that of the first stage to fail: 500 policy_error, 429 policy_rejected, 501 agent_not_implemented, 503 overload, 500 route_error, 400 or 502 for retrieval, 502 execution_failed; otherwise the output of the execution |
| Pipeline.TimeoutAnswerAndNote | internal/inferexec/orchestrator.go:66-204 | a 504 names the primary exactly if execution failed; the scaling signal is told the error behind every 504, every error of an execution, and nothing else |
| Pipeline.PastRoutingShape | internal/inferexec/orchestrator.go:120-185 | past routing the decision was allowing and not an agent's, the primary is the router's for the admitted state, and the request sent is the prepared one |
| Orchestration.Orchestrator.Run | internal/inferexec/orchestrator.go:45-216 | one run leaves the trace, the row, the log of statuses, the scaling signal and the answer of its stop, restores the slot counter and touches nothing else in the ledger; its row moves once, from running to success or failed |
| Orchestration.Orchestrator.RunPolicy | internal/inferexec/orchestrator.go:64-92 | the exits after policy |
| Orchestration.Orchestrator.RunAllowed | internal/inferexec/orchestrator.go:94-114 | the agent stub and the hand-over to admission |
| Orchestration.Orchestrator.RunCounted | internal/inferexec/orchestrator.go:107-114 | rejected without a slot, or run on one that is given back |
| Orchestration.Orchestrator.RunAdmitted | internal/inferexec/orchestrator.go:116-137 | the admission step and the exits after routing |
| Orchestration.Orchestrator.RunRouted | internal/inferexec/orchestrator.go:139-156 | the route step and the patch with the routing decision |
| Orchestration.Orchestrator.RunRagPipeline | internal/server/infer_rag.go:28-65 | the retrieve and rerank steps, each recorded as failed exactly if it fails, and the merged request |
| Orchestration.Orchestrator.RunBackend | internal/inferexec/orchestrator.go:170-215 | the backend call, the finalize step and the closing of the row |
| Orchestration.Orchestrator.Open | internal/server/server.go:435-457 | the row is created as running, with an empty trace |
| Orchestration.Orchestrator.Close | internal/server/server.go:459-495 | the row is closed once and the scaling signal is told what there is to note |
| Serving.PastRoutingMeans | internal/server/orchestrator.go:31-58 | the same as `Pipeline.PastRoutingShape` with the server's policy, router, fallback builder and reliability manager |
| Serving.DegradedRunKeepsTheBase | internal/router/rule_router.go:109-115 | a run admitted with the limit used up in degrade mode goes to the router's base choice, any other to the cost choice from it |
| Serving.DoneBeforeRouting | internal/inferexec/orchestrator.go:120-137 | a request whose context is done before routing calls no backend: a deadline gives 504 and is told to the scaling signal, anything else 500 |
| Serving.RoutingFailureIs500 | internal/inferexec/orchestrator.go:120-137 | with a live context a routing failure gives 500 and is not told to the scaling signal |
| Serving.InvokedBackendsAreHealthy | internal/inferexec/orchestrator.go:120-185 | no backend marked unhealthy in the run's snapshot is ever invoked in that run, and every invoked one is configured and has an adapter |
| Serving.ProbedCandidatesAreNeverSkipped | internal/reliability/manager.go:64-75 | with a probed snapshot every candidate has an adapter, answered healthy and is never skipped: the k-th call is for the k-th candidate |
| Serving.ProbedFailureIsTheLastCalls | internal/inferexec/orchestrator.go:190-204 | with a probed snapshot a failed run reports and notes exactly the error of its last call, and answers 504 exactly when that is a deadline the request context shares |
| Replay.MakeAllHealthy | internal/replay/replay.go:151-157 | every configured backend is marked healthy and nothing else is mentioned |
| Replay.BuildFallbackList | internal/replay/replay.go:159-180 | the replay's builder gives the list of the server's |
| Replay.ReplayRow | internal/replay/replay.go:41-78 | an unknown row, an unknown mode, or the replay of the row in that mode |
| Replay.RunExact | internal/replay/replay.go:80-112 | exact replay as specified |
| Replay.RunCurrent | internal/replay/replay.go:114-149 | current replay as specified |
| Replay.RoutingSeesConfiguredHealthOnly | internal/router/rule_router.go:38-150 | snapshots that agree on the configured backends give the same route and fallback list |
| Replay.RowReconstructsTheRequest | internal/replay/replay.go:48-66 | the request rebuilt from a run's row is the normal form of the request that was run, and that request itself if it came through the gateway |
| Replay.ReconstructMeaning | internal/replay/replay.go:48-68 | a rebuilt request has the row's classification and the stored body, or, in a row without one, its input and context |
| Replay.AllowingDecisionsAgree | internal/policy/basic_engine.go:29-82 | two evaluations that both allow a request fill it in alike, whatever limiter and clock say |
| Replay.ReplayCurrentFidelity | internal/replay/replay.go:114-149 | for a run past routing with all backends healthy and not degraded, and policy admitting again under the same configuration, current replay has the same primary and fallback list, and the same retrieval failure or the same request, calls and result |
| Replay.RowDecidesAlike | internal/replay/replay.go:114-121 | policy decides on the rebuilt request as on the one that was run |
| Replay.CurrentReplayCallsAreRunnable | internal/replay/replay.go:114-149 | current replay calls only configured backends with an adapter, and only for a request policy allows now that is not an agent's |
| Replay.ReplayExactFidelity | internal/replay/replay.go:80-112 | for every configuration, exact replay of a run's row finds a backend exactly when the run got past routing and left a name that is not blank, then calls at most that backend, once, at the recorded cost, with no fallback, and does call it if it is runnable; it is the online primary exactly when that name is stored trimmed and not blank |
| Replay.ExactReplayAimsAtPrimary | internal/replay/replay.go:80-92 | with names stored trimmed and not blank exact replay aims at the online primary |
| Replay.ForcedExecution | internal/reliability/manager.go:47-60 | forcing a backend without fallback leaves it as the only candidate, at the recorded cost, for the rebuilt request with retrieval done anew |
| Replay.ExactReplayAimsAtPrimaryIff | internal/replay/replay.go:80-92 | exact replay aims at the online primary exactly when that name is stored trimmed and not blank |
| Replay.ExactReplayUnderTheSameConfig | internal/replay/replay.go:80-112 | under the accepted configuration of the run, exact replay misses a backend exactly when the run did not get past routing, calls only the online primary, and calls nothing if that is stored untrimmed |
| Replay.UntrimmedPrimaryIsMissed | internal/replay/replay.go:80-92 | a run routed to " a" whose exact replay aims at "a" |
| Replay.AgentsReachNoBackend | internal/inferexec/orchestrator.go:94-101 | an agent request reaches no backend, online or in either replay of its row |
| EndToEnd.RunRequest | internal/inferexec/orchestrator.go:45-216 | the server's orchestrator leaves in the ledger a plan-prefix trace and the row of the run, created as running and ended once, touches nothing else there, restores the slot counter and called only healthy backends |
| EndToEnd.RunThenReplay | internal/replay/replay.go:41-149 | replaying that row from the same store reproduces the run, in exact mode for any configuration and in current mode for a repeatable run |
| EndToEnd.RunLeaves | internal/inferexec/orchestrator.go:45-216 | the trace, health and replay theorems about the row and steps of one run |
| ConcurrentRuns.RunsAreTheirOwn | internal/inferexec/orchestrator.go:45-216 | in every interleaving of any number of runs, a run that has closed its row leaves exactly the trace, row and statuses of its own stop, for the limiter its policy check found and the count its winning swap replaced |
| ConcurrentRuns.RunsReplay | internal/replay/replay.go:41-149 | in every interleaving such a run called only healthy backends, and its row replays as that of a run alone |
| ConcurrentRuns.CounterCountsTheRunning | internal/server/server.go:243-273 | in every interleaving the counter is the number of runs between admission and release, within the limit in reject mode, 0 when all have finished, and what a run asking for a slot is judged by |
| ConcurrentRuns.LimiterDecides | internal/policy/basic_engine.go:29-105 | in every interleaving the limiter is what its calls, in lock order with the stamps read before, make of it; and policy allows a run exactly when its call is made and admitted |
| ConcurrentRuns.SignalIsTrue | internal/server/server.go:838-870 | in every interleaving an active signal means three timeouts of any runs in the last minute |
| Interleaving.StepInv | internal/inferexec/orchestrator.go:45-216 | every step of every run keeps what the ledger holds of each request, what each run knows, and the shared counter, limiter and signal |
| Replay.GatewayRequestsAreNormal | internal/types/normalize.go:6-31 | what the gateway hands to the pipeline is a fixed point of normalisation |
| Types.NormalizeIdempotent | internal/types/normalize.go:6-31 | normalising twice changes nothing, also after a trip through the ledger's JSON |
| Types.NormalizedTypeIsNormal | internal/types/normalize.go:8-16 | a normalised request type is not blank, trimmed and lowercase |
| Types.NormalizeMeaning | internal/types/normalize.go:6-31 | a blank type becomes inference and any other is trimmed and lowercased; a blank pipeline becomes that of the type; a missing context becomes empty; all else stays |
| Types.JsonLosesOnlyEmptiness | internal/types/types.go:23-36 | the ledger's JSON turns an empty context into none and changes nothing else |
| Exporter.BatchesPreserveTheStream | internal/telemetry/otlp_http_exporter.go:106-147 | under any interleaving of enqueues and flushes, for each kind the batches taken followed by the buffer are exactly the records enqueued |
| Exporter.RecordsAreConserved | internal/telemetry/otlp_http_exporter.go:116-147 | for each kind the records enqueued are, as a multiset, those sent, dropped, in flight and buffered; the counter of sent records is right, and with nothing in flight the counts add up |
| Exporter.BuffersStaySmall | internal/telemetry/otlp_http_exporter.go:106-114 | a buffer holds at most the batch size less one plus the number of goroutines waiting to flush |
| Exporter.StepInv | internal/telemetry/otlp_http_exporter.go:106-147 | every step keeps stream, conservation and size |
| Exporter.PostWithRetries | internal/telemetry/otlp_http_exporter.go:149-177 | succeeds exactly when one of the first `retries + 1` attempts gets a 2xx answer, stops at the first such, and remembers the last status code |
| Exporter.OTLPHTTPExporter.constructor | internal/telemetry/otlp_http_exporter.go:31-59 | out-of-range settings are replaced by the defaults |
| Exporter.OTLPHTTPExporter.EnqueueRecord | internal/telemetry/otlp_http_exporter.go:106-114 | flushes exactly when the kind's buffer is full or the interval has passed, and otherwise only buffers |
| Exporter.OTLPHTTPExporter.Flush | internal/telemetry/otlp_http_exporter.go:116-147 | hands every non-empty buffer to the client once, in any order of kinds; the records of the kinds with an accepted attempt count as sent, the others as dropped |
| Exporter.CountedOneMore | internal/telemetry/otlp_http_exporter.go:130-146 | posting the kinds one by one gives the same in any order |
| Exporter.OTLPHTTPExporter.PostBatch | internal/telemetry/otlp_http_exporter.go:130-146 | an empty batch is not posted; otherwise all its records count as sent if an attempt is accepted, and all as dropped if none is; when accepted, the last status code is a 2xx |
| Retrieval.Tokenize | internal/retrieval/filekb.go:108-128 | the loop's tokens are those of the specification |
| Retrieval.TokensAreTheMaximalRuns | internal/retrieval/filekb.go:108-128 | tokens are exactly the maximal alphanumeric runs of the lowercase text, left to right |
| Retrieval.TokenizeRoundTrip | internal/retrieval/filekb.go:108-128 | tokenizing the tokens with a separator after each gives the same tokens |
| Retrieval.OverlapScore | internal/retrieval/filekb.go:130-145 | the fraction of query positions whose token occurs in the chunk |
| Retrieval.ScoreRange | internal/retrieval/filekb.go:130-145 | a score lies in 0..1, is 1 exactly when every query token occurs and positive exactly when some does |
| Retrieval.MoreHitsScoreHigher | internal/retrieval/filekb.go:130-145 | a score is the share of query positions whose token occurs in the chunk, and higher exactly if there are more of these |
| Retrieval.HitsCountPositions | internal/retrieval/filekb.go:130-145 | the hit counter is the number of these positions |
| Retrieval.MatchesMeaning | internal/retrieval/filekb.go:79-92 | the candidates are exactly the chunks sharing a token with the query |
| Retrieval.MatchesAreTheSharing | internal/retrieval/filekb.go:79-92 | the candidates are these chunks one by one in index order, with text and source, scored by the positions they hold |
| Retrieval.Retrieve | internal/retrieval/filekb.go:71-106 | the five best candidates or all if fewer, best first, with nothing left out scoring higher |
| Text.TrimSpaceFixpoints | internal/config/config.go:293-293 | trimming gives a trimmed string, and the trimmed strings are its fixed points |
| Text.TrimSpaceDropsSpace | internal/config/config.go:293-293 | what trimming takes off is white space at either end, and nothing else |
| Text.ContainsIff | internal/reliability/manager.go:154-158 | substring search finds exactly the substrings |

## Left out

- Adapters, remote knowledge bases, HTTP handlers, authentication, response writing, the command line and the Python SDK: plumbing around the parts modelled; backends, retrieval and reranking are arbitrary functions here.
- SQLite and Postgres stores: the memory store is modelled; the timestamps `CreatedAt` and `UpdatedAt`, step payloads, latencies and listing order are not.
- YAML loading, environment expansion, defaults, and the telemetry, ledger and knowledge-base checks of validation; the field checks each backend type needs are the parameter `fieldsOk`.
- Agent tenant limits: the parameter `AgentLimits`, because each limit is a single comparison.
- Building a file knowledge base from disk: retrieval starts from its chunks.
- The orchestrator with missing hooks or without a ledger: the server always sets the hooks; a disabled ledger only removes rows.
- Error texts of routing and retrieval failures: messages are short constants or the adapter's own text; status, code and trace result are those of the source.
- Floating-point rounding: costs, scores and aggregates are `real`.
- Wrap-around of the 32-bit slot counter and saturation of time differences: the limit is taken to fit and time differences to be representable.
- Unicode: characters are single `char` values and the tables are a parameter; lowercasing that changes a string's length is not covered.
- Cancelling a probe: a health answer is a value, so a probe that times out is one that answers unhealthy.
- Orchestration.Orchestrator.Run: does not model other requests changing the slot counter during the run; `ConcurrentRuns` does, for runs as sequences of atomic steps, with admission one step at its winning swap (the swaps that fail are the subject of `Admission`). The latency store's start mark is not part of a run.
- EndToEnd.RunRequest: the same.
- Config.Validate: the field checks each backend type needs are a parameter, and the checks after line 400 are not modelled.
- Ledger.MemoryStore.UpdateRequest: the time stamp of the patch is not modelled.
- Ledger.StepWriter.Run: step payloads, metadata, latency and error text are not modelled.
- Exporter.PostWithRetries: failures to encode the payload or to build the request, which return without an attempt, are not modelled.
- Exporter.OTLPHTTPExporter.Flush: the text of the last error is not modelled.
- Policy.SpanBound: needs stamps in lock order; `Policy.SpanBoundIff` says exactly when the bound holds for others.
- Policy.DecisionsIgnoreOtherTenants: needs stamps in lock order; `Policy.IsolationIff` says exactly when it holds for others.
- Policy.DecisionReason: does not model the two figures in the text of a budget refusal.
- Aliasing of the maps inside a request: requests are values here.
- A router without a cost engine and the `FallbackChain` field of a route: the server always wires the engine, and routing and execution never look at the field.
- The name a knowledge-base adapter gives itself: taken to be the name it is registered under, which is what the retrieve step records.
