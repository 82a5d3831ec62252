# Verification of the sovereign FinOps experiments and the GOV-AR ledger and approval protocol

This project models the parts of the repository that decide something, spend something, or turn
measurements into a number that is published, and proves what those parts are relied on for. Run
`dafny verify dfyconfig.toml` in this directory.

**Routing** (`Catalog`, `Router`, `Strategies`, `RoutingProperties`, `ScoreFacts`). The sovereignty filter and the seven
strategies of the experiment harness. Each strategy with a loop is a method proved against a function of the
request; the round robin is a class with its counter. The lemmas say what the functions promise: minimality
with the smallest ID, independence of the order of the allowed list, monotonicity under budget pressure by an
exchange of two minimisers, a cost bound against the premium model. `Sensitivity` is the second, Python
implementation of the scoring rule and its agreement with the first.

**The engine and the experiments over it** (`Workloads`, `Engine`, `CacheProperties`, `Runner`,
`BudgetProperties`, `SovereigntyRun`, `ServedFacts`, `MatrixReport`, `Grouping`, `TeamCosts`, `Percentiles`). The engine is a
class whose methods update its three caches and its log; client and judge are functions. The experiments are methods
that call it from any caches. Caches are shown to be invisible over any sequence of calls from caches that hold what
uncached calls return, which is what the budget theorem needs; what the sovereignty experiment shows holds from any.

**Concurrency** (`GpuBench`, `StatsPlan`, `StatsMatrix`). The worker pool of the GPU benchmark and the second
phase of the statistics matrix are step systems: every interleaving is a sequence of states, each following from
the last by one step of one goroutine. An inductive invariant gives safety and the final result, a progress
lemma the absence of deadlock, and a measure the end of every run. `RunStatsMatrix` runs its second phases by a
scheduler that picks any enabled step.

**The reservation ledger** (`Ledger`, `LedgerProperties`, `LedgerSafety`, `LedgerLimits`, `LedgerCharges`). An engine that holds money
of a tenant's budget for a call before it is made, and settles, corrects, finalises or releases it afterwards, across
budget windows. The engine is a class; each method equals a function of its maps, and the theorems are about every
history of those functions: the totals of a tenant are the sums of its reservations' entries, an open call is charged
in full and a final one what it cost, no budget is overdrawn, an event takes effect once. What each kind of message
is taken for is an if-and-only-if. Where that fails, the condition is exact.

**Approval** (`Approval`, `ChangeApproval`). The CEL rules are the admissible updates of an object, the
validator is the check every consumer of a decision runs, and the admission webhooks stand in front of both.
The theorems are about whole runs of updates and whole histories of writes, and say exactly which writes are admitted.

**Statistics of the articles** (`MannWhitney`, `RankVariance`, `WeightedKappa`, `Holm`, `HistQuantile`, `Wilson`). Each loop or
matrix computation is a method proved to compute a definition in which no loop or matrix occurs, and the
definition is shown to have the properties its name promises.

`Reals`, `Sums`, `MapSums`, `Perms`, `Sorting` and `Wrappers` hold shared definitions and small facts.

## Where the code does less than it seems to

Each entry names the lemma with the condition, which is exact wherever it says so, and an input that fails it.

- A budget that runs out can make `Ours` choose a more expensive model: the quality gate opens and lets in a model
  that scores better but costs more (`RoutingProperties.ExhaustionMayRaiseCost`). With scores below 1e18 it does not
  when what the gate kept out is no slower, and cheap enough or no better (`ExhaustionRaisesNothing`).
- While the pool stays the same (`PoolUnchanged` says exactly when) more spending does not raise the cost exactly when
  some score is still below 1e18 or the pool's first model costs no more than the earlier choice
  (`BudgetNeverRaisesCost`); otherwise it does (`BudgetMayRaiseCost`).
- The scoring loop starts from 1e18 and minimises exactly when some score is below that or the first model is a
  minimiser (`OursMinimisesBelowCap`); otherwise it may not (`CapMayHideMinimum`).
- The static policy stays inside the allowed list exactly when the model it wants is listed or ruled out by the
  scenario (`StaticStaysAllowed`, `StaticIgnoresAllowed`).
- The comment on `Bypass` says that the answer and judge caches are skipped. Pairwise comparison goes to its cache
  regardless (runner.go:137-155): `CacheProperties.BypassWrites` and `BypassReads` say exactly when, and
  `BypassWitness` is a case. An engine straight from `New` is not affected, because without cached answers there is
  no reference to compare with (`BypassFromNew`). The model follows the code.
- Cache keys collide exactly when one model ID continues another past a bar and a prompt ID begins with the rest
  (`KeysCollide`); calls are transparent exactly when whatever shares a key is answered alike
  (`AnswersTransparentIff`, `BarInModelID`).
- Ratings are cached by model and prompt: the first successful one stands for every later answer
  (`RatingIgnoresAnswer`). Every answer gets its own rating exactly when answers under one key are rated alike
  (`RatingsFairIff`, `RatingWitness`).
- After a prewarm a comparison against a workload's premium model takes the missing-reference tie exactly when that
  model is named but not in the catalog and no verdict is cached for the prompt, which another workload's comparison
  may have left (`ReferenceMissingIff`).
- The two kappa implementations count the same pairs exactly when every score is in range
  (`WeightedKappa.CopiesCountTheSame`, `CopiesDisagreeOnZero`); one of them fails exactly on a score numpy cannot
  index, the other never (`CopiesAgree`).
- `hist_quantile` is monotone exactly when the first bound is not negative or nothing was counted in it
  (`HistQuantile.QuantileMonotone`, `NegativeBoundReverses`).
- A round robin kept from one repetition to the next would plan the same when the numbers of candidates divide its
  counter, and, unless an allowed list repeats a model, only then (`StatsPlan.CarriedPlansAlike`,
  `CarriedRoundRobinDiffers`); `All()` makes a new one each time.
- The in-memory ledger reads a reservation before the call advances the tenant's window and stores it afterwards, so a
  report that is the first call of a new window overwrites the guard the rollover has just put on the reservation.
  The tenant's reserved total then stays too high by exactly that guard, for good (`LedgerProperties.HandleFollows`,
  `AccountsKept`, `LedgerLimits.StaleGuardKept`). The PostgreSQL ledger reads it again (postgres_engine.go:1126-1129).
- A settlement needs a claimed attempt, but an expired call passes the same check. Its report takes the reservation
  from the budget again without an admission (`FirstReportTaken`, `ExpiredCallRevived`), and the call is missing from
  the tenant's set of open calls (`ListedUnlessRevived`).
- An increase after finality is debt above the first cost reported, while the tenant has settled the last one before
  finality: it charges the new cost exactly when the two are equal (`PostFinalExact`, `PostFinalOvercharge`).
- Corrections after finality are to free no budget. They do exactly when they raise the cost to less than what was
  charged before (`PostFinalFrees`, `PostFinalRaiseFrees`).
- A late call's audit credit is what its last cost is below the first, except when a correction comes back to exactly
  the debt: then it stays as the correction before left it (`LedgerCharges.CreditBooked`).
- The database refuses to start when hold and guard exceed the reservation of an open call, which they do exactly for a
  cost above the reservation carried into a new window (`HoldCeiling`).
- After an authorised change of the budget, the unchanged policy is refused for the rest of the window
  (`AdjustmentClosesWindow`).
- With concurrency 0 the GPU benchmark finishes with an empty tally (`GpuBench.FinishedTally`).

## Assumptions

- Floating-point numbers are reals. `math.sqrt` is any function whose square is its argument; `erfc` is any
  function.
- SHA-256 over a JSON payload is a function without collisions, with non-empty values, and each payload carries
  its domain-separation prefix.
- The sovereignty engine's `NormalizeZone` is a parameter; only the lemmas about the five scenarios assume anything
  of it, that it maps EU and FR to themselves.
- Clients and judges are functions of what they are asked. A model call is one step in `StatsMatrix`; with the
  caches bypassed nothing shared is read or written during it.
- The theorem about the budget experiment, not the methods, is for caches that hold only what uncached calls return,
  with cache keys that tell its models and prompts apart, for which unique prompt IDs across workloads and model IDs
  without a bar are enough (`CacheProperties.KeysTellWithoutBars`). An empty cache is such a cache.
- The ledger's clock is a function from a period to the window it is in, read once a call and not assumed to move
  forward. An expiry renders without a colon. Pricing is a function of the frozen prices and the usage; payload hashes have no collisions; a stored route
  and price snapshot is intact; the name of a period is in lower case.
- The cost engine's price book and the model map hold the same catalog, as `New` builds them.
- Sorting is an insertion sort; its result is shown to be the only sorted arrangement where ties could matter.
- A `char` stands for a byte where the token estimate takes a length.
- The clock is a parameter, in nanoseconds.

## Model

| member | source | states |
|---|---|---|
| `Catalog.ByID` | experimentation/internal/catalog/catalog.go:79-86 | the map is keyed by model ID, holds an entry for every ID of the list, and the last entry of an ID wins |
| `Router.FindCandidates` | experimentation/internal/router/router.go:111-129 | the loop and the two sorts return the compliant allowed models by ID and the refused IDs in order |
| `Router.CandidateMember` | experimentation/internal/router/router.go:74-129 | a candidate is exactly an allowed catalog model the scenario does not rule out |
| `Router.RejectedMember` | experimentation/internal/router/router.go:74-129 | a rejected ID is exactly an allowed catalog model the scenario rules out; unknown IDs are not reported |
| `Router.CandidatesOrderIndependent` | experimentation/internal/router/router.go:111-129 | permuting AllowedModels changes neither the candidates nor the refused IDs |
| `Router.FirstMinSmallestID` | experimentation/internal/router/router.go:176-183 | a strictly-better scan over an ID-sorted pool ends at the minimiser with the smallest ID |
| `Strategies.RoundRobin.Choose` | experimentation/internal/router/router.go:151-165 | serves the n-th candidate modulo their number; the counter moves on only when a request is served |
| `RoutingProperties.RoundRobinVisitsAll` | experimentation/internal/router/router.go:151-165 | from any counter, every candidate is served within as many requests as there are candidates |
| `Strategies.LeastCost` | experimentation/internal/router/router.go:171-184 | the loop makes the least-cost choice |
| `RoutingProperties.LeastCostMinimises` | experimentation/internal/router/router.go:171-184 | blocks exactly without candidates; otherwise no candidate is cheaper, and ties go to the smallest ID |
| `Strategies.DifficultyRouter` | experimentation/internal/router/router.go:333-369 | the two loops make the difficulty choice |
| `RoutingProperties.DifficultyChoice` | experimentation/internal/router/router.go:333-369 | the cheapest candidate that meets the difficulty, or the best one when none does; the smallest ID on ties |
| `Strategies.Ours` | experimentation/internal/router/router.go:241-316 | gate, latency and scoring loops together make the choice of the scoring rule |
| `Strategies.ScanBelowCap` | experimentation/internal/router/router.go:285-302 | the scoring loop, whose running best starts at 1e18, ends at the first minimiser of the capped score |
| `RoutingProperties.PoolMember` | experimentation/internal/router/router.go:241-276 | who is in the gated pool: the candidates that meet the quality, or all of them when exhausted or none does |
| `RoutingProperties.OursMinimises` | experimentation/internal/router/router.go:241-316 | blocks exactly without candidates; otherwise the smallest-ID minimiser of the score capped at 1e18 |
| `RoutingProperties.OursMinimisesBelowCap` | experimentation/internal/router/router.go:285-302 | the choice minimises the uncapped score exactly when some score is below 1e18 or the first model attains the minimum anyway |
| `RoutingProperties.CapMayHideMinimum` | experimentation/internal/router/router.go:285-302 | a request whose scores all exceed 1e18, where the choice scores twice the minimum |
| `RoutingProperties.OursOrderIndependent` | experimentation/internal/router/router.go:114-129 | permuting AllowedModels does not change the decision |
| `RoutingProperties.BudgetNeverRaisesCost` | experimentation/internal/router/router.go:241-316 | with the same pool a larger spend makes Ours choose no more expensive a model exactly when some score is still below 1e18 or the first model costs no more than the earlier choice |
| `RoutingProperties.BudgetMayRaiseCost` | experimentation/internal/router/router.go:285-302 | a catalog on which neither holds: same pool, budget not exhausted, and more spending moves the choice from 1.0 to 2.0 |
| `RoutingProperties.PoolUnchanged` | experimentation/internal/router/router.go:262-276 | the pool stays the same exactly unless the spend exhausts the budget and the gate keeps some but not all candidates out |
| `RoutingProperties.ExhaustionMayRaiseCost` | experimentation/internal/router/router.go:262-276 | where the pool changes the cost can rise: a catalog on which exhaustion moves the choice from 1.0 to 1.1 |
| `RoutingProperties.ExhaustionRaisesNothing` | experimentation/internal/router/router.go:241-316 | with scores below 1e18 exhaustion does not raise the cost when the models the gate kept out are no slower than the slowest it let in, and each costs no more than the one served before or is no better than it in anything |
| `RoutingProperties.OursCostBound` | experimentation/internal/router/router.go:241-316 | with premium in the pool and weights that keep its score below 1e18 the chosen cost is at most (1 + (gamma + delta)/alpha) times the premium cost |
| `RoutingProperties.OursUndominated` | experimentation/internal/router/router.go:241-316 | against a model of the pool that is no worse in quality, latency and sovereignty risk it does not pay more, exactly when some score is below 1e18 or the first model is no dearer than that one |
| `RoutingProperties.OursFallback` | experimentation/internal/router/router.go:253-315 | a decision is no fallback exactly when premium serves and meets the quality, or the budget is exhausted |
| `RoutingProperties.StaticComplies` | experimentation/internal/router/router.go:191-211 | what the static policy serves violates the scenario exactly when it wants a model the catalog lacks and an entry without an ID violates |
| `RoutingProperties.StaticStaysAllowed` | experimentation/internal/router/router.go:191-211 | it stays inside the allowed list exactly when the model it wants is listed or ruled out by the scenario |
| `RoutingProperties.StaticIgnoresAllowed` | experimentation/internal/router/router.go:191-211 | a request on which it does not |
| `RoutingProperties.FilteredChoiceComplies` | experimentation/internal/router/router.go:114-369 | what round robin, least cost, the difficulty router and Ours serve is allowed, in the catalog and compliant |
| `RoutingProperties.ScenariosNarrow` | experimentation/internal/router/router.go:25-106 | each scenario of the chain global, eu-only, france-only, self-hosted-only refuses at least what the one before it does |
| `RoutingProperties.WhoViolates` | experimentation/internal/router/router.go:25-106 | for sensitive and other requests alike: global refuses nobody, eu-only exactly the zones other than EU and fourteen named members, france-only those other than FR, the next managed providers of sensitive requests, self-hosted-only either |
| `RoutingProperties.OneZoneMore` | experimentation/internal/router/router.go:74-106 | forbidding a zone more rules out exactly its models as well; allowing one more lets in exactly those in it, or in a member state when it is the EU |
| `ScoreFacts.ScoreParts` | experimentation/internal/router/router.go:241-302 | the score by parts that, times premium cost, premium quality and slowest latency, give the cost, the quality missing and the latency, plus delta for a managed provider where external ones are not allowed |
| `ScoreFacts.ManagedScoresMore` | experimentation/internal/router/router.go:293-298 | where external providers are not allowed a managed model scores delta more than an otherwise equal one, and elsewhere the same |
| `ScoreFacts.PressureIsShare` | experimentation/internal/router/router.go:255-261 | the pressure times a positive budget is the spend up to it, 1 from exhaustion on, 0 without a budget |
| `ScoreFacts.SlowestAttained` | experimentation/internal/router/router.go:279-284 | the latency scale is some model's latency, or one millisecond |
| `ScoreFacts.DifficultyIsLeast` | experimentation/internal/router/router.go:338-347 | the least number not below the quality asked for and, up to 1, not below the tokens over 400 |
| `ScoreFacts.StaticTable` | experimentation/internal/router/router.go:191-196 | the table's model for each of its namespaces and the premium model for others, where nothing is ruled out |
| `ScoreFacts.TokenCosts` | experimentation/internal/router/router.go:68-70 | a million tokens cost the listed price, and costs add up over tokens |
| `Sensitivity.Choose` | experimentation/scripts/sensitivity_analysis.py:87-120 | the script's pool comprehension and scoring loop end at the first minimiser in allowed order |
| `Sensitivity.NormalisersAgree` | experimentation/scripts/sensitivity_analysis.py:100-101 | the two ways of keeping the normalisers positive agree exactly for these premium costs and qualities |
| `Sensitivity.ScriptAgreesWithRouter` | experimentation/scripts/sensitivity_analysis.py:87-120 | under the global scenario the script always minimises the score; the router attains the same score, and picks the same model when only one attains it, exactly where its cap is harmless |
| `Sensitivity.ScriptLeastCost` | experimentation/scripts/sensitivity_analysis.py:70-120 | with the least-cost weights and no gate the script serves a model as cheap as the one LeastCost serves |
| `Engine.Engine.CallModel` | experimentation/internal/runner/runner.go:76-109 | returns and leaves in the caches what the specification of the call says; asks a client only on a miss |
| `Engine.Engine.Acceptability` | experimentation/internal/runner/runner.go:116-134 | same for ratings, cached by model and prompt |
| `Engine.Engine.PairwiseVsPremium` | experimentation/internal/runner/runner.go:137-155 | same for verdicts, including the missing-reference branch; bypass is not consulted |
| `Engine.Engine.Prewarm` | experimentation/internal/runner/runner_rqs.go:29-37 | makes exactly the premium calls of every prompt in order, or stops after the first that fails, with the caches of the calls up to it |
| `CacheProperties.KeysCollide` | experimentation/internal/runner/runner.go:77 | two different pairs of IDs share a key exactly when one model ID continues the other past a bar and the other prompt ID begins with the rest |
| `CacheProperties.KeysTellWithoutBars` | experimentation/internal/runner/runner.go:77 | so unique IDs are enough when either the model IDs or the prompt IDs have no bar |
| `CacheProperties.AnswersTransparentIff` | experimentation/internal/runner/runner.go:76-109 | from an empty cache model calls are answered as without one, after any calls, exactly when whatever shares a key is answered alike |
| `CacheProperties.BarInModelID` | experimentation/internal/runner/runner.go:76-109 | two models and two prompts for which the second call returns the first answer |
| `CacheProperties.CachesTransparent` | experimentation/internal/runner/runner.go:76-155 | after any sequence of calls from a consistent cache, a call returns what an engine without caches would |
| `CacheProperties.NewEngineTransparent` | experimentation/internal/runner/runner.go:46-56 | in particular from an engine straight from New |
| `CacheProperties.RatingIgnoresAnswer` | experimentation/internal/runner/runner.go:116-134 | after any calls an answer gets the rating of the first answer successfully rated under the key; only without one is the judge asked |
| `CacheProperties.RatingsFairIff` | experimentation/internal/runner/runner.go:116-134 | over any live models, prompts and answers every rating is the answer's own, after any calls, exactly when answers under one key are rated alike |
| `CacheProperties.RatingWitness` | experimentation/internal/runner/runner.go:116-134 | a judge and two answers of which the second gets the first one's rating |
| `CacheProperties.OneQueryPerKey` | experimentation/internal/runner/runner.go:76-109 | over any sequence of calls a key is answered by a client at most once, and never if it was cached before |
| `CacheProperties.BypassWrites` | experimentation/internal/runner/runner.go:76-155 | with bypass a call writes a cache exactly when it is a comparison of a live non-premium model that the judge newly decides against a cached reference |
| `CacheProperties.BypassReads` | experimentation/internal/runner/runner.go:76-155 | with bypass the outcome depends on the caches exactly for comparisons of live non-premium models |
| `CacheProperties.BypassWitness` | experimentation/internal/runner/runner.go:137-155 | caches on which a comparison under bypass leaves a verdict behind |
| `CacheProperties.BypassFromNew` | experimentation/internal/runner/runner.go:76-155 | over any calls, comparisons included, bypass leaves the caches alone when no answer is cached |
| `CacheProperties.BypassTouchesNothing` | experimentation/internal/runner/runner.go:78-132 | model calls and ratings under bypass read and write no cache, over any sequence |
| `CacheProperties.ReferenceCached` | experimentation/internal/runner/runner_rqs.go:29-37 | after the prewarm, whatever follows, a reference is cached exactly when the premium model is in the catalog or unnamed |
| `CacheProperties.ReferenceMissingIff` | experimentation/internal/runner/runner.go:146-149 | so a comparison against a workload's premium model takes the missing-reference branch exactly when that is named but not in the catalog and no verdict is cached |
| `CacheProperties.ReferenceNeverMissing` | experimentation/internal/runner/runner.go:146-149 | so with the premium model in the catalog a comparison never takes the missing-reference branch |
| `Runner.SelectWorkload` | experimentation/internal/runner/runner_rqs.go:308-316 | the last workload of the agent namespace, or the last of all when there is none or it has no name |
| `Runner.RunPolicy` | experimentation/internal/runner/runner_rqs.go:341-376 | from any caches, the prompt loop computes the specified spend or stops at the first call error, and leaves the caches of the calls made |
| `Runner.RunBudget` | experimentation/internal/runner/runner_rqs.go:307-383 | from any caches: the selected workload, 40 percent of its premium cost, and the three rows in order or the first error of all |
| `ServedFacts.ServedIs` | experimentation/internal/runner/runner.go:75-134 | a live model's prompt is served exactly when it answers and the judge rates that answer, at the model's prices per million tokens |
| `ServedFacts.ModelledServed` | experimentation/internal/runner/runner.go:83-119 | a modelled model is always served, and its rating, normalised, is its prior |
| `ServedFacts.LiveAnswer` | experimentation/internal/runner/runner.go:96-108 | a live model is asked through its client by its API name, and answers under its catalog ID |
| `ServedFacts.JudgeCompares` | experimentation/internal/runner/runner.go:137-155 | the judge compares the answer with the premium model's cached one, in this order |
| `ServedFacts.SpendQuality` | experimentation/internal/runner/runner_rqs.go:340-372 | a prompt given to a modelled model leaves that model's prior in the row |
| `BudgetProperties.SpendUncached` | experimentation/internal/runner/runner_rqs.go:341-376 | from caches that hold what uncached calls return, the spend is that of a run without caches |
| `BudgetProperties.RowsUncached` | experimentation/internal/runner/runner_rqs.go:341-382 | and so are the rows of any policies, or the first error |
| `BudgetProperties.HardBlockReplay` | experimentation/scripts/sensitivity_analysis.py:219-226 | the script's loop serves exactly the slice premium_calls[:served]: the shortest prefix that reaches the budget, or all |
| `BudgetProperties.HardBlockServesPrefix` | experimentation/internal/runner/runner_rqs.go:344-368 | hard-block serves a prefix of the prompts, each below the budget, and blocks the rest |
| `BudgetProperties.HardBlockMatchesReplay` | experimentation/internal/runner/runner_rqs.go:344-368 | routed experiment and replay agree on served, blocked and used, and used is below budget plus the last served cost |
| `BudgetProperties.OursBlocksAllOrNone` | experimentation/internal/runner/runner_rqs.go:344-368 | ours-graceful blocks nothing when an allowed model is in the catalog, and everything when none is |
| `BudgetProperties.AlertOnlyOverrun` | experimentation/internal/runner/runner_rqs.go:369-372 | spending the whole premium cost is 150% over the 40% budget when it is positive, and no overrun otherwise |
| `BudgetProperties.BudgetExperiment` | experimentation/internal/runner/runner_rqs.go:307-383 | all of it at once for the three rows the runner makes from such caches |
| `SovereigntyRun.RunTrial` | experimentation/internal/runner/runner_rqs.go:248-295 | from any caches the nested loops compute the specified tally, leave its caches and append exactly its records to the log, or on an error those of the jobs before it |
| `SovereigntyRun.RunSovereignty` | experimentation/internal/runner/runner_rqs.go:242-303 | every scenario and strategy in order from any caches, up to the first call error; the log gains exactly the records of the calls served till then |
| `SovereigntyRun.TallyCounts` | experimentation/internal/runner/runner_rqs.go:249-294 | cost, violations and reroutes are those of the logged records, also after an error; without one, served plus blocked is the number of prompts |
| `SovereigntyRun.OursTally` | experimentation/internal/runner/runner_rqs.go:249-294 | Ours violates nothing, and without an error blocks exactly the prompts no allowed model may serve |
| `SovereigntyRun.PremiumTally` | experimentation/internal/runner/runner_rqs.go:249-294 | the baseline serves every prompt, and violates or reroutes with each whose model does not comply or is not the premium one |
| `ServedFacts.TallyQualities` | experimentation/internal/runner/runner_rqs.go:268-290 | each quality of a row is the normalised rating of its record, for a modelled model the model's prior |
| `SovereigntyRun.SovereigntyExperiment` | experimentation/internal/runner/runner_rqs.go:242-303 | ten rows from any caches, also spelled out by zone and provider: the baseline blocks nothing and violates with each non-compliant premium model, Ours violates nothing and blocks exactly the stuck prompts, no fewer as the scenario narrows |
| `MatrixReport.Aggregate` | experimentation/internal/runner/runner_rqs.go:117-150 | the loop over the records builds, per strategy in first-seen order, the aggregate of that strategy's records |
| `MatrixReport.WriteMatrix` | experimentation/internal/runner/runner_rqs.go:151-237 | cost, quality and latency tables with the routing overhead: one row per strategy in first-seen order |
| `Grouping.ListedOnceInOrder` | experimentation/internal/runner/runner_rqs.go:117-125 | exactly the keys of the records are listed, each once, in the order of their first records |
| `MatrixReport.AggregateIs` | experimentation/internal/runner/runner_rqs.go:119-150 | served plus blocked is the strategy's record count, its cost that of its served records; accept and win + tie + los at most served |
| `MatrixReport.AggregateCounts` | experimentation/internal/runner/runner_rqs.go:119-150 | over the strategy's served records: accept counts ratings of 3 or more; win, tie and lose the live rerouted records with that verdict; cost, tokens, qualities and latencies are theirs |
| `MatrixReport.WinRateIs` | experimentation/internal/runner/runner_rqs.go:212-217 | a strategy whose comparisons are all won, all tied or all lost has win rate 100, 50 or 0 |
| `MatrixReport.RatesAre` | experimentation/internal/runner/runner_rqs.go:210-220 | accept and win rate times what they are taken over |
| `MatrixReport.CostRowIs` | experimentation/internal/runner/runner_rqs.go:151-172 | cost per request, cost per token and savings times what they are taken over |
| `MatrixReport.MeansAre` | experimentation/internal/runner/runner_rqs.go:208-237 | mean quality, latency and routing time times their numbers |
| `Grouping.KeysAddUp` | experimentation/internal/runner/runner_rqs.go:117-150 | any figure of the records summed over the listed keys is its sum over all records |
| `MatrixReport.ReportConserves` | experimentation/internal/runner/runner_rqs.go:117-172 | the cost rows add up to the cost of all served records, and their counts to the number of records |
| `MatrixReport.RatesInRange` | experimentation/internal/runner/runner_rqs.go:208-235 | accept and win rates lie in [0, 100], the baseline saves nothing against itself, p50 <= p95 <= p99 |
| `MatrixReport.QualityInRange` | experimentation/internal/runner/runner_rqs.go:135-221 | with ratings in 1..5 the mean normalised quality lies in [0, 1] |
| `MatrixReport.SavingsBounded` | experimentation/internal/runner/runner_rqs.go:168-170 | without negative costs no strategy saves more than 100 percent |
| `Percentiles.NearestRank` | experimentation/internal/runner/runner.go:172-186 | the smallest sample value with at least p percent of the sample at or below it |
| `Percentiles.PercentileMonotone` | experimentation/internal/runner/runner.go:172-186 | monotone in p |
| `Grouping.Totals` | operateur/internal/costengine/costengine.go:101-137 | one dimension of the breakdown: a total for exactly the non-empty keys, each the sum over the key's samples |
| `TeamCosts.WriteByTeam` | experimentation/internal/runner/runner_rqs.go:178-206 | for each strategy in first-seen order, each of its teams by name with the price of its samples |
| `TeamCosts.TeamsAccountForCost` | experimentation/internal/runner/runner_rqs.go:178-202 | the teams of a strategy and its served records without a team account for exactly its cost in the cost table |
| `StatsPlan.All` | experimentation/internal/router/router.go:371-377 | fresh objects for the seven strategies, of which only the second has state: a round robin at its first candidate |
| `StatsPlan.PlanStrategy` | experimentation/internal/runner/runner_rqs.go:530-547 | the nested loops over one strategy object build its tasks and leave its round robin as far on as tasks were planned |
| `StatsPlan.Plan` | experimentation/internal/runner/runner_rqs.go:528-548 | one repetition: All() and the planning loops build the plan of strategies that have served nothing |
| `StatsPlan.PlansIdentical` | experimentation/internal/runner/runner_rqs.go:525-548 | so two repetitions have the identical plan but for the repetition number |
| `StatsPlan.CarriedPlansAlike` | experimentation/internal/router/router.go:151-165 | a round robin kept after n served requests plans as a new one when the number of candidates of every job it serves divides n, and only then unless an allowed list repeats a model |
| `StatsPlan.KeptRoundRobinRepeats` | experimentation/internal/router/router.go:151-165 | one object kept for two repetitions repeats its plan when those numbers divide the number of its tasks, and only then unless an allowed list repeats a model |
| `StatsPlan.CarriedRoundRobinDiffers` | experimentation/internal/router/router.go:371-377 | a plan that a carried round robin changes: one prompt, two candidates |
| `StatsPlan.PlanSize` | experimentation/internal/runner/runner_rqs.go:529-547 | a plan has at most one task for each strategy and prompt |
| `StatsPlan.PlanIsOfJobs` | experimentation/internal/runner/runner_rqs.go:529-547 | every task is for a prompt of the workloads, a strategy of the list and the repetition |
| `StatsPlan.TaskIs` | experimentation/internal/runner/runner_rqs.go:529-547 | the k-th task of a strategy is for a job it serves as its k-th request, and for the model it chooses there |
| `StatsPlan.OneTaskEach` | experimentation/internal/runner/runner_rqs.go:529-547 | a strategy without state plans a task for exactly the jobs it does not block |
| `StatsMatrix.StepKeeps` | experimentation/internal/runner/runner_rqs.go:549-588 | every step of main or of a goroutine keeps the invariant |
| `StatsMatrix.SomeStepEnabled` | experimentation/internal/runner/runner_rqs.go:552-580 | no deadlock: until main is done some step is possible, even with the semaphore full |
| `StatsMatrix.CollectIsSequential` | experimentation/internal/runner/runner_rqs.go:550-586 | scanning filled slots gives the records in order or the error of the lowest index, as the sequential loop does |
| `StatsMatrix.RecordsAre` | experimentation/internal/runner/runner_rqs.go:570-578 | each record is what its task's model answered to its prompt, under the task's names; rerouted exactly when that is not the premium model |
| `StatsMatrix.FirstFailure` | experimentation/internal/runner/runner_rqs.go:582-586 | an error is that of the first task that cannot be served |
| `StatsMatrix.PhaseIsCorrect` | experimentation/internal/runner/runner_rqs.go:549-588 | every interleaving: at most six in flight, no cache touched, some step possible, bounded length, the sequential result |
| `StatsMatrix.RepetitionsAgree` | experimentation/internal/runner/runner_rqs.go:525-588 | with deterministic client and judge every repetition brings the same records or the same error |
| `StatsMatrix.RunPhase` | experimentation/internal/runner/runner_rqs.go:549-588 | a scheduler that runs any enabled step until main is done returns the sequential result and leaves the caches |
| `StatsMatrix.RunnableIs` | experimentation/internal/runner/runner_rqs.go:549-588 | what the scheduler picks from is exactly what is enabled |
| `StatsMatrix.RunStatsMatrix` | experimentation/internal/runner/runner_rqs.go:511-592 | the repetition loop over any schedules: strategies, plan and run anew each time, records appended, the first error ends it, the caches stay |
| `StatsMatrix.RepeatsAreCopies` | experimentation/internal/runner/runner_rqs.go:525-592 | the run fails in its first repetition or not at all; otherwise it holds one copy of the same records per repetition |
| `GpuBench.RunInv` | experimentation/cmd/gpubench/main.go:106-147 | along every interleaving each job handed out is with one worker or sent once, and the tally is that of the drained results |
| `GpuBench.SendNeverBlocks` | experimentation/cmd/gpubench/main.go:109-131 | no send to out blocks or meets a closed channel |
| `GpuBench.SomeStepEnabled` | experimentation/cmd/gpubench/main.go:106-147 | until main is done some step is possible |
| `GpuBench.RunBounded` | experimentation/cmd/gpubench/main.go:106-147 | every interleaving is finite, with a bound |
| `GpuBench.TallyOrder` | experimentation/cmd/gpubench/main.go:134-147 | the tally does not depend on the order of the results |
| `GpuBench.PoolIsCorrect` | experimentation/cmd/gpubench/main.go:106-147 | all of it at once, and with a worker the final tally is the sequential one with served + errs = requests |
| `GpuBench.PoolTallies` | experimentation/cmd/gpubench/main.go:134-147 | with a worker, the final tally counts the requests answered and failed, sums their tokens and holds their latencies |
| `Approval.RunKeeps` | operateur/api/v1alpha1/aichangerequest_types.go:170-179 | between any two points of a run of admitted updates: whatever was set is unchanged, and the identity too |
| `Approval.ApprovalChangesOnce` | operateur/api/v1alpha1/aichangerequest_types.go:177 | along a run the approval changes at most once, and only from Pending |
| `Approval.DecisionStaysBound` | operateur/api/v1alpha1/aichangerequest_types.go:170-309 | once a decision validates it validates later in the run exactly when every proposal field is unchanged and the clock is in its window |
| `Approval.ValidatedProposalsAgree` | operateur/api/v1alpha1/aichangerequest_types.go:255-309 | two validations in one run are of the same proposal and the same decision |
| `Approval.DecisionNotTransferable` | operateur/api/v1alpha1/aichangerequest_types.go:156-168 | a decision that validates on one object validates on none with another UID, namespace, name or requester |
| `Approval.HonestDecisionWindow` | operateur/api/v1alpha1/aichangerequest_types.go:283-309 | an honestly stamped decision validates exactly from five seconds before it was made up to its expiry; deciding leaves the proposal digest alone |
| `Approval.ValidIsStamped` | operateur/api/v1alpha1/aichangerequest_types.go:283-309 | a decision validates exactly when it is what stamping gives a named reviewer other than the requester on this very proposal, with the outcome shown, while in force |
| `ChangeApproval.UpdateDecides` | operateur/internal/webhook/changeapproval/handler.go:53-262 | an admitted update keeps the proposal and either changes no outcome or is a distinct reviewer's decision |
| `ChangeApproval.PendingAdmitted` | operateur/internal/webhook/changeapproval/handler.go:53-262 | a write to a valid pending proposal is admitted exactly when a named user leaves it as it is, or a reviewer other than the requester sets only the outcome, before the expiry and within the validator's times; its decision then validates |
| `ChangeApproval.DecidedAdmitted` | operateur/internal/webhook/changeapproval/handler.go:53-262 | a decided proposal takes exactly the writes of a named user that change nothing |
| `ChangeApproval.CreateAdmitted` | operateur/internal/webhook/changeapproval/handler.go:53-262 | a proposal is created exactly by a named user, undecided, in nobody else's name and over a scope with its own digest |
| `ChangeApproval.HistoryDecides` | operateur/internal/webhook/changeapproval/handler.go:53-262 | a decided object was decided by one write of its history |
| `ChangeApproval.TwoPersonControl` | operateur/internal/webhook/changeapproval/handler.go:53-321 | whatever writes were attempted, a decided object was decided by one write of a reviewer who did not create it, on the proposal as created, and it validates exactly in its window |
| `Ledger.Engine.Receive` | operateur/internal/govar/engine.go:527-707 | Dispatch, Settle and Cancel: event, reservation, tenant and inbox afterwards, with the reservation as it was before the window advanced |
| `Ledger.Engine.RollReservations` | operateur/internal/govar/ledger_extensions.go:310-316 | the loop over the reservations in any order puts a guard on each on-time provisional one, and adds up the guards |
| `Ledger.Engine.AdvanceWindow` | operateur/internal/govar/ledger_extensions.go:295-320 | a tenant's window moves only forward, to that of the clock |
| `Ledger.Engine.BindTenant` | operateur/internal/govar/engine.go:1130-1156 | one policy and one budget per window; a later window rolls over |
| `Ledger.Engine.AdmitRequest` | operateur/internal/govar/engine.go:395-515 | existing requests, binding, the choice among the offers that fit, and the hold |
| `Ledger.Engine.ReconcileExpired` | operateur/internal/govar/ledger_extensions.go:372-414 | the sweep in any order: pending calls are released, possibly billable ones keep their hold |
| `Ledger.Engine.AdjustBudget` | operateur/internal/govar/ledger_extensions.go:335-368 | payment and new budget, once per adjustment and only in its window |
| `Ledger.Engine.Liability` | operateur/internal/govar/engine.go:709-721 | the liability of a tenant after its window has advanced; an unknown tenant is made |
| `LedgerCharges.FinalCharge` | operateur/internal/govar/engine.go:793-960 | over every history, what a final call is charged: first reported in doubt or in a later window, its highest cost, in every window; otherwise the last cost reported in its own window, there, and nothing elsewhere |
| `LedgerCharges.OneReportCharge` | operateur/internal/govar/engine.go:859-960 | so a call of one report is charged its cost: late in every window, else in its own |
| `LedgerCharges.FirstReportBooked` | operateur/internal/govar/engine.go:859-917 | through a message: the first cost is debt exactly for an unresolved call or one whose window is over, else settled there |
| `LedgerCharges.CorrectionBooked` | operateur/internal/govar/engine.go:853-917 | before finality debt rises to a higher cost and never falls; a settled cost follows only in its own window |
| `LedgerCharges.CreditBooked` | operateur/internal/govar/engine.go:881-911 | audit credit is what the last cost is below the first, except while settled in the open window or at the debt's height |
| `LedgerCharges.CorrectionAfterFinality` | operateur/internal/govar/engine.go:793-834 | a correction after finality moves debt and audit credit only |
| `LedgerCharges.ReportAnswered` | operateur/internal/govar/engine.go:927-962 | the phase a report leaves and the reason answered: a cost above the reservation or a bound is always said, else finality, debt, correction or first settlement |
| `LedgerCharges.SettlementTaken` | operateur/internal/govar/engine.go:758-855 | taken exactly is the next version that names the report before it, or the finality of the last one; the same report again changes nothing |
| `LedgerCharges.DispatchTaken` | operateur/internal/govar/engine.go:731-756 | a claim exactly of a pending reservation, an outcome exactly of a claimed one |
| `LedgerCharges.CancelTaken` | operateur/internal/govar/engine.go:965-995 | a pending call is released; a claimed one exactly when the provider vouches for it, and is in doubt otherwise |
| `LedgerCharges.AcceptedOnly` | operateur/internal/govar/engine.go:527-707 | only messages of the reservation's own principal, for its attempt and route, take effect |
| `LedgerCharges.KeptSince` | operateur/internal/govar/engine.go:395-960 | over every history what admission froze stays, the first report fixes base and debt, a final call changes only by a new version |
| `LedgerCharges.WindowAdvances` | operateur/internal/govar/ledger_extensions.go:295-320 | the advance succeeds exactly when the clock knows the period and is not behind, and ends at its window |
| `LedgerCharges.BindTaken` | operateur/internal/govar/engine.go:1130-1156 | a tenant is bound exactly for the first time, to the same policy and budget, or for a later window |
| `LedgerCharges.DecideGrants` | operateur/internal/govar/admission_policy.go:119-131 | granted exactly is an enrolled request with an offer that fits; queued exactly one whose offers are all too dear |
| `LedgerCharges.AdmitGrants` | operateur/internal/govar/engine.go:395-515 | over the whole admission; a known request changes nothing |
| `LedgerCharges.GrantedReservation` | operateur/internal/govar/engine.go:478-503 | the new reservation holds the offer's amount, pending, bound to caller, offer, window and expiry |
| `LedgerCharges.GrantedIsBest` | operateur/internal/govar/admission_policy.go:132-144 | no offer that fits is better, faster or cheaper than the one granted, by the objective; among equals none reserves less |
| `LedgerCharges.SweepTouches` | operateur/internal/govar/ledger_extensions.go:372-414 | a sweep in any order touches exactly the reservations due by then: pending ones end, claimed ones become unresolved |
| `LedgerCharges.ExpireFrees` | operateur/internal/govar/ledger_extensions.go:372-414 | what expiry releases of a hold is available again, and only that |
| `LedgerCharges.AdjustTaken` | operateur/internal/govar/ledger_extensions.go:335-368 | taken exactly when authorised and complete and new, for the tenant's window, paying no more than the debt, or the one recorded under its name |
| `LedgerCharges.AdjustEffect` | operateur/internal/govar/ledger_extensions.go:335-368 | it lowers the debt by the payment, sets the budget, and touches nothing else |
| `LedgerCharges.AdjustedOnce` | operateur/internal/govar/ledger_extensions.go:335-368 | in every later state its name takes no other and changes nothing again |
| `LedgerProperties.ActInStep` | operateur/internal/govar/engine.go:731-995 | whatever a message does to a reservation, every total of its tenant moves by the change of the reservation's entry |
| `LedgerProperties.RollOverFollows` | operateur/internal/govar/ledger_extensions.go:310-318 | a rollover moves every total with the entries: the guards enter the reserved one as the settled one starts at zero |
| `LedgerProperties.AccountsKept` | operateur/internal/govar/postgres_engine.go:662-668 | over every history the totals are the sums the database checks at start, and the reserved one exceeds its sum by the guards that stale reservations overwrote: none if the reservation is read again |
| `LedgerProperties.HandleFollows` | operateur/internal/govar/engine.go:612-639 | one message: the reserved total drifts by exactly the guard its own rollover put on the reservation it had read before |
| `LedgerLimits.StaleGuardKept` | operateur/internal/govar/engine.go:612-639 | a history of four calls after which nothing is held and 5 stay reserved; 0 with the reservation read again |
| `LedgerSafety.OpenCharge` | operateur/internal/govar/engine.go:859-917 | an open call is charged the larger of its reservation and its cost, in its own window and in any later one |
| `LedgerSafety.ChargedInFull` | operateur/internal/govar/engine.go:395-995 | so in every history that loses no guard |
| `LedgerSafety.AvailableIs` | operateur/internal/govar/engine.go:1158-1160 | with exact totals, what is available is the budget less the charges of all calls, and more the debt paid |
| `LedgerSafety.AdmissionFits` | operateur/internal/govar/admission_policy.go:119-131 | an admission fits into what is available and leaves that much less |
| `LedgerSafety.NeverOverdrawn` | operateur/internal/govar/engine.go:395-995 | no budget is ever overdrawn in a history without reports above the reservation or of expired calls, increases after finality, and budget cuts |
| `LedgerLimits.BestFirst` | operateur/internal/govar/admission_policy.go:132-144 | no offer that fits comes before the one granted by objective, reservation and name |
| `LedgerLimits.EffectOnce` | operateur/internal/govar/engine.go:538-583 | a message that took effect is answered as a replay in every later state and changes nothing |
| `LedgerLimits.LifeOfACall` | operateur/internal/govar/engine.go:731-995 | a message moves a call along these phases only, and a call that is over holds nothing |
| `LedgerLimits.ListedUnlessRevived` | operateur/internal/govar/engine.go:640-642 | a message keeps the set of open calls exact except exactly when it reopens an expired one |
| `LedgerLimits.FirstReportTaken` | operateur/internal/govar/engine.go:787-792 | a first report is taken for claimed calls, but for expired ones as well |
| `LedgerLimits.ExpiredCallRevived` | operateur/internal/govar/engine.go:787-917 | such a report takes the reservation from the budget again without an admission |
| `LedgerLimits.PostFinalExact` | operateur/internal/govar/engine.go:793-834 | an increase after finality charges the new cost exactly when the cost at finality was the first one reported |
| `LedgerLimits.PostFinalOvercharge` | operateur/internal/govar/engine.go:793-834 | 5, corrected to 8, final, raised to 9: charged 12 |
| `LedgerLimits.PostFinalElsewhere` | operateur/internal/govar/engine.go:800-809 | for a late call it is the full cost, for one final in an earlier window the excess over the first |
| `LedgerLimits.PostFinalFrees` | operateur/internal/govar/engine.go:793-834 | a correction after finality frees budget exactly when it raises the cost to less than was charged before |
| `LedgerLimits.PostFinalRaiseFrees` | operateur/internal/govar/engine.go:793-834 | 5 final, 9, 6, 7: the last frees 2 |
| `LedgerLimits.HoldCeiling` | operateur/internal/govar/postgres_engine.go:670 | the ceiling the database checks at start fails exactly for a cost above the reservation carried into a new window |
| `LedgerLimits.AdjustmentClosesWindow` | operateur/internal/govar/engine.go:1130-1137 | after an adjustment the policy bound before admits again in that window exactly when the budget was not changed |
| `MannWhitney.AssignRanks` | article1/scripts/analyze_all.py:118-131 | the nested loops give every observation the average position of its tie group |
| `MannWhitney.RankU` | article1/scripts/analyze_all.py:116-135 | u1 from the rank sum is the number of pairs won plus half the pairs tied |
| `MannWhitney.MannWhitneyP` | article1/scripts/analyze_all.py:115-138 | the p-value is that of the pair-counting U; None for an empty sample |
| `MannWhitney.RanksSum` | article1/scripts/analyze_all.py:118-131 | all ranks of a pool sum to N(N + 1)/2, with any ties |
| `MannWhitney.RankSumIsU` | article1/scripts/analyze_all.py:132-135 | rank sum less n(n + 1)/2 is U |
| `MannWhitney.PValueSymmetric` | article1/scripts/analyze_all.py:115-138 | swapping the samples leaves the p-value unchanged |
| `RankVariance.UMeanAndVariance` | article1/scripts/analyze_all.py:134-136 | over all ways to split a pool of distinct values into samples of these sizes, half the number of pairs is the mean of U and n1 n2 (n1 + n2 + 1) / 12 its variance |
| `RankVariance.SplitsAre` | article1/scripts/analyze_all.py:134-136 | the splits summed over are exactly those with these sample sizes; SplitsDistinct: each once |
| `RankVariance.PValueStandardises` | article1/scripts/analyze_all.py:115-138 | the p-value is erfc of the distance of U from that mean, in units of the root of twice that variance |
| `MannWhitney.CliffsDeltaFromU` | article1/scripts/analyze_all.py:355-362 | delta is 2U/(n1 n2) - 1, lies in [-1, 1] and changes sign with the samples |
| `WeightedKappa.Judges` | experimentation/scripts/judge_agreement.py:16-29 | the matrix computation is 1 - n * observed / expected squared differences, over the indices numpy accepts |
| `WeightedKappa.HumanEval` | experimentation/scripts/analyze_human_eval.py:17-28 | the same over the pairs the range guard lets through |
| `WeightedKappa.MatrixObserved` | experimentation/scripts/judge_agreement.py:19-28 | a weighted confusion matrix sums to the weighted disagreement over the pairs |
| `WeightedKappa.MatrixExpected` | experimentation/scripts/judge_agreement.py:26-28 | the weighted outer product of its margins sums to the disagreement over all pairings, over n |
| `WeightedKappa.KappaRange` | experimentation/scripts/judge_agreement.py:28-29 | in [-1, 1]; 1 exactly when the raters agree everywhere; undefined exactly when no score differs from any other |
| `WeightedKappa.CopiesCountTheSame` | experimentation/scripts/analyze_human_eval.py:17-28 | both copies count the same pairs exactly when every score is in 1..k |
| `WeightedKappa.CopiesAgree` | experimentation/scripts/analyze_human_eval.py:17-28 | then they return the same value; the first fails exactly on a pair that cannot be indexed, where they differ because the second never fails |
| `WeightedKappa.CopiesDisagreeOnZero` | experimentation/scripts/analyze_human_eval.py:20-22 | in between they can differ: a score of 0 counts as the top category in one copy and not at all in the other |
| `Holm.Adjust` | article2/scripts/analyze_e2_significance.py:72-82 | sorting and the loop give each test the running maximum of min(1, (m - j) p_j) |
| `Holm.AdjustedRange` | article2/scripts/analyze_e2_significance.py:76-80 | adjusted values never decrease and lie between the raw p-value and 1 |
| `Holm.BelowLevel` | article2/scripts/analyze_e2_significance.py:76-82 | a test is rejected exactly when every test up to it passes its own step: the step-down prefix |
| `Holm.HolmIsClosedTest` | article2/scripts/analyze_e2_significance.py:72-82 | a test is rejected exactly when every set of tests containing it is rejected by Bonferroni on that set |
| `Holm.FalseRejectionNeedsSmallP` | article2/scripts/analyze_e2_significance.py:72-82 | rejecting a true null needs a true null with a p-value below level over their number |
| `Holm.BetweenBonferroniAndRaw` | article2/scripts/analyze_e2_significance.py:76-82 | every Bonferroni rejection is rejected, and every rejection is a raw one |
| `HistQuantile.HistQuantile` | article2/scripts/analyze_e8bis_overhead.py:53-70 | the sort and the walk with the previous bound and count return the interpolated quantile |
| `HistQuantile.QuantileInsideBucket` | article2/scripts/analyze_e8bis_overhead.py:53-70 | for any bucket counts with a positive last one and no negative bound: finite, inside the bucket that holds the target, at the last finite bound for +Inf |
| `HistQuantile.QuantileInterpolates` | article2/scripts/analyze_e8bis_overhead.py:53-70 | in the first bucket whose count reaches the target the value divides the bounds as the target divides the counts |
| `HistQuantile.QuantileMonotone` | article2/scripts/analyze_e8bis_overhead.py:53-70 | monotone in the proportion, so p50 <= p95, also with counts that decrease |
| `HistQuantile.NegativeBoundReverses` | article2/scripts/analyze_e8bis_overhead.py:57-69 | and only then: with a counted first bucket below zero the zero quantile is zero and some larger proportion has a negative one |
| `Wilson.IntervalInvertsScoreTest` | article2/scripts/analyze_e2_significance.py:23-30 | the interval holds exactly the proportions the score test does not reject |
| `Wilson.IntervalContainsShare` | article2/scripts/analyze_e2_significance.py:23-30 | it contains k/n and lies in [0, 1] |
| `Wilson.ClampNeverActs` | article1/scripts/update_q1_final_artifacts.py:47-54 | both implementations return the same interval on every input, so the clamp changes nothing |

## Left out

- Float rounding, NaN propagation and the rounding of displayed digits.
- Reason and finding texts of routing decisions, and the error messages of the validator beyond which check failed.
- Overflow of the round robin's counter and of token counts.
- `NormalizeZone` itself, SHA-256, JSON encoding, `erfc` and the exact binomial test.
- The distinction between an optional string that is absent and one that is present and empty in the CEL rules.
- Krippendorff's alpha, bootstrap intervals, plotting, and document builders.
- The break-even, benchmark and ablation runs, and the cost engine's other dimensions, currency and list of unpriced models.
- Availability in the budget rows: served over the number of prompts, undefined for an empty workload.
- The journal, CSV and cache files, argument parsing, the clocks behind timings, GPU utilisation scraping.
- LLM and judge HTTP clients, prompts, and retries.
- Kubernetes wiring, the status sub-resource, and which requests the webhook configuration routes to the handlers.
- Building the bucket deltas from scraped metrics, and the McNemar p-values the Holm block is given.
- The ledger's 64-bit amounts, which the model takes as unbounded, and reason codes of refusals.
- How an offer is governed, priced and calibrated, the registry of frozen cohorts, route snapshots, and the proofs of authority: admissions and adjustments take their outcome.
- The dispatch of selected-feedback requests, which the in-memory ledger refuses, and the PostgreSQL ledger's transactions, audit chain and workers.
- WeightedKappa.CopiesAgree: whether the values coincide when some index is negative but accepted is left to the data.
