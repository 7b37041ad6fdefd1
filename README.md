# CriptoAITrade trading core in Dafny

CriptoAITrade is a Next.js application for planning and tracking leveraged
crypto-futures scalping trades. This project models its decision and
bookkeeping logic and proves properties of that model:

- **The analysis route** (`app/api/ai-analysis/route.ts`), module `AiAnalysis`:
  - the viability gate that can refuse an asset for the user's constraints (forced direction, holding time, expected profit, funding);
  - the opportunity scorer and the best-asset selection used in auto mode;
  - the market-wide blocking reason and volatility label;
  - the deterministic fallback, and the routing of a POST between these paths.
- **The two plan calculators**:
  - the planner page (`app/planner/page.tsx`), module `Planner`;
  - the original page (`app/page.tsx`), module `ClassicPlanner`.

  Each decides a direction from indicator votes, computes a clamped success rate, and builds the trade plan. The shared plan arithmetic lives in `PlanMath`: target, stop, prices, fees, funding and duration bucket.
- **The operation store** (`hooks/useTradingData.ts`), module `TradingData`: operations move through PLANNED, ACTIVE, COMPLETED and STOPPED; settings are merged from patches; the statistics are recomputed from both.
- **Position monitoring** (`app/operations/page.tsx` and `components/real-time-monitor.tsx`), module `PositionMonitor`: the take-profit and stop-loss alerts written on each tick, the live P&L, and the two ways of closing a position.
- **The history view** (`app/history/page.tsx`), module `History`: status filter, search, the four sort orders, summary figures, and per-operation duration and profit percentage.
- **The post-trade metrics** of the operation-analysis route (`app/api/operation-analysis/route.ts`), module `OperationAnalysis`.

Shared records live in `TradingTypes`:
- the operation and its direction and status;
- quotes and settings;
- an `Option` type;
- the `filter`/`find` helpers with their contracts.

Modelling conventions:
- Prices and amounts are `real`. Times are integer milliseconds.
- A missing JavaScript value is `None`. Where the source tests truthiness, a numeric 0 counts as missing too; each member's comment says where.
- Where the source would compute NaN, the model returns `None`: the average of an empty list, and the risk/reward of a zero target.
- The browser's clock and generated ids are parameters.
- The language-model text and the technical-analysis snapshot are parameters. The pages' copy of the analysis route's answer (whether the asset is viable, and which symbol auto mode selected) is a parameter as well. The route itself is modelled as `AiAnalysis.Post`, but the pages' parameter is not tied to it.

## Model

| member | source | states |
|---|---|---|
| TradingTypes.FindQuote | app/operations/page.tsx:87 | the first quote with the symbol (no earlier quote has it), or `None` exactly when no quote has it; an instance of `TradingTypes.FindFirst` |
| TradingTypes.FindFirst | app/operations/page.tsx:87 | the first element satisfying the predicate (no earlier one does), or `None` exactly when none does |
| TradingTypes.Filter | hooks/useTradingData.ts:75 | kept elements satisfy the predicate, come from the input (as a sub-multiset) and every satisfying element is kept |
| TradingTypes.FilterAppend | hooks/useTradingData.ts:169 | filtering distributes over concatenation, i.e. keeps the relative order of kept elements |
| TradingTypes.FilterComplement | hooks/useTradingData.ts:82-83 | two complementary filters split a list exactly (counts add up to its length) |
| TradingTypes.ProfitOrZero | hooks/useTradingData.ts:79 | a missing realised profit counts as 0 |
| AiAnalysis.RequiredVolatility | app/api/ai-analysis/route.ts:313 | 3% for at most 15 minutes, 1% beyond 30 minutes, 2% otherwise |
| AiAnalysis.RequiredVolatilityAntitone | app/api/ai-analysis/route.ts:313 | a longer holding time never demands more volatility |
| AiAnalysis.EffectiveRsi | app/api/ai-analysis/route.ts:295 | a missing or zero RSI reads as 50, any other value as itself |
| AiAnalysis.ViabilityFactors | app/api/ai-analysis/route.ts:286-337 | at most four factors, empty exactly when none of the four rules fires |
| AiAnalysis.CheckViability | app/api/ai-analysis/route.ts:286-345 | viable exactly when no rule fires; otherwise all failing rules in rule order, and the reason is the first |
| AiAnalysis.ViabilityReasonOrder | app/api/ai-analysis/route.ts:337-342 | the reported reason is the first firing rule in the order direction, timeframe, profit, funding |
| AiAnalysis.DirectionRule | app/api/ai-analysis/route.ts:293-309 | a forced LONG is blocked iff RSI > 75 with bearish MACD, a forced SHORT iff RSI < 25 with bullish MACD; a missing RSI never blocks |
| AiAnalysis.FundingRule | app/api/ai-analysis/route.ts:329-335 | the funding rule blocks iff abs(funding) > 0.01 and the timeframe exceeds 30 minutes |
| AiAnalysis.NaturalDirection | app/api/ai-analysis/route.ts:243 | the asset's natural bias is LONG iff its 24h change is positive |
| AiAnalysis.ScoreFactors | app/api/ai-analysis/route.ts:232-284 | no blocking factor exactly when the candidate is viable; low liquidity is always the last factor |
| AiAnalysis.CalculateOpportunityScore | app/api/ai-analysis/route.ts:232-284 | the step-by-step scorer equals its specification; viable iff no factor; volume below 100M is never viable |
| AiAnalysis.UnconstrainedScore | app/api/ai-analysis/route.ts:237-283 | with no constraints the score is 50 and only liquidity decides |
| AiAnalysis.ScoreBounds | app/api/ai-analysis/route.ts:237-276 | with no or positive expected profit, every score lies in [40, 105] |
| AiAnalysis.AgainstTrendRule | app/api/ai-analysis/route.ts:242-251 | against the trend: blocked below 2% volatility, otherwise -10 points |
| AiAnalysis.CountViable | app/api/ai-analysis/route.ts:200-206 | the number of viable candidates is at most the number of candidates |
| AiAnalysis.RankCandidates | app/api/ai-analysis/route.ts:198-212 | the running best is the first viable candidate of maximal score above 0; the counter is the number of viable candidates |
| AiAnalysis.FindBestOpportunity | app/api/ai-analysis/route.ts:193-230 | returns the first best-scoring viable asset with the count of viable alternatives, or, iff no viable score exceeds 0, the market reason, average volatility and condition |
| AiAnalysis.SelectionFindsAnyViable | app/api/ai-analysis/route.ts:198-216 | with no or positive expected profit, an asset is selected exactly when some asset is viable |
| AiAnalysis.CountViableZero | app/api/ai-analysis/route.ts:200-214 | no viable option is counted iff no candidate is viable |
| AiAnalysis.DetermineBlockingFactor | app/api/ai-analysis/route.ts:399-410 | each market reason holds exactly under its own condition and the earlier ones failing, in priority profit > 5%, timeframe <= 15, forced direction, low volatility |
| AiAnalysis.SumVolatilityBound | app/api/ai-analysis/route.ts:371-373 | the summed absolute change is at most count times the largest one |
| AiAnalysis.AverageVolatility | app/api/ai-analysis/route.ts:371-373 | `None` iff the list is empty (0/0 in the source), otherwise between 0 and the largest absolute change |
| AiAnalysis.ConditionOf | app/api/ai-analysis/route.ts:381 | sideways iff average < 1, moderate iff 1 <= average < 3, otherwise (NaN included) high volatility |
| AiAnalysis.GenerateFallbackAnalysis | app/api/ai-analysis/route.ts:412-459 | rejected exactly when the same gate fails; otherwise the forced direction (LONG by default), take profit = expected or 0.5, stop = 0.6 of it, reward/risk 5/3 |
| AiAnalysis.Post | app/api/ai-analysis/route.ts:5-191 | auto mode answers no opportunity exactly when no viable candidate scores above 0, with the blocking factor, average volatility and market condition; otherwise it selects the first best-scoring viable candidate; outside auto mode, viable iff the gate passes, the reason is the first factor, Rejected carries every factor; a narrated answer names the requested symbol; a failed narration gives the fallback plan: the requested direction or LONG, take profit = expected profit or 0.5, stop = 0.6 of it |
| PlanMath.RiskMultiplier | app/planner/page.tsx:146 | 0.5 iff "low", 1 iff "medium", 1.5 for anything else |
| PlanMath.TargetProfitPercent | app/planner/page.tsx:147-149 | a filled-in expected profit is used as is |
| PlanMath.DefaultTargets | app/planner/page.tsx:146-149 | without expected profit the target is 0.4%, 0.5% or 0.6% by risk level |
| PlanMath.RiskReward | app/planner/page.tsx:187 | `None` (NaN) iff the target is 0, otherwise always 5/3 |
| PlanMath.PricesBracketEntry | app/planner/page.tsx:150-159 | for a positive entry and a target in (0, 500/3): LONG stop < entry < exit, SHORT exit < entry < stop |
| PlanMath.CostsReduceProfit | app/planner/page.tsx:161-169 | fees are 0.08% of the notional, fees and funding are non-negative, net <= gross |
| PlanMath.EstimatedDuration | app/planner/page.tsx:232-235 | "3-8 min" iff volatility > 3 or rising volume; "8-15 min" iff not that and volatility > 1.5 |
| PlanMath.DurationMonotone | app/planner/page.tsx:232-235 | more volatility never predicts a slower bucket |
| PlanMath.Clamp | app/planner/page.tsx:254 | `min(hi, max(lo, x))` lies in [lo, hi] and leaves in-range values unchanged |
| PlanMath.AssemblePlan | app/planner/page.tsx:138-195 | plan fields tie to the quote and inputs; exit, stop, gross and net profit come from the risk-adjusted target; fees 0.08% of the notional; funding from the quote's rate (0 when absent); risk/reward 5/3 for a non-zero target; stop and exit bracket the entry; net = gross - fees - funding <= gross; duration bucket |
| Planner.DetermineDirection | app/planner/page.tsx:205-229 | LONG iff the bullish tally (BUY counting 2) strictly exceeds the bearish one |
| Planner.BuyOutweighsOneSignal | app/planner/page.tsx:209-228 | a BUY recommendation against at most one bearish vote gives LONG |
| Planner.CalculateSuccessRate | app/planner/page.tsx:238-254 | the accumulated bonuses clamped to [45, 90] |
| Planner.RawRateRange | app/planner/page.tsx:238-254 | with a selectable risk level the raw rate lies in [57.5, 110.5], so the floor of 45 never applies |
| Planner.MissingTradingViewCountsAsSignal | app/planner/page.tsx:242 | a quote without TradingView data earns the same +15 as a non-neutral recommendation |
| Planner.ConfluenceQuirk | app/planner/page.tsx:247 | the confluence bonus fires when technicals are missing but never on a real snapshot, whose MACD and EMA vocabularies differ |
| Planner.BuildPlan | app/planner/page.tsx:138-195 | the plan's direction is the vote, its rate the clamp, and its fields are the assembled plan for the quote |
| Planner.FindPlannerQuote | app/planner/page.tsx:89 | the first planner quote with the symbol (no earlier one has it), or `None` exactly when no quote has it |
| Planner.PlannerPage.CalculateScalpingPlan | app/planner/page.tsx:80-202 | unknown selected asset: nothing changes; technicals stored; not viable: plan cleared; auto pick: selection updated; a found target gets the voted, rated, assembled plan |
| ClassicPlanner.DetermineDirection | app/page.tsx:249-265 | LONG iff the bullish tally (RSI < 30, bullish MACD, EMA up, change > 1%) strictly exceeds the bearish one |
| ClassicPlanner.NoSnapshotFollowsMomentum | app/page.tsx:249-265 | without a snapshot the direction is LONG iff the change exceeds +1% |
| ClassicPlanner.CalculateSuccessRate | app/page.tsx:274-284 | the accumulated bonuses clamped to [45, 85] |
| ClassicPlanner.RawRateRange | app/page.tsx:274-284 | with a selectable risk level and arbitrary snapshot values the raw rate lies in [57.5, 85.5], so the floor of 45 never applies |
| ClassicPlanner.ClassicConfluenceQuirk | app/page.tsx:277 | the MACD/EMA confluence bonus fires without a snapshot (undefined === undefined) and never on a snapshot from the technical-analysis route, whose MACD trend is BULLISH/BEARISH and EMA trend UP/DOWN |
| ClassicPlanner.ReachableRateBelowCap | app/page.tsx:274-284 | without a snapshot, or with one from the technical-analysis route, the raw rate is at most 77.5, so the cap of 85 never binds |
| ClassicPlanner.BuildPlan | app/page.tsx:186-238 | the plan's direction is the vote, its rate the clamp, and its fields are the assembled plan for the quote |
| ClassicPlanner.ClassicPage.CalculateScalpingPlan | app/page.tsx:128-246 | as the planner page, except that the snapshot is fetched and stored only for a specific, found asset |
| TradingData.NewOperation | hooks/useTradingData.ts:118-125 | the new operation carries the given id, start time and status PLANNED, and every other field from the draft |
| TradingData.Apply | hooks/useTradingData.ts:129-166 | start sets ACTIVE and a new start time; complete and stop change exactly the status, end time, exit price and profit (stop stores the negated loss) and keep every other field |
| TradingData.ApplyToId | hooks/useTradingData.ts:130 | same length; operations with the id updated, all others unchanged |
| TradingData.UpdateKeepsIds | hooks/useTradingData.ts:129-166 | an update adds, removes and reorders nothing |
| TradingData.StartReopensFinished | hooks/useTradingData.ts:129-131 | starting is unguarded: a finished operation becomes ACTIVE again |
| TradingData.ClosingKeepsFinished | hooks/useTradingData.ts:136-166 | completing or stopping never shrinks the finished list |
| TradingData.RemoveId | hooks/useTradingData.ts:168-170 | no kept operation has the id, every other operation is kept |
| TradingData.DeleteRemovesExactly | hooks/useTradingData.ts:168-170 | deletion drops exactly the operations with the id and distributes over concatenation |
| TradingData.InitialCapital | hooks/useTradingData.ts:99-102 | a missing or zero initial capital reads as 1000; any other value is used as is |
| TradingData.StatsOf | hooks/useTradingData.ts:71-116 | total, successful, long and short counts of the finished operations; total profit as the sum of their profits; success rate as a percentage; capital is initial plus total profit iff automatic capital is on |
| TradingData.FinishedStats | hooks/useTradingData.ts:75-116 | the statistics of a list of finished operations: counts, profit, rate and capital as above; today's count and profit over those ended since local midnight; average duration over those with an end time |
| TradingData.Percent | hooks/useTradingData.ts:111 | 0 for an empty whole, otherwise part*100/whole, within [0, 100] for a part of the whole |
| TradingData.Mean | hooks/useTradingData.ts:93-96 | 0 for no items, otherwise the value whose product with the count is the total |
| TradingData.StatsConsistent | hooks/useTradingData.ts:71-116 | long + short = total; successful and today's counts are sub-counts; rate in [0, 100]; nothing finished gives zero rate, duration and profit |
| TradingData.AddKeepsStats | hooks/useTradingData.ts:118-127 | adding a PLANNED operation leaves the statistics unchanged |
| TradingData.InitialStatsConsistent | hooks/useTradingData.ts:10-27 | the initial statistics are those of the empty list under default settings |
| TradingData.FixedCapital | hooks/useTradingData.ts:98-102 | with automatic capital off the capital ignores every trade |
| TradingData.Merge | hooks/useTradingData.ts:176-178 | for every settings key, a value present in the patch overwrites and an absent one keeps the previous value |
| TradingData.MergeIdempotent | hooks/useTradingData.ts:176-178 | an empty patch changes nothing; applying a patch twice equals applying it once |
| TradingData.TradingStore.constructor | hooks/useTradingData.ts:9-27 | no operations, initial statistics, default settings |
| TradingData.TradingStore.AddOperation | hooks/useTradingData.ts:118-127 | appends the new PLANNED operation and returns its id; settings and stats untouched |
| TradingData.TradingStore.StartOperation | hooks/useTradingData.ts:129-131 | the list becomes the start update applied to the id |
| TradingData.TradingStore.CompleteOperation | hooks/useTradingData.ts:136-150 | the list becomes the complete update applied to the id |
| TradingData.TradingStore.StopOperation | hooks/useTradingData.ts:152-166 | the list becomes the stop update applied to the id |
| TradingData.TradingStore.DeleteOperation | hooks/useTradingData.ts:168-170 | the list loses exactly the operations with the id |
| TradingData.TradingStore.DeleteAllOperations | hooks/useTradingData.ts:172-174 | the list becomes empty; settings and stats untouched |
| TradingData.TradingStore.UpdateSettings | hooks/useTradingData.ts:176-178 | settings become the merge of old settings and patch |
| TradingData.TradingStore.CalculateStats | hooks/useTradingData.ts:67-116 | stats become the statistics of the current operations and settings |
| TradingData.TradingStore.GetActiveOperations | hooks/useTradingData.ts:180 | exactly the ACTIVE operations, drawn from the list |
| TradingData.TradingStore.GetPlannedOperations | hooks/useTradingData.ts:181 | exactly the PLANNED operations, drawn from the list |
| PositionMonitor.LevelsExclusive | app/operations/page.tsx:96-100 | for well-ordered levels the target and stop alerts exclude each other and a price between them raises neither |
| PositionMonitor.PnL | app/operations/page.tsx:145-153 | at the entry price the P&L is minus fees and funding |
| PositionMonitor.PnLMonotone | app/operations/page.tsx:145-153 | P&L rises with the price for LONG and falls for SHORT |
| PositionMonitor.ToUpdate | app/operations/page.tsx:155-159 | a complete action becomes a complete update, a stop action a stop update |
| PositionMonitor.ManualCloseAction | app/operations/page.tsx:138-160 | complete iff the P&L is non-negative; otherwise stop with a positive loss; exit at the current price |
| PositionMonitor.ConfirmCloseAction | app/operations/page.tsx:169-191 | complete iff the user says profit, with the P&L as the profit; the stop loss is the P&L's absolute value; the exit is the current price |
| PositionMonitor.ManualCloseRecordsPnL | app/operations/page.tsx:138-160 | after a manual close the store records exactly the P&L, COMPLETED iff non-negative |
| PositionMonitor.ConfirmCloseFollowsFlag | app/operations/page.tsx:169-191 | a stop confirmed on a winning position records a loss, a profit confirmed on a losing one records COMPLETED with negative profit |
| PositionMonitor.CurrentPnL | app/operations/page.tsx:342-355 | 0 without a quote, otherwise the P&L at the quoted price |
| PositionMonitor.TickKeepsExisting | app/operations/page.tsx:102-117 | a tick never overwrites an alert already raised |
| PositionMonitor.TickAddsOnlyHits | app/operations/page.tsx:85-129 | every new alert belongs to a quoted operation that hit a level, and its kind is that operation's: stop loss when the stop is hit, else target |
| PositionMonitor.TickAlertsEveryHit | app/operations/page.tsx:85-129 | every quoted operation that hit a level is alerted after the tick |
| PositionMonitor.AlertMonitor.constructor | components/real-time-monitor.tsx:24 | no alerts |
| PositionMonitor.AlertMonitor.CheckOperations | components/real-time-monitor.tsx:37-83 | the loop leaves the alert map of the tick specification |
| PositionMonitor.AlertMonitor.HandleManualClose | components/real-time-monitor.tsx:86-115 | nothing without a quote; otherwise the manual close action, and the alert is dropped |
| PositionMonitor.AlertMonitor.HandleConfirmClose | components/real-time-monitor.tsx:117-146 | nothing without a quote; otherwise the flag-driven close action, and the alert is dropped |
| PositionMonitor.OperationsPage.constructor | app/operations/page.tsx:38 | no alerts, bound to the store |
| PositionMonitor.OperationsPage.CheckOperations | app/operations/page.tsx:85-131 | the loop over the store's ACTIVE operations leaves the tick specification's alert map |
| PositionMonitor.OperationsPage.HandleManualClose | app/operations/page.tsx:138-167 | without a quote nothing changes; otherwise the store applies the manual close to the id and the alert is dropped |
| PositionMonitor.OperationsPage.HandleConfirmClose | app/operations/page.tsx:169-198 | without a quote nothing changes; otherwise the store applies the confirmed close to the id and the alert is dropped |
| History.DefaultFilterHidesOpen | app/history/page.tsx:150-157 | "all" and unknown filters show exactly COMPLETED and STOPPED operations |
| History.LowerChar | app/history/page.tsx:160 | upper-case ASCII letters move to lower case, nothing else changes, no upper-case letter remains |
| History.ToLower | app/history/page.tsx:160-161 | same length, lower-cased character by character |
| History.ToLowerIdempotent | app/history/page.tsx:160-161 | lower-casing twice equals lower-casing once |
| History.ContainsAt | app/history/page.tsx:160-161 | `includes` holds iff the term occurs at some offset |
| History.SearchProperties | app/history/page.tsx:158-162 | an empty search keeps everything, an operation is found by its own symbol, the term's case does not matter |
| History.ParseSortKey | app/history/page.tsx:164-174 | "profit", "duration" and "symbol" select their order, anything else sorts by date |
| History.LexLeTotal | app/history/page.tsx:172 | any two symbols are comparable |
| History.LexLeTrans | app/history/page.tsx:172 | the symbol order is transitive |
| History.LeTotal | app/history/page.tsx:163-176 | each comparator orders any two operations |
| History.LeTrans | app/history/page.tsx:163-176 | each comparator is transitive |
| History.Insert | app/history/page.tsx:163-176 | inserting into a sorted list keeps it sorted and adds exactly the element |
| History.SortOps | app/history/page.tsx:163-176 | the result is sorted by the key and a permutation of the input |
| History.FilteredOperations | app/history/page.tsx:150-176 | sorted by the key, drawn from the operations, and every listed operation matches filter and search |
| History.FilteredOperationsComplete | app/history/page.tsx:150-162 | every operation matching filter and search is listed |
| History.SummaryOf | app/history/page.tsx:178-187 | finished and successful counts, total profit, success percentage and average duration of the finished operations; successful <= finished; nothing finished gives zeros; rate in [0, 100] |
| History.SumOfFilterZero | app/history/page.tsx:183-185 | skipping operations whose duration is zero does not change the sum |
| History.SummaryMatchesStats | app/history/page.tsx:178-180 | page and store agree on finished and successful counts, total profit and success rate |
| History.AverageDurationsRelated | app/history/page.tsx:181-187 | both averages divide the same minute total, the page by all finished operations, the store by those with an end time |
| History.DisplayDuration | app/history/page.tsx:386-388 | floor of elapsed minutes; 0 without an end time |
| History.ProfitPercent | app/history/page.tsx:390-391 | 0 for a non-positive investment, otherwise profit*100/investment |
| OperationAnalysis.OrZero | app/api/operation-analysis/route.ts:9-10 | a missing profit reads as 0 |
| OperationAnalysis.ComputeMetrics | app/api/operation-analysis/route.ts:9-95 | difference = actual - planned; percent relative to abs(planned) (0 for none); floor minutes held; success iff actual > 0; accuracy = max(0, 100 - abs(percent)), so within [0, 100] |
| OperationAnalysis.AccuracyMeasuresMiss | app/api/operation-analysis/route.ts:95 | accuracy is 100 iff nothing was planned or the plan was met, and 0 once the miss reaches 100% |
| OperationAnalysis.SuccessMatchesStore | app/api/operation-analysis/route.ts:94 | the route's success flag is the store's notion of a successful operation |
| OperationAnalysis.FallbackMetrics | app/api/operation-analysis/route.ts:115-121 | difference from the given fields, zero percent and duration, accuracy 50 |
| OperationAnalysis.FallbackAgreesOnOutcome | app/api/operation-analysis/route.ts:103-121 | the fallback agrees with the full metrics on difference and success |
| OperationAnalysis.FallbackAsWritten | app/api/operation-analysis/route.ts:102-121 | the fallback as written always reports no difference and no success |
| OperationAnalysis.Fallback | app/api/operation-analysis/route.ts:102-121 | the corrected fallback reports the posted operation's difference and outcome, with accuracy 50 |

## Left out

- The language-model calls, prompts and explanation texts are left out. The analysis route's narration is reduced to whether it fails. The operation-analysis text is not modelled.
- `generateAnalysisForCrypto` (app/api/ai-analysis/route.ts:461) is left out beyond its outcome. The auto path is modelled as returning the selected symbol, marked viable.
- Re-reading the request body inside the `catch` blocks of both routes is not modelled: the fallback is given the posted body. A second read of a consumed body would itself fail.
- The page-level `fetch` calls and their error branches are parameters. These are the analysis answer, the technical-analysis snapshot of the original page, and the market lists. The `catch` that shows an error message is not modelled.
- The technical-analysis route is not part of this model. Its snapshot is a parameter.
- Other parts that are not modelled:
  - browser notifications;
  - `localStorage` persistence;
  - timers and the monitoring interval;
  - the dashboard, settings and layout pages;
  - navigation;
  - string formatting and `toFixed`.
- Number parsing (`parseFloat`/`parseInt`) is not modelled. Inputs are already numbers, and unparsable text is not represented.
- Only LONG, SHORT and "auto" are modelled as forced directions. Any other direction string is not represented.
- `alertSent` and `userConfirmed` of the operation record are not modelled. No core function reads them.
- The `cryptoData` parameter of `determineBlockingFactor` is dropped. The function never reads it.
- Floating-point rounding is not modelled. All arithmetic is exact on `real`.
- PositionMonitor.PnL, ManualCloseAction, ConfirmCloseAction, CurrentPnL and the close handlers require a non-zero entry price. Where the source divides by zero there, the model does not describe the result.
- History.LexLe: `localeCompare` is modelled as character-code order, and lower-casing covers ASCII only. Locale collation and Unicode case mapping are not modelled.
- History.SortOps: it is specified as sorted and a permutation. The stability of the browser's sort is not stated.
- Operation ids are not assumed unique. Updates and deletion apply to every operation with the id, as the source's `map` and `filter` do.
- TradingData.StatsOf: "today" is a `todayStart` parameter (local midnight). Re-running the statistics effect after every change is the explicit `TradingStore.CalculateStats` call.
- PositionMonitor.AlertMonitor.CheckOperations: the queued state updates of one tick are applied in order. They are checked against the alert map as it was when the tick started, as the source reads `alerts` from that render.

## Findings

| source | as written | input that shows it | evidently intended | confidence | as-written member | corrected member |
|---|---|---|---|---|---|---|
| app/api/operation-analysis/route.ts:102-121 | the fallback reads `actualProfit` and `plannedProfit` off the request body, whose keys are `operation` and `detailed` | an operation with planned 5 and actual 12: the fallback reports difference 0 and "loss", the full metrics report 7 and success | read the fields of `body.operation`, as the main path does | not executed; high that the fields are read from the wrong level. The misreport is latent: the fallback first re-reads the request body at line 102, and that second read of a consumed body throws before the metrics are built. It surfaces once that read is fixed | OperationAnalysis.FallbackAsWritten (shown by OperationAnalysis.FallbackAsWrittenMisreports) | OperationAnalysis.Fallback |
