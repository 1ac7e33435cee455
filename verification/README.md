# Spot/perp arbitrage engine: verified model

A Dafny model of the hard logic of the spot/perp arbitrage engine, with proofs about whole plans, whole
backtests and whole runs. `dafny verify dfyconfig.toml` checks everything.

The model follows the program file by file. Code that changes things step by step is a method with loops or a
class whose methods update its fields; each is proved equal to a specification function, and the properties are
lemmas about those functions. Money is whole cents in the planner, whole units of 1e-12 in the funding ledger and
exact reals elsewhere.

| module | what it models |
|---|---|
| `PairRows`, `KeepSubset` | which open pairs of a row id to keep: the 2^n search and the greedy pass |
| `DeltaPlan`, `Replan`, `ReplanExactly`, `ReplanLimit`, `RebalanceSignal` | the rebalance plan, what carrying it out does, and when it pays |
| `Allocator`, `AllocatorBounds`, `AllocatorOverdraw` | the greedy choice of new pairs under budget, pair count and account pools |
| `OpenExecutor`, `ExecutorPools`, `ExecutorAccounts` | the live open loop, the balance caches it draws down, and what it takes from one account |
| `ConfirmRounds` | the two confirmation counters, live and backtest |
| `MarketData`, `Backtest`, `Simulator` | price and funding lookups, the simulator state and its step |
| `NoLookAhead`, `BacktestLedger`, `BasisAccounting`, `IdleBacktest` | theorems about every backtest |
| `RetryQueue`, `RetryBounds` | the queue of failed opens and closes |
| `Attribution`, `FundingRows`, `FundingLedger`, `FundingRuns`, `FundingTiming` | funding payments: merging, exactly-once entry, sharing out, arrival in time |
| `Reconciler`, `ReconcileSafety` | recovery of untracked hedges |
| `MismatchGuard`, `Repair`, `RepairBounds`, `RepairPlan`, `RepairCycle` | detecting and repairing hedge mismatches |
| `CandlePaging` | reading candle history page by page |
| `Arith`, `Sorting` | numbers and stable sorting |

## Findings

Where the code does not do what its documentation or its names promise, the model follows the code:

- The backtest rows carry no `basis_abs_usd` (backend/core/spot_basis_backtest/engine.py:117-150), which the
  allocator requires to be positive (backend/core/spot_basis_runtime/decision_preview.py:129-144), so the shipped
  backtest never opens a position (`IdleBacktest.ShippedBacktestNeverTrades`). All other simulator theorems hold
  for an arbitrary supplier of that figure.
- Replanning a carried-out plan is always a fixpoint with at most 14 rows per row id, rows of size zero included
  (`Replan.ReplanIsFixpoint`). With more it can fail (`ReplanLimit.FifteenPairsAreReplanned`); it holds exactly when
  each targeted row id has at most 14 rows, or kept no more than its target, or still has more than 14 rows, or
  kept only sized rows of at least 1.1 times the overshoot (`ReplanExactly.ReplanIsFixpointExactly`).
- The keep-the-smallest fallback of the greedy pass can only keep a row of size zero
  (`KeepSubset.FallbackKeepsOnlyEmptyRows`), and the median of funding intervals is never used
  (`MarketData.MedianIsNeverUsed`).
- A unified account can be charged up to 1/leverage beyond its cap (`AllocatorBounds.AllocationWithinLimits`), and
  the bound is attained (`AllocatorOverdraw.CapIsExceeded`). It happens exactly when a pair with both legs on the
  account needs more than is left there when it is picked (`AllocatorOverdraw.UnifiedOverdrawExactly`).
- Merging funding rows prefers rows with a reference, yet a later rule can drop one
  (`FundingRows.ReferenceCanBeLost`, with the exact condition in `FundingRows.ReferenceSurvivesExactly`).
- A payment that appears behind the cursor is lost (`FundingTiming.LatePaymentIsMissed`); a payment is entered exactly
  when it appears before the cursor has passed it, whatever other payments do
  (`FundingTiming.PaymentIsEnteredExactly`).
- The representative position of a funding payment depends on the order of the candidates
  (`Attribution.PositionDependsOnOrder`), exactly when a paid strategy has several known position ids
  (`Attribution.OrderMattersExactly`).
- A partial perp fill can be taken for a complete one, reported in contracts (`Repair.PartialFillCanBeMisread`) or in
  base units (`Repair.BaseFillCanBeMisread`); the exact conditions are in `Repair.ContractFillReadCorrectly` and
  `Repair.BaseFillReadCorrectly`.
- The live executor sizes an open for 98% of its perp pool but draws it at the price ratio rounded to eight digits, so
  the draw can exceed 98% (`ExecutorPools.CapIsExceeded`): exactly when the ratio is rounded up and the wanted size
  needs more at the rounded ratio (`ExecutorPools.CapExceededExactly`).
- A unified account that is the short side of one pair and the long side of another has two pools, each read once. A
  run can take more than its balance although every reading is true (`ExecutorAccounts.TwoRolesOvertake`): exactly
  when a pair takes more than its pool shows less what the other role has taken since that pool was read
  (`ExecutorAccounts.AccountOvertakenExactly`). A pair inside such an account copies the perp pool over the spot pool
  and can raise it (`ExecutorAccounts.SpotPoolRaised`, with the exact condition in `SpotPoolRaisedExactly`).
- The live and the backtest confirmation counters can differ after a gap longer than the time-to-live
  (`ConfirmRounds.CountersDisagreeAfterGap`): exactly when such a gap lies between two signalled calls with one
  fingerprint (`ConfirmRounds.CountersAgreeExactly`).

## Model

| member | source | states |
|---|---|---|
| KeepSubset.PickKeepSubset | backend/core/spot_basis_auto_engine/target_state.py:137-221 | returns the kept rows, the rows to close and the kept sum of the subset chosen for a target: exhaustive up to 14 rows, greedy above |
| KeepSubset.SearchMasks | backend/core/spot_basis_auto_engine/target_state.py:159-179 | the scan over all masks returns the first mask of least cost, larger kept sum first among equals |
| KeepSubset.SumMask | backend/core/spot_basis_auto_engine/target_state.py:165-168 | sums the sizes of exactly the rows whose bit is set |
| KeepSubset.SumSizes | backend/core/spot_basis_auto_engine/target_state.py:150-151 | the total size of the bucket |
| KeepSubset.SplitRows | backend/core/spot_basis_auto_engine/target_state.py:181-190 | kept and closed rows in list order, and the kept sum |
| KeepSubset.GreedySelect | backend/core/spot_basis_auto_engine/target_state.py:192-212 | the greedy choice with its fallback |
| KeepSubset.GreedyPass | backend/core/spot_basis_auto_engine/target_state.py:193-203 | largest first, each row taken when it still fits within the tolerance |
| KeepSubset.MaskRoundTrip | backend/core/spot_basis_auto_engine/target_state.py:164-168 | every subset of n rows is the bit pattern of a mask below 2^n, so the scan misses none |
| KeepSubset.ScanBestIsBest | backend/core/spot_basis_auto_engine/target_state.py:164-179 | no mask already scanned beats the remembered one |
| KeepSubset.ExhaustiveIsOptimal | backend/core/spot_basis_auto_engine/target_state.py:158-190 | for at most 14 rows no subset at all is cheaper than the kept one, and none as cheap keeps more |
| KeepSubset.ExactSubsetIsKept | backend/core/spot_basis_auto_engine/target_state.py:158-190 | if any subset sums exactly to the target, the kept sum is the target |
| KeepSubset.EverythingUnderTargetIsKept | backend/core/spot_basis_auto_engine/target_state.py:158-221 | if everything fits under the target, everything is kept, in both branches |
| KeepSubset.GreedyIsLargestFirst | backend/core/spot_basis_auto_engine/target_state.py:192-221 | above 14 rows the kept sum stays within target plus tolerance, no dropped positive row still fits, and each was crowded out by kept rows at least as large |
| KeepSubset.FallbackKeepsOnlyEmptyRows | backend/core/spot_basis_auto_engine/target_state.py:205-212 | the keep-the-smallest fallback never keeps a row of positive size |
| KeepSubset.OvershootIsStable | backend/core/spot_basis_auto_engine/target_state.py:158-190 | searching the kept rows alone keeps all of them, even when they overshoot |
| DeltaPlan.BuildRebalanceDeltaPlan | backend/core/spot_basis_auto_engine/delta_plan.py:9-128 | the whole plan (opens, closes, keeps, gap total) equals the plan function of current rows and targets |
| DeltaPlan.GroupRows | backend/core/spot_basis_auto_engine/delta_plan.py:9-11 | rows grouped by row id, keys in order of first occurrence |
| DeltaPlan.SortGroups | backend/core/spot_basis_auto_engine/delta_plan.py:12-13 | each group sorted by size, largest first, ties in list order |
| DeltaPlan.PlanTarget | backend/core/spot_basis_auto_engine/delta_plan.py:29-105 | one target: keep a subset, close the rest, open the gap when worth it |
| DeltaPlan.CloseLeftovers | backend/core/spot_basis_auto_engine/delta_plan.py:107-128 | closes every sized row of a bucket no target claimed |
| Replan.ClosedExactly | backend/core/spot_basis_auto_engine/delta_plan.py:44-64 | a strategy is closed if and only if it has size and either no target names its row id or the subset choice dropped it |
| Replan.OpensForTarget | backend/core/spot_basis_auto_engine/delta_plan.py:66-89 | each target row id is opened at most once, exactly by its gap, and only above the minimum top-up |
| Replan.LandsOnTarget | backend/core/spot_basis_auto_engine/delta_plan.py:21-128 | after carrying the plan out a targeted row id holds exactly its target, or what was kept when the gap was too small or negative |
| Replan.NothingOutsideTargets | backend/core/spot_basis_auto_engine/delta_plan.py:107-128 | after carrying the plan out nothing of any size is left outside the target row ids |
| Replan.EveryCentIsKeptOrClosed | backend/core/spot_basis_auto_engine/delta_plan.py:21-128 | kept cents plus closed cents equal the current cents, for any targets |
| Replan.ReplanIsFixpoint | backend/core/spot_basis_auto_engine/delta_plan.py:21-128 | carrying the plan out and planning again for the same target yields empty open and close plans, with at most 14 rows per targeted row id |
| ReplanExactly.ReplanIsFixpointExactly | backend/core/spot_basis_auto_engine/delta_plan.py:21-128 | for any number of rows, carrying the plan out and planning again yields nothing exactly when each targeted row id has at most 14 rows, or kept no more than its target, or still has more than 14 rows, or kept only sized rows of at least 1.1 times the overshoot |
| ReplanExactly.OvershootKeptExactly | backend/core/spot_basis_auto_engine/target_state.py:158-190 | an overshoot within the tolerance is kept whole by the search if and only if every sized row is at least 1.1 times the overshoot |
| ReplanExactly.GreedyKeepsWhatFits | backend/core/spot_basis_auto_engine/target_state.py:192-203 | the greedy pass keeps everything when the total fits within target plus tolerance |
| ReplanLimit.FifteenPairsAreReplanned | backend/core/spot_basis_auto_engine/target_state.py:158-203 | with 15 rows on a row id the fixpoint fails: a concrete portfolio whose carried-out plan is planned away again |
| ReplanLimit.GreedyKeepsTwo | backend/core/spot_basis_auto_engine/target_state.py:192-203 | what the greedy pass keeps of that portfolio |
| RebalanceSignal.EvaluatePlan | backend/core/spot_basis_auto_engine/delta_plan.py:130-207 | gain, fees, amortised cost, risk and the raw signal of a plan, accumulated as the loops do |
| RebalanceSignal.SignalPaysForItself | backend/core/spot_basis_auto_engine/delta_plan.py:153-207 | a signal means the daily gain covers at least a fourteenth of the one-time fees plus the absolute deadband |
| Allocator.BuildOpenPortfolioPreview | backend/core/spot_basis_runtime/decision_preview.py:64-222 | the selected new pairs and their sizes equal the selection function of rows, holds, configuration and account caps |
| Allocator.UsageBook.ApplyUsage | backend/core/spot_basis_runtime/decision_preview.py:72-86 | one pair is charged to the right pools, unified or split, spot leg and margin leg |
| Allocator.ChargeHolds | backend/core/spot_basis_runtime/decision_preview.py:109-115 | the held pairs are charged in order and their total returned |
| Allocator.FilterEligible | backend/core/spot_basis_runtime/decision_preview.py:118-170 | exactly the rows with no rejection reason, in order, with score and gain rounded to six digits and the size hint to cents |
| Allocator.SelectRows | backend/core/spot_basis_runtime/decision_preview.py:184-222 | the greedy loop: sizes, stops and skips |
| Allocator.BudgetLeavesReserve | backend/core/spot_basis_runtime/decision_preview.py:21-38 | the target budget lies between 0 and the share of the used net asset value outside the reserve |
| AllocatorBounds.AllocationWithinLimits | backend/core/spot_basis_runtime/decision_preview.py:72-116 | holds plus new pairs stay within max(budget, holds); each new pair is in [min, max]; each split pool stays within max(cap, usage of holds), each unified pool within cap times (1 + 1/leverage), the excess only from pairs with both legs there |
| AllocatorOverdraw.UnifiedOverdrawExactly | backend/core/spot_basis_runtime/decision_preview.py:88-107 | a unified account ends above max(cap, usage of holds) if and only if some new pair with both legs on it needed more than was left there at the moment it was picked |
| AllocatorOverdraw.CapIsExceeded | backend/core/spot_basis_runtime/decision_preview.py:88-107 | the bound is attained: a cap of 1000 at leverage 2 ends at 1500 |
| AllocatorBounds.PairCountWithinLimits | backend/core/spot_basis_runtime/decision_preview.py:172-177 | the number of new pairs never exceeds what is requested, eligible or affordable at the minimum size |
| AllocatorBounds.AllocationIsMaximal | backend/core/spot_basis_runtime/decision_preview.py:187-203 | with fewer pairs than wanted, the leftover budget is below the minimum pair or every unselected eligible row has headroom below it under the final usage |
| AllocatorBounds.RankingIsRespected | backend/core/spot_basis_runtime/decision_preview.py:187-203 | ranked by score and then gain, both to six digits, a row is passed over for a lower-ranked one only when its accounts had no room for a minimum pair |
| OpenExecutor.ExecuteOpenPlan | backend/core/spot_basis_auto_engine/open_executor.py:186-250 | the plan loop: which opens are placed, at what size, and the caches they leave, whatever each balance read and each order answers |
| OpenExecutor.BalanceCaches.CapOpenSizeByAvailableMargin | backend/core/spot_basis_auto_engine/open_executor.py:78-153 | the capped size, the noted price ratio and the balance caches filled on the way |
| OpenExecutor.BalanceCaches.ConsumeAvailableAfterOpen | backend/core/spot_basis_auto_engine/open_executor.py:155-184 | what an executed open draws from the cached pools, including the shared pool of a unified account |
| ExecutorPools.CappedDrawFits | backend/core/spot_basis_auto_engine/open_executor.py:119-184 | a capped open draws at most 98.00005% of its perp pool and 98% of its spot pool, so clipping at zero never happens |
| ExecutorPools.CapExceededExactly | backend/core/spot_basis_auto_engine/open_executor.py:119-184 | a capped open draws more than 98% of its perp pool, or of its one unified account, if and only if recording the price ratio rounds it up and the wanted size at that ratio needs more than 98% |
| ExecutorPools.CapIsExceeded | backend/core/spot_basis_auto_engine/open_executor.py:119-184 | concrete balances and a price ratio whose capped open draws more than 98% |
| ExecutorPools.PerpPoolsBalance | backend/core/spot_basis_auto_engine/open_executor.py:186-235 | when every balance a plan needs is cached or can be read in its turn, each perp pool ends at its first reading minus exactly the sum of its draws |
| ExecutorPools.SpotPoolsBalance | backend/core/spot_basis_auto_engine/open_executor.py:186-235 | the same for the spot pool of an account that no pair uses as its one unified account |
| ExecutorAccounts.AccountOvertakenExactly | backend/core/spot_basis_auto_engine/open_executor.py:95-184 | when each reading of a unified account shows what is left of its balance, a run takes more than the balance if and only if some pair takes more than its pool shows less what the other role has taken since that pool was read |
| ExecutorAccounts.RunTracks | backend/core/spot_basis_auto_engine/open_executor.py:95-184 | as long as the balance lasts, each pool of the account shows what is left of it plus what the other role has taken since the pool was read |
| ExecutorAccounts.FreshPoolsAreSafe | backend/core/spot_basis_auto_engine/open_executor.py:95-184 | no run overtakes the balance whose pairs only draw on pools that lag by at most the cap margin (2%, or 1.99995% for the perp pool) |
| ExecutorAccounts.OneRoleStaysWithin | backend/core/spot_basis_auto_engine/open_executor.py:95-184 | a unified account used in one role only is never overtaken |
| ExecutorAccounts.OneRoleFits | backend/core/spot_basis_auto_engine/open_executor.py:155-235 | whatever the readings say, an account used only as short side, or only as long side, never gives more than its first reading; in both roles never more than both readings |
| ExecutorAccounts.TwoRolesOvertake | backend/core/spot_basis_auto_engine/open_executor.py:155-235 | a truthful run of three pairs that takes 1576 from a unified account of 1000 |
| ExecutorAccounts.SpotPoolRaisedExactly | backend/core/spot_basis_auto_engine/open_executor.py:155-171 | a pair inside the account raises its spot pool if and only if the perp pool lags by more than the spot pool does and the pair takes together |
| ExecutorAccounts.SpotPoolRaised | backend/core/spot_basis_auto_engine/open_executor.py:155-171 | a truthful run in which such a pair raises the spot pool from 19.80 to 790 |
| ConfirmRounds.RebalanceConfirm.Cleanup | backend/core/spot_basis_auto_engine/mismatch_guard.py:217-223 | the counter is reset when it was last touched longer ago than the time-to-live |
| ConfirmRounds.RebalanceConfirm.ApplyRounds | backend/core/spot_basis_auto_engine/mismatch_guard.py:226-252 | one call of the live counter |
| ConfirmRounds.LiveCountIsTrailingRun | backend/core/spot_basis_auto_engine/mismatch_guard.py:226-252 | after any calls the count is the length of the longest trailing run of signalled calls with one non-empty fingerprint and no gap above the time-to-live |
| ConfirmRounds.CountersAgreeExactly | backend/core/spot_basis_backtest/engine.py:183-191 | the live counter and the counter inlined in the backtest agree at every call if and only if no two adjacent calls, both signalled with one fingerprint, are further apart than the time-to-live |
| ConfirmRounds.CountersDisagreeAfterGap | backend/core/spot_basis_backtest/engine.py:183-191 | after a longer gap they differ: concrete calls |
| MarketData.IterBucketEpochs | backend/core/spot_basis_backtest/params.py:57-67 | the bucket times from start to end, every 15 minutes |
| MarketData.LoadIntervals | backend/core/spot_basis_backtest/indices.py:91-105 | the interval column filled in one pass over the snapshots |
| MarketData.PriceFromPast | backend/core/spot_basis_backtest/params.py:136-145 | a price lookup at a time is unchanged by any change to later points |
| MarketData.FundingFromPast | backend/core/spot_basis_backtest/params.py:148-220 | so is a funding lookup, with the inferred interval and the stability window |
| MarketData.IntervalsPersist | backend/core/spot_basis_backtest/indices.py:97-105 | a known interval is carried forward and lies between 0.5 and 24 hours |
| MarketData.MedianIsNeverUsed | backend/core/spot_basis_backtest/params.py:148-164 | the median over the last 17 intervals is never reached: the result is the direct interval or 8 hours |
| MarketData.PastIsKept | backend/core/spot_basis_backtest/params.py:136-145 | in time order the points at or before a time are the leading ones, which the binary search relies on |
| Simulator.RunEventBacktest | backend/core/spot_basis_backtest/engine.py:54-266 | the whole run equals the run function of world, parameters and scoring |
| Simulator.Engine.StepBucket | backend/core/spot_basis_backtest/engine.py:54-251 | one bucket: mark, close stale, decide, rebalance, check risk, sample |
| Simulator.Engine.MarkPosition | backend/core/spot_basis_backtest/engine.py:60-80 | one position marked to market, or counted as stale |
| Simulator.Engine.MarkToMarket | backend/core/spot_basis_backtest/engine.py:60-80 | all positions in order |
| Simulator.Engine.ClosePosition | backend/core/spot_basis_backtest/indices.py:137-143 | a close pays the fee, logs the event and drops the position; an unknown id changes nothing |
| Simulator.Engine.CloseStale | backend/core/spot_basis_backtest/engine.py:82-101 | force-closing what went stale |
| Simulator.Engine.BuildRows | backend/core/spot_basis_backtest/engine.py:103-150 | the scored rows of the day's universe that have both prices |
| Simulator.Engine.SelectTargets | backend/core/spot_basis_backtest/indices.py:116-130 | the row filter and the target portfolio, its percentages rounded to six digits and its days to four |
| Simulator.Engine.BuildCurrentState | backend/core/spot_basis_auto_engine/target_state.py:3-76 | the open positions as planner rows, rounded as the program rounds them, and their expected daily gain |
| Simulator.Engine.MakeDecision | backend/core/spot_basis_backtest/engine.py:163-192 | targets, plan, confirmation count and whether to execute; nothing while halted |
| Simulator.Engine.Rebalance | backend/core/spot_basis_backtest/engine.py:194-221 | closes then opens of an executed plan |
| Simulator.Engine.OpenPosition | backend/core/spot_basis_backtest/engine.py:206-221 | an open gets a fresh id, pays its fee and is logged |
| Simulator.Engine.CheckRisk | backend/core/spot_basis_backtest/engine.py:223-237 | peak, drawdown, and the hard stop that closes everything |
| NoLookAhead.RunSeesOnlyThePast | backend/core/spot_basis_backtest/engine.py:54-253 | two worlds that agree on every price and funding point at or before t and on the universe up to that day give the same positions, equity, counters, events and curve after any buckets up to t |
| NoLookAhead.PublishedCurvesAgree | backend/core/spot_basis_backtest/engine.py:239-251 | the curves of the two complete backtests coincide up to t |
| BacktestLedger.BooksAlwaysBalance | backend/core/spot_basis_backtest/engine.py:60-237 | after every bucket equity = max(100, initial) + basis + funding - fees, opens - closes = open positions, and ids are fresh |
| BacktestLedger.EverythingIsClosedAtTheEnd | backend/core/spot_basis_backtest/engine.py:255-266 | on return no position is open, opens = closes, and the accounts still balance |
| BacktestLedger.HaltIsFinal | backend/core/spot_basis_backtest/engine.py:164-237 | from the hard stop on no position exists and equity is constant in every later bucket |
| BacktestLedger.MaxDrawdownIsExact | backend/core/spot_basis_backtest/engine.py:223-225 | the reported drawdown is the minimum over buckets of equity over its prefix maximum, minus one, in percent |
| BacktestLedger.PeakIsHighWaterMark | backend/core/spot_basis_backtest/engine.py:223 | the high-water mark is the largest of the initial capital and the sampled equities |
| BasisAccounting.BasisProfitTelescopes | backend/core/spot_basis_backtest/engine.py:60-80 | cumulative basis profit is the sum over all positions ever opened of size times (entry basis - last marked basis) / 100, whatever stale gaps occurred |
| IdleBacktest.PicksHaveBasis | backend/core/spot_basis_runtime/decision_preview.py:129-144 | whatever the allocator picks has a positive absolute basis |
| IdleBacktest.ShippedBacktestNeverTrades | backend/core/spot_basis_backtest/engine.py:117-150 | the rows the backtest builds carry no absolute basis, so it opens nothing and its equity stays flat on every data set |
| IdleBacktest.TargetsExactlyWhenTradable | backend/core/spot_basis_runtime/decision_preview.py:118-203 | a bucket has targets if and only if the budget covers a minimum pair and some selectable row is tradable |
| RetryQueue.RetryList.EnqueueItems | backend/core/spot_basis_auto_engine/retry_queue.py:35-76 | enqueues a batch through the key index: new keys appended, waiting keys updated in place, then trimmed; counts the new ones |
| RetryQueue.RetryList.IndexKeys | backend/core/spot_basis_auto_engine/retry_queue.py:48 | the index maps every waiting key to where it waits |
| RetryQueue.RetryList.TrimIfNeeded | backend/core/spot_basis_auto_engine/retry_queue.py:29-34 | above 200 items the most recently updated 200 stay |
| RetryQueue.RetryList.ProcessDueRetries | backend/core/spot_basis_auto_engine/retry_queue.py:97-213 | one processing call over at most 30 due items |
| RetryQueue.RetryList.RequeueByKey | backend/core/spot_basis_auto_engine/retry_queue.py:188-196 | puts back the first waiting item of that key and no other |
| RetryBounds.EnqueueIsSound | backend/core/spot_basis_auto_engine/retry_queue.py:35-76 | keys stay distinct, at most 200 items wait, and a waiting key keeps its round and creation time |
| RetryBounds.TrimKeepsNewest | backend/core/spot_basis_auto_engine/retry_queue.py:29-34 | no item dropped was updated later than one kept |
| RetryBounds.ProcessExactly | backend/core/spot_basis_auto_engine/retry_queue.py:114-213 | the queue afterwards holds exactly the fates of the items before: untouched, put back with one more round, or gone |
| RetryBounds.ProcessBurnsFuel | backend/core/spot_basis_auto_engine/retry_queue.py:136-213 | the rounds still to go fall by at least the number of due items |
| RetryBounds.TriesBoundedOverRuns | backend/core/spot_basis_auto_engine/retry_queue.py:29-213 | over any run under one configuration an item is tried at most max_rounds + 1 times between entering and leaving |
| RetryBounds.QueueDrains | backend/core/spot_basis_auto_engine/retry_queue.py:97-213 | with nothing enqueued at most 200 (max_rounds + 1) items are ever handled |
| Attribution.ResolveAssignmentAllocations | backend/core/pnl_v2_logic.py:119-160 | the allocations of a candidate list |
| Attribution.SplitRows | backend/core/pnl_v2_logic.py:148-160 | the split of the sorted rows by notional, or everything to the first |
| Attribution.MergedRows | backend/core/pnl_v2_logic.py:129-146 | one row per strategy with its positive notional summed, its earliest creation and its first position id |
| Attribution.OrderedRows | backend/core/pnl_v2_logic.py:148-150 | the rows are in the documented strict order and hold the whole notional |
| Attribution.RatiosShareOutTheWhole | backend/core/pnl_v2_logic.py:152-160 | ratios are in [0, 1] and sum to 1; each is the share of positive notional, or all goes to the oldest strategy |
| Attribution.OrderDoesNotMatter | backend/core/pnl_v2_logic.py:119-160 | permuting the candidates changes neither the strategies, their order nor the ratios |
| Attribution.PositionDependsOnOrder | backend/core/pnl_v2_logic.py:142-144 | the representative position id does depend on the order: concrete candidates |
| Attribution.PositionStableExactly | backend/core/pnl_v2_logic.py:142-144 | the representative position id of a strategy is the same for every permutation if and only if its known position ids are all equal |
| Attribution.OrderMattersExactly | backend/core/pnl_v2_logic.py:119-160 | the whole allocations, position ids included, are the same for every permutation if and only if every strategy mentioned has at most one known position id, or, with no positive notional, the oldest one has |
| Attribution.AssignedTotalIsClose | backend/core/funding_ledger/assign.py:143-144 | the k rounded payments of an event total its amount to within k/2 units of 1e-12 |
| FundingRows.DedupeFundingRows | backend/core/funding_ledger/normalize.py:67-102 | merges the fetched rows by symbol, time and amount, sorted by time |
| FundingRows.DedupeKeepsOnePerPayment | backend/core/funding_ledger/normalize.py:67-102 | exactly one row survives for every usable payment fetched, in order of time |
| FundingRows.FirstSettledRowIsKept | backend/core/funding_ledger/normalize.py:82-98 | if any row of a payment has a reference and is no fallback, the first such row survives |
| FundingRows.ReferenceSurvivesExactly | backend/core/funding_ledger/normalize.py:82-98 | the surviving row has a reference if and only if some row of the payment has one and is no fallback, or the last row that has one or is no fallback has one |
| FundingRows.ReferenceCanBeLost | backend/core/funding_ledger/normalize.py:82-98 | otherwise the reference can be lost, against the stated preference: concrete rows |
| FundingLedger.FundingStore.UpsertFundingEvent | backend/core/funding_ledger/assign.py:5-81 | finds the row by hash, then by business key, refreshes it or inserts a new one |
| FundingLedger.FundingStore.AssignFundingEvent | backend/core/funding_ledger/assign.py:135-157 | replaces the payments of a ledger row by its rounded shares |
| FundingLedger.FundingStore.EnterRows | backend/core/funding_ledger/assign.py:193-202 | the row loop up to an exception, if any |
| FundingLedger.FundingStore.IngestExchangeFundingEvents | backend/core/funding_ledger/assign.py:160-250 | one call: banned, fetch failure, commit with the cursor advanced, or rollback with the retry counted |
| FundingLedger.FundingStore.Rollback | backend/core/funding_ledger/assign.py:226-239 | restores every table and records the failure on the cursor alone |
| FundingRuns.CycleKeepsOrder | backend/core/funding_ledger/assign.py:160-250 | whatever happens in a call, keys stay distinct, rows keep their ids, payments stay shared out and no cursor moves back |
| FundingRuns.CycleAddsExactly | backend/core/funding_ledger/assign.py:192-215 | a committed call adds exactly the payments it fetched and moves its cursor past them; any other call adds nothing |
| FundingRuns.IngestionIsExactlyOnce | backend/core/funding_ledger/assign.py:5-239 | over any run of successes, failures, bans and redeliveries the ledger holds each payment of a committed call once and nothing else |
| FundingRuns.NoPaymentIsMissing | backend/core/funding_ledger/assign.py:180-215 | with complete fetches and no payment appearing behind the cursor, none between the first read and the cursor is missing |
| FundingRuns.LatePaymentIsLost | backend/core/funding_ledger/assign.py:180-204 | a payment appearing behind every cursor of its exchange is never entered when fetches start at the cursor |
| FundingTiming.PaymentIsEnteredExactly | backend/core/funding_ledger/assign.py:180-215 | when the calls of a scope return what is published from their cursor on, a payment between the first read and the cursor is in the ledger if and only if it was published while the cursor had not passed it, or another scope entered it |
| FundingTiming.LatePaymentIsMissed | backend/core/funding_ledger/assign.py:180-215 | a concrete run: of two payments between the first read and the cursor the late one is not in the ledger |
| Reconciler.Store.RunReconcileCycle | backend/core/spot_basis_reconciler/runner.py:27-221 | one cycle, each pair committed on its own, up to an exception, if any |
| Reconciler.Store.CloseWithoutOpenLegs | backend/core/spot_basis_reconciler/sync_ops.py:160-205 | closes exactly the active or closing strategies without an open leg |
| Reconciler.Store.LoadTrackedOpenLegs | backend/core/spot_basis_reconciler/sync_ops.py:127-157 | the tracked perp and spot quantities by key, as sums over the joined open legs |
| Reconciler.Store.FindUntracked | backend/core/spot_basis_reconciler/runner.py:33-62 | the untracked perps and the spot pool |
| Reconciler.Store.RecoverOne | backend/core/spot_basis_reconciler/runner.py:69-208 | pairs one untracked perp, or skips it for one of the listed reasons |
| ReconcileSafety.CleaningKeepsTracked | backend/core/spot_basis_reconciler/sync_ops.py:160-205 | closing empty strategies changes no tracked quantity |
| ReconcileSafety.EnterTracks | backend/core/spot_basis_reconciler/runner.py:150-195 | a recovered pair raises the tracked quantity of its perp key and its spot key by its base, and no other |
| ReconcileSafety.ReconcileNeverOverTracks | backend/core/spot_basis_reconciler/runner.py:33-208 | for every key the tracked quantity never falls and never exceeds max(tracked before, live), wherever the cycle fails |
| ReconcileSafety.WithinLiveIsKept | backend/core/spot_basis_reconciler/sync_ops.py:127-157 | tracked <= live for all keys is preserved |
| ReconcileSafety.PairsCoverTheirPerps | backend/core/spot_basis_reconciler/runner.py:80-195 | a cycle enters exactly its recovered pairs, two equal legs each, covering at least 60% and at most all of an untracked perp |
| ReconcileSafety.ReconcileKeepsOneOpen | backend/core/spot_basis_reconciler/runner.py:108-124 | at most one open strategy per symbol, long and short exchange is preserved |
| ReconcileSafety.BestIsClosest | backend/core/spot_basis_reconciler/runner.py:80-102 | no eligible spot holding is closer in size than the chosen one, or as close and worth more |
| MismatchGuard.Guard.BuildHedgeMismatchClosePlan | backend/core/spot_basis_auto_engine/mismatch_guard.py:20-202 | a scan: one decision per hold, and the records of strategies no longer held dropped |
| MismatchGuard.Guard.ObserveHold | backend/core/spot_basis_auto_engine/mismatch_guard.py:20-198 | one hold: record, limits, sizing, guard and decision |
| MismatchGuard.RoundsCountBreaches | backend/core/spot_basis_auto_engine/mismatch_guard.py:65-91 | over any run of scans `rounds` is the number of breaching reads since the strategy was last within epsilon or absent, and both clocks started with the first of their runs |
| MismatchGuard.ActsExactlyOnPersistence | backend/core/spot_basis_auto_engine/mismatch_guard.py:93-159 | after any run of scans a hold is repaired or closed if and only if its breaches persisted for enough rounds or time and, for a full spot reduction on a zero perp read, an unbroken run of such reads lasted the guard time |
| MismatchGuard.RepairIsTheExcess | backend/core/spot_basis_auto_engine/mismatch_guard.py:113-136 | the planned quantity is the excess of the larger leg, capped by that leg, to within half a unit of the tenth digit |
| Repair.ApplyReduceOnPositions | backend/core/spot_basis_auto_engine/risk_reduce.py:50-73 | the position rows after a reduction, changed in place, and what was taken off each |
| Repair.ReduceRow | backend/core/spot_basis_auto_engine/risk_reduce.py:62-72 | one row: decrement, and zero and close it when only dust is left |
| Repair.ExtractFilled | backend/core/spot_basis_auto_engine/risk_reduce.py:76-119 | the filled base read from an order lies between 0 and the request |
| Repair.CompleteFillIsRecognised | backend/core/spot_basis_auto_engine/risk_reduce.py:104-119 | a complete fill is recognised whether reported in contracts or base units |
| Repair.ContractFillReadCorrectly | backend/core/spot_basis_auto_engine/risk_reduce.py:104-119 | a fill reported in contracts is read correctly if and only if its base reading is strictly nearer to the request, or both cap alike |
| Repair.BaseFillReadCorrectly | backend/core/spot_basis_auto_engine/risk_reduce.py:104-119 | a fill reported in base units is read correctly if and only if the contract reading is not strictly nearer to the request, or both cap alike |
| Repair.BaseFillCanBeMisread | backend/core/spot_basis_auto_engine/risk_reduce.py:104-119 | half a unit filled out of a request for 5 with contracts of 10 is read as the whole request |
| Repair.PartialFillCanBeMisread | backend/core/spot_basis_auto_engine/risk_reduce.py:104-119 | one contract of 0.01 filled out of a request for 1 is read as the whole request |
| RepairBounds.ReduceTakesWhatIsAsked | backend/core/spot_basis_auto_engine/risk_reduce.py:50-73 | decrements total min(requested, available) to within 1e-12, at most 1e-10 of dust is zeroed, at most one row is left reduced in part |
| RepairBounds.LargestRowsGoFirst | backend/core/spot_basis_auto_engine/risk_reduce.py:58-73 | a row that changes is at least as large as any that does not |
| RepairPlan.Orchestrator.ExecuteMismatchRepairPlan | backend/core/spot_basis_auto_engine/orchestrator.py:3-149 | the plan loop with its repaired, failed and fallback lists |
| RepairPlan.Orchestrator.ReduceLeg | backend/core/spot_basis_auto_engine/orchestrator.py:33-134 | one item: order, fill, rows and status, or no change at all |
| RepairPlan.PlanIsAccountedFor | backend/core/spot_basis_auto_engine/orchestrator.py:9-147 | every item is repaired or failed, a strategy falls back at most once and only after a failure, and only repaired strategies change |
| RepairPlan.RepairTakesTheFill | backend/core/spot_basis_auto_engine/orchestrator.py:41-77 | the leg loses the fill to within 1e-12 and 1e-10 of dust, the other leg is untouched, and the strategy is closed exactly when no open row is left |
| RepairPlan.RepairNeverOverCorrects | backend/core/spot_basis_auto_engine/mismatch_guard.py:113-136 | with database legs equal to exchange legs, a planned repair shrinks the mismatch by its fill and never turns it round beyond 1.5e-10 |
| RepairCycle.CycleNeverOverCorrects | backend/core/spot_basis_auto_engine/open_cycle.py:60-79 | a scan and its whole repair plan over distinct strategies: whatever the orders answer, the gap of every strategy in step with the exchange grows by at most 1e-12 and turns round by at most 1.5e-10 |
| RepairCycle.UnscannedIsUntouched | backend/core/spot_basis_auto_engine/orchestrator.py:9-147 | a strategy that was not scanned is left alone by the plan |
| CandlePaging.FetchOhlcvRange | backend/core/spot_basis_data_layer/universe.py:204-256 | the rows collected page by page |
| CandlePaging.ReadPage | backend/core/spot_basis_data_layer/universe.py:229-240 | one page: rows in range, first per bucket, and the last bucket seen |
| CandlePaging.RowsAreCleanAndSorted | backend/core/spot_basis_data_layer/universe.py:230-256 | whatever the exchange answers, rows are on the grid, in range, strictly increasing and so without duplicates |
| CandlePaging.PagingIsTheRangeQuery | backend/core/spot_basis_data_layer/universe.py:204-256 | against a source that returns the first `limit` candles from the cursor, paging equals the direct range query, cut off at 5000 pages |
| CandlePaging.NothingIsCutOff | backend/core/spot_basis_data_layer/universe.py:204-256 | within 5000 full pages a candle is returned if and only if its time is in the range |

## Left out

- Exchange clients, orders, web sockets, e-mail, routers and the frontend: an order, a fetch or a balance read is an arbitrary result handed to the model.
- The database: tables are sequences and maps, a commit keeps the state and a rollback restores it. The race in which another worker inserts the same funding row between check and insert (backend/core/funding_ledger/assign.py:82-101) is not modelled.
- Floating point: arithmetic is exact. The roundings modelled are those to cents, to six digits (days to four) of the percentages and gains that rank new pairs and that the planner compares with its deadbands, to 1e-12 in the funding ledger, to ten digits in a repair plan and to eight digits of the noted price ratio, all as rounding half up (half away from zero in the funding ledger). The planner rounds its inputs a second time to the same digits, which changes nothing and is not repeated; the rounding of figures that are only displayed is not modelled.
- Scoring formulas (`scoring_config.py`, `funding_stats.py`): an arbitrary pure function of the row; the funding stability statistics likewise.
- Building account caps from capital rows, the daily universe with its `top_n` cut, fee tables and price tickers: given as inputs.
- The clock: readings are parameters, positive in the theorems about counters and guards, where the code treats a zero time as never seen.
- Text: symbol normalisation, row id building, upper-casing and the texts of reasons; symbols and assets are taken as already normalised, and plan fingerprints are compared as collections of planned items rather than as joined strings.
- Lists of rejected and skipped rows with their reasons, log lines, trade log rows, progress callbacks and summaries.
- SHA-256 of a funding row: an arbitrary function of the business key; that no two keys hash alike is an explicit premise of the exactly-once theorems.
- Which database positions are candidates for a funding payment (backend/core/funding_ledger/assign.py:104-132): given as a function of the ledger row.
- Entry price synchronisation of recovered strategies (backend/core/spot_basis_reconciler/sync_ops.py:5-79) and the prices stored with recovered legs: they change no quantity.
- Gathering live positions and balances from the exchanges (backend/core/spot_basis_reconciler/common.py:125-234): the gathered rows, one per key, are inputs.
- Position rows with a side other than the leg's own, and rows closed earlier, are not part of a leg in the repair model: a leg is its open rows.
- The early return of a backtest with an empty universe; `open_cycle.py`, but for handing the repairs of a scan on to be carried out; the spread-arbitrage lifecycle; the cycle file lock; `count_expected_funding_events`, quality labels and daily reconciliation: chains of early returns or single formulas.
- Simulator.Engine: keeps the simulator state as one record-valued field, so aliasing between the state dictionary and its position records is not captured.
- RetryQueue.RetryList.ProcessDueRetries: items are values, so a due item and the queue entry of its key are linked by the key, not by identity.
- ExecutorAccounts.AccountOvertakenExactly: speaks of runs in which every balance a plan needs is cached or can be read; after a failed read the program opens uncapped (modelled in `OpenExecutor`), and pools clipped at zero show nothing of the balance.
- Allocator.SelectRows: sizes are the exact allocations; the rounding to cents of the published size is applied where the planner reads it.
