# LingShe TradeBot core, modelled in Dafny

LingShe TradeBot runs Hummingbot strategies (grid bots above all) behind a
desktop front end. This project models the parts of it that decide things:

- **The global risk-control engine** (`risk_config.dfy`, `time_window.dfy`, `risk_engine.dfy`).
  - The policy config tree and how an update replaces its parts.
  - The registry of per-strategy risk records, with the system position total maintained by deltas.
  - The worst single loss seen so far.
  - Three tumbling windows: order frequency, loss streak and account loss.
  - The tiered decision: disabled, then sticky pause, then the system, time and strategy tiers.
  - The pause latch, emergency stop and the status report.
- **The risk-control adapter** (`risk_adapter.dfy`).
  - Enable-gated delegation to the engine.
  - The all-or-nothing translation of a strategy's camelCase risk settings into the engine's config.
  - The time-unit name mapping.
- **The enhanced grid controller** (`grid_levels.dfy`, `enhanced_grid.dfy`).
  - Local risk rules and the loss counter.
  - Queued config updates and the grid-level update rules: prune, merge, append and truncate by priority.
  - Level price, balance requirement, executors to stop and take-profit settings.
- **The cash-out script** (`cash_out.dfy`): per-controller and global peak-PnL drawdown exits, the cash-out latch, the manual-kill-switch restart rule and the report throttle.
- **The trade-records service** (`trade_records.dfy`): the bounded recent-trades cache, the order-preserving filter, pagination and statistics.
- **The front end.**
  - The exchange catalogue with its connector-name build/parse round trip (`exchange_catalog.dfy`).
  - Grid ladder generation and validation (`grid_utils.dfy`).
  - The Pinia stores (`keyed_lists.dfy`, `option_stores.dfy`, `exchange_config_store.dfy`, `strategy_store.dfy`, `strategy_operation.dfy`, `menu_store.dfy`).

`common.dfy` holds shared helpers:
- an `Option` type, and a `Field` type for JSON-like absent/null/present values;
- Python-style slicing;
- ASCII case mapping;
- `HH:MM:SS` text;
- string splitting.

Objects whose fields the source updates in place are classes with `modifies`
clauses: the engine, the adapter, the controllers, the trade cache and every
store. Read-only logic is functions. Each method is tied to a specification
function or states its new state outright. The lemmas prove what the source
promises about those functions.

Conventions:
- Wall-clock readings (`time.time()`, `datetime.now()`, `Date.now()`) are parameters.
- `Decimal` and JavaScript numbers are `real`, and text is `string`.

## Model

| member | source | states |
|---|---|---|
| RiskConfig.ApplyPatch | client/backend/hummingbot_deploy/bots/services/global_risk_control.py:152-157 | each top-level key present in the update replaces that part of the config, every other part is kept, and an empty update changes nothing |
| RiskConfig.WindowSecondsByUnit | client/backend/hummingbot_deploy/bots/services/global_risk_control.py:330-340 | a recognised unit gives value × seconds-per-unit; any other unit gives 3600 whatever the value |
| RiskConfig.WindowSecondsOrder | client/backend/hummingbot_deploy/bots/services/global_risk_control.py:330-340 | a window length is non-negative, and positive, exactly when its configured value is (the one-hour fallback always is), and grows with the value |
| TimeWindow.StepsKeepWindowCurrent | client/backend/hummingbot_deploy/bots/services/global_risk_control.py:235-328 | after any step the window covers `now`; a creation or rollover re-seeds start, end and counters from this event alone; otherwise the frequency count grows by one, the streak grows on a loss and resets otherwise, and the account window adds the loss size or the profit |
| TimeWindow.FrequencyCountsTradesSinceStart | client/backend/hummingbot_deploy/bots/services/global_risk_control.py:239-264 | for chronological trades the order-frequency window's count equals the number of trades at or after its start |
| TimeWindow.StreakCountsTrailingLossesSinceStart | client/backend/hummingbot_deploy/bots/services/global_risk_control.py:266-291 | the loss-streak window holds the length of the final run of losses since its start |
| TimeWindow.AccountSumsTradesSinceStart | client/backend/hummingbot_deploy/bots/services/global_risk_control.py:293-328 | the account window's totals equal the summed loss sizes and the summed profits of the trades since its start |
| RiskEngine.AccountWindowSeconds | client/backend/hummingbot_deploy/bots/services/global_risk_control.py:297-300 | an account window spans exactly one unit, an hour for an unrecognised unit |
| RiskEngine.UnitTexts | client/backend/hummingbot_deploy/bots/services/global_risk_control.py:531-553 | distinct recognised units get distinct period labels; the only window-text clash is between an hour and an unrecognised unit, which also share the hour's length |
| RiskEngine.AfterTradeEffect | client/backend/hummingbot_deploy/bots/services/global_risk_control.py:206-221 | a trade sets the last trade time, extends the loss streak on a loss and resets it otherwise, and leaves id, P&L, position, pause latch and any untracked window as they were |
| RiskEngine.AfterTradesFollowHistory | client/backend/hummingbot_deploy/bots/services/global_risk_control.py:206-291 | from a fresh record, after a history of trades the streak is the trailing-loss count and each tracked strategy window equals the window folded over the history; untracked windows stay empty |
| RiskEngine.StrategyWindowsCountSinceStart | client/backend/hummingbot_deploy/bots/services/global_risk_control.py:235-291 | with chronological trades the strategy windows count the trades, and the trailing losses, since their start |
| RiskEngine.AccountWindowsFollowHistory | client/backend/hummingbot_deploy/bots/services/global_risk_control.py:293-328 | with the account limit set, only the configured unit's window exists and it equals the account window folded over the history |
| RiskEngine.CheckSystemRiskLimits | client/backend/hummingbot_deploy/bots/services/global_risk_control.py:381-416 | allowed iff no breach of position, loss cutoff or account loss (each at `>=` and only when truthy); the first breach in that order gives the reason with its figures |
| RiskEngine.FirstNearPoint | client/backend/hummingbot_deploy/bots/services/global_risk_control.py:439-456 | finds the first forbidden time point within five minutes of the clock, and none exactly when no point is near |
| RiskEngine.CheckTimeRiskLimits | client/backend/hummingbot_deploy/bots/services/global_risk_control.py:418-458 | with the trading-time limit off everything passes (time points included); otherwise it refuses outside trading hours, then at the first near forbidden point |
| RiskEngine.CheckStrategyRiskLimits | client/backend/hummingbot_deploy/bots/services/global_risk_control.py:460-529 | an unregistered id passes; otherwise allowed iff no total-loss, total-profit, position, loss-streak or frequency breach; the first of the first four breaches gives its reason with the figures, and a frequency refusal only comes after none of them |
| RiskEngine.TradingDecision | client/backend/hummingbot_deploy/bots/services/global_risk_control.py:342-379 | disabled allows; a paused strategy is refused with its stored reason; otherwise allowed iff the system, time and strategy tiers all allow, and an allow carries no reason |
| RiskEngine.LatchedPauseRefuses | client/backend/hummingbot_deploy/bots/services/global_risk_control.py:342-379 | once a strategy-tier refusal is latched, every later check of that strategy returns the same refusal, whatever the positions, losses, windows or clock |
| RiskEngine.SumPositionsSet | client/backend/hummingbot_deploy/bots/services/global_risk_control.py:196-204 | replacing one record moves the sum of positions by exactly its position change |
| RiskEngine.SumPositionsAppend | client/backend/hummingbot_deploy/bots/services/global_risk_control.py:159-165 | registering adds the new record's position to the sum |
| RiskEngine.SumPositionsRemove | client/backend/hummingbot_deploy/bots/services/global_risk_control.py:167-171 | unregistering takes exactly that record's position out of the sum |
| RiskEngine.PausedInExactly | client/backend/hummingbot_deploy/bots/services/global_risk_control.py:590-600 | the paused list names exactly the paused strategies, each with its own reason |
| RiskEngine.ReportStrategies | client/backend/hummingbot_deploy/bots/services/global_risk_control.py:583-600 | one report entry per registered strategy, and the paused entries in registration order |
| RiskEngine.GlobalRiskControl.constructor | client/backend/hummingbot_deploy/bots/services/global_risk_control.py:136-146 | empty registry, zero system figures, and the given config or the defaults |
| RiskEngine.GlobalRiskControl.UpdateConfig | client/backend/hummingbot_deploy/bots/services/global_risk_control.py:152-157 | the config becomes the patched config; the registry invariant is kept |
| RiskEngine.GlobalRiskControl.Register | client/backend/hummingbot_deploy/bots/services/global_risk_control.py:159-165 | a known id changes nothing; a new id gets a fresh record at the end of the registration order |
| RiskEngine.GlobalRiskControl.Unregister | client/backend/hummingbot_deploy/bots/services/global_risk_control.py:167-171 | the record and its place in the registration order are gone, and the position total keeps its contribution |
| RiskEngine.GlobalRiskControl.UpdateAccountTimeWindows | client/backend/hummingbot_deploy/bots/services/global_risk_control.py:293-328 | the account windows step by the trade result |
| RiskEngine.GlobalRiskControl.PutState | client/backend/hummingbot_deploy/bots/services/global_risk_control.py:193-204 | the record is replaced and the position total moves by its position change |
| RiskEngine.GlobalRiskControl.RecordSystemLoss | client/backend/hummingbot_deploy/bots/services/global_risk_control.py:212-216 | the current maximum loss becomes the loss size when it is larger, and otherwise stays |
| RiskEngine.GlobalRiskControl.RecordTrade | client/backend/hummingbot_deploy/bots/services/global_risk_control.py:206-221 | the maximum loss never decreases and covers a new loss; the account windows step |
| RiskEngine.GlobalRiskControl.UpdateStrategyState | client/backend/hummingbot_deploy/bots/services/global_risk_control.py:173-221 | registers if needed, overwrites P&L and position when given, moves the system total by the position delta, and applies the trade result to the record, the maximum loss and the account windows |
| RiskEngine.GlobalRiskControl.CheckTradingAllowed | client/backend/hummingbot_deploy/bots/services/global_risk_control.py:342-379 | returns the tiered decision and latches a pause exactly on a strategy-tier refusal of a registered, unpaused strategy |
| RiskEngine.GlobalRiskControl.ResetStrategyRiskState | client/backend/hummingbot_deploy/bots/services/global_risk_control.py:555-561 | clears only the pause flag and reason of a registered strategy |
| RiskEngine.GlobalRiskControl.EmergencyStopAll | client/backend/hummingbot_deploy/bots/services/global_risk_control.py:563-568 | every registered strategy is paused with the emergency-stop reason; nothing else changes |
| RiskEngine.GlobalRiskControl.GetRiskStatusReport | client/backend/hummingbot_deploy/bots/services/global_risk_control.py:570-602 | the system figures, one entry per registered strategy, and a paused list naming exactly the paused strategies |
| RiskAdapter.ConvertTimeUnit | client/backend/hummingbot_deploy/bots/services/risk_control_adapter.py:219-229 | minutes, days and weeks map to their units, and every other name maps to hours |
| RiskAdapter.Convert | client/backend/hummingbot_deploy/bots/services/risk_control_adapter.py:91-217 | no update at all when a mentioned amount is not a number; otherwise exactly the sub-configs with a mentioned key are replaced, and market risk, level and enabled never are |
| RiskAdapter.ConvertedFields | client/backend/hummingbot_deploy/bots/services/risk_control_adapter.py:105-211 | each of the seventeen keys lands in its snake_case field when mentioned (a `null` reads as off, none or hours); unmentioned fields and the system and account limits keep their values |
| RiskAdapter.ConvertAllOrNothing | client/backend/hummingbot_deploy/bots/services/risk_control_adapter.py:107-122 | a failing amount leaves the config unchanged, and so does an empty settings dict |
| RiskAdapter.ConvertIdempotent | client/backend/hummingbot_deploy/bots/services/risk_control_adapter.py:91-217 | converting the same settings twice gives the same config as once |
| RiskAdapter.RiskControlAdapter.constructor | client/backend/hummingbot_deploy/bots/services/risk_control_adapter.py:25-38 | registers the strategy with the engine when enabled, appending a new id to the registration order; otherwise the records and the order are untouched |
| RiskAdapter.RiskControlAdapter.CheckTradingAllowed | client/backend/hummingbot_deploy/bots/services/risk_control_adapter.py:40-49 | disabled allows without touching the engine; enabled returns the engine's decision and latches the engine's pause exactly when the engine does |
| RiskAdapter.RiskControlAdapter.UpdateStrategyState | client/backend/hummingbot_deploy/bots/services/risk_control_adapter.py:51-72 | disabled changes nothing; enabled forwards the update, and the engine's records, order, position total, maximum loss and account windows end as the engine's own update leaves them |
| RiskAdapter.RiskControlAdapter.ResetRiskState | client/backend/hummingbot_deploy/bots/services/risk_control_adapter.py:74-79 | disabled changes nothing; enabled clears this strategy's pause |
| RiskAdapter.RiskControlAdapter.GetRiskStatus | client/backend/hummingbot_deploy/bots/services/risk_control_adapter.py:81-89 | this strategy's report entry, or nothing when disabled or unregistered |
| RiskAdapter.RiskControlAdapter.ConvertStrategyRiskToGlobal | client/backend/hummingbot_deploy/bots/services/risk_control_adapter.py:91-104 | the engine config becomes the converted config when enabled, and is unchanged otherwise |
| RiskAdapter.RiskControlAdapter.Cleanup | client/backend/hummingbot_deploy/bots/services/risk_control_adapter.py:231-236 | unregisters the strategy when enabled, dropping its record and its place in the order while the position total keeps its contribution; disabled leaves records and order as they were |
| GridLevels.UpdateIds | client/backend/hummingbot_deploy/bots/controllers/generic/enhanced_grid.py:330-332 | exactly the level numbers the update mentions |
| GridLevels.PrunedKeeps | client/backend/hummingbot_deploy/bots/controllers/generic/enhanced_grid.py:329-345 | after pruning only mentioned or executor-backed levels remain, a mentioned level is kept unaltered, and a left-out executor-backed level is kept deactivated (unaltered when a later level shares its number) |
| GridLevels.PrunedFate | client/backend/hummingbot_deploy/bots/controllers/generic/enhanced_grid.py:329-345 | per level: mentioned stays as it is; left out with an executor is deactivated when it is the last of its number and kept as it is otherwise |
| GridLevels.NewLevel | client/backend/hummingbot_deploy/bots/controllers/generic/enhanced_grid.py:362-366 | a new level carries every key the entry gives (number, amount, both ratios, status, active flag, batches), with status defaulting to not-opened, active to true and batches to empty |
| GridLevels.LastIndexOf | client/backend/hummingbot_deploy/bots/controllers/generic/enhanced_grid.py:326 | the position of the last level with the number (the one the level map keeps), and none iff absent |
| GridLevels.ApplyEntryEffect | client/backend/hummingbot_deploy/bots/controllers/generic/enhanced_grid.py:348-371 | an update of a known level changes only that level, never its number or status, and for an executor-backed level only its active flag and batches |
| GridLevels.NewEntryEffect | client/backend/hummingbot_deploy/bots/controllers/generic/enhanced_grid.py:352-366 | an unknown level is appended when its entry carries amount and both ratios; the update aborts when the entry lacks one of them, which is always the case for a level with an executor, whose entry is cut to the active flag and batches |
| GridLevels.SortByPriorityCorrect | client/backend/hummingbot_deploy/bots/controllers/generic/enhanced_grid.py:376-383 | the priority sort is a permutation ordered by active first, then executor-backed, then level number |
| GridLevels.TruncatedBest | client/backend/hummingbot_deploy/bots/controllers/generic/enhanced_grid.py:373-384 | at most the maximum number of levels remain, unchanged when within it; otherwise the kept ones are the highest-priority part of the sorted list |
| EnhancedGrid.MoneyField | client/backend/hummingbot_deploy/bots/controllers/generic/enhanced_grid.py:183-200 | a money limit is sent as its number when truthy and as null otherwise |
| EnhancedGrid.GridConversionNeedsAllMoneyLimits | client/backend/hummingbot_deploy/bots/controllers/generic/enhanced_grid.py:178-212 | the engine config changes only when all four money limits are set and non-zero, and then receives the strategy limits, hours and loss-streak limit |
| EnhancedGrid.TradingTimeAllowed | client/backend/hummingbot_deploy/bots/controllers/generic/enhanced_grid.py:456-477 | any time passes with the limit off or a bound missing; otherwise start ≤ now ≤ end by text comparison |
| EnhancedGrid.LocalRiskAllows | client/backend/hummingbot_deploy/bots/controllers/generic/enhanced_grid.py:417-454 | refuses iff the P&L is below minus the loss limit, above the profit limit, the loss count reaches its limit, or the hours disallow |
| EnhancedGrid.LocalZeroLimitsApply | client/backend/hummingbot_deploy/bots/controllers/generic/enhanced_grid.py:417-454 | a zero loss-count limit always refuses, a zero profit limit refuses any gain, and the default settings always allow |
| EnhancedGrid.LossCounterCountsTrailingLosses | client/backend/hummingbot_deploy/bots/controllers/generic/enhanced_grid.py:512-519 | the loss counter equals the length of the trailing run of losses, ignoring calls without a result |
| EnhancedGrid.MergedUpdates | client/backend/hummingbot_deploy/bots/controllers/generic/enhanced_grid.py:767-770 | merging no updates keeps the pending ones, and merging into none gives the new ones |
| EnhancedGrid.MergedUpdatesAssociative | client/backend/hummingbot_deploy/bots/controllers/generic/enhanced_grid.py:767-770 | queuing two batches in turn equals queuing their merge |
| EnhancedGrid.AppliedUpdatesEffect | client/backend/hummingbot_deploy/bots/controllers/generic/enhanced_grid.py:283-321 | no updates change nothing; without a level list the levels stay; a successful level update respects the maximum; the id never changes |
| EnhancedGrid.InitialGridMap | client/backend/hummingbot_deploy/bots/controllers/generic/enhanced_grid.py:171-172 | at start, every configured level number maps to itself and nothing else is mapped |
| EnhancedGrid.BuildGridMap | client/backend/hummingbot_deploy/bots/controllers/generic/enhanced_grid.py:171-172 | the start-up loop builds exactly that map |
| EnhancedGrid.FirstWithLevel | client/backend/hummingbot_deploy/bots/controllers/generic/enhanced_grid.py:731-735 | the first level with the number from a position on, or none when there is none |
| EnhancedGrid.StopIdsSound | client/backend/hummingbot_deploy/bots/controllers/generic/enhanced_grid.py:719-747 | every stop names an executor that should stop, and with the map keyed by level numbers nothing is stopped |
| EnhancedGrid.OpenAmountSplit | client/backend/hummingbot_deploy/bots/controllers/generic/enhanced_grid.py:757-760 | the amount still to open adds up over a split, and opened or inactive levels contribute nothing |
| EnhancedGrid.OpenAmountNonNegative | client/backend/hummingbot_deploy/bots/controllers/generic/enhanced_grid.py:757-760 | with non-negative amounts the amount to open is non-negative |
| EnhancedGrid.EnhancedGridController.constructor | client/backend/hummingbot_deploy/bots/controllers/generic/enhanced_grid.py:143-176 | zero counters, registration with the engine (a new id appended to its order, a known id leaving records and order as they were), the settings pushed when global risk is on, and the initial level map |
| EnhancedGrid.EnhancedGridController.ProcessTradeResult | client/backend/hummingbot_deploy/bots/controllers/generic/enhanced_grid.py:509-525 | the counter follows the result, every call counts; with global risk on the engine's record, order, maximum loss and account windows take the trade while its position total stays, and otherwise the engine is untouched |
| EnhancedGrid.EnhancedGridController.IsTradingAllowed | client/backend/hummingbot_deploy/bots/controllers/generic/enhanced_grid.py:399-415 | allowed iff the local rules (when active) and then the engine (when active) allow; the engine is not consulted after a local refusal, and when consulted it latches its pause exactly on a strategy-tier refusal |
| EnhancedGrid.EnhancedGridController.UpdateConfig | client/backend/hummingbot_deploy/bots/controllers/generic/enhanced_grid.py:767-770 | the pending updates absorb the new ones |
| EnhancedGrid.EnhancedGridController.UpdateRiskControl | client/backend/hummingbot_deploy/bots/controllers/generic/enhanced_grid.py:579-587 | the given risk keys are set and the settings re-pushed when global risk is on |
| EnhancedGrid.EnhancedGridController.UpdateGridLevels | client/backend/hummingbot_deploy/bots/controllers/generic/enhanced_grid.py:323-387 | the level list becomes the pruned, merged and truncated list |
| EnhancedGrid.PruneLevels | client/backend/hummingbot_deploy/bots/controllers/generic/enhanced_grid.py:329-345 | the pruning pass keeps the mentioned levels, deactivates left-out levels with an executor and drops the rest |
| EnhancedGrid.ApplyLevelEntries | client/backend/hummingbot_deploy/bots/controllers/generic/enhanced_grid.py:347-371 | the entries applied one after another, stopping with the levels as they were at the first new level that lacks a required key |
| EnhancedGrid.EnhancedGridController.ApplyPendingUpdates | client/backend/hummingbot_deploy/bots/controllers/generic/enhanced_grid.py:283-321 | applies the pending batch in the source's key order, empties the queue and marks grid changes |
| EnhancedGrid.EnhancedGridController.LevelPrice | client/backend/hummingbot_deploy/bots/controllers/generic/enhanced_grid.py:772-795 | the mid price when there are no levels or this level's number is in the list and lowest; otherwise, a number not in the list included, the mid price lowered by the level's open ratio |
| EnhancedGrid.EnhancedGridController.BalanceRequirements | client/backend/hummingbot_deploy/bots/controllers/generic/enhanced_grid.py:749-765 | nothing for a perpetual connector; otherwise 110% of the amount of active, unopened levels in the pair's quote currency, and no answer for a pair without a quote part |
| EnhancedGrid.EnhancedGridController.StopExecutorActions | client/backend/hummingbot_deploy/bots/controllers/generic/enhanced_grid.py:719-747 | the loop returns exactly the executors that should stop, in order |
| EnhancedGrid.EnhancedGridController.TakeProfitConfig | client/backend/hummingbot_deploy/bots/controllers/generic/enhanced_grid.py:700-717 | the default 2% iff there are no batches; otherwise one fraction triple per batch |
| CashOut.NewPeak | client/backend/hummingbot_deploy/bots/scripts/v2_with_controllers.py:223-224 | the peak never decreases and moves only to a higher P&L |
| CashOut.DrawdownHitsExactly | client/backend/hummingbot_deploy/bots/scripts/v2_with_controllers.py:222-243 | the exited list gains exactly the controllers with P&L at or below the peak and drawdown over the limit |
| CashOut.StopIfRunning | client/backend/hummingbot_deploy/bots/scripts/v2_with_controllers.py:282-286 | a running controller is terminated and any other is untouched |
| CashOut.AfterManualCheck | client/backend/hummingbot_deploy/bots/scripts/v2_with_controllers.py:290-318 | a running controller with the kill switch on is stopped; a terminated one with it off restarts unless it left by drawdown |
| CashOut.DrawdownExitIsFinal | client/backend/hummingbot_deploy/bots/scripts/v2_with_controllers.py:311-318 | a drawdown-exited controller is never restarted, while any other terminated controller with the switch off is |
| CashOut.CashOutStrategy.constructor | client/backend/hummingbot_deploy/bots/scripts/v2_with_controllers.py:51-76 | not cashing out, zero peaks, and the cash-out time set from the delay when one is configured |
| CashOut.CashOutStrategy.ApplyInitialSetting | client/backend/hummingbot_deploy/bots/scripts/v2_with_controllers.py:355-356 | every controller's peak starts at zero |
| CashOut.CashOutStrategy.CheckMaxControllerDrawdown | client/backend/hummingbot_deploy/bots/scripts/v2_with_controllers.py:218-243 | peaks follow the P&L upward, exactly the over-drawdown controllers are terminated and appended to the exited list |
| CashOut.DrawdownPass | client/backend/hummingbot_deploy/bots/scripts/v2_with_controllers.py:220-243 | the loop over the controllers in order yields the peaks, the controller states and the stopped list that the visit-by-visit definitions give for the whole list |
| CashOut.CashOutStrategy.CheckMaxGlobalDrawdown | client/backend/hummingbot_deploy/bots/scripts/v2_with_controllers.py:245-257 | the global peak never decreases; an over-limit drawdown appends every controller and stops the app |
| CashOut.CashOutStrategy.ControlMaxDrawdown | client/backend/hummingbot_deploy/bots/scripts/v2_with_controllers.py:211-216 | each check runs only when its limit is set: the peaks rise to the new P&L, a controller hit by its drawdown is terminated and listed, and the global hit stops the app and lists every controller |
| CashOut.CashOutStrategy.SendPerformanceReport | client/backend/hummingbot_deploy/bots/scripts/v2_with_controllers.py:259-267 | a report is published and the timestamp moved only when the interval has passed and MQTT is on |
| CashOut.CashOutStrategy.EvaluateCashOutTime | client/backend/hummingbot_deploy/bots/scripts/v2_with_controllers.py:277-288 | cashing out latches once the time is reached, and running controllers are stopped only on that transition |
| CashOut.CashOutStrategy.CheckManualCashOut | client/backend/hummingbot_deploy/bots/scripts/v2_with_controllers.py:290-318 | every controller goes through the kill-switch and restart rule |
| CashOut.CashOutStrategy.ControlCashOut | client/backend/hummingbot_deploy/bots/scripts/v2_with_controllers.py:269-288 | the latch sets once the time is due; on that transition the running controllers are stopped, while already cashing out they are left alone; while cashing out the app stops once no executor runs; otherwise the manual rule applies |
| TradeRecords.FilteredIsOrderedSelection | client/backend/hummingbot_deploy/bots/services/trade_records_service.py:269-321 | the filter returns an order-preserving subsequence holding exactly the trades every set filter accepts |
| TradeRecords.NoFilterKeepsAll | client/backend/hummingbot_deploy/bots/services/trade_records_service.py:274-317 | with no filter set every trade is kept |
| TradeRecords.ZeroProfitMatchesNoStatus | client/backend/hummingbot_deploy/bots/services/trade_records_service.py:286-291 | a zero-profit trade is excluded by both the profit and the loss status |
| TradeRecords.FilterTrades | client/backend/hummingbot_deploy/bots/services/trade_records_service.py:269-321 | the loop, with its keyword search over the four text fields, returns the filtered list |
| TradeRecords.KeepsTrade | client/backend/hummingbot_deploy/bots/services/trade_records_service.py:274-317 | a trade passes exactly when every set filter accepts it |
| TradeRecords.KeywordFound | client/backend/hummingbot_deploy/bots/services/trade_records_service.py:305-317 | the keyword is found exactly when one of the four searchable fields is set and contains it, lower-cased |
| TradeRecords.PageBounds | client/backend/hummingbot_deploy/bots/services/trade_records_service.py:335-337 | a page is the clamped window starting at (page−1)·size, holds at most size records, and consecutive pages join up |
| TradeRecords.CalculateStatistics | client/backend/hummingbot_deploy/bots/services/trade_records_service.py:227-242 | all zeros for no trades, the trade count is the list length, and wins never exceed it |
| TradeRecords.TradeCache.AddToRecentTrades | client/backend/hummingbot_deploy/bots/services/trade_records_service.py:217-223 | the cache grows by one up to 1000 entries and then stays at 1000, ends with the new trade, and only the oldest entries are dropped |
| TradeRecords.TradeCache.GetTransactions | client/backend/hummingbot_deploy/bots/services/trade_records_service.py:326-342 | the requested page of the filtered trades, the full filtered count, and its statistics |
| ExchangeCatalog.VisibleExchangesExactly | client/frontend/src/config/exchangeConfig.ts:319-321 | exactly the visible exchanges, in table order |
| ExchangeCatalog.ExchangesByTypeExactly | client/frontend/src/config/exchangeConfig.ts:324-326 | exactly the exchanges of the type, in table order |
| ExchangeCatalog.ExchangeByName | client/frontend/src/config/exchangeConfig.ts:329-331 | the first exchange with the name, and none iff no entry has it |
| ExchangeCatalog.ExchangeLabel | client/frontend/src/config/exchangeConfig.ts:334-337 | the exchange's label, or the name itself when unknown |
| ExchangeCatalog.ProductTypeLabel | client/frontend/src/config/exchangeConfig.ts:340-346 | the spot and perpetual labels of the catalogue, and any other value echoed |
| ExchangeCatalog.BuildConnectorName | client/frontend/src/config/exchangeConfig.ts:349-357 | an unknown exchange or an unknown product type gives the exchange name back, and a known product appends its connector suffix |
| ExchangeCatalog.FirstPrefixed | client/frontend/src/config/exchangeConfig.ts:370-372 | a table exchange whose name prefixes the connector, and none iff no name does |
| ExchangeCatalog.ProductForConnector | client/frontend/src/config/exchangeConfig.ts:377-382 | a product type whose name-plus-suffix equals the connector, and none iff none does |
| ExchangeCatalog.ParseConnectorName | client/frontend/src/config/exchangeConfig.ts:360-390 | the nested loops compute the first-prefix parse; without a prefixed exchange the result is the connector, spot and CEX |
| ExchangeCatalog.RoundTripIn | client/frontend/src/config/exchangeConfig.ts:349-389 | in a table where no name prefixes another and suffixes differ, parsing a built connector name recovers exchange, product and type |
| ExchangeCatalog.CatalogUnambiguous | client/frontend/src/config/exchangeConfig.ts:4-316 | the shipped table has that property |
| ExchangeCatalog.CatalogRoundTrip | client/frontend/src/config/exchangeConfig.ts:4-389 | for every exchange of the shipped table and each of its product types, parse(build(e, p)) = (e, p, e's type) |
| GridUtils.GenerateGridLevelLadders | client/frontend/src/utils/gridUtils.ts:182-201 | the loop produces the ladder list of the specification function |
| GridUtils.GenerateProfitLadders | client/frontend/src/utils/gridUtils.ts:208-227 | produces the same list as the grid ladder generator |
| GridUtils.LadderShape | client/frontend/src/utils/gridUtils.ts:182-201 | n ladders numbered 1..n at 5, 10, … percent, all but the last with portion ⌊100/n⌋, portions summing to 100 |
| GridUtils.FirstNotIncreasing | client/frontend/src/utils/gridUtils.ts:151-158 | the first index whose percentage is not above its predecessor, and none iff percentages strictly increase |
| GridUtils.VerdictMeaning | client/frontend/src/utils/gridUtils.ts:141-175 | valid iff a non-empty list with strictly increasing percentages and portions summing to 100; a not-increasing verdict names the first offending index |
| GridUtils.ValidateGridLevelLadders | client/frontend/src/utils/gridUtils.ts:141-175 | the validation loops return the verdict of the specification |
| GridUtils.GeneratedLaddersValid | client/frontend/src/utils/gridUtils.ts:161-201 | every generated ladder list for n ≥ 1 validates |
| GridUtils.GenerateGridLevels | client/frontend/src/utils/gridUtils.ts:58-116 | empty iff upper ≤ lower or fewer than two grids; otherwise gridCount+1 rows numbered 0..gridCount, only the end rows disabled with zero spacing |
| KeyedLists.FindIndex | client/frontend/src/store/modules/exchange.ts:44 | the first position with the key, and none iff the key is absent |
| KeyedLists.AddIfAbsentKeepsKeysDistinct | client/frontend/src/store/modules/exchange.ts:36-40 | add-if-absent appends only a new key, is a no-op otherwise, and keeps keys distinct |
| KeyedLists.RemoveKeyExactly | client/frontend/src/store/modules/exchange.ts:54-56 | removal keeps the other records in order and drops every record with the key |
| KeyedLists.RemoveKeyKeepsKeysDistinct | client/frontend/src/store/modules/exchange.ts:54-56 | removal keeps keys distinct |
| KeyedLists.SelectExactly | client/frontend/src/store/modules/exchange.ts:28 | a filter keeps exactly the records it accepts, in order |
| KeyedLists.UpdateFirstOnly | client/frontend/src/store/modules/exchange.ts:43-51 | only the first record with the key changes, to its merge with the patch; with no match nothing changes |
| KeyedLists.UpdateFirstKeepsKeys | client/frontend/src/store/modules/exchange.ts:43-51 | a merge that keeps the key keeps the list's keys |
| OptionStores.Patched | client/frontend/src/store/modules/exchange.ts:46-49 | fields absent from the patch keep their values |
| OptionStores.WithStatus | client/frontend/src/store/modules/exchange.ts:62 | only the status changes |
| OptionStores.InitialValuesDistinct | client/frontend/src/store/modules/direction.ts:14-18 | the initial exchange, direction and market-type lists have distinct values |
| OptionStores.ChoiceStore.Active | client/frontend/src/store/modules/direction.ts:27 | exactly the options whose status is active, in list order |
| OptionStores.ChoiceStore.ByValue | client/frontend/src/store/modules/marketType.ts:27-29 | the first option with the value, and none iff absent |
| OptionStores.ChoiceStore.Add | client/frontend/src/store/modules/exchange.ts:36-40 | appends only an option with a new value; keeps values distinct |
| OptionStores.ChoiceStore.Update | client/frontend/src/store/modules/direction.ts:42-50 | merges into the first match only; keeps values distinct when the patch has no value |
| OptionStores.ChoiceStore.Remove | client/frontend/src/store/modules/marketType.ts:52-54 | drops every option with the value, keeping the rest in order; keeps values distinct |
| OptionStores.ChoiceStore.SetStatus | client/frontend/src/store/modules/marketType.ts:57-62 | changes only the status of the first match; keeps values distinct |
| ExchangeConfigStore.MapTradingTypeToMarketType | client/frontend/src/store/modules/exchangeConfig.ts:80-89 | futures exactly for PERPETUAL in any case, spot otherwise |
| ExchangeConfigStore.TradingTypeCaseInsensitive | client/frontend/src/store/modules/exchangeConfig.ts:80-89 | the mapping ignores letter case |
| ExchangeConfigStore.Patched | client/frontend/src/store/modules/exchangeConfig.ts:140-143 | fields absent from the patch keep their values |
| ExchangeConfigStore.ExchangeConfigState.constructor | client/frontend/src/store/modules/exchangeConfig.ts:92-97 | the fallback configurations, with the supported list equal to their values |
| ExchangeConfigStore.ExchangeConfigState.ConfigByValue | client/frontend/src/store/modules/exchangeConfig.ts:102-104 | a configuration with the value, and none iff absent |
| ExchangeConfigStore.ExchangeConfigState.MaxLeverageByExchange | client/frontend/src/store/modules/exchangeConfig.ts:105-110 | the configured maximum leverage, 20 for an unknown exchange |
| ExchangeConfigStore.ExchangeConfigState.AdditionalParamsByExchange | client/frontend/src/store/modules/exchangeConfig.ts:111-116 | the configured extra fields, none for an unknown exchange |
| ExchangeConfigStore.ExchangeConfigState.SupportedMarketTypesByExchange | client/frontend/src/store/modules/exchangeConfig.ts:117-122 | the configured market types, spot only for an unknown exchange |
| ExchangeConfigStore.ExchangeConfigState.AddExchangeConfig | client/frontend/src/store/modules/exchangeConfig.ts:129-134 | appends to both lists only for a new value, keeping the supported list equal to the configured values |
| ExchangeConfigStore.ExchangeConfigState.UpdateExchangeConfig | client/frontend/src/store/modules/exchangeConfig.ts:137-145 | merges into the first match only; the lists stay in step when the value is not renamed |
| ExchangeConfigStore.ExchangeConfigState.RemoveExchangeConfig | client/frontend/src/store/modules/exchangeConfig.ts:148-151 | removes the value from both lists, keeping them in step |
| ExchangeConfigStore.RemoveKeepsCorrespondence | client/frontend/src/store/modules/exchangeConfig.ts:148-151 | removing from the configurations and from their values commutes with taking the values |
| ExchangeConfigStore.RenameLeavesSupportedListBehind | client/frontend/src/store/modules/exchangeConfig.ts:137-145 | renaming a value by an update changes the configured values, while the update leaves the supported list as it was |
| StrategyStore.Patched | client/frontend/src/store/modules/strategy.ts:146-149 | fields absent from the patch keep their values |
| StrategyStore.FindInEither | client/frontend/src/store/modules/strategy.ts:111-112 | active types are searched before coming-soon ones, and none iff the value is in neither |
| StrategyStore.StrategyTypes.constructor | client/frontend/src/store/modules/strategy.ts:101-104 | the initial active and coming-soon lists |
| StrategyStore.StrategyTypes.StrategyTypeByValue | client/frontend/src/store/modules/strategy.ts:109-114 | the first active match, else the first coming-soon match, else none |
| StrategyStore.StrategyTypes.AddActiveStrategyType | client/frontend/src/store/modules/strategy.ts:119-123 | appends only a new value to the active list |
| StrategyStore.StrategyTypes.AddComingSoonStrategyType | client/frontend/src/store/modules/strategy.ts:126-130 | appends only a new value to the coming-soon list |
| StrategyStore.StrategyTypes.PromoteToActive | client/frontend/src/store/modules/strategy.ts:133-140 | moves the first coming-soon match to the end of the active list marked not coming soon; an unknown value changes nothing |
| StrategyStore.StrategyTypes.UpdateStrategyType | client/frontend/src/store/modules/strategy.ts:143-160 | updates the active match if there is one, else the coming-soon match, never both |
| StrategyStore.StrategyTypes.RemoveStrategyType | client/frontend/src/store/modules/strategy.ts:163-166 | filters the value out of both lists, after which lookup finds nothing |
| StrategyOperation.OrDefault | client/frontend/src/store/modules/strategyOperation.ts:52-59 | a set, non-empty text wins, else the fallback |
| StrategyOperation.NewStrategy | client/frontend/src/store/modules/strategyOperation.ts:47-65 | id from the clock, paused, zero figures, and each missing text at its documented default |
| StrategyOperation.EmptyFormDefaults | client/frontend/src/store/modules/strategyOperation.ts:52-59 | an empty form gives grid, Binance, BTC/USDT, 永续合约 and 做多 |
| StrategyOperation.StrategyList.CreateStrategy | client/frontend/src/store/modules/strategyOperation.ts:43-80 | appends exactly the new strategy |
| StrategyOperation.StrategyList.StartStrategy | client/frontend/src/store/modules/strategyOperation.ts:83-91 | true iff the id exists, and then only the first match becomes running |
| StrategyOperation.StrategyList.PauseStrategy | client/frontend/src/store/modules/strategyOperation.ts:94-102 | true iff the id exists, and then only the first match becomes paused |
| StrategyOperation.StrategyList.DeleteStrategy | client/frontend/src/store/modules/strategyOperation.ts:105-113 | true iff the id exists, and then only the first match is spliced out; false leaves the list unchanged |
| StrategyOperation.StartChangesOnlyThatStatus | client/frontend/src/store/modules/strategyOperation.ts:84-86 | starting keeps the length and changes only the status of the first match |
| StrategyOperation.DeleteRemovesOne | client/frontend/src/store/modules/strategyOperation.ts:106-108 | deleting removes exactly one strategy with the id |
| MenuStore.MainPath | client/frontend/src/store/modules/menu.ts:16-17 | the main path is never empty and holds no separator |
| MenuStore.MenuKeyForPath | client/frontend/src/store/modules/menu.ts:19-23 | strategies selects the strategy list, any other main path selects itself |
| MenuStore.MainPathOfRoute | client/frontend/src/store/modules/menu.ts:16-17 | a route /segment or /segment/rest selects by its first segment |
| MenuStore.RootSelectsDashboard | client/frontend/src/store/modules/menu.ts:16-17 | the root path, and a path without a separator, select the dashboard |
| MenuStore.Menu.constructor | client/frontend/src/store/modules/menu.ts:7 | the dashboard is selected |
| MenuStore.Menu.SetSelectedKeys | client/frontend/src/store/modules/menu.ts:10-12 | the selection becomes the given keys |
| MenuStore.Menu.UpdateSelectedKeysByPath | client/frontend/src/store/modules/menu.ts:15-24 | the selection becomes exactly one key, the one derived from the path |

## Left out

- I/O is not modelled: MQTT, WebSocket, FastAPI routes, logging, Hummingbot connectors, market data and executor creation, and network fetches.
- The HTTP management layer of the risk engine is not part of this model.
- `fetchSupportedExchanges` in the exchange-configuration store is network I/O. Its trading-type mapping is modelled as `MapTradingTypeToMarketType`.
- The clock is a parameter, and the module-level engine singleton is an explicit instance.
- Nothing is concurrent; the model is sequential.
- Floating point is modelled with exact `real` arithmetic; `round` and `toFixed` are not modelled.
- Grid prices and `isCurrentPriceInLevel` in `gridUtils.ts` are float computations and are not modelled. `GenerateGridLevels` covers only the guards, count, keys and flags; its price range and status fields are left out.
- `TradeRecords.CalculateStatistics`: the profit rate, win rate and average (float divisions and rounding) are not modelled. The function keeps the count, sums and win count.
- `TradeRecords.FilterTrades`: ISO-8601 timestamp parsing is abstracted to already-parsed `real` times. Neither error of the date comparison is modelled: a malformed date (a `ValueError`), nor comparing a trade time that carries a UTC offset with a date-range bound that has none (a `TypeError`, which `get_transactions` reports as an HTTP 500). The model compares every time as a plain instant.
- Case mapping is ASCII only, so the keyword search and the trading-type mapping do not fold non-ASCII letters.
- The market-risk and intelligent-risk sub-configs, the coin-count limit and the per-trade loss limit are carried through but never evaluated, as in the source.
- Forbidden time points are pre-parsed seconds of the day; their text parsing and its failure are not modelled. Refusal messages are a `Reason` datatype, not formatted text.
- `RiskAdapter.Convert`: non-numeric strings for amount keys are not modelled, only numbers and `null`.
- `UpdateStrategyState` (`RiskEngine.GlobalRiskControl.UpdateStrategyState`, and `RiskAdapter.RiskControlAdapter.UpdateStrategyState` when global risk control is on): requires `WindowsConfigured` for a trade result. A set frequency or loss-streak limit whose window value is `None` under a recognised unit makes the source raise a `TypeError` (`None * 60` in `_get_window_seconds`), and nothing on the way up catches it. The model does not represent that exception.
- `ProcessTradeResult` (`EnhancedGrid.EnhancedGridController.ProcessTradeResult`): the same `WindowsConfigured` requires when global risk is on and a result is given, for the same uncaught `TypeError`.
- `CashOut.StopIfRunning`, `CashOut.AfterManualCheck`, `CashOut.CashOutStrategy.CheckMaxControllerDrawdown` and `CashOut.DrawdownExitIsFinal` assume that a controller's `stop()` sets its status to terminated and `start()` sets it to running, as the framework's base controller does. The enhanced grid controller overrides both to flip only its `is_running` flag, and that override is not composed with the cash-out strategy here.
- The controllers' `start`, `stop`, `cleanup` and the two `toggle_*_risk_control` methods are not modelled. They only flip flags and call adapter methods that are modelled.
- `determine_executor_actions`, `determine_create_executor_actions`, `update_processed_data` and dynamic grid adjustment are not modelled, because they depend on market data and the executor framework.
- `control_rebalance`, `on_tick` and the connector calls in `apply_initial_setting` are not modelled; they are Hummingbot connector calls.
- `check_executors_status`: only its decision to stop the app is modelled, with whether any executor is running given as a parameter of `CashOut.CashOutStrategy.ControlCashOut`. The branch that stops the running executors that are not trading is not modelled, because it goes through the executor framework.
- `EnhancedGrid.EnhancedGridController.LevelPrice` determines the lowest-numbered level as a minimum over the list, where the source sorts the list and takes its first element. The result is the same.
- The two identical definitions of `_update_risk_control` in `enhanced_grid.py` are modelled once, as the later one, which is the one Python keeps.
- `generateProfitLadders` duplicates `generateGridLevelLadders` line for line; `GridUtils.GenerateProfitLadders` calls the generator instead of repeating its loop.
- The exchange, direction and market-type stores have the same code apart from their names and initial lists. One `ChoiceStore` class models all three, constructed with each list.
- Strategy-type icons are the names of their icon components.
- The stores' `loading` and `error` flags and the plain getters that return a whole list are not modelled. `fetchStrategies` and `getStrategies` are among them.
- `ExchangeConfigStore.ExchangeConfigState.UpdateExchangeConfig`: keeping the two lists in step is proved only for updates that do not rename the value. A rename leaves `supportedExchanges` out of step, as `RenameLeavesSupportedListBehind` shows.
- The simulated delays of the strategy operations (300 ms after start, pause and delete) are not modelled; each operation's result is as if the delay had elapsed.
- `StrategyOperation.StrategyList.CreateStrategy`: the source's 500 ms delay, and the error path (rethrown as a new error), are not modelled. The id is the decimal text of the clock reading in milliseconds.
- The `gridType` of a new strategy comes from the form's grid configuration in the source; the model's form carries it directly.
