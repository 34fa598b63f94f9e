/** The enhanced grid controller: its own local risk rules and loss counter,
    the queue of configuration updates and their application, and the
    read-only computations over the grid levels (level price, balance
    requirement, executors to stop, take-profit settings). Its global risk
    checks go through a risk-control adapter bound to a global engine. */
module EnhancedGrid {
  import opened Common
  import opened RiskConfig
  import opened RiskEngine
  import opened RiskAdapter
  import opened GridLevels

  /** The controller's own risk settings; `None` leaves a limit off. */
  datatype LocalRiskConfig = LocalRiskConfig(
    totalLossLimit: Option<real>,
    totalProfitLimit: Option<real>,
    maxLossPerTrade: Option<real>,
    maxPosition: Option<real>,
    tradingTimeLimit: bool,
    tradingStartTime: Option<string>,
    tradingEndTime: Option<string>,
    consecutiveLossLimit: Option<int>,
    orderFrequencyLimit: Option<int>,
    priceVolatilityProtection: bool,
    volatilityAdjustedStopLoss: bool,
    hedgingProtection: bool)

  const DefaultLocalRisk := LocalRiskConfig(None, None, None, None, false, None, None, None, None, false, false, false)

  /** A risk-control update: each present key is set; a key of optional type may set `None`. */
  datatype LocalRiskPatch = LocalRiskPatch(
    totalLossLimit: Option<Option<real>>,
    totalProfitLimit: Option<Option<real>>,
    maxLossPerTrade: Option<Option<real>>,
    maxPosition: Option<Option<real>>,
    tradingTimeLimit: Option<bool>,
    tradingStartTime: Option<Option<string>>,
    tradingEndTime: Option<Option<string>>,
    consecutiveLossLimit: Option<Option<int>>,
    orderFrequencyLimit: Option<Option<int>>,
    priceVolatilityProtection: Option<bool>,
    volatilityAdjustedStopLoss: Option<bool>,
    hedgingProtection: Option<bool>)

  function PatchedLocalRisk(rc: LocalRiskConfig, p: LocalRiskPatch): LocalRiskConfig
  {
    LocalRiskConfig(
      Pick(p.totalLossLimit, rc.totalLossLimit),
      Pick(p.totalProfitLimit, rc.totalProfitLimit),
      Pick(p.maxLossPerTrade, rc.maxLossPerTrade),
      Pick(p.maxPosition, rc.maxPosition),
      Pick(p.tradingTimeLimit, rc.tradingTimeLimit),
      Pick(p.tradingStartTime, rc.tradingStartTime),
      Pick(p.tradingEndTime, rc.tradingEndTime),
      Pick(p.consecutiveLossLimit, rc.consecutiveLossLimit),
      Pick(p.orderFrequencyLimit, rc.orderFrequencyLimit),
      Pick(p.priceVolatilityProtection, rc.priceVolatilityProtection),
      Pick(p.volatilityAdjustedStopLoss, rc.volatilityAdjustedStopLoss),
      Pick(p.hedgingProtection, rc.hedgingProtection))
  }

  datatype PositionMode = Hedge | OneWay

  datatype GridConfig = GridConfig(
    id: string,
    connectorName: string,
    tradingPair: string,
    positionMode: PositionMode,
    leverage: int,
    totalInvestment: real,
    gridLevels: seq<GridLevel>,
    riskControl: LocalRiskConfig,
    updateInterval: int,
    enableDynamicGrid: bool,
    maxGridLevels: int)

  /** A grid config with every field at its declared default. */
  function DefaultGridConfig(id: string): GridConfig
  {
    GridConfig(id, "binance_perpetual", "BTC-USDT", Hedge, 1, 1000.0, [], DefaultLocalRisk, 30, true, 10)
  }

  // ---- conversion of the local settings for the global engine ----

  /** A money limit is sent as a number when truthy and as `null` otherwise. */
  function MoneyField(o: Option<real>): (f: Field<real>)
    ensures f.Null? <==> !RealSet(o)
    ensures f.Present? ==> f.v == o.value
  {
    if RealSet(o) then Present(o.value) else Null
  }

  function TextField(o: Option<string>): Field<string>
  {
    if o.Some? then Present(o.value) else Null
  }

  function CountField(o: Option<int>): Field<int>
  {
    if o.Some? then Present(o.value) else Null
  }

  /** The settings dict the controller hands to the adapter: always the same ten keys. */
  function GlobalSettings(rc: LocalRiskConfig): StrategyRiskInput
  {
    NoSettings.(
      totalLossLimit := MoneyField(rc.totalLossLimit),
      totalProfitLimit := MoneyField(rc.totalProfitLimit),
      maxLossPerTrade := MoneyField(rc.maxLossPerTrade),
      maxPosition := MoneyField(rc.maxPosition),
      tradingTimeLimit := Present(rc.tradingTimeLimit),
      tradingStartTime := TextField(rc.tradingStartTime),
      tradingEndTime := TextField(rc.tradingEndTime),
      consecutiveLossLimit := CountField(rc.consecutiveLossLimit),
      volatilityAdjustedStopLoss := Present(rc.volatilityAdjustedStopLoss),
      hedgingProtection := Present(rc.hedgingProtection))
  }

  predicate AllMoneyLimitsSet(rc: LocalRiskConfig)
  {
    RealSet(rc.totalLossLimit) && RealSet(rc.totalProfitLimit) && RealSet(rc.maxLossPerTrade) && RealSet(rc.maxPosition)
  }

  /** Because the four money keys are always sent, and an unset one is sent as
      `null`, the global config changes only when all four limits are set and
      non-zero; then the strategy limits, trading hours and loss limit are
      copied, an unset start or end time arriving as the text "None". */
  lemma GridConversionNeedsAllMoneyLimits(rc: LocalRiskConfig, c: GlobalRiskControlConfig)
    ensures !AllMoneyLimitsSet(rc) ==> Converted(GlobalSettings(rc), c) == c
    ensures AllMoneyLimitsSet(rc) ==>
      var r := Converted(GlobalSettings(rc), c);
      && r.fundRisk.strategyTotalLossLimit == rc.totalLossLimit
      && r.fundRisk.strategyTotalProfitLimit == rc.totalProfitLimit
      && r.fundRisk.strategyMaxLossPerTrade == rc.maxLossPerTrade
      && r.fundRisk.strategyMaxPosition == rc.maxPosition
      && r.timeRisk.tradingTimeLimit == rc.tradingTimeLimit
      && r.timeRisk.tradingStartTime == Some(if rc.tradingStartTime.Some? then rc.tradingStartTime.value else "None")
      && r.timeRisk.tradingEndTime == Some(if rc.tradingEndTime.Some? then rc.tradingEndTime.value else "None")
      && r.tradeProtection.consecutiveLossLimit == rc.consecutiveLossLimit
      && r.tradeProtection.orderFrequencyLimit == c.tradeProtection.orderFrequencyLimit
      && r.fundRisk.systemMaxPositionValue == c.fundRisk.systemMaxPositionValue
  {
    ConvertAllOrNothing(GlobalSettings(rc), c);
    if AllMoneyLimitsSet(rc) {
      ConvertedFields(GlobalSettings(rc), c);
    }
  }

  // ---- local risk rules ----

  /** Trading hours by text comparison of `HH:MM:SS`; with the limit off or a
      bound missing or empty, any time is allowed. */
  function TradingTimeAllowed(rc: LocalRiskConfig, clock: Clock): (ok: bool)
    ensures !rc.tradingTimeLimit || !TextSet(rc.tradingStartTime) || !TextSet(rc.tradingEndTime) ==> ok
    ensures rc.tradingTimeLimit && TextSet(rc.tradingStartTime) && TextSet(rc.tradingEndTime) ==>
      (ok <==> LexLe(rc.tradingStartTime.value, ClockText(clock)) && LexLe(ClockText(clock), rc.tradingEndTime.value))
  {
    if !rc.tradingTimeLimit then true
    else if !TextSet(rc.tradingStartTime) || !TextSet(rc.tradingEndTime) then true
    else LexLe(rc.tradingStartTime.value, ClockText(clock)) && LexLe(ClockText(clock), rc.tradingEndTime.value)
  }

  /** The local rules: any limit that is set (even to zero) applies. */
  function LocalRiskAllows(rc: LocalRiskConfig, pnl: real, losses: int, clock: Clock): (ok: bool)
    ensures rc.totalLossLimit.Some? && pnl < -rc.totalLossLimit.value ==> !ok
    ensures rc.totalProfitLimit.Some? && pnl > rc.totalProfitLimit.value ==> !ok
    ensures rc.consecutiveLossLimit.Some? && losses >= rc.consecutiveLossLimit.value ==> !ok
    ensures rc.tradingTimeLimit && !TradingTimeAllowed(rc, clock) ==> !ok
    ensures !ok ==>
      || (rc.totalLossLimit.Some? && pnl < -rc.totalLossLimit.value)
      || (rc.totalProfitLimit.Some? && pnl > rc.totalProfitLimit.value)
      || (rc.consecutiveLossLimit.Some? && losses >= rc.consecutiveLossLimit.value)
      || (rc.tradingTimeLimit && !TradingTimeAllowed(rc, clock))
  {
    if rc.totalLossLimit.Some? && pnl < -rc.totalLossLimit.value then false
    else if rc.totalProfitLimit.Some? && pnl > rc.totalProfitLimit.value then false
    else if rc.consecutiveLossLimit.Some? && losses >= rc.consecutiveLossLimit.value then false
    else if rc.tradingTimeLimit && !TradingTimeAllowed(rc, clock) then false
    else true
  }

  /** Unlike the global engine's truthiness tests, a zero threshold is live
      here: a zero loss-count limit stops trading outright, and a zero profit
      limit stops it at any gain. */
  lemma LocalZeroLimitsApply(rc: LocalRiskConfig, pnl: real, losses: int, clock: Clock)
    ensures rc.consecutiveLossLimit == Some(0) && losses >= 0 ==> !LocalRiskAllows(rc, pnl, losses, clock)
    ensures rc.totalProfitLimit == Some(0.0) && pnl > 0.0 ==> !LocalRiskAllows(rc, pnl, losses, clock)
    ensures rc == DefaultLocalRisk ==> LocalRiskAllows(rc, pnl, losses, clock)
  {
  }

  // ---- the loss counter ----

  /** The local loss counter after one processed trade; a call without a result leaves it. */
  function LossesAfter(losses: int, tradeResult: Option<real>): int
  {
    if tradeResult.None? then losses else if tradeResult.value < 0.0 then losses + 1 else 0
  }

  function LossesAfterAll(losses: int, results: seq<Option<real>>): int
    decreases |results|
  {
    if results == [] then losses else LossesAfter(LossesAfterAll(losses, results[..|results| - 1]), results[|results| - 1])
  }

  /** Reference definition: the number of losses since the last non-negative
      result, skipping calls that carried no result. */
  function TrailingLossCount(results: seq<Option<real>>): (n: nat)
    ensures n <= |results|
  {
    if results == [] then 0
    else
      var r := results[|results| - 1];
      if r.None? then TrailingLossCount(results[..|results| - 1])
      else if r.value < 0.0 then TrailingLossCount(results[..|results| - 1]) + 1
      else 0
  }

  predicate HasResult(results: seq<Option<real>>)
  {
    exists k :: 0 <= k < |results| && results[k].Some? && results[k].value >= 0.0
  }

  /** From a zero counter, the counter is the length of the trailing run of
      losses; once a non-negative result has been seen the starting value no
      longer matters. */
  lemma {:induction false} LossCounterCountsTrailingLosses(start: int, results: seq<Option<real>>)
    ensures LossesAfterAll(0, results) == TrailingLossCount(results)
    ensures HasResult(results) ==> LossesAfterAll(start, results) == TrailingLossCount(results)
    ensures !HasResult(results) ==> LossesAfterAll(start, results) == start + TrailingLossCount(results)
  {
    if results != [] {
      var init := results[..|results| - 1];
      LossCounterCountsTrailingLosses(start, init);
      var r := results[|results| - 1];
      if HasResult(init) {
        var k :| 0 <= k < |init| && init[k].Some? && init[k].value >= 0.0;
        assert results[k] == init[k];
      }
      if !HasResult(results) {
        forall k | 0 <= k < |init|
          ensures !(init[k].Some? && init[k].value >= 0.0)
        {
          assert results[k] == init[k];
        }
      }
    }
  }

  // ---- pending configuration updates ----

  /** `update_config`'s dict: each present key is a pending update. */
  datatype GridUpdates = GridUpdates(
    connectorName: Option<string>,
    tradingPair: Option<string>,
    positionMode: Option<PositionMode>,
    leverage: Option<int>,
    totalInvestment: Option<real>,
    gridLevels: Option<seq<LevelUpdate>>,
    riskControl: Option<LocalRiskPatch>,
    enableDynamicGrid: Option<bool>,
    maxGridLevels: Option<int>)

  const NoUpdates := GridUpdates(None, None, None, None, None, None, None, None, None)

  /** `dict.update`: a key of the newer updates replaces the pending one. */
  function MergedUpdates(pending: GridUpdates, u: GridUpdates): (r: GridUpdates)
    ensures u == NoUpdates ==> r == pending
    ensures pending == NoUpdates ==> r == u
  {
    GridUpdates(
      if u.connectorName.Some? then u.connectorName else pending.connectorName,
      if u.tradingPair.Some? then u.tradingPair else pending.tradingPair,
      if u.positionMode.Some? then u.positionMode else pending.positionMode,
      if u.leverage.Some? then u.leverage else pending.leverage,
      if u.totalInvestment.Some? then u.totalInvestment else pending.totalInvestment,
      if u.gridLevels.Some? then u.gridLevels else pending.gridLevels,
      if u.riskControl.Some? then u.riskControl else pending.riskControl,
      if u.enableDynamicGrid.Some? then u.enableDynamicGrid else pending.enableDynamicGrid,
      if u.maxGridLevels.Some? then u.maxGridLevels else pending.maxGridLevels)
  }

  /** Queuing two batches one after the other is the same as queuing their merge. */
  lemma MergedUpdatesAssociative(p: GridUpdates, a: GridUpdates, b: GridUpdates)
    ensures MergedUpdates(MergedUpdates(p, a), b) == MergedUpdates(p, MergedUpdates(a, b))
  {
  }

  datatype Applied = Applied(ok: bool, config: GridConfig)

  /** The config after applying a batch of updates in the source's key order.
      The level list is truncated against the maximum in force before this
      batch; a failing level update stops the batch, leaving the later keys
      (risk control, dynamic grid, maximum) unapplied. */
  function AppliedUpdates(c: GridConfig, backed: set<int>, u: GridUpdates): Applied
  {
    var c1 := c.(connectorName := Pick(u.connectorName, c.connectorName),
                 tradingPair := Pick(u.tradingPair, c.tradingPair),
                 positionMode := Pick(u.positionMode, c.positionMode),
                 leverage := Pick(u.leverage, c.leverage),
                 totalInvestment := Pick(u.totalInvestment, c.totalInvestment));
    var o := if u.gridLevels.Some? then UpdatedLevels(c1.gridLevels, backed, u.gridLevels.value, c1.maxGridLevels)
             else Outcome(true, c1.gridLevels);
    var c2 := c1.(gridLevels := o.levels);
    if !o.ok then Applied(false, c2)
    else Applied(true, c2.(riskControl := if u.riskControl.Some? then PatchedLocalRisk(c2.riskControl, u.riskControl.value)
                                          else c2.riskControl,
                           enableDynamicGrid := Pick(u.enableDynamicGrid, c2.enableDynamicGrid),
                           maxGridLevels := Pick(u.maxGridLevels, c2.maxGridLevels)))
  }

  /** Applying no updates changes nothing, and a successful batch leaves at
      most the previous maximum number of levels when it carried a level list. */
  lemma AppliedUpdatesEffect(c: GridConfig, backed: set<int>, u: GridUpdates)
    ensures AppliedUpdates(c, backed, NoUpdates) == Applied(true, c)
    ensures u.gridLevels.None? ==>
      AppliedUpdates(c, backed, u).ok && AppliedUpdates(c, backed, u).config.gridLevels == c.gridLevels
    ensures u.gridLevels.Some? && AppliedUpdates(c, backed, u).ok && c.maxGridLevels >= 0 ==>
      |AppliedUpdates(c, backed, u).config.gridLevels| <= c.maxGridLevels
    ensures AppliedUpdates(c, backed, u).config.id == c.id
  {
    if u.gridLevels.Some? {
      var c1 := c.(connectorName := Pick(u.connectorName, c.connectorName),
                   tradingPair := Pick(u.tradingPair, c.tradingPair),
                   positionMode := Pick(u.positionMode, c.positionMode),
                   leverage := Pick(u.leverage, c.leverage),
                   totalInvestment := Pick(u.totalInvestment, c.totalInvestment));
      var known := set k | 0 <= k < |c1.gridLevels| :: c1.gridLevels[k].level;
      var o := ApplyEntries(Pruned(c1.gridLevels, UpdateIds(u.gridLevels.value), backed), known, backed, u.gridLevels.value);
      if o.ok && c.maxGridLevels >= 0 {
        TruncatedBest(o.levels, backed, c.maxGridLevels);
      }
    }
  }

  // ---- executors ----

  /** Keys of the executor-to-level map: at start it is keyed by level
      numbers, later by executor ids. */
  datatype ExecutorKey = LevelKey(n: int) | ExecutorId(id: string)

  datatype ExecutorInfo = ExecutorInfo(id: string, isActive: bool)

  /** The map built at start: every level number maps to itself. */
  function InitialGridMap(levels: seq<GridLevel>): (m: map<ExecutorKey, int>)
    ensures forall k :: k in m <==> k.LevelKey? && HasLevel(levels, k.n)
    ensures forall k :: k in m ==> m[k] == k.n
  {
    if levels == [] then map[]
    else
      var init := levels[..|levels| - 1];
      assert forall n :: HasLevel(levels, n) <==> HasLevel(init, n) || levels[|levels| - 1].level == n by {
        forall n | HasLevel(levels, n) && levels[|levels| - 1].level != n
          ensures HasLevel(init, n)
        {
          var k :| 0 <= k < |levels| && levels[k].level == n;
          assert init[k] == levels[k];
        }
        forall n | HasLevel(init, n)
          ensures HasLevel(levels, n)
        {
          var k :| 0 <= k < |init| && init[k].level == n;
          assert levels[k] == init[k];
        }
      }
      InitialGridMap(init)[LevelKey(levels[|levels| - 1].level) := levels[|levels| - 1].level]
  }

  /** The start-up loop that maps every configured level number to itself. */
  method BuildGridMap(levels: seq<GridLevel>) returns (m: map<ExecutorKey, int>)
    ensures m == InitialGridMap(levels)
  {
    m := map[];
    var i := 0;
    while i < |levels|
      invariant 0 <= i <= |levels|
      invariant m == InitialGridMap(levels[..i])
    {
      assert levels[..i + 1][..i] == levels[..i];
      m := m[LevelKey(levels[i].level) := levels[i].level];
      i := i + 1;
    }
    assert levels[..i] == levels;
  }

  /** Level numbers that have an executor. */
  function Backed(m: map<ExecutorKey, int>): set<int>
  {
    set k | k in m :: m[k]
  }

  /** Index of the first level with number `n` at or after `from`. */
  function FirstWithLevel(levels: seq<GridLevel>, n: int, from: nat): (k: Option<nat>)
    requires from <= |levels|
    ensures k.Some? ==>
      from <= k.value < |levels| && levels[k.value].level == n && forall j :: from <= j < k.value ==> levels[j].level != n
    ensures k.None? ==> forall j :: from <= j < |levels| ==> levels[j].level != n
    decreases |levels| - from
  {
    if from == |levels| then None
    else if levels[from].level == n then Some(from)
    else FirstWithLevel(levels, n, from + 1)
  }

  /** An active executor is stopped when its map entry names a level that is
      missing or whose first occurrence is inactive. */
  predicate ShouldStop(e: ExecutorInfo, m: map<ExecutorKey, int>, levels: seq<GridLevel>)
  {
    && e.isActive
    && ExecutorId(e.id) in m
    && var k := FirstWithLevel(levels, m[ExecutorId(e.id)], 0);
       k.None? || !levels[k.value].isActive
  }

  function StopIds(es: seq<ExecutorInfo>, m: map<ExecutorKey, int>, levels: seq<GridLevel>): seq<string>
  {
    if es == [] then []
    else StopIds(es[..|es| - 1], m, levels) + (if ShouldStop(es[|es| - 1], m, levels) then [es[|es| - 1].id] else [])
  }

  /** Every stop names an executor that should stop, in executor order, and
      with the map still keyed by level numbers (as at start) nothing is stopped. */
  lemma {:induction false} StopIdsSound(es: seq<ExecutorInfo>, m: map<ExecutorKey, int>, levels: seq<GridLevel>)
    ensures forall id :: id in StopIds(es, m, levels) ==>
      exists k :: 0 <= k < |es| && es[k].id == id && ShouldStop(es[k], m, levels)
    ensures (forall k :: k in m ==> k.LevelKey?) ==> StopIds(es, m, levels) == []
    ensures |StopIds(es, m, levels)| <= |es|
  {
    if es != [] {
      var init := es[..|es| - 1];
      StopIdsSound(init, m, levels);
      forall id | id in StopIds(init, m, levels)
        ensures exists k :: 0 <= k < |es| && es[k].id == id && ShouldStop(es[k], m, levels)
      {
        var k :| 0 <= k < |init| && init[k].id == id && ShouldStop(init[k], m, levels);
        assert es[k] == init[k];
      }
    }
  }

  // ---- take profit ----

  datatype BatchRatios = BatchRatios(profitRatio: real, reboundRatio: real, portion: real)

  /** Either the default 2% ratio, or one fraction triple per configured batch. */
  datatype TakeProfitSetting = DefaultTakeProfit(ratio: real) | Batches(batches: seq<BatchRatios>)

  // ---- balance requirement ----

  datatype TokenAmount = TokenAmount(token: string, amount: real)

  predicate Unopened(lv: GridLevel)
  {
    lv.isActive && (lv.status == NotOpened || lv.status == PendingOpen)
  }

  /** Sum of the amounts of the active levels that have not opened yet. */
  function OpenAmount(levels: seq<GridLevel>): real
  {
    if levels == [] then 0.0
    else OpenAmount(levels[..|levels| - 1]) + (if Unopened(levels[|levels| - 1]) then levels[|levels| - 1].amount else 0.0)
  }

  /** The amount adds up over a split of the list, levels that are inactive or
      already opened contribute nothing, and with non-negative amounts the
      total is non-negative. */
  lemma {:induction false} OpenAmountSplit(a: seq<GridLevel>, b: seq<GridLevel>)
    ensures OpenAmount(a + b) == OpenAmount(a) + OpenAmount(b)
    ensures (forall k :: 0 <= k < |b| ==> !Unopened(b[k])) ==> OpenAmount(a + b) == OpenAmount(a)
    decreases |b|
  {
    if b != [] {
      OpenAmountSplit(a, b[..|b| - 1]);
      assert (a + b)[..|a + b| - 1] == a + b[..|b| - 1];
      assert (a + b)[|a + b| - 1] == b[|b| - 1];
    } else {
      assert a + b == a;
    }
  }

  lemma {:induction false} OpenAmountNonNegative(levels: seq<GridLevel>)
    requires forall k :: 0 <= k < |levels| ==> levels[k].amount >= 0.0
    ensures OpenAmount(levels) >= 0.0
  {
    if levels != [] {
      OpenAmountNonNegative(levels[..|levels| - 1]);
    }
  }

  /** A level that is the lowest numbered one in the list. */
  predicate IsLowest(levels: seq<GridLevel>, n: int)
  {
    HasLevel(levels, n) && forall j :: 0 <= j < |levels| ==> levels[j].level >= n
  }

  /** The pruning pass of a level update: each level in turn is kept,
      deactivated or dropped. */
  method PruneLevels(levels: seq<GridLevel>, ids: set<int>, backed: set<int>) returns (current: seq<GridLevel>)
    ensures current == Pruned(levels, ids, backed)
  {
    current := [];
    var i := 0;
    while i < |levels|
      invariant 0 <= i <= |levels|
      invariant current == PrunedPrefix(levels, i, ids, backed)
    {
      current := current + PruneOne(levels, i, ids, backed);
      i := i + 1;
    }
  }

  /** The entries of a level update applied in order, stopping at the first
      new level that lacks a required key. */
  method ApplyLevelEntries(levels: seq<GridLevel>, known: set<int>, backed: set<int>, data: seq<LevelUpdate>)
    returns (o: Outcome)
    ensures o == ApplyEntries(levels, known, backed, data)
  {
    var current := levels;
    var j := 0;
    while j < |data|
      invariant 0 <= j <= |data|
      invariant ApplyEntries(current, known, backed, data[j..]) == ApplyEntries(levels, known, backed, data)
    {
      var step := ApplyEntry(current, known, backed, data[j]);
      if step.None? {
        return Outcome(false, current);
      }
      assert data[j..][1..] == data[j + 1..];
      current := step.value;
      j := j + 1;
    }
    return Outcome(true, current);
  }

  class EnhancedGridController {
    var config: GridConfig
    var executorGridMap: map<ExecutorKey, int>
    var pendingUpdates: GridUpdates
    var consecutiveLosses: int
    var tradeCount: int
    var pendingGridChanges: bool
    var localRiskActive: bool
    const globalRiskActive: bool
    const riskAdapter: RiskControlAdapter

    /** The adapter is always enabled and bound to this strategy. */
    ghost predicate Valid()
      reads this, riskAdapter, riskAdapter.engine
    {
      riskAdapter.useGlobalRiskControl && riskAdapter.strategyId == config.id && riskAdapter.engine.Valid()
    }

    /** Starts with zero counters and an always-enabled adapter registered with
        the engine; the local settings are pushed to the engine when global risk
        is on; every configured level is mapped to itself. */
    constructor (c: GridConfig, enableGlobalRisk: bool, engine: GlobalRiskControl)
      requires engine.Valid()
      modifies engine`strategyStates, engine`order, engine`config
      ensures Valid() && riskAdapter.engine == engine
      ensures config == c && globalRiskActive == enableGlobalRisk && localRiskActive
      ensures consecutiveLosses == 0 && tradeCount == 0 && !pendingGridChanges && pendingUpdates == NoUpdates
      ensures executorGridMap == InitialGridMap(c.gridLevels)
      ensures old(c.id !in engine.strategyStates) ==> engine.strategyStates == old(engine.strategyStates)[c.id := FreshState(c.id)]
      ensures old(c.id in engine.strategyStates) ==> engine.strategyStates == old(engine.strategyStates)
      ensures old(c.id !in engine.strategyStates) ==> engine.order == old(engine.order) + [c.id]
      ensures old(c.id in engine.strategyStates) ==> engine.order == old(engine.order)
      ensures engine.config == if enableGlobalRisk then Converted(GlobalSettings(c.riskControl), old(engine.config))
                               else old(engine.config)
    {
      config := c;
      pendingUpdates := NoUpdates;
      consecutiveLosses := 0;
      pendingGridChanges := false;
      tradeCount := 0;
      localRiskActive := true;
      globalRiskActive := enableGlobalRisk;
      var gridMap := BuildGridMap(c.gridLevels);
      executorGridMap := gridMap;
      var adapter := new RiskControlAdapter(c.id, true, engine);
      riskAdapter := adapter;
      new;
      if enableGlobalRisk {
        adapter.ConvertStrategyRiskToGlobal(GlobalSettings(c.riskControl));
      }
    }

    /** Records a trade: the local loss counter follows the result, the engine
        gets the result when global risk is on, and every call counts. */
    method ProcessTradeResult(tradeResult: Option<real>, now: real)
      requires Valid()
      requires globalRiskActive && tradeResult.Some? ==> WindowsConfigured(riskAdapter.engine.config.tradeProtection)
      modifies this`consecutiveLosses, this`tradeCount
      modifies riskAdapter.engine`strategyStates, riskAdapter.engine`order, riskAdapter.engine`totalPositionValue,
               riskAdapter.engine`currentMaxLoss, riskAdapter.engine`accountTimeWindows
      ensures Valid()
      ensures consecutiveLosses == LossesAfter(old(consecutiveLosses), tradeResult)
      ensures tradeCount == old(tradeCount) + 1
      ensures globalRiskActive && tradeResult.Some? ==>
        var e := riskAdapter.engine;
        && e.strategyStates == old(e.strategyStates)[config.id := UpdatedState(
             e.config.tradeProtection, StateBefore(old(e.strategyStates), config.id), None, None, tradeResult, now)]
        && e.order == (if old(config.id in e.strategyStates) then old(e.order) else old(e.order) + [config.id])
        && e.totalPositionValue == old(e.totalPositionValue)
        && (tradeResult.value < 0.0 ==>
              e.currentMaxLoss >= old(e.currentMaxLoss) && e.currentMaxLoss >= -tradeResult.value
              && (e.currentMaxLoss == old(e.currentMaxLoss) || e.currentMaxLoss == -tradeResult.value))
        && (tradeResult.value >= 0.0 ==> e.currentMaxLoss == old(e.currentMaxLoss))
        && e.accountTimeWindows == AccountWindowsAfter(e.config.fundRisk, old(e.accountTimeWindows), tradeResult.value, now)
      ensures !(globalRiskActive && tradeResult.Some?) ==>
        var e := riskAdapter.engine;
        && e.strategyStates == old(e.strategyStates) && e.order == old(e.order)
        && e.totalPositionValue == old(e.totalPositionValue)
        && e.currentMaxLoss == old(e.currentMaxLoss) && e.accountTimeWindows == old(e.accountTimeWindows)
    {
      if tradeResult.Some? {
        if tradeResult.value < 0.0 {
          consecutiveLosses := consecutiveLosses + 1;
        } else {
          consecutiveLosses := 0;
        }
        if globalRiskActive {
          riskAdapter.UpdateStrategyState(None, None, tradeResult, now);
        }
      }
      tradeCount := tradeCount + 1;
    }

    /** Trading is allowed when the local rules (if active) and then the engine
        (if global risk is on) both allow; the engine is not consulted, and so
        cannot latch a pause, once the local rules refuse. `localPnl` is the
        executors' summed PnL and `clock` the local time of day. */
    method IsTradingAllowed(localPnl: real, clock: Clock) returns (ok: bool)
      requires Valid()
      modifies riskAdapter.engine`strategyStates
      ensures Valid()
      ensures var localOk := !localRiskActive || LocalRiskAllows(config.riskControl, localPnl, consecutiveLosses, clock);
        var e := riskAdapter.engine;
        && (ok <==>
              localOk && (!globalRiskActive
                          || TradingDecision(e.config, old(e.strategyStates), e.totalPositionValue, e.currentMaxLoss,
                                             e.accountTimeWindows, config.id, clock).allowed))
        && (!localOk || !globalRiskActive ==> e.strategyStates == old(e.strategyStates))
        && (localOk && globalRiskActive ==>
              e.strategyStates ==
                if LatchesPause(e.config, old(e.strategyStates), e.totalPositionValue, e.currentMaxLoss,
                                e.accountTimeWindows, config.id, clock)
                then old(e.strategyStates)[config.id := old(e.strategyStates)[config.id].(
                       isPausedByRisk := true,
                       pauseReason := TradingDecision(e.config, old(e.strategyStates), e.totalPositionValue, e.currentMaxLoss,
                                                      e.accountTimeWindows, config.id, clock).reason)]
                else old(e.strategyStates))
    {
      if localRiskActive && !LocalRiskAllows(config.riskControl, localPnl, consecutiveLosses, clock) {
        return false;
      }
      if globalRiskActive {
        var d := riskAdapter.CheckTradingAllowed(clock);
        if !d.allowed {
          return false;
        }
      }
      return true;
    }

    /** Queues updates; they take effect at the next application. */
    method UpdateConfig(u: GridUpdates)
      modifies this`pendingUpdates
      ensures pendingUpdates == MergedUpdates(old(pendingUpdates), u)
    {
      pendingUpdates := MergedUpdates(pendingUpdates, u);
    }

    /** Sets the given risk keys, then pushes the settings to the engine when global risk is on. */
    method UpdateRiskControl(p: LocalRiskPatch)
      requires Valid()
      modifies this`config, riskAdapter.engine`config
      ensures Valid()
      ensures config == old(config).(riskControl := PatchedLocalRisk(old(config.riskControl), p))
      ensures riskAdapter.engine.config == if globalRiskActive
        then Converted(GlobalSettings(config.riskControl), old(riskAdapter.engine.config))
        else old(riskAdapter.engine.config)
    {
      config := config.(riskControl := PatchedLocalRisk(config.riskControl, p));
      if globalRiskActive {
        riskAdapter.ConvertStrategyRiskToGlobal(GlobalSettings(config.riskControl));
      }
    }

    /** Prunes, merges and truncates the level list. On a new level lacking a
        required key the update stops there, keeping what it already changed. */
    method UpdateGridLevels(data: seq<LevelUpdate>) returns (ok: bool)
      modifies this`config
      ensures var o := UpdatedLevels(old(config.gridLevels), Backed(executorGridMap), data, old(config.maxGridLevels));
        ok == o.ok && config == old(config).(gridLevels := o.levels)
    {
      var levels := config.gridLevels;
      var backed := Backed(executorGridMap);
      var known := set k | 0 <= k < |levels| :: levels[k].level;
      var current := PruneLevels(levels, UpdateIds(data), backed);
      var o := ApplyLevelEntries(current, known, backed, data);
      if !o.ok {
        config := config.(gridLevels := o.levels);
        return false;
      }
      current := o.levels;
      if |current| > config.maxGridLevels {
        current := PySlice(SortByPriority(current, backed), 0, config.maxGridLevels);
      }
      config := config.(gridLevels := current);
      return true;
    }

    /** Takes the pending updates and applies them in order; `ok` is false when
        a level update failed, which leaves the later keys unapplied. */
    method ApplyPendingUpdates() returns (ok: bool)
      requires Valid()
      modifies this`config, this`pendingUpdates, this`pendingGridChanges, riskAdapter.engine`config
      ensures Valid()
      ensures var a := AppliedUpdates(old(config), Backed(executorGridMap), old(pendingUpdates));
        ok == a.ok && config == a.config
      ensures pendingUpdates == NoUpdates
      ensures pendingGridChanges == (old(pendingGridChanges) || (ok && old(pendingUpdates).gridLevels.Some?))
      ensures riskAdapter.engine.config ==
        if ok && old(pendingUpdates).riskControl.Some? && globalRiskActive
        then Converted(GlobalSettings(config.riskControl), old(riskAdapter.engine.config))
        else old(riskAdapter.engine.config)
    {
      var u := pendingUpdates;
      pendingUpdates := NoUpdates;
      config := config.(connectorName := Pick(u.connectorName, config.connectorName),
                        tradingPair := Pick(u.tradingPair, config.tradingPair),
                        positionMode := Pick(u.positionMode, config.positionMode),
                        leverage := Pick(u.leverage, config.leverage),
                        totalInvestment := Pick(u.totalInvestment, config.totalInvestment));
      if u.gridLevels.Some? {
        ok := UpdateGridLevels(u.gridLevels.value);
        if !ok {
          return;
        }
        pendingGridChanges := true;
      }
      if u.riskControl.Some? {
        UpdateRiskControl(u.riskControl.value);
      }
      config := config.(enableDynamicGrid := Pick(u.enableDynamicGrid, config.enableDynamicGrid),
                        maxGridLevels := Pick(u.maxGridLevels, config.maxGridLevels));
      ok := true;
    }

    /** The lowest-numbered level (and any level when there are none) is priced
        at the mid price; every other level one open ratio below it. */
    method LevelPrice(g: GridLevel, mid: real) returns (price: real)
      ensures config.gridLevels == [] || IsLowest(config.gridLevels, g.level) ==> price == mid
      ensures !(config.gridLevels == [] || IsLowest(config.gridLevels, g.level)) ==>
        price == mid * (1.0 - g.openRatio / 100.0)
    {
      var levels := config.gridLevels;
      if levels == [] {
        return mid;
      }
      var lowest := levels[0].level;
      var at := 0;
      var i := 1;
      while i < |levels|
        invariant 1 <= i <= |levels| && 0 <= at < i
        invariant levels[at].level == lowest
        invariant forall j :: 0 <= j < i ==> levels[j].level >= lowest
      {
        if levels[i].level < lowest {
          lowest := levels[i].level;
          at := i;
        }
        i := i + 1;
      }
      if lowest == g.level {
        price := mid;
      } else {
        assert levels[at].level == lowest;
        price := mid * (1.0 - g.openRatio / 100.0);
      }
    }

    /** Nothing for a perpetual connector; otherwise the quote currency (the
        second `-`-separated piece of the pair, `None` when there is none) with
        110% of the amount still to open. */
    method BalanceRequirements() returns (r: Option<seq<TokenAmount>>)
      ensures ContainsText(config.connectorName, "perpetual") ==> r == Some([])
      ensures !ContainsText(config.connectorName, "perpetual") && |Split(config.tradingPair, '-')| < 2 ==> r.None?
      ensures !ContainsText(config.connectorName, "perpetual") && |Split(config.tradingPair, '-')| >= 2 ==>
        r == Some([TokenAmount(Split(config.tradingPair, '-')[1], OpenAmount(config.gridLevels) * 1.1)])
    {
      if ContainsText(config.connectorName, "perpetual") {
        return Some([]);
      }
      var parts := Split(config.tradingPair, '-');
      if |parts| < 2 {
        return None;
      }
      var levels := config.gridLevels;
      var total := 0.0;
      var i := 0;
      while i < |levels|
        invariant 0 <= i <= |levels|
        invariant total == OpenAmount(levels[..i])
      {
        assert levels[..i + 1][..i] == levels[..i];
        if levels[i].isActive && (levels[i].status == NotOpened || levels[i].status == PendingOpen) {
          total := total + levels[i].amount;
        }
        i := i + 1;
      }
      assert levels[..i] == levels;
      return Some([TokenAmount(parts[1], total * 1.1)]);
    }

    /** The executors to stop, in executor order. */
    method StopExecutorActions(executors: seq<ExecutorInfo>) returns (stops: seq<string>)
      ensures stops == StopIds(executors, executorGridMap, config.gridLevels)
    {
      var levels := config.gridLevels;
      stops := [];
      var i := 0;
      while i < |executors|
        invariant 0 <= i <= |executors|
        invariant stops == StopIds(executors[..i], executorGridMap, levels)
      {
        var e := executors[i];
        assert executors[..i + 1][..i] == executors[..i];
        if e.isActive && ExecutorId(e.id) in executorGridMap {
          var n := executorGridMap[ExecutorId(e.id)];
          var j := 0;
          while j < |levels| && levels[j].level != n
            invariant 0 <= j <= |levels|
            invariant FirstWithLevel(levels, n, 0) == FirstWithLevel(levels, n, j)
          {
            j := j + 1;
          }
          if j == |levels| || !levels[j].isActive {
            stops := stops + [e.id];
          }
        }
        i := i + 1;
      }
      assert executors[..i] == executors;
    }

    /** The default 2% without batches; otherwise each batch's percentages as fractions. */
    method TakeProfitConfig(g: GridLevel) returns (t: TakeProfitSetting)
      ensures g.takeProfitBatches == [] <==> t == DefaultTakeProfit(0.02)
      ensures t.Batches? ==> |t.batches| == |g.takeProfitBatches|
      ensures t.Batches? ==> forall k :: 0 <= k < |t.batches| ==>
        && t.batches[k].profitRatio * 100.0 == g.takeProfitBatches[k].profitRatio
        && t.batches[k].reboundRatio * 100.0 == g.takeProfitBatches[k].reboundRatio
        && t.batches[k].portion * 100.0 == g.takeProfitBatches[k].portion
    {
      if g.takeProfitBatches == [] {
        return DefaultTakeProfit(0.02);
      }
      var out: seq<BatchRatios> := [];
      for i := 0 to |g.takeProfitBatches|
        invariant |out| == i
        invariant forall k :: 0 <= k < i ==>
          && out[k].profitRatio * 100.0 == g.takeProfitBatches[k].profitRatio
          && out[k].reboundRatio * 100.0 == g.takeProfitBatches[k].reboundRatio
          && out[k].portion * 100.0 == g.takeProfitBatches[k].portion
      {
        var b := g.takeProfitBatches[i];
        out := out + [BatchRatios(b.profitRatio / 100.0, b.reboundRatio / 100.0, b.portion / 100.0)];
      }
      return Batches(out);
    }
  }
}
