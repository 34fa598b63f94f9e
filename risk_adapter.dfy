/** The per-strategy adapter in front of the global risk engine: every call is
    gated by the strategy's `useGlobalRiskControl` flag, and a strategy's own
    camelCase risk settings can be translated into the engine's config. */
module RiskAdapter {
  import opened Common
  import opened RiskConfig
  import opened RiskEngine

  /** Unit names of the strategy settings; anything else counts as hours. */
  function ConvertTimeUnit(name: string): (u: TimeUnit)
    ensures !u.Unrecognized?
    ensures name == "minutes" <==> u == Minute
    ensures name == "days" <==> u == Day
    ensures name == "weeks" <==> u == Week
    ensures name != "minutes" && name != "days" && name != "weeks" <==> u == Hour
  {
    if name == "minutes" then Minute
    else if name == "hours" then Hour
    else if name == "days" then Day
    else if name == "weeks" then Week
    else Hour
  }

  /** A strategy's risk settings as a JSON-like dict: each key may be missing,
      `null`, or carry a value. */
  datatype StrategyRiskInput = StrategyRiskInput(
    totalLossLimit: Field<real>,
    totalProfitLimit: Field<real>,
    maxLossPerTrade: Field<real>,
    maxPosition: Field<real>,
    tradingTimeLimit: Field<bool>,
    tradingStartTime: Field<string>,
    tradingEndTime: Field<string>,
    timePointLimit: Field<bool>,
    forbiddenTimePoints: Field<seq<Clock>>,
    consecutiveLossLimit: Field<int>,
    consecutiveLossWindow: Field<int>,
    consecutiveLossWindowUnit: Field<string>,
    orderFrequencyLimit: Field<int>,
    orderFrequencyWindow: Field<int>,
    orderFrequencyWindowUnit: Field<string>,
    volatilityAdjustedStopLoss: Field<bool>,
    hedgingProtection: Field<bool>)

  /** A settings dict with no keys. */
  const NoSettings := StrategyRiskInput(Absent, Absent, Absent, Absent, Absent, Absent, Absent, Absent, Absent,
                                        Absent, Absent, Absent, Absent, Absent, Absent, Absent, Absent)

  predicate Mentioned<T>(f: Field<T>) { !f.Absent? }

  /** Every money key that is present holds a number: `Decimal(str(None))` is the one failure modelled. */
  predicate AmountsConvert(i: StrategyRiskInput)
  {
    !i.totalLossLimit.Null? && !i.totalProfitLimit.Null? && !i.maxLossPerTrade.Null? && !i.maxPosition.Null?
  }

  predicate FundMentioned(i: StrategyRiskInput)
  {
    Mentioned(i.totalLossLimit) || Mentioned(i.totalProfitLimit) || Mentioned(i.maxLossPerTrade) || Mentioned(i.maxPosition)
  }

  predicate TimeMentioned(i: StrategyRiskInput)
  {
    || Mentioned(i.tradingTimeLimit) || Mentioned(i.tradingStartTime) || Mentioned(i.tradingEndTime)
    || Mentioned(i.timePointLimit) || Mentioned(i.forbiddenTimePoints)
  }

  predicate ProtectionMentioned(i: StrategyRiskInput)
  {
    || Mentioned(i.consecutiveLossLimit) || Mentioned(i.consecutiveLossWindow) || Mentioned(i.consecutiveLossWindowUnit)
    || Mentioned(i.orderFrequencyLimit) || Mentioned(i.orderFrequencyWindow) || Mentioned(i.orderFrequencyWindowUnit)
  }

  predicate IntelligentMentioned(i: StrategyRiskInput)
  {
    Mentioned(i.volatilityAdjustedStopLoss) || Mentioned(i.hedgingProtection)
  }

  /** A money key: a present number replaces the limit. */
  function AmountOr(f: Field<real>, current: Option<real>): Option<real>
    requires !f.Null?
  {
    if f.Present? then Some(f.v) else current
  }

  /** A count key: `null` clears the limit. */
  function CountOr(f: Field<int>, current: Option<int>): Option<int>
  {
    match f
    case Absent => current
    case Null => None
    case Present(v) => Some(v)
  }

  /** A time key goes through `str`, so `null` becomes the text "None". */
  function TextOr(f: Field<string>, current: Option<string>): Option<string>
  {
    match f
    case Absent => current
    case Null => Some("None")
    case Present(v) => Some(v)
  }

  /** A flag: a stored `null` is read as false. */
  function FlagOr(f: Field<bool>, current: bool): bool
  {
    match f
    case Absent => current
    case Null => false
    case Present(v) => v
  }

  /** The forbidden points: a stored `null` is read as no points. */
  function PointsOr(f: Field<seq<Clock>>, current: seq<Clock>): seq<Clock>
  {
    match f
    case Absent => current
    case Null => []
    case Present(v) => v
  }

  /** A unit name goes through the unit conversion; `null` matches no name and so becomes hours. */
  function UnitOr(f: Field<string>, current: TimeUnit): TimeUnit
  {
    match f
    case Absent => current
    case Null => Hour
    case Present(v) => ConvertTimeUnit(v)
  }

  /** The config update a strategy's settings produce, or `None` when the
      conversion fails and nothing is updated. Each sub-config is copied with
      only its mentioned keys replaced, and replaced only if one was mentioned. */
  function Convert(i: StrategyRiskInput, c: GlobalRiskControlConfig): (p: Option<ConfigPatch>)
    ensures p.None? <==> !AmountsConvert(i)
    ensures p.Some? ==> p.value.marketRisk.None? && p.value.riskLevel.None? && p.value.enabled.None?
    ensures p.Some? ==> (p.value.fundRisk.Some? <==> FundMentioned(i))
    ensures p.Some? ==> (p.value.timeRisk.Some? <==> TimeMentioned(i))
    ensures p.Some? ==> (p.value.tradeProtection.Some? <==> ProtectionMentioned(i))
    ensures p.Some? ==> (p.value.intelligentRisk.Some? <==> IntelligentMentioned(i))
  {
    if !AmountsConvert(i) then None
    else
      var f := c.fundRisk;
      var fund := f.(
        strategyTotalLossLimit := AmountOr(i.totalLossLimit, f.strategyTotalLossLimit),
        strategyTotalProfitLimit := AmountOr(i.totalProfitLimit, f.strategyTotalProfitLimit),
        strategyMaxLossPerTrade := AmountOr(i.maxLossPerTrade, f.strategyMaxLossPerTrade),
        strategyMaxPosition := AmountOr(i.maxPosition, f.strategyMaxPosition));
      var t := c.timeRisk;
      var time := TimeRiskConfig(
        FlagOr(i.tradingTimeLimit, t.tradingTimeLimit),
        TextOr(i.tradingStartTime, t.tradingStartTime),
        TextOr(i.tradingEndTime, t.tradingEndTime),
        FlagOr(i.timePointLimit, t.timePointLimit),
        PointsOr(i.forbiddenTimePoints, t.forbiddenTimePoints));
      var tp := c.tradeProtection;
      var protection := TradeProtectionConfig(
        CountOr(i.consecutiveLossLimit, tp.consecutiveLossLimit),
        CountOr(i.consecutiveLossWindow, tp.consecutiveLossWindow),
        UnitOr(i.consecutiveLossWindowUnit, tp.consecutiveLossWindowUnit),
        CountOr(i.orderFrequencyLimit, tp.orderFrequencyLimit),
        CountOr(i.orderFrequencyWindow, tp.orderFrequencyWindow),
        UnitOr(i.orderFrequencyWindowUnit, tp.orderFrequencyWindowUnit));
      var ir := c.intelligentRisk;
      var intelligent := IntelligentRiskConfig(
        FlagOr(i.volatilityAdjustedStopLoss, ir.volatilityAdjustedStopLoss),
        FlagOr(i.hedgingProtection, ir.hedgingProtection));
      Some(ConfigPatch(
        if FundMentioned(i) then Some(fund) else None,
        if TimeMentioned(i) then Some(time) else None,
        if ProtectionMentioned(i) then Some(protection) else None,
        None,
        if IntelligentMentioned(i) then Some(intelligent) else None,
        None,
        None))
  }

  /** The engine's config after the conversion: updated as a whole or not at all. */
  function Converted(i: StrategyRiskInput, c: GlobalRiskControlConfig): GlobalRiskControlConfig
  {
    match Convert(i, c)
    case None => c
    case Some(p) => ApplyPatch(c, p)
  }

  /** A key the settings do not mention keeps the engine's value, a present
      key sets it, and the fields the settings cannot express (system and
      account limits, market risk, level, enabled) are never touched. */
  lemma ConvertedFields(i: StrategyRiskInput, c: GlobalRiskControlConfig)
    requires AmountsConvert(i)
    ensures var r := Converted(i, c);
      && r.marketRisk == c.marketRisk && r.riskLevel == c.riskLevel && r.enabled == c.enabled
      && r.fundRisk.systemMaxPositionValue == c.fundRisk.systemMaxPositionValue
      && r.fundRisk.systemMaxLossCutoff == c.fundRisk.systemMaxLossCutoff
      && r.fundRisk.systemMaxPositionCoins == c.fundRisk.systemMaxPositionCoins
      && r.fundRisk.accountLossLimit == c.fundRisk.accountLossLimit
      && r.fundRisk.accountLossTimeUnit == c.fundRisk.accountLossTimeUnit
      && r.fundRisk.strategyTotalLossLimit == AmountOr(i.totalLossLimit, c.fundRisk.strategyTotalLossLimit)
      && r.fundRisk.strategyTotalProfitLimit == AmountOr(i.totalProfitLimit, c.fundRisk.strategyTotalProfitLimit)
      && r.fundRisk.strategyMaxLossPerTrade == AmountOr(i.maxLossPerTrade, c.fundRisk.strategyMaxLossPerTrade)
      && r.fundRisk.strategyMaxPosition == AmountOr(i.maxPosition, c.fundRisk.strategyMaxPosition)
      && r.timeRisk.tradingStartTime == TextOr(i.tradingStartTime, c.timeRisk.tradingStartTime)
      && r.timeRisk.tradingEndTime == TextOr(i.tradingEndTime, c.timeRisk.tradingEndTime)
      && r.timeRisk.tradingTimeLimit == FlagOr(i.tradingTimeLimit, c.timeRisk.tradingTimeLimit)
      && r.timeRisk.timePointLimit == FlagOr(i.timePointLimit, c.timeRisk.timePointLimit)
      && r.timeRisk.forbiddenTimePoints == PointsOr(i.forbiddenTimePoints, c.timeRisk.forbiddenTimePoints)
      && r.tradeProtection.consecutiveLossLimit == CountOr(i.consecutiveLossLimit, c.tradeProtection.consecutiveLossLimit)
      && r.tradeProtection.consecutiveLossWindow == CountOr(i.consecutiveLossWindow, c.tradeProtection.consecutiveLossWindow)
      && r.tradeProtection.consecutiveLossWindowUnit == UnitOr(i.consecutiveLossWindowUnit, c.tradeProtection.consecutiveLossWindowUnit)
      && r.tradeProtection.orderFrequencyLimit == CountOr(i.orderFrequencyLimit, c.tradeProtection.orderFrequencyLimit)
      && r.tradeProtection.orderFrequencyWindow == CountOr(i.orderFrequencyWindow, c.tradeProtection.orderFrequencyWindow)
      && r.tradeProtection.orderFrequencyWindowUnit == UnitOr(i.orderFrequencyWindowUnit, c.tradeProtection.orderFrequencyWindowUnit)
      && r.intelligentRisk.volatilityAdjustedStopLoss == FlagOr(i.volatilityAdjustedStopLoss, c.intelligentRisk.volatilityAdjustedStopLoss)
      && r.intelligentRisk.hedgingProtection == FlagOr(i.hedgingProtection, c.intelligentRisk.hedgingProtection)
  {
  }

  /** All or nothing: one `null` money key leaves the whole config as it was,
      and settings with no keys change nothing either. */
  lemma ConvertAllOrNothing(i: StrategyRiskInput, c: GlobalRiskControlConfig)
    ensures !AmountsConvert(i) ==> Converted(i, c) == c
    ensures Converted(NoSettings, c) == c
  {
    assert Convert(NoSettings, c) == Some(EmptyPatch);
  }

  /** Converting the same settings a second time changes nothing more. */
  lemma ConvertIdempotent(i: StrategyRiskInput, c: GlobalRiskControlConfig)
    ensures Converted(i, Converted(i, c)) == Converted(i, c)
  {
  }

  /** One strategy's handle on the shared engine. */
  class RiskControlAdapter {
    const strategyId: string
    const useGlobalRiskControl: bool
    const engine: GlobalRiskControl

    /** Registers the strategy with the engine when the adapter is enabled. */
    constructor (id: string, useGlobal: bool, e: GlobalRiskControl)
      requires e.Valid()
      modifies e`strategyStates, e`order
      ensures e.Valid()
      ensures strategyId == id && useGlobalRiskControl == useGlobal && engine == e
      ensures useGlobal && old(id !in e.strategyStates) ==> e.strategyStates == old(e.strategyStates)[id := FreshState(id)]
      ensures !(useGlobal && old(id !in e.strategyStates)) ==> e.strategyStates == old(e.strategyStates)
      ensures useGlobal && old(id !in e.strategyStates) ==> e.order == old(e.order) + [id]
      ensures !(useGlobal && old(id !in e.strategyStates)) ==> e.order == old(e.order)
    {
      strategyId := id;
      useGlobalRiskControl := useGlobal;
      engine := e;
      if useGlobal {
        e.Register(id);
      }
    }

    method CheckTradingAllowed(clock: Clock) returns (d: Decision)
      requires engine.Valid()
      modifies engine`strategyStates
      ensures engine.Valid()
      ensures !useGlobalRiskControl ==> d == Allow && engine.strategyStates == old(engine.strategyStates)
      ensures useGlobalRiskControl ==> d == TradingDecision(engine.config, old(engine.strategyStates),
        engine.totalPositionValue, engine.currentMaxLoss, engine.accountTimeWindows, strategyId, clock)
      ensures useGlobalRiskControl ==> (engine.strategyStates ==
        if LatchesPause(engine.config, old(engine.strategyStates), engine.totalPositionValue, engine.currentMaxLoss,
                        engine.accountTimeWindows, strategyId, clock)
        then old(engine.strategyStates)[strategyId := old(engine.strategyStates)[strategyId].(isPausedByRisk := true,
                                                                                           pauseReason := d.reason)]
        else old(engine.strategyStates))
    {
      if !useGlobalRiskControl {
        return Allow;
      }
      d := engine.CheckTradingAllowed(strategyId, clock);
    }

    method UpdateStrategyState(totalPnl: Option<real>, positionValue: Option<real>, tradeResult: Option<real>, now: real)
      requires engine.Valid()
      requires useGlobalRiskControl && tradeResult.Some? ==> WindowsConfigured(engine.config.tradeProtection)
      modifies engine`strategyStates, engine`order, engine`totalPositionValue, engine`currentMaxLoss, engine`accountTimeWindows
      ensures engine.Valid()
      ensures !useGlobalRiskControl ==>
        && engine.strategyStates == old(engine.strategyStates) && engine.order == old(engine.order)
        && engine.totalPositionValue == old(engine.totalPositionValue)
        && engine.currentMaxLoss == old(engine.currentMaxLoss) && engine.accountTimeWindows == old(engine.accountTimeWindows)
      ensures useGlobalRiskControl ==> engine.strategyStates == old(engine.strategyStates)[strategyId := UpdatedState(
        engine.config.tradeProtection, StateBefore(old(engine.strategyStates), strategyId), totalPnl, positionValue, tradeResult, now)]
      ensures useGlobalRiskControl ==>
        engine.order == if old(strategyId in engine.strategyStates) then old(engine.order) else old(engine.order) + [strategyId]
      ensures useGlobalRiskControl ==> (engine.totalPositionValue == old(engine.totalPositionValue)
        + (if positionValue.Some? then positionValue.value - StateBefore(old(engine.strategyStates), strategyId).positionValue else 0.0))
      ensures useGlobalRiskControl && tradeResult.Some? && tradeResult.value < 0.0 ==>
        engine.currentMaxLoss >= old(engine.currentMaxLoss) && engine.currentMaxLoss >= -tradeResult.value
        && (engine.currentMaxLoss == old(engine.currentMaxLoss) || engine.currentMaxLoss == -tradeResult.value)
      ensures useGlobalRiskControl && !(tradeResult.Some? && tradeResult.value < 0.0) ==>
        engine.currentMaxLoss == old(engine.currentMaxLoss)
      ensures useGlobalRiskControl ==> (engine.accountTimeWindows ==
        if tradeResult.Some? then AccountWindowsAfter(engine.config.fundRisk, old(engine.accountTimeWindows), tradeResult.value, now)
        else old(engine.accountTimeWindows))
    {
      if useGlobalRiskControl {
        engine.UpdateStrategyState(strategyId, totalPnl, positionValue, tradeResult, now);
      }
    }

    method ResetRiskState()
      requires engine.Valid()
      modifies engine`strategyStates
      ensures engine.Valid()
      ensures !useGlobalRiskControl || strategyId !in old(engine.strategyStates) ==>
        engine.strategyStates == old(engine.strategyStates)
      ensures useGlobalRiskControl && strategyId in old(engine.strategyStates) ==>
        engine.strategyStates == old(engine.strategyStates)[strategyId :=
          old(engine.strategyStates)[strategyId].(isPausedByRisk := false, pauseReason := None)]
    {
      if useGlobalRiskControl {
        engine.ResetStrategyRiskState(strategyId);
      }
    }

    /** The strategy's entry of the engine's report; `None` stands for the empty dict. */
    method GetRiskStatus() returns (r: Option<StrategyReport>)
      requires engine.Valid()
      ensures !useGlobalRiskControl || strategyId !in engine.strategyStates ==> r.None?
      ensures useGlobalRiskControl && strategyId in engine.strategyStates ==>
        r == Some(ReportOf(engine.strategyStates[strategyId]))
    {
      if !useGlobalRiskControl {
        return None;
      }
      var report := engine.GetRiskStatusReport();
      if strategyId in report.strategies {
        return Some(report.strategies[strategyId]);
      }
      return None;
    }

    method ConvertStrategyRiskToGlobal(i: StrategyRiskInput)
      requires engine.Valid()
      modifies engine`config
      ensures engine.Valid()
      ensures engine.config == if useGlobalRiskControl then Converted(i, old(engine.config)) else old(engine.config)
    {
      if !useGlobalRiskControl {
        return;
      }
      var p := Convert(i, engine.config);
      if p.Some? {
        engine.UpdateConfig(p.value);
      }
    }

    /** Unregisters the strategy when the adapter is enabled. */
    method Cleanup()
      requires engine.Valid()
      modifies engine`strategyStates, engine`order, engine`departedPosition
      ensures engine.Valid()
      ensures useGlobalRiskControl ==> engine.strategyStates == old(engine.strategyStates) - {strategyId}
      ensures !useGlobalRiskControl ==> engine.strategyStates == old(engine.strategyStates)
      ensures engine.order == if useGlobalRiskControl then Without(old(engine.order), strategyId) else old(engine.order)
      ensures engine.departedPosition == old(engine.departedPosition)
        + (if useGlobalRiskControl && old(strategyId in engine.strategyStates)
           then old(engine.strategyStates[strategyId].positionValue) else 0.0)
    {
      if useGlobalRiskControl {
        engine.Unregister(strategyId);
      }
    }
  }
}
