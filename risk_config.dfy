/** The policy configuration tree of the global risk-control engine and the
    conversion of a (value, unit) window setting to seconds. */
module RiskConfig {
  import opened Common

  datatype RiskLevel = Low | Medium | High | Critical

  /** The four recognised units, plus whatever else a caller may have stored
      in a config field without validation. */
  datatype TimeUnit = Minute | Hour | Day | Week | Unrecognized(name: string)

  /** Fund limits at system, account and strategy level. `None` (or zero) means no limit. */
  datatype FundRiskConfig = FundRiskConfig(
    systemMaxPositionValue: Option<real>,
    systemMaxLossCutoff: Option<real>,
    systemMaxPositionCoins: Option<int>,
    accountLossLimit: Option<real>,
    accountLossTimeUnit: TimeUnit,
    strategyTotalLossLimit: Option<real>,
    strategyTotalProfitLimit: Option<real>,
    strategyMaxLossPerTrade: Option<real>,
    strategyMaxPosition: Option<real>)

  /** Trading-hours window and forbidden time points. Start and end are the
      configured `HH:MM:SS` strings; forbidden points are already wall-clock times. */
  datatype TimeRiskConfig = TimeRiskConfig(
    tradingTimeLimit: bool,
    tradingStartTime: Option<string>,
    tradingEndTime: Option<string>,
    timePointLimit: bool,
    forbiddenTimePoints: seq<Clock>)

  datatype TradeProtectionConfig = TradeProtectionConfig(
    consecutiveLossLimit: Option<int>,
    consecutiveLossWindow: Option<int>,
    consecutiveLossWindowUnit: TimeUnit,
    orderFrequencyLimit: Option<int>,
    orderFrequencyWindow: Option<int>,
    orderFrequencyWindowUnit: TimeUnit)

  /** Carried through unchanged; the engine never evaluates it. */
  datatype MarketRiskConfig = MarketRiskConfig(
    priceVolatilityMonitoring: bool,
    volatilityThreshold: real,
    volatilityTimeWindow: int,
    volatilityTimeUnit: TimeUnit,
    volatilityCalculationMethod: string,
    liquidityMonitoring: bool,
    maxAllowedSlippage: real)

  /** Carried through unchanged; the engine never evaluates it. */
  datatype IntelligentRiskConfig = IntelligentRiskConfig(
    volatilityAdjustedStopLoss: bool,
    hedgingProtection: bool)

  datatype GlobalRiskControlConfig = GlobalRiskControlConfig(
    fundRisk: FundRiskConfig,
    timeRisk: TimeRiskConfig,
    tradeProtection: TradeProtectionConfig,
    marketRisk: MarketRiskConfig,
    intelligentRisk: IntelligentRiskConfig,
    riskLevel: RiskLevel,
    enabled: bool)

  const DefaultFundRisk := FundRiskConfig(None, None, None, None, Day, None, None, None, None)
  const DefaultTimeRisk := TimeRiskConfig(false, None, None, false, [])
  const DefaultTradeProtection := TradeProtectionConfig(None, None, Hour, None, None, Minute)
  const DefaultMarketRisk := MarketRiskConfig(false, 3.0, 5, Minute, "highLow", false, 0.5)
  const DefaultIntelligentRisk := IntelligentRiskConfig(false, false)

  /** Every field at its declared default: all limits off, medium risk, engine enabled. */
  const DefaultConfig := GlobalRiskControlConfig(
    DefaultFundRisk, DefaultTimeRisk, DefaultTradeProtection,
    DefaultMarketRisk, DefaultIntelligentRisk, Medium, true)

  /** A top-level config update: each present key replaces that field; keys the
      config does not have cannot be expressed, which is how they are dropped. */
  datatype ConfigPatch = ConfigPatch(
    fundRisk: Option<FundRiskConfig>,
    timeRisk: Option<TimeRiskConfig>,
    tradeProtection: Option<TradeProtectionConfig>,
    marketRisk: Option<MarketRiskConfig>,
    intelligentRisk: Option<IntelligentRiskConfig>,
    riskLevel: Option<RiskLevel>,
    enabled: Option<bool>)

  const EmptyPatch := ConfigPatch(None, None, None, None, None, None, None)

  function Pick<T>(o: Option<T>, current: T): T
  {
    if o.Some? then o.value else current
  }

  /** The config after `setattr` of every key of the patch. */
  function ApplyPatch(c: GlobalRiskControlConfig, p: ConfigPatch): (r: GlobalRiskControlConfig)
    ensures p.fundRisk.None? ==> r.fundRisk == c.fundRisk
    ensures p.fundRisk.Some? ==> r.fundRisk == p.fundRisk.value
    ensures p.timeRisk.None? ==> r.timeRisk == c.timeRisk
    ensures p.timeRisk.Some? ==> r.timeRisk == p.timeRisk.value
    ensures p.tradeProtection.None? ==> r.tradeProtection == c.tradeProtection
    ensures p.tradeProtection.Some? ==> r.tradeProtection == p.tradeProtection.value
    ensures p.marketRisk.None? ==> r.marketRisk == c.marketRisk
    ensures p.marketRisk.Some? ==> r.marketRisk == p.marketRisk.value
    ensures p.intelligentRisk.None? ==> r.intelligentRisk == c.intelligentRisk
    ensures p.intelligentRisk.Some? ==> r.intelligentRisk == p.intelligentRisk.value
    ensures p.riskLevel.None? ==> r.riskLevel == c.riskLevel
    ensures p.riskLevel.Some? ==> r.riskLevel == p.riskLevel.value
    ensures p.enabled.None? ==> r.enabled == c.enabled
    ensures p.enabled.Some? ==> r.enabled == p.enabled.value
    ensures p == EmptyPatch ==> r == c
  {
    GlobalRiskControlConfig(
      Pick(p.fundRisk, c.fundRisk),
      Pick(p.timeRisk, c.timeRisk),
      Pick(p.tradeProtection, c.tradeProtection),
      Pick(p.marketRisk, c.marketRisk),
      Pick(p.intelligentRisk, c.intelligentRisk),
      Pick(p.riskLevel, c.riskLevel),
      Pick(p.enabled, c.enabled))
  }

  /** Seconds in one of a recognised unit. */
  function UnitSeconds(u: TimeUnit): int
    requires !u.Unrecognized?
  {
    match u
    case Minute => 60
    case Hour => 3600
    case Day => 86400
    case Week => 604800
  }

  /** Length in seconds of a window of `value` units. An unrecognised unit
      yields one hour whatever the value; a recognised one needs a value. */
  function WindowSeconds(value: Option<int>, unit: TimeUnit): int
    requires !unit.Unrecognized? ==> value.Some?
  {
    if unit == Minute then value.value * 60
    else if unit == Hour then value.value * 3600
    else if unit == Day then value.value * 86400
    else if unit == Week then value.value * 604800
    else 3600
  }

  /** A window length is a whole number of unit lengths for a recognised unit,
      and is the fixed hour for any other unit, independent of the value. */
  lemma WindowSecondsByUnit(value: Option<int>, unit: TimeUnit)
    requires !unit.Unrecognized? ==> value.Some?
    ensures !unit.Unrecognized? ==> WindowSeconds(value, unit) == value.value * UnitSeconds(unit)
    ensures unit.Unrecognized? ==> WindowSeconds(value, unit) == UnitSeconds(Hour)
    ensures unit.Unrecognized? ==> forall v :: WindowSeconds(v, unit) == WindowSeconds(value, unit)
  {
  }

  /** A window is non-negative (so the window steps keep it current) exactly
      when its configured value is, positive exactly when its value is, and a
      larger value never gives a shorter window; the fallback hour is always positive. */
  lemma WindowSecondsOrder(value: Option<int>, unit: TimeUnit, larger: int)
    requires !unit.Unrecognized? ==> value.Some?
    requires value.Some? ==> value.value <= larger
    ensures WindowSeconds(value, unit) >= 0 <==> (unit.Unrecognized? || value.value >= 0)
    ensures WindowSeconds(value, unit) > 0 <==> (unit.Unrecognized? || value.value > 0)
    ensures !unit.Unrecognized? ==> WindowSeconds(value, unit) <= WindowSeconds(Some(larger), unit)
  {
  }

  /** The engine can compute every window length it needs: a configured limit
      with a recognised unit has its window value set. */
  predicate WindowsConfigured(tp: TradeProtectionConfig)
  {
    && (IntSet(tp.orderFrequencyLimit) && !tp.orderFrequencyWindowUnit.Unrecognized?
        ==> tp.orderFrequencyWindow.Some?)
    && (IntSet(tp.consecutiveLossLimit) && !tp.consecutiveLossWindowUnit.Unrecognized?
        ==> tp.consecutiveLossWindow.Some?)
  }
}
