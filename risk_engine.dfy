/** The global risk-control engine: a registry of per-strategy risk states, the
    system-wide aggregates, the tumbling windows and the tiered trading check.
    The wall clock enters as parameters: `now` (epoch seconds) when a trade is
    recorded, `clock` (seconds of the day) when trading is checked. */
module RiskEngine {
  import opened Common
  import opened RiskConfig
  import opened TimeWindow

  /** Why trading was refused; each case carries the figures the message shows. */
  datatype Reason =
    | SystemPositionOverLimit(totalPosition: real, limit: real)
    | SystemLossOverLimit(maxLoss: real, limit: real)
    | AccountLossOverLimit(unit: TimeUnit, windowLoss: real, limit: real)
    | OutsideTradingHours(nowText: string, startText: string, endText: string)
    | NearForbiddenTimePoint(nowText: string, point: Clock)
    | StrategyLossOverLimit(loss: real, limit: real)
    | StrategyProfitOverLimit(pnl: real, limit: real)
    | StrategyPositionOverLimit(position: real, limit: real)
    | ConsecutiveLossesOverLimit(count: int, countLimit: int)
    | OrderFrequencyOverLimit(window: Option<int>, windowUnit: TimeUnit, count: int, countLimit: int)
    | EmergencyStop

  datatype Decision = Decision(allowed: bool, reason: Option<Reason>)

  const Allow := Decision(true, None)

  function Deny(r: Reason): Decision { Decision(false, Some(r)) }

  /** Risk record of one strategy. The two strategy windows of the source's
      `trade_count_windows` dict ("order_frequency", "consecutive_loss") are
      the two optional fields. */
  datatype StrategyRiskState = StrategyRiskState(
    strategyId: string,
    totalPnl: real,
    positionValue: real,
    lastTradeTime: Option<real>,
    frequencyWindow: Option<TimeWindowState>,
    streakWindow: Option<TimeWindowState>,
    consecutiveLosses: int,
    isPausedByRisk: bool,
    pauseReason: Option<Reason>)

  function FreshState(id: string): StrategyRiskState
  {
    StrategyRiskState(id, 0.0, 0.0, None, None, None, 0, false, None)
  }

  /** The record an update starts from: the registered one, or a fresh one. */
  function StateBefore(states: map<string, StrategyRiskState>, id: string): StrategyRiskState
  {
    if id in states then states[id] else FreshState(id)
  }

  // ---- window lengths and text ----

  function FrequencyWindowSeconds(tp: TradeProtectionConfig): int
    requires WindowsConfigured(tp) && IntSet(tp.orderFrequencyLimit)
  {
    WindowSeconds(tp.orderFrequencyWindow, tp.orderFrequencyWindowUnit)
  }

  function StreakWindowSeconds(tp: TradeProtectionConfig): int
    requires WindowsConfigured(tp) && IntSet(tp.consecutiveLossLimit)
  {
    WindowSeconds(tp.consecutiveLossWindow, tp.consecutiveLossWindowUnit)
  }

  /** The account window always spans exactly one unit. */
  function AccountWindowSeconds(u: TimeUnit): (r: int)
    ensures !u.Unrecognized? ==> r == UnitSeconds(u)
    ensures u.Unrecognized? ==> r == UnitSeconds(Hour)
  {
    WindowSeconds(Some(1), u)
  }

  /** Label of an account-loss period in a refusal message. */
  function TimeUnitText(u: TimeUnit): string
  {
    match u
    case Minute => "每分钟"
    case Hour => "每小时"
    case Day => "每日"
    case Week => "每周"
    case Unrecognized(_) => "未知时间单位"
  }

  /** Unit word of an order-frequency window in a refusal message. */
  function WindowUnitText(u: TimeUnit): string
  {
    match u
    case Minute => "分钟"
    case Hour => "小时"
    case Day => "天"
    case Week => "周"
    case Unrecognized(_) => "小时"
  }

  /** Distinct recognised units have distinct labels, and every unrecognised
      unit shares one label; in the window text an unrecognised unit reads as
      hours, matching its one-hour length. */
  lemma UnitTexts(u: TimeUnit, v: TimeUnit)
    ensures u != v && TimeUnitText(u) == TimeUnitText(v) <==> u != v && u.Unrecognized? && v.Unrecognized?
    ensures u != v && WindowUnitText(u) == WindowUnitText(v) <==>
      u != v && (u.Unrecognized? || u == Hour) && (v.Unrecognized? || v == Hour)
    ensures u.Unrecognized? ==>
      WindowUnitText(u) == WindowUnitText(Hour) && WindowSeconds(Some(1), u) == WindowSeconds(Some(1), Hour)
  {
  }

  // ---- recording a trade ----

  /** The strategy windows after a trade: each is tracked only while its limit is set. */
  function StrategyWindowsAfter(tp: TradeProtectionConfig, s: StrategyRiskState, r: real, now: real): StrategyRiskState
    requires WindowsConfigured(tp)
  {
    var freq := if IntSet(tp.orderFrequencyLimit)
      then Some(FrequencyStep(s.frequencyWindow, now, FrequencyWindowSeconds(tp)))
      else s.frequencyWindow;
    var streak := if IntSet(tp.consecutiveLossLimit)
      then Some(LossStreakStep(s.streakWindow, now, r, StreakWindowSeconds(tp)))
      else s.streakWindow;
    s.(frequencyWindow := freq, streakWindow := streak)
  }

  /** A strategy record after one trade result: the trade time, the loss streak and the windows. */
  function AfterTrade(tp: TradeProtectionConfig, s: StrategyRiskState, r: real, now: real): StrategyRiskState
    requires WindowsConfigured(tp)
  {
    var streak := if r < 0.0 then s.consecutiveLosses + 1 else 0;
    StrategyWindowsAfter(tp, s.(lastTradeTime := Some(now), consecutiveLosses := streak), r, now)
  }

  /** A strategy record after `update_strategy_state`. */
  function UpdatedState(tp: TradeProtectionConfig, s: StrategyRiskState, totalPnl: Option<real>,
                        positionValue: Option<real>, tradeResult: Option<real>, now: real): StrategyRiskState
    requires tradeResult.Some? ==> WindowsConfigured(tp)
  {
    var s1 := s.(totalPnl := Pick(totalPnl, s.totalPnl), positionValue := Pick(positionValue, s.positionValue));
    if tradeResult.Some? then AfterTrade(tp, s1, tradeResult.value, now) else s1
  }

  /** The account windows after a trade: tracked only while the account loss limit is set. */
  function AccountWindowsAfter(f: FundRiskConfig, windows: map<TimeUnit, TimeWindowState>, r: real, now: real)
    : map<TimeUnit, TimeWindowState>
  {
    if RealSet(f.accountLossLimit) then
      var u := f.accountLossTimeUnit;
      var w := if u in windows then Some(windows[u]) else None;
      windows[u := AccountStep(w, now, r, AccountWindowSeconds(u))]
    else windows
  }

  /** A trade never touches the position, the P&L, the pause latch or the id,
      the loss streak counts the losses in a row, and each window moves only
      while its limit is set. */
  lemma AfterTradeEffect(tp: TradeProtectionConfig, s: StrategyRiskState, r: real, now: real)
    requires WindowsConfigured(tp)
    ensures var t := AfterTrade(tp, s, r, now);
      && t.strategyId == s.strategyId && t.totalPnl == s.totalPnl && t.positionValue == s.positionValue
      && t.isPausedByRisk == s.isPausedByRisk && t.pauseReason == s.pauseReason
      && t.lastTradeTime == Some(now)
      && (r < 0.0 ==> t.consecutiveLosses == s.consecutiveLosses + 1)
      && (r >= 0.0 ==> t.consecutiveLosses == 0)
      && (!IntSet(tp.orderFrequencyLimit) ==> t.frequencyWindow == s.frequencyWindow)
      && (!IntSet(tp.consecutiveLossLimit) ==> t.streakWindow == s.streakWindow)
  {
  }

  /** A strategy record after a whole history of trade results, none carrying a P&L or position. */
  function AfterTrades(tp: TradeProtectionConfig, s: StrategyRiskState, es: seq<Trade>): StrategyRiskState
    requires WindowsConfigured(tp)
  {
    if es == [] then s else AfterTrade(tp, AfterTrades(tp, s, Init(es)), Last(es).result, Last(es).time)
  }

  /** Length of the run of losses that ends the history. */
  function TrailingLosses(es: seq<Trade>): nat
  {
    if es == [] then 0 else if Last(es).result < 0.0 then TrailingLosses(Init(es)) + 1 else 0
  }

  /** Starting from a fresh record, the engine's windows are exactly the
      tumbling windows of the strategy's trade history, and its loss counter is
      the run of losses that ends that history. */
  lemma {:induction false} AfterTradesFollowHistory(tp: TradeProtectionConfig, id: string, es: seq<Trade>)
    requires WindowsConfigured(tp)
    ensures var t := AfterTrades(tp, FreshState(id), es);
      && t.consecutiveLosses == TrailingLosses(es)
      && (IntSet(tp.orderFrequencyLimit) ==> t.frequencyWindow == FrequencyAfter(es, FrequencyWindowSeconds(tp)))
      && (IntSet(tp.consecutiveLossLimit) ==> t.streakWindow == LossStreakAfter(es, StreakWindowSeconds(tp)))
      && (!IntSet(tp.orderFrequencyLimit) ==> t.frequencyWindow.None?)
      && (!IntSet(tp.consecutiveLossLimit) ==> t.streakWindow.None?)
  {
    if es != [] {
      AfterTradesFollowHistory(tp, id, Init(es));
    }
  }

  /** So, with chronological trades, the frequency window counts the trades
      since it opened and the loss-streak window counts the trailing losses
      since it opened. */
  lemma StrategyWindowsCountSinceStart(tp: TradeProtectionConfig, id: string, es: seq<Trade>)
    requires WindowsConfigured(tp) && es != [] && Chronological(es)
    ensures var t := AfterTrades(tp, FreshState(id), es);
      && (IntSet(tp.orderFrequencyLimit) && FrequencyWindowSeconds(tp) >= 0 ==>
            t.frequencyWindow.Some? && t.frequencyWindow.value.tradeCount == CountSince(es, t.frequencyWindow.value.startTime))
      && (IntSet(tp.consecutiveLossLimit) && StreakWindowSeconds(tp) >= 0 ==>
            t.streakWindow.Some?
            && t.streakWindow.value.consecutiveLosses == TrailingLossesSince(es, t.streakWindow.value.startTime))
  {
    AfterTradesFollowHistory(tp, id, es);
    if IntSet(tp.orderFrequencyLimit) && FrequencyWindowSeconds(tp) >= 0 {
      FrequencyCountsTradesSinceStart(es, FrequencyWindowSeconds(tp));
    }
    if IntSet(tp.consecutiveLossLimit) && StreakWindowSeconds(tp) >= 0 {
      StreakCountsTrailingLossesSinceStart(es, StreakWindowSeconds(tp));
    }
  }

  /** The account windows after a whole history of trade results. */
  function AccountWindowsAfterTrades(f: FundRiskConfig, windows: map<TimeUnit, TimeWindowState>, es: seq<Trade>)
    : map<TimeUnit, TimeWindowState>
  {
    if es == [] then windows
    else AccountWindowsAfter(f, AccountWindowsAfterTrades(f, windows, Init(es)), Last(es).result, Last(es).time)
  }

  /** With the account limit set, the window of the configured unit is the
      tumbling account window of the history (one unit long), and no other
      unit's window is touched. */
  lemma {:induction false} AccountWindowsFollowHistory(f: FundRiskConfig, es: seq<Trade>)
    requires RealSet(f.accountLossLimit) && es != []
    ensures var ws := AccountWindowsAfterTrades(f, map[], es);
      && ws.Keys == {f.accountLossTimeUnit}
      && Some(ws[f.accountLossTimeUnit]) == AccountAfter(es, AccountWindowSeconds(f.accountLossTimeUnit))
  {
    if Init(es) != [] {
      AccountWindowsFollowHistory(f, Init(es));
    }
  }

  // ---- the three tiers ----

  predicate PositionBreach(f: FundRiskConfig, totalPosition: real)
  {
    RealSet(f.systemMaxPositionValue) && totalPosition >= f.systemMaxPositionValue.value
  }

  predicate LossCutoffBreach(f: FundRiskConfig, maxLoss: real)
  {
    RealSet(f.systemMaxLossCutoff) && maxLoss >= f.systemMaxLossCutoff.value
  }

  predicate AccountLossBreach(f: FundRiskConfig, windows: map<TimeUnit, TimeWindowState>)
  {
    && RealSet(f.accountLossLimit)
    && f.accountLossTimeUnit in windows
    && windows[f.accountLossTimeUnit].totalLoss >= f.accountLossLimit.value
  }

  /** System tier: refuses at the first of position, loss cutoff and account
      window whose limit is set and reached. */
  function CheckSystemRiskLimits(f: FundRiskConfig, totalPosition: real, maxLoss: real,
                                 windows: map<TimeUnit, TimeWindowState>): (d: Decision)
    ensures d.allowed <==> !PositionBreach(f, totalPosition) && !LossCutoffBreach(f, maxLoss) && !AccountLossBreach(f, windows)
    ensures d.allowed ==> d == Allow
    ensures PositionBreach(f, totalPosition) ==>
      d == Deny(SystemPositionOverLimit(totalPosition, f.systemMaxPositionValue.value))
    ensures !PositionBreach(f, totalPosition) && LossCutoffBreach(f, maxLoss) ==>
      d == Deny(SystemLossOverLimit(maxLoss, f.systemMaxLossCutoff.value))
    ensures !PositionBreach(f, totalPosition) && !LossCutoffBreach(f, maxLoss) && AccountLossBreach(f, windows) ==>
      d == Deny(AccountLossOverLimit(f.accountLossTimeUnit, windows[f.accountLossTimeUnit].totalLoss, f.accountLossLimit.value))
  {
    if PositionBreach(f, totalPosition) then
      Deny(SystemPositionOverLimit(totalPosition, f.systemMaxPositionValue.value))
    else if LossCutoffBreach(f, maxLoss) then
      Deny(SystemLossOverLimit(maxLoss, f.systemMaxLossCutoff.value))
    else if AccountLossBreach(f, windows) then
      Deny(AccountLossOverLimit(f.accountLossTimeUnit, windows[f.accountLossTimeUnit].totalLoss, f.accountLossLimit.value))
    else Allow
  }

  /** Outside the configured trading hours, by string order of `HH:MM:SS`
      texts; both bounds must be set for the hours to apply. */
  predicate OutsideHours(tr: TimeRiskConfig, clock: Clock)
  {
    && TextSet(tr.tradingStartTime) && TextSet(tr.tradingEndTime)
    && !(LexLe(tr.tradingStartTime.value, ClockText(clock)) && LexLe(ClockText(clock), tr.tradingEndTime.value))
  }

  /** Within five minutes either side of a time point, by time of day (no wrap at midnight). */
  predicate NearPoint(clock: Clock, point: Clock)
  {
    AbsInt(clock - point) <= 300
  }

  ghost predicate AnyNear(points: seq<Clock>, clock: Clock)
  {
    exists j :: 0 <= j < |points| && NearPoint(clock, points[j])
  }

  /** Index of the first forbidden time point near `clock`, if any. */
  function FirstNearPoint(points: seq<Clock>, clock: Clock): (k: Option<nat>)
    ensures k.Some? ==> k.value < |points| && NearPoint(clock, points[k.value])
    ensures k.Some? ==> forall j :: 0 <= j < k.value ==> !NearPoint(clock, points[j])
    ensures k.None? <==> !AnyNear(points, clock)
  {
    if points == [] then None
    else if NearPoint(clock, points[0]) then Some(0)
    else match FirstNearPoint(points[1..], clock)
      case None => None
      case Some(k) => Some(k + 1)
  }

  /** Time tier: with the trading-time limit off nothing is checked, not even
      the forbidden points; otherwise the hours come first, then the points. */
  function CheckTimeRiskLimits(tr: TimeRiskConfig, clock: Clock): (d: Decision)
    ensures !tr.tradingTimeLimit ==> d == Allow
    ensures d.allowed <==> !tr.tradingTimeLimit || (!OutsideHours(tr, clock) && !(tr.timePointLimit && AnyNear(tr.forbiddenTimePoints, clock)))
    ensures d.allowed ==> d == Allow
    ensures tr.tradingTimeLimit && OutsideHours(tr, clock) ==>
      d == Deny(OutsideTradingHours(ClockText(clock), tr.tradingStartTime.value, tr.tradingEndTime.value))
    ensures tr.tradingTimeLimit && !OutsideHours(tr, clock) && !d.allowed ==>
      exists k :: 0 <= k < |tr.forbiddenTimePoints| && d == Deny(NearForbiddenTimePoint(ClockText(clock), tr.forbiddenTimePoints[k]))
           && NearPoint(clock, tr.forbiddenTimePoints[k])
           && forall j :: 0 <= j < k ==> !NearPoint(clock, tr.forbiddenTimePoints[j])
  {
    if !tr.tradingTimeLimit then Allow
    else if OutsideHours(tr, clock) then
      Deny(OutsideTradingHours(ClockText(clock), tr.tradingStartTime.value, tr.tradingEndTime.value))
    else if tr.timePointLimit && FirstNearPoint(tr.forbiddenTimePoints, clock).Some? then
      var k := FirstNearPoint(tr.forbiddenTimePoints, clock).value;
      Deny(NearForbiddenTimePoint(ClockText(clock), tr.forbiddenTimePoints[k]))
    else Allow
  }

  predicate TotalLossBreach(f: FundRiskConfig, s: StrategyRiskState)
  {
    RealSet(f.strategyTotalLossLimit) && s.totalPnl < -f.strategyTotalLossLimit.value
  }

  predicate TotalProfitBreach(f: FundRiskConfig, s: StrategyRiskState)
  {
    RealSet(f.strategyTotalProfitLimit) && s.totalPnl > f.strategyTotalProfitLimit.value
  }

  predicate PositionLimitBreach(f: FundRiskConfig, s: StrategyRiskState)
  {
    RealSet(f.strategyMaxPosition) && s.positionValue > f.strategyMaxPosition.value
  }

  predicate StreakBreach(tp: TradeProtectionConfig, s: StrategyRiskState)
  {
    && IntSet(tp.consecutiveLossLimit) && s.streakWindow.Some?
    && s.streakWindow.value.consecutiveLosses >= tp.consecutiveLossLimit.value
  }

  predicate FrequencyBreach(tp: TradeProtectionConfig, s: StrategyRiskState)
  {
    && IntSet(tp.orderFrequencyLimit) && s.frequencyWindow.Some?
    && s.frequencyWindow.value.tradeCount >= tp.orderFrequencyLimit.value
  }

  predicate StrategyBreach(c: GlobalRiskControlConfig, s: StrategyRiskState)
  {
    || TotalLossBreach(c.fundRisk, s) || TotalProfitBreach(c.fundRisk, s) || PositionLimitBreach(c.fundRisk, s)
    || StreakBreach(c.tradeProtection, s) || FrequencyBreach(c.tradeProtection, s)
  }

  /** Strategy tier: an unregistered id passes; otherwise the first breached
      rule, in the order loss, profit, position, loss streak, frequency, refuses. */
  function CheckStrategyRiskLimits(c: GlobalRiskControlConfig, states: map<string, StrategyRiskState>, id: string)
    : (d: Decision)
    ensures id !in states ==> d == Allow
    ensures d.allowed <==> id !in states || !StrategyBreach(c, states[id])
    ensures d.allowed ==> d == Allow
    ensures id in states && TotalLossBreach(c.fundRisk, states[id]) ==>
      d == Deny(StrategyLossOverLimit(-states[id].totalPnl, c.fundRisk.strategyTotalLossLimit.value))
    ensures id in states && !TotalLossBreach(c.fundRisk, states[id]) && TotalProfitBreach(c.fundRisk, states[id]) ==>
      d == Deny(StrategyProfitOverLimit(states[id].totalPnl, c.fundRisk.strategyTotalProfitLimit.value))
    ensures id in states && !TotalLossBreach(c.fundRisk, states[id]) && !TotalProfitBreach(c.fundRisk, states[id])
            && PositionLimitBreach(c.fundRisk, states[id]) ==>
      d == Deny(StrategyPositionOverLimit(states[id].positionValue, c.fundRisk.strategyMaxPosition.value))
    ensures id in states && !TotalLossBreach(c.fundRisk, states[id]) && !TotalProfitBreach(c.fundRisk, states[id])
            && !PositionLimitBreach(c.fundRisk, states[id]) && StreakBreach(c.tradeProtection, states[id]) ==>
      d == Deny(ConsecutiveLossesOverLimit(states[id].streakWindow.value.consecutiveLosses, c.tradeProtection.consecutiveLossLimit.value))
    ensures id in states && !d.allowed && !StreakBreach(c.tradeProtection, states[id]) ==>
      d.reason.Some? && !d.reason.value.ConsecutiveLossesOverLimit?
  {
    if id !in states then Allow
    else
      var s := states[id];
      var f := c.fundRisk;
      var tp := c.tradeProtection;
      if TotalLossBreach(f, s) then Deny(StrategyLossOverLimit(-s.totalPnl, f.strategyTotalLossLimit.value))
      else if TotalProfitBreach(f, s) then Deny(StrategyProfitOverLimit(s.totalPnl, f.strategyTotalProfitLimit.value))
      else if PositionLimitBreach(f, s) then Deny(StrategyPositionOverLimit(s.positionValue, f.strategyMaxPosition.value))
      else if StreakBreach(tp, s) then
        Deny(ConsecutiveLossesOverLimit(s.streakWindow.value.consecutiveLosses, tp.consecutiveLossLimit.value))
      else if FrequencyBreach(tp, s) then
        Deny(OrderFrequencyOverLimit(tp.orderFrequencyWindow, tp.orderFrequencyWindowUnit,
                                     s.frequencyWindow.value.tradeCount, tp.orderFrequencyLimit.value))
      else Allow
  }

  /** The whole decision, in the source's order: disabled, sticky pause,
      system tier, time tier, strategy tier. */
  function TradingDecision(c: GlobalRiskControlConfig, states: map<string, StrategyRiskState>, totalPosition: real,
                           maxLoss: real, windows: map<TimeUnit, TimeWindowState>, id: string, clock: Clock): (d: Decision)
    ensures !c.enabled ==> d == Allow
    ensures c.enabled && id in states && states[id].isPausedByRisk ==> d == Decision(false, states[id].pauseReason)
    ensures d.allowed <==>
      !c.enabled
      || (&& !(id in states && states[id].isPausedByRisk)
          && CheckSystemRiskLimits(c.fundRisk, totalPosition, maxLoss, windows).allowed
          && CheckTimeRiskLimits(c.timeRisk, clock).allowed
          && (id !in states || !StrategyBreach(c, states[id])))
    ensures d.allowed ==> d.reason.None?
  {
    if !c.enabled then Allow
    else if id in states && states[id].isPausedByRisk then Decision(false, states[id].pauseReason)
    else
      var sys := CheckSystemRiskLimits(c.fundRisk, totalPosition, maxLoss, windows);
      if !sys.allowed then sys
      else
        var time := CheckTimeRiskLimits(c.timeRisk, clock);
        if !time.allowed then time
        else CheckStrategyRiskLimits(c, states, id)
  }

  /** The check latches a pause exactly when it is the strategy tier that refuses a registered, unpaused strategy. */
  predicate LatchesPause(c: GlobalRiskControlConfig, states: map<string, StrategyRiskState>, totalPosition: real,
                         maxLoss: real, windows: map<TimeUnit, TimeWindowState>, id: string, clock: Clock)
  {
    && c.enabled && id in states && !states[id].isPausedByRisk
    && CheckSystemRiskLimits(c.fundRisk, totalPosition, maxLoss, windows).allowed
    && CheckTimeRiskLimits(c.timeRisk, clock).allowed
    && StrategyBreach(c, states[id])
  }

  /** A latched pause holds at any later check while the engine is enabled,
      whatever the limits and the clock then say; it only refuses with the stored reason. */
  lemma LatchedPauseRefuses(c: GlobalRiskControlConfig, states: map<string, StrategyRiskState>, totalPosition: real,
                            maxLoss: real, windows: map<TimeUnit, TimeWindowState>, id: string, clock: Clock)
    requires c.enabled && LatchesPause(c, states, totalPosition, maxLoss, windows, id, clock)
    ensures var d := TradingDecision(c, states, totalPosition, maxLoss, windows, id, clock);
      var latched := states[id := states[id].(isPausedByRisk := true, pauseReason := d.reason)];
      && !d.allowed && d.reason.Some?
      && forall tp, ml, ws, cl :: TradingDecision(c, latched, tp, ml, ws, id, cl) == d
  {
  }

  // ---- the registry's position aggregate ----

  /** Sum of the position values of the listed strategies. */
  function SumPositions(ids: seq<string>, states: map<string, StrategyRiskState>): real
    requires forall id :: id in ids ==> id in states
  {
    if ids == [] then 0.0 else states[ids[0]].positionValue + SumPositions(ids[1..], states)
  }

  lemma {:induction false} SumPositionsSame(ids: seq<string>, a: map<string, StrategyRiskState>, b: map<string, StrategyRiskState>)
    requires forall id :: id in ids ==> id in a && id in b && a[id].positionValue == b[id].positionValue
    ensures SumPositions(ids, a) == SumPositions(ids, b)
  {
    if ids != [] {
      SumPositionsSame(ids[1..], a, b);
    }
  }

  /** Replacing one registered record moves the sum by exactly its position change. */
  lemma {:induction false} SumPositionsSet(ids: seq<string>, states: map<string, StrategyRiskState>, id: string, s: StrategyRiskState)
    requires Distinct(ids) && id in ids
    requires forall x :: x in ids ==> x in states
    ensures SumPositions(ids, states[id := s]) == SumPositions(ids, states) - states[id].positionValue + s.positionValue
  {
    if ids[0] == id {
      assert id !in ids[1..];
      SumPositionsSame(ids[1..], states, states[id := s]);
    } else {
      SumPositionsSet(ids[1..], states, id, s);
    }
  }

  lemma {:induction false} SumPositionsAppend(ids: seq<string>, states: map<string, StrategyRiskState>, id: string)
    requires id in states && forall x :: x in ids ==> x in states
    ensures SumPositions(ids + [id], states) == SumPositions(ids, states) + states[id].positionValue
  {
    if ids != [] {
      assert (ids + [id])[1..] == ids[1..] + [id];
      SumPositionsAppend(ids[1..], states, id);
    }
  }

  /** `ids` without `id`, order kept. */
  function Without(ids: seq<string>, id: string): (r: seq<string>)
    ensures forall x :: x in r <==> x in ids && x != id
    ensures |r| <= |ids|
  {
    if ids == [] then [] else (if ids[0] == id then [] else [ids[0]]) + Without(ids[1..], id)
  }

  lemma {:induction false} WithoutDistinct(ids: seq<string>, id: string)
    requires Distinct(ids)
    ensures Distinct(Without(ids, id))
  {
    if ids != [] {
      WithoutDistinct(ids[1..], id);
      assert ids[0] !in ids[1..];
    }
  }

  /** Removing one registered record takes exactly its position out of the sum. */
  lemma {:induction false} SumPositionsRemove(ids: seq<string>, states: map<string, StrategyRiskState>, id: string)
    requires Distinct(ids) && id in ids
    requires forall x :: x in ids ==> x in states
    ensures SumPositions(Without(ids, id), states - {id}) == SumPositions(ids, states) - states[id].positionValue
  {
    if ids[0] == id {
      assert id !in ids[1..];
      assert Without(ids[1..], id) == ids[1..] by { WithoutAbsent(ids[1..], id); }
      assert Without(ids, id) == ids[1..];
      SumPositionsSame(ids[1..], states, states - {id});
    } else {
      SumPositionsRemove(ids[1..], states, id);
      assert Without(ids, id) == [ids[0]] + Without(ids[1..], id);
    }
  }

  lemma {:induction false} WithoutAbsent(ids: seq<string>, id: string)
    requires id !in ids
    ensures Without(ids, id) == ids
  {
    if ids != [] {
      WithoutAbsent(ids[1..], id);
    }
  }

  // ---- the status report ----

  datatype SystemReport = SystemReport(
    totalPositionValue: real, activePositionCoins: int, currentMaxLoss: real, riskLevel: RiskLevel, enabled: bool)

  datatype StrategyReport = StrategyReport(
    totalPnl: real, positionValue: real, consecutiveLosses: int, isPaused: bool,
    pauseReason: Option<Reason>, lastTradeTime: Option<real>)

  datatype PausedEntry = PausedEntry(id: string, reason: Option<Reason>)

  datatype RiskReport = RiskReport(
    system: SystemReport, strategies: map<string, StrategyReport>, pausedStrategies: seq<PausedEntry>)

  function ReportOf(s: StrategyRiskState): StrategyReport
  {
    StrategyReport(s.totalPnl, s.positionValue, s.consecutiveLosses, s.isPausedByRisk, s.pauseReason, s.lastTradeTime)
  }

  /** The paused entries of the listed strategies, in list order. */
  function PausedIn(ids: seq<string>, states: map<string, StrategyRiskState>): seq<PausedEntry>
    requires forall id :: id in ids ==> id in states
  {
    if ids == [] then []
    else
      var id := ids[|ids| - 1];
      PausedIn(ids[..|ids| - 1], states) + (if states[id].isPausedByRisk then [PausedEntry(id, states[id].pauseReason)] else [])
  }

  function EntryIds(ps: seq<PausedEntry>): (r: seq<string>)
    ensures |r| == |ps| && forall k :: 0 <= k < |ps| ==> r[k] == ps[k].id
  {
    if ps == [] then [] else [ps[0].id] + EntryIds(ps[1..])
  }

  /** The paused list names exactly the paused strategies, each with its own reason. */
  lemma {:induction false} PausedInExactly(ids: seq<string>, states: map<string, StrategyRiskState>)
    requires forall id :: id in ids ==> id in states
    ensures forall id :: id in EntryIds(PausedIn(ids, states)) <==> id in ids && states[id].isPausedByRisk
    ensures forall e :: e in PausedIn(ids, states) ==> e.reason == states[e.id].pauseReason
  {
    if ids != [] {
      var init, id := ids[..|ids| - 1], ids[|ids| - 1];
      assert forall x :: x in ids <==> x in init || x == id;
      PausedInExactly(init, states);
      var p := PausedIn(init, states);
      var tail := if states[id].isPausedByRisk then [PausedEntry(id, states[id].pauseReason)] else [];
      assert EntryIds(p + tail) == EntryIds(p) + EntryIds(tail);
    }
  }

  /** The paused list of a longer prefix extends that of the shorter one by its last strategy, if paused. */
  lemma PausedInStep(ids: seq<string>, i: nat, states: map<string, StrategyRiskState>)
    requires i < |ids| && forall id :: id in ids ==> id in states
    ensures var id := ids[i];
      PausedIn(ids[..i + 1], states)
      == PausedIn(ids[..i], states) + (if states[id].isPausedByRisk then [PausedEntry(id, states[id].pauseReason)] else [])
  {
    assert ids[..i + 1][..i] == ids[..i];
  }

  /** Growing a prefix by one element adds exactly that element. */
  lemma PrefixStep<T>(xs: seq<T>, i: nat)
    requires i < |xs|
    ensures xs[..i + 1] == xs[..i] + [xs[i]] && xs[..i + 1][..i] == xs[..i]
    ensures forall x :: x in xs[..i + 1] <==> x in xs[..i] || x == xs[i]
  {
    assert xs[..i + 1] == xs[..i] + [xs[i]];
  }

  /** One report entry per listed strategy, and the paused ones in list order. */
  method ReportStrategies(ids: seq<string>, states: map<string, StrategyRiskState>)
    returns (strategies: map<string, StrategyReport>, paused: seq<PausedEntry>)
    requires forall id :: id in ids ==> id in states
    ensures forall id :: id in strategies <==> id in ids
    ensures forall id :: id in strategies ==> strategies[id] == ReportOf(states[id])
    ensures paused == PausedIn(ids, states)
  {
    strategies := map[];
    paused := [];
    var i := 0;
    while i < |ids|
      invariant 0 <= i <= |ids|
      invariant forall id :: id in strategies <==> id in ids[..i]
      invariant forall id :: id in strategies ==> strategies[id] == ReportOf(states[id])
      invariant paused == PausedIn(ids[..i], states)
    {
      var id := ids[i];
      PrefixStep(ids, i);
      PausedInStep(ids, i, states);
      var s := states[id];
      strategies := strategies[id := ReportOf(s)];
      if s.isPausedByRisk {
        paused := paused + [PausedEntry(id, s.pauseReason)];
      }
      i := i + 1;
    }
    assert ids[..i] == ids;
  }

  // ---- the engine ----

  /** Writing a key twice keeps only the second value. */
  lemma OverwriteTwice<K, V>(m: map<K, V>, k: K, v1: V, v2: V)
    ensures m[k := v1][k := v2] == m[k := v2]
  {
  }

  class GlobalRiskControl {
    var config: GlobalRiskControlConfig
    var strategyStates: map<string, StrategyRiskState>
    /** Registered ids in registration order (the dict's iteration order). */
    var order: seq<string>
    var totalPositionValue: real
    var activePositionCoins: int
    var currentMaxLoss: real
    var accountTimeWindows: map<TimeUnit, TimeWindowState>
    /** Position value that left the registry with unregistered strategies:
        the total is maintained by deltas and is never reduced on removal. */
    ghost var departedPosition: real

    ghost predicate Valid()
      reads this
    {
      && Distinct(order)
      && (forall id :: id in order <==> id in strategyStates)
      && (forall id :: id in strategyStates ==> strategyStates[id].strategyId == id)
      && currentMaxLoss >= 0.0
      && totalPositionValue == SumPositions(order, strategyStates) + departedPosition
    }

    /** A new engine; without a config it takes the defaults. */
    constructor (c: Option<GlobalRiskControlConfig>)
      ensures Valid()
      ensures config == Pick(c, DefaultConfig)
      ensures strategyStates == map[] && order == [] && accountTimeWindows == map[]
      ensures totalPositionValue == 0.0 && activePositionCoins == 0 && currentMaxLoss == 0.0
      ensures departedPosition == 0.0
    {
      config := Pick(c, DefaultConfig);
      strategyStates := map[];
      order := [];
      totalPositionValue := 0.0;
      activePositionCoins := 0;
      currentMaxLoss := 0.0;
      accountTimeWindows := map[];
      departedPosition := 0.0;
    }

    /** Replace the top-level fields named in the patch. */
    method UpdateConfig(p: ConfigPatch)
      requires Valid()
      modifies this`config
      ensures Valid()
      ensures config == ApplyPatch(old(config), p)
    {
      config := ApplyPatch(config, p);
    }

    /** Register a strategy with a fresh record; an id already present is left as it is. */
    method Register(id: string)
      requires Valid()
      modifies this`strategyStates, this`order
      ensures Valid()
      ensures old(id in strategyStates) ==> strategyStates == old(strategyStates) && order == old(order)
      ensures old(id !in strategyStates) ==>
        strategyStates == old(strategyStates)[id := FreshState(id)] && order == old(order) + [id]
    {
      if id !in strategyStates {
        assert id !in order;
        SumPositionsSame(order, strategyStates, strategyStates[id := FreshState(id)]);
        SumPositionsAppend(order, strategyStates[id := FreshState(id)], id);
        strategyStates := strategyStates[id := FreshState(id)];
        order := order + [id];
      }
    }

    /** Drop a strategy's record; the system position total keeps its contribution. */
    method Unregister(id: string)
      requires Valid()
      modifies this`strategyStates, this`order, this`departedPosition
      ensures Valid()
      ensures id !in strategyStates
      ensures strategyStates == old(strategyStates) - {id}
      ensures order == Without(old(order), id)
      ensures totalPositionValue == old(totalPositionValue)
      ensures departedPosition == old(departedPosition)
        + (if old(id in strategyStates) then old(strategyStates[id].positionValue) else 0.0)
    {
      if id in strategyStates {
        SumPositionsRemove(order, strategyStates, id);
        WithoutDistinct(order, id);
        departedPosition := departedPosition + strategyStates[id].positionValue;
        strategyStates := strategyStates - {id};
        order := Without(order, id);
      } else {
        WithoutAbsent(order, id);
      }
    }

    /** Account windows after a trade result. */
    method UpdateAccountTimeWindows(r: real, now: real)
      modifies this`accountTimeWindows
      ensures accountTimeWindows == AccountWindowsAfter(config.fundRisk, old(accountTimeWindows), r, now)
    {
      if RealSet(config.fundRisk.accountLossLimit) {
        var u := config.fundRisk.accountLossTimeUnit;
        var w := if u in accountTimeWindows then Some(accountTimeWindows[u]) else None;
        accountTimeWindows := accountTimeWindows[u := AccountStep(w, now, r, AccountWindowSeconds(u))];
      }
    }

    /** Replace a registered record, moving the position total by the record's position change. */
    method PutState(id: string, s: StrategyRiskState)
      requires Valid() && id in strategyStates && s.strategyId == id
      modifies this`strategyStates, this`totalPositionValue
      ensures Valid()
      ensures strategyStates == old(strategyStates)[id := s]
      ensures totalPositionValue == old(totalPositionValue) + (s.positionValue - old(strategyStates[id].positionValue))
    {
      SumPositionsSet(order, strategyStates, id, s);
      totalPositionValue := totalPositionValue + (s.positionValue - strategyStates[id].positionValue);
      strategyStates := strategyStates[id := s];
    }

    /** A loss larger than any seen so far becomes the system's current maximum loss. */
    method RecordSystemLoss(r: real)
      requires Valid()
      modifies this`currentMaxLoss
      ensures Valid()
      ensures currentMaxLoss == if r < 0.0 && Abs(r) > old(currentMaxLoss) then Abs(r) else old(currentMaxLoss)
    {
      if r < 0.0 && Abs(r) > currentMaxLoss {
        currentMaxLoss := Abs(r);
      }
    }

    /** The system-wide effects of a trade result: the maximum loss and the account windows. */
    method RecordTrade(r: real, now: real)
      requires Valid()
      modifies this`currentMaxLoss, this`accountTimeWindows
      ensures Valid()
      ensures r < 0.0 ==>
        currentMaxLoss >= old(currentMaxLoss) && currentMaxLoss >= -r && (currentMaxLoss == old(currentMaxLoss) || currentMaxLoss == -r)
      ensures r >= 0.0 ==> currentMaxLoss == old(currentMaxLoss)
      ensures accountTimeWindows == AccountWindowsAfter(config.fundRisk, old(accountTimeWindows), r, now)
    {
      RecordSystemLoss(r);
      UpdateAccountTimeWindows(r, now);
    }

    /** The strategy half of recording an update: register the strategy if
        needed, then store its new record and move the position total. */
    method PutUpdatedState(id: string, totalPnl: Option<real>, positionValue: Option<real>,
                           tradeResult: Option<real>, now: real)
      requires Valid()
      requires tradeResult.Some? ==> WindowsConfigured(config.tradeProtection)
      modifies this`strategyStates, this`order, this`totalPositionValue
      ensures Valid()
      ensures strategyStates == old(strategyStates)[id := UpdatedState(config.tradeProtection,
        StateBefore(old(strategyStates), id), totalPnl, positionValue, tradeResult, now)]
      ensures order == if old(id in strategyStates) then old(order) else old(order) + [id]
      ensures totalPositionValue == old(totalPositionValue)
        + (if positionValue.Some? then positionValue.value - StateBefore(old(strategyStates), id).positionValue else 0.0)
    {
      var before := StateBefore(strategyStates, id);
      ghost var states0 := strategyStates;
      Register(id);
      assert strategyStates[id] == before;
      var s := UpdatedState(config.tradeProtection, before, totalPnl, positionValue, tradeResult, now);
      if tradeResult.Some? {
        AfterTradeEffect(config.tradeProtection, before.(totalPnl := Pick(totalPnl, before.totalPnl),
          positionValue := Pick(positionValue, before.positionValue)), tradeResult.value, now);
      }
      PutState(id, s);
      assert strategyStates == states0[id := s] by {
        OverwriteTwice(states0, id, FreshState(id), s);
      }
    }

    /** Record a strategy's P&L, position and/or trade result, registering it first if needed. */
    method UpdateStrategyState(id: string, totalPnl: Option<real>, positionValue: Option<real>,
                               tradeResult: Option<real>, now: real)
      requires Valid()
      requires tradeResult.Some? ==> WindowsConfigured(config.tradeProtection)
      modifies this`strategyStates, this`order, this`totalPositionValue, this`currentMaxLoss, this`accountTimeWindows
      ensures Valid()
      ensures strategyStates == old(strategyStates)[id := UpdatedState(config.tradeProtection,
        StateBefore(old(strategyStates), id), totalPnl, positionValue, tradeResult, now)]
      ensures order == if old(id in strategyStates) then old(order) else old(order) + [id]
      ensures totalPositionValue == old(totalPositionValue)
        + (if positionValue.Some? then positionValue.value - StateBefore(old(strategyStates), id).positionValue else 0.0)
      ensures tradeResult.Some? && tradeResult.value < 0.0 ==>
        currentMaxLoss >= old(currentMaxLoss) && currentMaxLoss >= -tradeResult.value
        && (currentMaxLoss == old(currentMaxLoss) || currentMaxLoss == -tradeResult.value)
      ensures !(tradeResult.Some? && tradeResult.value < 0.0) ==> currentMaxLoss == old(currentMaxLoss)
      ensures accountTimeWindows ==
        if tradeResult.Some? then AccountWindowsAfter(config.fundRisk, old(accountTimeWindows), tradeResult.value, now)
        else old(accountTimeWindows)
    {
      PutUpdatedState(id, totalPnl, positionValue, tradeResult, now);
      if tradeResult.Some? {
        RecordTrade(tradeResult.value, now);
      }
    }

    /** Decide whether a strategy may trade now, latching a pause on a strategy-tier refusal. */
    method CheckTradingAllowed(id: string, clock: Clock) returns (d: Decision)
      requires Valid()
      modifies this`strategyStates
      ensures Valid()
      ensures d == TradingDecision(config, old(strategyStates), totalPositionValue, currentMaxLoss,
                                   accountTimeWindows, id, clock)
      ensures strategyStates ==
        if LatchesPause(config, old(strategyStates), totalPositionValue, currentMaxLoss, accountTimeWindows, id, clock)
        then old(strategyStates)[id := old(strategyStates)[id].(isPausedByRisk := true, pauseReason := d.reason)]
        else old(strategyStates)
    {
      if !config.enabled {
        return Allow;
      }
      if id in strategyStates && strategyStates[id].isPausedByRisk {
        return Decision(false, strategyStates[id].pauseReason);
      }
      var sys := CheckSystemRiskLimits(config.fundRisk, totalPositionValue, currentMaxLoss, accountTimeWindows);
      if !sys.allowed {
        return sys;
      }
      var time := CheckTimeRiskLimits(config.timeRisk, clock);
      if !time.allowed {
        return time;
      }
      d := CheckStrategyRiskLimits(config, strategyStates, id);
      if !d.allowed && id in strategyStates {
        var s := strategyStates[id].(isPausedByRisk := true, pauseReason := d.reason);
        SumPositionsSame(order, strategyStates, strategyStates[id := s]);
        strategyStates := strategyStates[id := s];
      }
    }

    /** Clear the pause latch of a registered strategy; nothing else changes. */
    method ResetStrategyRiskState(id: string)
      requires Valid()
      modifies this`strategyStates
      ensures Valid()
      ensures strategyStates ==
        if id in old(strategyStates)
        then old(strategyStates)[id := old(strategyStates)[id].(isPausedByRisk := false, pauseReason := None)]
        else old(strategyStates)
    {
      if id in strategyStates {
        var s := strategyStates[id].(isPausedByRisk := false, pauseReason := None);
        SumPositionsSame(order, strategyStates, strategyStates[id := s]);
        strategyStates := strategyStates[id := s];
      }
    }

    /** Pause every registered strategy with the emergency-stop reason. */
    method EmergencyStopAll()
      requires Valid()
      modifies this`strategyStates
      ensures Valid()
      ensures strategyStates.Keys == old(strategyStates).Keys
      ensures forall id :: id in strategyStates ==>
        strategyStates[id] == old(strategyStates)[id].(isPausedByRisk := true, pauseReason := Some(EmergencyStop))
    {
      var i := 0;
      while i < |order|
        invariant 0 <= i <= |order|
        invariant strategyStates.Keys == old(strategyStates).Keys
        invariant forall id :: id in strategyStates ==>
          strategyStates[id] == if id in order[..i]
            then old(strategyStates)[id].(isPausedByRisk := true, pauseReason := Some(EmergencyStop))
            else old(strategyStates)[id]
      {
        var id := order[i];
        assert order[..i + 1] == order[..i] + [id];
        strategyStates := strategyStates[id := strategyStates[id].(isPausedByRisk := true, pauseReason := Some(EmergencyStop))];
        i := i + 1;
      }
      assert order[..i] == order;
      SumPositionsSame(order, old(strategyStates), strategyStates);
    }

    /** The status report: the system figures, one entry per registered
        strategy, and the paused strategies in registration order. */
    method GetRiskStatusReport() returns (r: RiskReport)
      requires Valid()
      ensures r.system == SystemReport(totalPositionValue, activePositionCoins, currentMaxLoss, config.riskLevel, config.enabled)
      ensures r.strategies.Keys == strategyStates.Keys
      ensures forall id :: id in r.strategies ==> r.strategies[id] == ReportOf(strategyStates[id])
      ensures r.pausedStrategies == PausedIn(order, strategyStates)
      ensures forall id :: id in EntryIds(r.pausedStrategies) <==> id in strategyStates && strategyStates[id].isPausedByRisk
    {
      var strategies, paused := ReportStrategies(order, strategyStates);
      PausedInExactly(order, strategyStates);
      r := RiskReport(
        SystemReport(totalPositionValue, activePositionCoins, currentMaxLoss, config.riskLevel, config.enabled),
        strategies, paused);
    }
  }
}
