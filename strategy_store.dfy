/** The strategy-type store: the active types and the coming-soon types,
    adding, promoting, updating, removing and looking them up. */
module StrategyStore {
  import opened Common
  import opened KeyedLists

  /** A strategy type; the icon is the name of its icon component. */
  datatype StrategyType = StrategyType(
    value: string,
    display: string,
    icon: string,
    description: string,
    disabled: Option<bool>,
    comingSoon: Option<bool>)

  /** A partial update: only the keys that are present are written. */
  datatype TypePatch = TypePatch(
    value: Option<string>,
    display: Option<string>,
    icon: Option<string>,
    description: Option<string>,
    disabled: Option<bool>,
    comingSoon: Option<bool>)

  function TypeValue(t: StrategyType): string
  {
    t.value
  }

  /** `{...t, ...p}`. */
  function Patched(t: StrategyType, p: TypePatch): (r: StrategyType)
    ensures p.value.None? ==> r.value == t.value
    ensures p.comingSoon.None? ==> r.comingSoon == t.comingSoon
  {
    StrategyType(
      if p.value.Some? then p.value.value else t.value,
      if p.display.Some? then p.display.value else t.display,
      if p.icon.Some? then p.icon.value else t.icon,
      if p.description.Some? then p.description.value else t.description,
      if p.disabled.Some? then p.disabled else t.disabled,
      if p.comingSoon.Some? then p.comingSoon else t.comingSoon)
  }

  const InitialActiveTypes: seq<StrategyType> := [
    StrategyType("grid", "网格策略", "PartitionOutlined", "自动在价格区间内高抛低吸，适合震荡行情", Some(false), Some(false)),
    StrategyType("tv", "TV策略", "LineChartOutlined", "基于TradingView平台信号的自动交易策略", Some(false), Some(false))]

  const InitialComingSoonTypes: seq<StrategyType> := [
    StrategyType("ai", "AI策略", "RobotOutlined", "利用人工智能分析市场数据，自动生成交易信号的高级策略", None, Some(true)),
    StrategyType("reversal", "反转策略", "SwapOutlined", "捕捉市场超买超卖点位，逆势而为抢占先机", None, Some(true)),
    StrategyType("scalping", "高频策略", "ThunderboltOutlined", "短时间内快速进出，捕捉微小价格波动", None, Some(true)),
    StrategyType("arbitrage", "套利策略", "SwapOutlined", "利用不同市场间价格差异获利的交易策略", None, Some(true)),
    StrategyType("news", "新闻策略", "FileTextOutlined", "基于市场新闻和事件快速交易，获取信息差收益", None, Some(true)),
    StrategyType("copy", "跟单策略", "TeamOutlined", "复制顶级交易者的交易策略和操作，轻松获利", None, Some(true)),
    StrategyType("trend", "趋势策略", "LineChartOutlined", "追踪市场趋势，适合单边行情", None, Some(true))]

  /** Looking a value up in two lists searched one after the other. */
  function FindInEither(first: seq<StrategyType>, second: seq<StrategyType>, value: string): (r: Option<StrategyType>)
    ensures value in Keys(first, TypeValue) ==> r == Some(first[FindIndex(first, TypeValue, value).value])
    ensures value !in Keys(first, TypeValue) && value in Keys(second, TypeValue) ==>
      r == Some(second[FindIndex(second, TypeValue, value).value])
    ensures r.None? <==> value !in Keys(first, TypeValue) && value !in Keys(second, TypeValue)
  {
    FindIndexAppend(first, second, TypeValue, value);
    match FindIndex(first + second, TypeValue, value)
    case None => None
    case Some(i) => Some((first + second)[i])
  }

  class StrategyTypes {
    var activeStrategyTypes: seq<StrategyType>
    var comingSoonStrategyTypes: seq<StrategyType>

    constructor ()
      ensures activeStrategyTypes == InitialActiveTypes && comingSoonStrategyTypes == InitialComingSoonTypes
    {
      activeStrategyTypes := InitialActiveTypes;
      comingSoonStrategyTypes := InitialComingSoonTypes;
    }

    /** The first type with the value, active types before coming-soon ones. */
    function StrategyTypeByValue(value: string): (r: Option<StrategyType>)
      reads this
      ensures value in Keys(activeStrategyTypes, TypeValue) ==>
        r == Some(activeStrategyTypes[FindIndex(activeStrategyTypes, TypeValue, value).value])
      ensures value !in Keys(activeStrategyTypes, TypeValue) && value in Keys(comingSoonStrategyTypes, TypeValue) ==>
        r == Some(comingSoonStrategyTypes[FindIndex(comingSoonStrategyTypes, TypeValue, value).value])
      ensures r.None? <==> value !in Keys(activeStrategyTypes, TypeValue) && value !in Keys(comingSoonStrategyTypes, TypeValue)
    {
      FindInEither(activeStrategyTypes, comingSoonStrategyTypes, value)
    }

    method AddActiveStrategyType(t: StrategyType)
      modifies this`activeStrategyTypes
      ensures activeStrategyTypes == AddIfAbsent(old(activeStrategyTypes), TypeValue, t)
    {
      if TypeValue(t) !in Keys(activeStrategyTypes, TypeValue) {
        activeStrategyTypes := activeStrategyTypes + [t];
      }
    }

    method AddComingSoonStrategyType(t: StrategyType)
      modifies this`comingSoonStrategyTypes
      ensures comingSoonStrategyTypes == AddIfAbsent(old(comingSoonStrategyTypes), TypeValue, t)
    {
      if TypeValue(t) !in Keys(comingSoonStrategyTypes, TypeValue) {
        comingSoonStrategyTypes := comingSoonStrategyTypes + [t];
      }
    }

    /** Moves the first coming-soon type with the value to the end of the
        active list, marked as no longer coming soon. */
    method PromoteToActive(value: string)
      modifies this
      ensures value !in Keys(old(comingSoonStrategyTypes), TypeValue) ==>
        activeStrategyTypes == old(activeStrategyTypes) && comingSoonStrategyTypes == old(comingSoonStrategyTypes)
      ensures value in Keys(old(comingSoonStrategyTypes), TypeValue) ==>
        var i := FindIndex(old(comingSoonStrategyTypes), TypeValue, value).value;
        && comingSoonStrategyTypes == old(comingSoonStrategyTypes[..i] + comingSoonStrategyTypes[i + 1..])
        && activeStrategyTypes == old(activeStrategyTypes) + [old(comingSoonStrategyTypes[i]).(comingSoon := Some(false))]
    {
      var i := FindIndex(comingSoonStrategyTypes, TypeValue, value);
      if i.Some? {
        var promoted := comingSoonStrategyTypes[i.value].(comingSoon := Some(false));
        comingSoonStrategyTypes := comingSoonStrategyTypes[..i.value] + comingSoonStrategyTypes[i.value + 1..];
        activeStrategyTypes := activeStrategyTypes + [promoted];
      }
    }

    /** Updates the first active match if there is one, otherwise the first coming-soon match. */
    method UpdateStrategyType(value: string, p: TypePatch)
      modifies this
      ensures value in Keys(old(activeStrategyTypes), TypeValue) ==>
        && activeStrategyTypes == UpdateFirst(old(activeStrategyTypes), TypeValue, value, Patched, p)
        && comingSoonStrategyTypes == old(comingSoonStrategyTypes)
      ensures value !in Keys(old(activeStrategyTypes), TypeValue) ==>
        && activeStrategyTypes == old(activeStrategyTypes)
        && comingSoonStrategyTypes == UpdateFirst(old(comingSoonStrategyTypes), TypeValue, value, Patched, p)
    {
      var i := FindIndex(activeStrategyTypes, TypeValue, value);
      if i.Some? {
        activeStrategyTypes := activeStrategyTypes[i.value := Patched(activeStrategyTypes[i.value], p)];
        return;
      }
      i := FindIndex(comingSoonStrategyTypes, TypeValue, value);
      if i.Some? {
        comingSoonStrategyTypes := comingSoonStrategyTypes[i.value := Patched(comingSoonStrategyTypes[i.value], p)];
      }
    }

    /** Drops every type with the value from both lists. */
    method RemoveStrategyType(value: string)
      modifies this
      ensures activeStrategyTypes == RemoveKey(old(activeStrategyTypes), TypeValue, value)
      ensures comingSoonStrategyTypes == RemoveKey(old(comingSoonStrategyTypes), TypeValue, value)
      ensures StrategyTypeByValue(value).None?
    {
      activeStrategyTypes := RemoveKey(activeStrategyTypes, TypeValue, value);
      comingSoonStrategyTypes := RemoveKey(comingSoonStrategyTypes, TypeValue, value);
      RemoveKeyExactly(old(activeStrategyTypes), TypeValue, value);
      RemoveKeyExactly(old(comingSoonStrategyTypes), TypeValue, value);
    }
  }
}
