/** The in-memory strategy list of the front end: creating a strategy with
    its defaults, starting, pausing and deleting it by id. */
module StrategyOperation {
  import opened Common
  import opened KeyedLists

  datatype StrategyStatus = Running | Paused | Stopped

  datatype StrategyRisk = StrategyRisk(
    totalLossLimit: real,
    totalProfitLimit: real,
    maxLossPerTrade: real,
    maxPosition: real,
    tradingTimeLimit: bool,
    tradingStartTime: Option<string>,
    tradingEndTime: Option<string>)

  datatype Strategy = Strategy(
    id: string,
    name: string,
    status: StrategyStatus,
    strategyType: string,
    gridType: Option<string>,
    exchange: string,
    pair: string,
    marketType: string,
    direction: string,
    holdingAmount: real,
    profit: real,
    runningDays: int,
    completedOrders: int,
    riskConfig: Option<StrategyRisk>)

  /** The creation form; a missing or empty text falls back to its default. */
  datatype StrategyForm = StrategyForm(
    name: Option<string>,
    strategyType: Option<string>,
    gridType: Option<string>,
    exchange: Option<string>,
    pair: Option<string>,
    marketType: Option<string>,
    direction: Option<string>,
    riskConfig: Option<StrategyRisk>)

  /** `text || fallback`. */
  function OrDefault(text: Option<string>, fallback: string): (r: string)
    ensures TextSet(text) ==> r == text.value
    ensures !TextSet(text) ==> r == fallback
  {
    if TextSet(text) then text.value else fallback
  }

  function StrategyId(s: Strategy): string
  {
    s.id
  }

  function WithStatus(s: Strategy, status: StrategyStatus): (r: Strategy)
    ensures r == s.(status := status)
  {
    s.(status := status)
  }

  /** The strategy created from a form at a clock reading (milliseconds), paused and with zero results. */
  function NewStrategy(form: StrategyForm, now: nat): (s: Strategy)
    ensures s.id == NatText(now) && s.status == Paused
    ensures s.holdingAmount == 0.0 && s.profit == 0.0 && s.runningDays == 0 && s.completedOrders == 0
    ensures s.name == OrDefault(form.name, "策略" + LastChars(NatText(now), 4))
    ensures s.strategyType == OrDefault(form.strategyType, "grid") && s.exchange == OrDefault(form.exchange, "Binance")
    ensures s.pair == OrDefault(form.pair, "BTC/USDT") && s.marketType == OrDefault(form.marketType, "永续合约")
    ensures s.direction == OrDefault(form.direction, "做多")
  {
    var id := NatText(now);
    Strategy(
      id,
      OrDefault(form.name, "策略" + LastChars(id, 4)),
      Paused,
      OrDefault(form.strategyType, "grid"),
      form.gridType,
      OrDefault(form.exchange, "Binance"),
      OrDefault(form.pair, "BTC/USDT"),
      OrDefault(form.marketType, "永续合约"),
      OrDefault(form.direction, "做多"),
      0.0, 0.0, 0, 0,
      form.riskConfig)
  }

  /** An empty form yields the documented defaults. */
  lemma EmptyFormDefaults(now: nat)
    ensures var s := NewStrategy(StrategyForm(None, None, None, None, None, None, None, None), now);
      && s.strategyType == "grid" && s.exchange == "Binance" && s.pair == "BTC/USDT"
      && s.marketType == "永续合约" && s.direction == "做多" && s.gridType.None? && s.riskConfig.None?
  {
  }

  class StrategyList {
    var strategies: seq<Strategy>

    constructor ()
      ensures strategies == []
    {
      strategies := [];
    }

    /** Appends one new strategy. */
    method CreateStrategy(form: StrategyForm, now: nat) returns (s: Strategy)
      modifies this
      ensures s == NewStrategy(form, now)
      ensures strategies == old(strategies) + [s]
    {
      s := NewStrategy(form, now);
      strategies := strategies + [s];
    }

    /** Sets the first strategy with the id to running; false when there is none. */
    method StartStrategy(id: string) returns (found: bool)
      modifies this
      ensures found <==> id in Keys(old(strategies), StrategyId)
      ensures strategies == UpdateFirst(old(strategies), StrategyId, id, WithStatus, Running)
    {
      var i := FindIndex(strategies, StrategyId, id);
      found := i.Some?;
      if found {
        strategies := strategies[i.value := WithStatus(strategies[i.value], Running)];
      }
    }

    /** Sets the first strategy with the id to paused; false when there is none. */
    method PauseStrategy(id: string) returns (found: bool)
      modifies this
      ensures found <==> id in Keys(old(strategies), StrategyId)
      ensures strategies == UpdateFirst(old(strategies), StrategyId, id, WithStatus, Paused)
    {
      var i := FindIndex(strategies, StrategyId, id);
      found := i.Some?;
      if found {
        strategies := strategies[i.value := WithStatus(strategies[i.value], Paused)];
      }
    }

    /** Removes the first strategy with the id; false and no change when there is none. */
    method DeleteStrategy(id: string) returns (found: bool)
      modifies this
      ensures found <==> id in Keys(old(strategies), StrategyId)
      ensures !found ==> strategies == old(strategies)
      ensures found ==> var i := FindIndex(old(strategies), StrategyId, id).value;
        strategies == old(strategies)[..i] + old(strategies)[i + 1..]
    {
      var i := FindIndex(strategies, StrategyId, id);
      found := i.Some?;
      if found {
        strategies := strategies[..i.value] + strategies[i.value + 1..];
      }
    }
  }

  /** Starting changes only the status of the first strategy with the id. */
  lemma StartChangesOnlyThatStatus(ss: seq<Strategy>, id: string)
    ensures var r := UpdateFirst(ss, StrategyId, id, WithStatus, Running);
      && |r| == |ss|
      && forall i :: 0 <= i < |ss| ==> r[i] == ss[i] || (r[i] == ss[i].(status := Running) && Some(i) == FindIndex(ss, StrategyId, id))
  {
    UpdateFirstOnly(ss, StrategyId, id, WithStatus, Running);
  }

  /** Deleting the first match removes exactly one strategy with the id, keeping the others in order. */
  lemma DeleteRemovesOne(ss: seq<Strategy>, id: string)
    requires id in Keys(ss, StrategyId)
    ensures var i := FindIndex(ss, StrategyId, id).value;
      var r := ss[..i] + ss[i + 1..];
      |r| == |ss| - 1 && multiset(r) + multiset{ss[i]} == multiset(ss) && ss[i].id == id
  {
    var i := FindIndex(ss, StrategyId, id).value;
    SplicedMultiset(ss, i);
  }

  /** Splicing one element out of a sequence takes exactly that element out of its multiset. */
  lemma SplicedMultiset<T>(s: seq<T>, i: nat)
    requires i < |s|
    ensures multiset(s[..i] + s[i + 1..]) + multiset{s[i]} == multiset(s)
  {
    assert s == s[..i] + [s[i]] + s[i + 1..];
  }
}
