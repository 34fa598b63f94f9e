/** The exchange-configuration store: per-exchange settings plus the list of
    supported exchange values, kept side by side, and the look-ups with
    their defaults. */
module ExchangeConfigStore {
  import opened Common
  import opened KeyedLists

  datatype AdditionalParam = AdditionalParam(name: string, display: string, kind: string, required: bool, description: Option<string>)

  datatype ExchangeConfig = ExchangeConfig(
    value: string,
    display: string,
    supportedMarketTypes: seq<string>,
    maxLeverage: int,
    additionalParams: seq<AdditionalParam>)

  /** A partial update: only the keys that are present are written. */
  datatype ConfigPatch = ConfigPatch(
    value: Option<string>,
    display: Option<string>,
    supportedMarketTypes: Option<seq<string>>,
    maxLeverage: Option<int>,
    additionalParams: Option<seq<AdditionalParam>>)

  const DefaultMaxLeverage := 20

  /** The fallback configuration list. */
  const InitialExchangeConfigs: seq<ExchangeConfig> := [
    ExchangeConfig("binance", "Binance", ["spot", "futures"], 125, []),
    ExchangeConfig("okx", "OKX", ["spot", "futures"], 100, []),
    ExchangeConfig("bitget", "Bitget", ["spot", "futures"], 100, []),
    ExchangeConfig("bybit", "Bybit", ["spot", "futures"], 100, []),
    ExchangeConfig("dydx", "dYdX", ["futures"], 20, [
      AdditionalParam("stark_private_key", "Stark Private Key", "text", true, Some("dYdX Stark Private Key")),
      AdditionalParam("ethereum_address", "Ethereum Address", "text", true, Some("dYdX Ethereum Address"))])]

  function ConfigValue(c: ExchangeConfig): string
  {
    c.value
  }

  /** `{...c, ...p}`. */
  function Patched(c: ExchangeConfig, p: ConfigPatch): (r: ExchangeConfig)
    ensures p.value.None? ==> r.value == c.value
    ensures p.maxLeverage.None? ==> r.maxLeverage == c.maxLeverage
    ensures p.supportedMarketTypes.None? ==> r.supportedMarketTypes == c.supportedMarketTypes
  {
    ExchangeConfig(
      if p.value.Some? then p.value.value else c.value,
      if p.display.Some? then p.display.value else c.display,
      if p.supportedMarketTypes.Some? then p.supportedMarketTypes.value else c.supportedMarketTypes,
      if p.maxLeverage.Some? then p.maxLeverage.value else c.maxLeverage,
      if p.additionalParams.Some? then p.additionalParams.value else c.additionalParams)
  }

  /** A trading type of the bot service, upper-cased, mapped to a market type. */
  function MapTradingTypeToMarketType(tradingType: string): (m: string)
    ensures m == "futures" <==> Upper(tradingType) == "PERPETUAL"
    ensures m == "spot" || m == "futures"
  {
    var t := Upper(tradingType);
    if t == "SPOT" then "spot" else if t == "PERPETUAL" then "futures" else "spot"
  }

  /** The mapping ignores letter case. */
  lemma TradingTypeCaseInsensitive(tradingType: string)
    ensures MapTradingTypeToMarketType(Lower(tradingType)) == MapTradingTypeToMarketType(tradingType)
  {
    UpperOfLower(tradingType);
  }

  lemma {:induction false} UpperOfLower(s: string)
    ensures Upper(Lower(s)) == Upper(s)
  {
    if s != [] {
      UpperOfLower(s[1..]);
      assert Lower(s) == [LowerChar(s[0])] + Lower(s[1..]);
      assert Upper(Lower(s)) == [UpperChar(LowerChar(s[0]))] + Upper(Lower(s[1..]));
      assert Upper(s) == [UpperChar(s[0])] + Upper(s[1..]);
    }
  }

  /** The initial configurations carry the five supported exchange values, in order. */
  lemma InitialKeys()
    ensures Keys(InitialExchangeConfigs, ConfigValue) == ["binance", "okx", "bitget", "bybit", "dydx"]
  {
    var ks := Keys(InitialExchangeConfigs, ConfigValue);
    assert |ks| == 5;
    assert ks[0] == "binance" && ks[1] == "okx" && ks[2] == "bitget" && ks[3] == "bybit" && ks[4] == "dydx";
  }

  class ExchangeConfigState {
    var exchangeConfigs: seq<ExchangeConfig>
    var supportedExchanges: seq<string>

    /** The supported list is exactly the configured values, in order, each once. */
    ghost predicate Valid()
      reads this
    {
      supportedExchanges == Keys(exchangeConfigs, ConfigValue) && Distinct(supportedExchanges)
    }

    constructor ()
      ensures exchangeConfigs == InitialExchangeConfigs
      ensures Valid()
    {
      exchangeConfigs := InitialExchangeConfigs;
      supportedExchanges := ["binance", "okx", "bitget", "bybit", "dydx"];
      new;
      InitialKeys();
    }

    /** The first configuration with the value. */
    function ConfigByValue(value: string): (r: Option<ExchangeConfig>)
      reads this
      ensures r.None? <==> value !in Keys(exchangeConfigs, ConfigValue)
      ensures r.Some? ==> r.value in exchangeConfigs && r.value.value == value
    {
      match FindIndex(exchangeConfigs, ConfigValue, value)
      case None => None
      case Some(i) => Some(exchangeConfigs[i])
    }

    /** The maximum leverage, 20 for an unknown exchange. */
    function MaxLeverageByExchange(value: string): (n: int)
      reads this
      ensures ConfigByValue(value).None? ==> n == DefaultMaxLeverage
      ensures ConfigByValue(value).Some? ==> n == ConfigByValue(value).value.maxLeverage
    {
      match ConfigByValue(value)
      case None => DefaultMaxLeverage
      case Some(c) => c.maxLeverage
    }

    /** The extra credential fields, none for an unknown exchange. */
    function AdditionalParamsByExchange(value: string): (ps: seq<AdditionalParam>)
      reads this
      ensures ConfigByValue(value).None? ==> ps == []
      ensures ConfigByValue(value).Some? ==> ps == ConfigByValue(value).value.additionalParams
    {
      match ConfigByValue(value)
      case None => []
      case Some(c) => c.additionalParams
    }

    /** The market types, spot only for an unknown exchange. */
    function SupportedMarketTypesByExchange(value: string): (ms: seq<string>)
      reads this
      ensures ConfigByValue(value).None? ==> ms == ["spot"]
      ensures ConfigByValue(value).Some? ==> ms == ConfigByValue(value).value.supportedMarketTypes
    {
      match ConfigByValue(value)
      case None => ["spot"]
      case Some(c) => c.supportedMarketTypes
    }

    /** Appends the configuration and its value unless the value is already configured. */
    method AddExchangeConfig(c: ExchangeConfig)
      modifies this
      ensures exchangeConfigs == AddIfAbsent(old(exchangeConfigs), ConfigValue, c)
      ensures c.value !in Keys(old(exchangeConfigs), ConfigValue) ==> supportedExchanges == old(supportedExchanges) + [c.value]
      ensures c.value in Keys(old(exchangeConfigs), ConfigValue) ==> supportedExchanges == old(supportedExchanges)
      ensures old(Valid()) ==> Valid()
    {
      if ConfigValue(c) !in Keys(exchangeConfigs, ConfigValue) {
        exchangeConfigs := exchangeConfigs + [c];
        supportedExchanges := supportedExchanges + [c.value];
      }
      if old(Valid()) {
        AddIfAbsentKeepsKeysDistinct(old(exchangeConfigs), ConfigValue, c);
        if c.value !in Keys(old(exchangeConfigs), ConfigValue) {
          assert Keys(exchangeConfigs, ConfigValue) == Keys(old(exchangeConfigs), ConfigValue) + [c.value];
        }
      }
    }

    /** Merges the patch into the first configuration with the value; the
        supported list is left as it is. */
    method UpdateExchangeConfig(value: string, p: ConfigPatch)
      modifies this`exchangeConfigs
      ensures exchangeConfigs == UpdateFirst(old(exchangeConfigs), ConfigValue, value, Patched, p)
      ensures old(Valid()) && p.value.None? ==> Valid()
    {
      var i := FindIndex(exchangeConfigs, ConfigValue, value);
      if i.Some? {
        exchangeConfigs := exchangeConfigs[i.value := Patched(exchangeConfigs[i.value], p)];
      }
      if p.value.None? {
        UpdateFirstKeepsKeys(old(exchangeConfigs), ConfigValue, value, Patched, p);
      }
    }

    /** Drops the value from both lists. */
    method RemoveExchangeConfig(value: string)
      modifies this
      ensures exchangeConfigs == RemoveKey(old(exchangeConfigs), ConfigValue, value)
      ensures supportedExchanges == RemoveKey(old(supportedExchanges), Identity, value)
      ensures old(Valid()) ==> Valid()
    {
      exchangeConfigs := RemoveKey(exchangeConfigs, ConfigValue, value);
      supportedExchanges := RemoveKey(supportedExchanges, Identity, value);
      if old(Valid()) {
        RemoveKeyKeepsKeysDistinct(old(exchangeConfigs), ConfigValue, value);
        RemoveKeepsCorrespondence(old(exchangeConfigs), value);
      }
    }
  }

  function Identity(s: string): string
  {
    s
  }

  /** Removing a value from the configurations and from their value list keeps the two in step. */
  lemma {:induction false} RemoveKeepsCorrespondence(cs: seq<ExchangeConfig>, value: string)
    ensures Keys(RemoveKey(cs, ConfigValue, value), ConfigValue) == RemoveKey(Keys(cs, ConfigValue), Identity, value)
  {
    if cs != [] {
      var init := cs[..|cs| - 1];
      RemoveKeepsCorrespondence(init, value);
      assert Keys(cs, ConfigValue)[..|cs| - 1] == Keys(init, ConfigValue);
    }
  }

  /** Renaming a value through an update leaves the supported list behind. */
  lemma RenameLeavesSupportedListBehind()
    ensures var cs := InitialExchangeConfigs;
      var renamed := UpdateFirst(cs, ConfigValue, "binance", Patched, ConfigPatch(Some("binance2"), None, None, None, None));
      Keys(renamed, ConfigValue) != Keys(cs, ConfigValue)
  {
    var cs := InitialExchangeConfigs;
    var renamed := UpdateFirst(cs, ConfigValue, "binance", Patched, ConfigPatch(Some("binance2"), None, None, None, None));
    assert FindIndex(cs, ConfigValue, "binance") == Some(0);
    assert Keys(renamed, ConfigValue)[0] == "binance2";
    assert Keys(cs, ConfigValue)[0] == "binance";
  }
}
