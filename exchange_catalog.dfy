/** The static exchange catalogue of the front end and the connector names
    built from and parsed into (exchange, product type, exchange type). */
module ExchangeCatalog {
  import opened Common

  datatype ExchangeType = CEX | DEX

  datatype ProductType = ProductType(value: string, display: string, connectorSuffix: string)

  datatype Exchange = Exchange(
    name: string,
    display: string,
    ranking: int,
    exchangeType: ExchangeType,
    productTypes: seq<ProductType>,
    visible: bool)

  const Spot := ProductType("spot", "现货", "")
  const Perpetual := ProductType("perpetual", "永续合约", "_perpetual")

  /** The catalogue, in table order. */
  const Exchanges: seq<Exchange> := [
    Exchange("binance", "Binance", 1, CEX, [Spot, Perpetual], true),
    Exchange("okx", "OKX", 2, CEX, [Spot, Perpetual], true),
    Exchange("bybit", "Bybit", 3, CEX, [Spot, Perpetual], true),
    Exchange("gate_io", "Gate.io", 4, CEX, [Spot, Perpetual], true),
    Exchange("bitget", "Bitget", 5, CEX, [Spot, Perpetual], true),
    Exchange("kucoin", "KuCoin", 6, CEX, [Spot, Perpetual], false),
    Exchange("htx", "HTX", 7, CEX, [Spot], false),
    Exchange("coinbase_advanced_trade", "Coinbase", 8, CEX, [Spot], false),
    Exchange("kraken", "Kraken", 9, CEX, [Spot], false),
    Exchange("mexc", "MEXC", 10, CEX, [Spot], false),
    Exchange("bitstamp", "Bitstamp", 11, CEX, [Spot], false),
    Exchange("ascend_ex", "AscendEX", 12, CEX, [Spot], false),
    Exchange("bitmart", "BitMart", 13, CEX, [Spot, Perpetual], false),
    Exchange("bing_x", "BingX", 14, CEX, [Spot], false),
    Exchange("hashkey", "HashKey", 15, CEX, [Spot, Perpetual], false),
    Exchange("bitrue", "Bitrue", 16, CEX, [Spot], false),
    Exchange("btc_markets", "BTC Markets", 17, CEX, [Spot], false),
    Exchange("cube", "Cube", 18, CEX, [Spot], false),
    Exchange("tegro", "Tegro", 19, CEX, [Spot], false),
    Exchange("dydx_v4", "dYdX v4", 1, DEX, [Perpetual], true),
    Exchange("injective", "Injective", 2, DEX, [ProductType("spot", "现货", "_v2"), ProductType("perpetual", "永续合约", "_v2_perpetual")], false),
    Exchange("hyperliquid", "Hyperliquid", 3, DEX, [Spot, Perpetual], false),
    Exchange("xrpl", "XRP Ledger", 4, DEX, [Spot], false),
    Exchange("vertex", "Vertex", 5, DEX, [Spot], false),
    Exchange("dexalot", "Dexalot", 6, DEX, [Spot], false)
  ]

  // ---- table queries ----

  /** The visible entries, in table order. */
  function VisibleExchanges(t: seq<Exchange>): seq<Exchange>
  {
    if t == [] then [] else VisibleExchanges(t[..|t| - 1]) + (if t[|t| - 1].visible then [t[|t| - 1]] else [])
  }

  /** The entries of one type, in table order. */
  function ExchangesByType(t: seq<Exchange>, ty: ExchangeType): seq<Exchange>
  {
    if t == [] then [] else ExchangesByType(t[..|t| - 1], ty) + (if t[|t| - 1].exchangeType == ty then [t[|t| - 1]] else [])
  }

  lemma {:induction false} VisibleExchangesExactly(t: seq<Exchange>)
    ensures IsSubsequence(VisibleExchanges(t), t)
    ensures forall e :: e in VisibleExchanges(t) <==> e in t && e.visible
  {
    if t != [] {
      var init := t[..|t| - 1];
      VisibleExchangesExactly(init);
      assert forall e :: e in t <==> e in init || e == t[|t| - 1];
      var r := VisibleExchanges(t);
      if t[|t| - 1].visible {
        assert r[..|r| - 1] == VisibleExchanges(init);
      } else {
        assert r == VisibleExchanges(init);
      }
    }
  }

  lemma {:induction false} ExchangesByTypeExactly(t: seq<Exchange>, ty: ExchangeType)
    ensures IsSubsequence(ExchangesByType(t, ty), t)
    ensures forall e :: e in ExchangesByType(t, ty) <==> e in t && e.exchangeType == ty
  {
    if t != [] {
      var init := t[..|t| - 1];
      ExchangesByTypeExactly(init, ty);
      assert forall e :: e in t <==> e in init || e == t[|t| - 1];
      var r := ExchangesByType(t, ty);
      if t[|t| - 1].exchangeType == ty {
        assert r[..|r| - 1] == ExchangesByType(init, ty);
      } else {
        assert r == ExchangesByType(init, ty);
      }
    }
  }

  /** The first entry with the name. */
  function ExchangeByName(t: seq<Exchange>, name: string): (r: Option<Exchange>)
    ensures r.None? <==> forall i :: 0 <= i < |t| ==> t[i].name != name
    ensures r.Some? ==> exists k :: (0 <= k < |t| && t[k] == r.value && t[k].name == name
      && forall i :: 0 <= i < k ==> t[i].name != name)
  {
    if t == [] then None
    else if t[0].name == name then Some(t[0])
    else
      var r := ExchangeByName(t[1..], name);
      assert r.Some? ==> exists k :: (0 <= k < |t| - 1 && t[1..][k] == r.value && t[1..][k].name == name
        && forall i :: 0 <= i < k ==> t[1..][i].name != name);
      r
  }

  /** The text of the named exchange, or the name itself when it is unknown. */
  function ExchangeLabel(t: seq<Exchange>, name: string): (text: string)
    ensures ExchangeByName(t, name).None? ==> text == name
    ensures ExchangeByName(t, name).Some? ==> text == ExchangeByName(t, name).value.display
  {
    match ExchangeByName(t, name)
    case None => name
    case Some(e) => e.display
  }

  /** Spot and perpetual have fixed labels; any other value is echoed. */
  function ProductTypeLabel(value: string): (text: string)
    ensures value == Spot.value ==> text == Spot.display
    ensures value == Perpetual.value ==> text == Perpetual.display
    ensures value != Spot.value && value != Perpetual.value ==> text == value
  {
    if value == "spot" then "现货" else if value == "perpetual" then "永续合约" else value
  }

  /** The first product type of an exchange with the value. */
  function ProductByValue(ps: seq<ProductType>, value: string): (r: Option<ProductType>)
    ensures r.None? <==> forall i :: 0 <= i < |ps| ==> ps[i].value != value
    ensures r.Some? ==> exists k :: (0 <= k < |ps| && ps[k] == r.value && ps[k].value == value
      && forall i :: 0 <= i < k ==> ps[i].value != value)
  {
    if ps == [] then None
    else if ps[0].value == value then Some(ps[0])
    else
      var r := ProductByValue(ps[1..], value);
      assert r.Some? ==> exists k :: (0 <= k < |ps| - 1 && ps[1..][k] == r.value && ps[1..][k].value == value
        && forall i :: 0 <= i < k ==> ps[1..][i].value != value);
      r
  }

  // ---- connector names ----

  /** The exchange name followed by the product's suffix, or the bare name when
      the exchange or the product type is unknown. */
  function BuildConnectorName(t: seq<Exchange>, exchangeName: string, productType: string): (c: string)
    ensures ExchangeByName(t, exchangeName).None? ==> c == exchangeName
    ensures ExchangeByName(t, exchangeName).Some? ==>
      (match ProductByValue(ExchangeByName(t, exchangeName).value.productTypes, productType)
       case None => c == exchangeName
       case Some(p) => c == exchangeName + p.connectorSuffix)
    ensures StartsWith(c, exchangeName)
  {
    match ExchangeByName(t, exchangeName)
    case None => exchangeName
    case Some(e) =>
      match ProductByValue(e.productTypes, productType)
      case None => exchangeName
      case Some(p) =>
        assert (exchangeName + p.connectorSuffix)[..|exchangeName|] == exchangeName;
        exchangeName + p.connectorSuffix
  }

  datatype ParsedConnector = ParsedConnector(exchangeName: string, productType: string, exchangeType: ExchangeType)

  /** The first entry whose name starts the connector name. */
  function FirstPrefixed(t: seq<Exchange>, connector: string): (r: Option<Exchange>)
    ensures r.Some? ==> r.value in t && StartsWith(connector, r.value.name)
    ensures r.None? <==> forall i :: 0 <= i < |t| ==> !StartsWith(connector, t[i].name)
  {
    if t == [] then None
    else if StartsWith(connector, t[0].name) then Some(t[0])
    else
      var r := FirstPrefixed(t[1..], connector);
      assert forall i :: 1 <= i < |t| ==> t[i] == t[1..][i - 1];
      r
  }

  /** The value of the first product type whose full connector name is the connector. */
  function ProductForConnector(ps: seq<ProductType>, name: string, connector: string): (r: Option<string>)
    ensures r.None? <==> forall i :: 0 <= i < |ps| ==> name + ps[i].connectorSuffix != connector
  {
    if ps == [] then None
    else if name + ps[0].connectorSuffix == connector then Some(ps[0].value)
    else
      var r := ProductForConnector(ps[1..], name, connector);
      assert forall i :: 1 <= i < |ps| ==> ps[i] == ps[1..][i - 1];
      r
  }

  /** What the parser returns: defaults `spot` and `CEX`, overridden by the first
      exchange whose name prefixes the connector and by its matching product type. */
  function ParseSpec(t: seq<Exchange>, connector: string): ParsedConnector
  {
    match FirstPrefixed(t, connector)
    case None => ParsedConnector(connector, "spot", CEX)
    case Some(e) =>
      match ProductForConnector(e.productTypes, e.name, connector)
      case None => ParsedConnector(e.name, "spot", e.exchangeType)
      case Some(v) => ParsedConnector(e.name, v, e.exchangeType)
  }

  /** The parser: a scan of the table, then of the matching exchange's product types. */
  method ParseConnectorName(t: seq<Exchange>, connector: string) returns (r: ParsedConnector)
    ensures r == ParseSpec(t, connector)
    ensures FirstPrefixed(t, connector).None? ==> r == ParsedConnector(connector, "spot", CEX)
  {
    var exchangeName := connector;
    var productType := "spot";
    var exchangeType := CEX;
    var i := 0;
    var matched := false;
    while i < |t| && !matched
      invariant 0 <= i <= |t|
      invariant !matched ==> FirstPrefixed(t, connector) == FirstPrefixed(t[i..], connector)
      invariant !matched ==> ParsedConnector(exchangeName, productType, exchangeType) == ParsedConnector(connector, "spot", CEX)
      invariant matched ==> ParsedConnector(exchangeName, productType, exchangeType) == ParseSpec(t, connector)
    {
      var e := t[i];
      assert t[i..][1..] == t[i + 1..];
      if StartsWith(connector, e.name) {
        exchangeName := e.name;
        exchangeType := e.exchangeType;
        var k := 0;
        var found := false;
        while k < |e.productTypes| && !found
          invariant 0 <= k <= |e.productTypes|
          invariant !found ==> productType == "spot"
          invariant !found ==>
            ProductForConnector(e.productTypes, e.name, connector) == ProductForConnector(e.productTypes[k..], e.name, connector)
          invariant found ==> ProductForConnector(e.productTypes, e.name, connector) == Some(productType)
        {
          assert e.productTypes[k..][1..] == e.productTypes[k + 1..];
          if connector == e.name + e.productTypes[k].connectorSuffix {
            productType := e.productTypes[k].value;
            found := true;
          }
          k := k + 1;
        }
        matched := true;
      }
      i := i + 1;
    }
    r := ParsedConnector(exchangeName, productType, exchangeType);
  }

  // ---- the round trip ----

  /** Two names that differ at a position inside both: neither is a prefix of the other. */
  ghost predicate Diverge(a: string, b: string)
  {
    exists m :: 0 <= m < |a| && m < |b| && a[m] != b[m]
  }

  ghost predicate SuffixesDistinct(ps: seq<ProductType>)
  {
    forall a, b :: 0 <= a < b < |ps| ==> ps[a].connectorSuffix != ps[b].connectorSuffix
  }

  /** A catalogue whose connector names can be parsed back: any two names
      diverge, and no exchange lists the same suffix twice. */
  ghost predicate Unambiguous(t: seq<Exchange>)
  {
    && (forall i, j :: 0 <= i < |t| && 0 <= j < |t| && i != j ==> Diverge(t[i].name, t[j].name))
    && (forall i :: 0 <= i < |t| ==> SuffixesDistinct(t[i].productTypes))
  }

  lemma DivergeNotPrefix(a: string, b: string, suffix: string)
    requires Diverge(a, b)
    ensures !StartsWith(b + suffix, a) && a != b
  {
    var m :| 0 <= m < |a| && m < |b| && a[m] != b[m];
    if |a| <= |b + suffix| {
      assert (b + suffix)[..|a|][m] == b[m];
    }
  }

  lemma {:induction false} FirstPrefixedAt(t: seq<Exchange>, k: int, connector: string)
    requires 0 <= k < |t| && StartsWith(connector, t[k].name)
    requires forall i :: 0 <= i < k ==> !StartsWith(connector, t[i].name)
    ensures FirstPrefixed(t, connector) == Some(t[k])
  {
    if k > 0 {
      FirstPrefixedAt(t[1..], k - 1, connector);
    }
  }

  lemma {:induction false} ExchangeByNameAt(t: seq<Exchange>, k: int)
    requires 0 <= k < |t|
    requires forall i :: 0 <= i < k ==> t[i].name != t[k].name
    ensures ExchangeByName(t, t[k].name) == Some(t[k])
  {
    if k > 0 {
      ExchangeByNameAt(t[1..], k - 1);
    }
  }

  lemma {:induction false} ProductAt(ps: seq<ProductType>, k: int, name: string)
    requires 0 <= k < |ps| && SuffixesDistinct(ps)
    ensures ProductForConnector(ps, name, name + ps[k].connectorSuffix) == Some(ps[k].value)
  {
    var c := name + ps[k].connectorSuffix;
    forall i | 0 <= i < k
      ensures name + ps[i].connectorSuffix != c
    {
      assert (name + ps[i].connectorSuffix)[|name|..] == ps[i].connectorSuffix;
      assert c[|name|..] == ps[k].connectorSuffix;
    }
    if k > 0 {
      assert SuffixesDistinct(ps[1..]);
      ProductAt(ps[1..], k - 1, name);
    }
  }

  /** Parsing the connector built for any listed exchange and product type gives
      back that exchange, that product type and the exchange's type. */
  lemma RoundTripIn(t: seq<Exchange>, k: int, p: ProductType)
    requires Unambiguous(t) && 0 <= k < |t| && p in t[k].productTypes
    ensures ParseSpec(t, BuildConnectorName(t, t[k].name, p.value))
      == ParsedConnector(t[k].name, p.value, t[k].exchangeType)
  {
    var e := t[k];
    forall i | 0 <= i < k
      ensures t[i].name != e.name && !StartsWith(e.name + "", t[i].name)
    {
      DivergeNotPrefix(t[i].name, e.name, "");
    }
    ExchangeByNameAt(t, k);
    var q := ProductByValue(e.productTypes, p.value).value;
    var c := e.name + q.connectorSuffix;
    assert BuildConnectorName(t, e.name, p.value) == c;
    forall i | 0 <= i < k
      ensures !StartsWith(c, t[i].name)
    {
      DivergeNotPrefix(t[i].name, e.name, q.connectorSuffix);
    }
    assert c[..|e.name|] == e.name;
    FirstPrefixedAt(t, k, c);
    var j :| 0 <= j < |e.productTypes| && e.productTypes[j] == q;
    ProductAt(e.productTypes, j, e.name);
  }

  // ---- the catalogue itself ----

  /** Any two catalogue names differ within their first four characters. */
  predicate DifferEarly(a: string, b: string)
  {
    |a| >= 3 && |b| >= 3 &&
    (a[0] != b[0] || a[1] != b[1] || a[2] != b[2] || (|a| > 3 && |b| > 3 && a[3] != b[3]))
  }

  /** The name column of the catalogue, spelled out for the proofs below. */
  const NameColumn: seq<string> := [
    "binance", "okx", "bybit", "gate_io", "bitget",
    "kucoin", "htx", "coinbase_advanced_trade", "kraken", "mexc",
    "bitstamp", "ascend_ex", "bitmart", "bing_x", "hashkey",
    "bitrue", "btc_markets", "cube", "tegro", "dydx_v4",
    "injective", "hyperliquid", "xrpl", "vertex", "dexalot"]

  lemma NameColumnMatches()
    ensures |NameColumn| == |Exchanges|
    ensures forall i :: 0 <= i < |Exchanges| ==> Exchanges[i].name == NameColumn[i]
  {
  }

  lemma NamesDivergeRows0To4(i: int)
    requires 0 <= i < 5
    ensures forall j :: 0 <= j < |NameColumn| && j != i ==> DifferEarly(NameColumn[i], NameColumn[j])
  {
  }

  lemma NamesDivergeRows5To9(i: int)
    requires 5 <= i < 10
    ensures forall j :: 0 <= j < |NameColumn| && j != i ==> DifferEarly(NameColumn[i], NameColumn[j])
  {
  }

  lemma NamesDivergeRows10To14(i: int)
    requires 10 <= i < 15
    ensures forall j :: 0 <= j < |NameColumn| && j != i ==> DifferEarly(NameColumn[i], NameColumn[j])
  {
  }

  lemma NamesDivergeRows15To19(i: int)
    requires 15 <= i < 20
    ensures forall j :: 0 <= j < |NameColumn| && j != i ==> DifferEarly(NameColumn[i], NameColumn[j])
  {
  }

  lemma NamesDivergeRows20To24(i: int)
    requires 20 <= i < 25
    ensures forall j :: 0 <= j < |NameColumn| && j != i ==> DifferEarly(NameColumn[i], NameColumn[j])
  {
  }

  lemma DifferEarlyDiverge(a: string, b: string)
    requires DifferEarly(a, b)
    ensures Diverge(a, b)
  {
    if a[0] != b[0] { assert a[0] != b[0]; }
    else if a[1] != b[1] { assert a[1] != b[1]; }
    else if a[2] != b[2] { assert a[2] != b[2]; }
    else { assert a[3] != b[3]; }
  }

  lemma CatalogNamesDiverge(i: int, j: int)
    requires 0 <= i < |Exchanges| && 0 <= j < |Exchanges| && i != j
    ensures Diverge(Exchanges[i].name, Exchanges[j].name)
  {
    NameColumnMatches();
    if i < 5 { NamesDivergeRows0To4(i); }
    else if i < 10 { NamesDivergeRows5To9(i); }
    else if i < 15 { NamesDivergeRows10To14(i); }
    else if i < 20 { NamesDivergeRows15To19(i); }
    else { NamesDivergeRows20To24(i); }
    DifferEarlyDiverge(NameColumn[i], NameColumn[j]);
  }

  lemma CatalogSuffixesDistinct(i: int)
    requires 0 <= i < |Exchanges|
    ensures SuffixesDistinct(Exchanges[i].productTypes)
  {
  }

  /** The shipped catalogue is unambiguous. */
  lemma CatalogUnambiguous()
    ensures Unambiguous(Exchanges)
  {
    forall i, j | 0 <= i < |Exchanges| && 0 <= j < |Exchanges| && i != j
      ensures Diverge(Exchanges[i].name, Exchanges[j].name)
    {
      CatalogNamesDiverge(i, j);
    }
    forall i | 0 <= i < |Exchanges|
      ensures SuffixesDistinct(Exchanges[i].productTypes)
    {
      CatalogSuffixesDistinct(i);
    }
  }

  /** The round trip over the shipped catalogue. */
  lemma CatalogRoundTrip(k: int, p: ProductType)
    requires 0 <= k < |Exchanges| && p in Exchanges[k].productTypes
    ensures ParseSpec(Exchanges, BuildConnectorName(Exchanges, Exchanges[k].name, p.value))
      == ParsedConnector(Exchanges[k].name, p.value, Exchanges[k].exchangeType)
  {
    CatalogUnambiguous();
    RoundTripIn(Exchanges, k, p);
  }
}
