/** The trade-records service: a bounded in-memory cache of recent trades,
    the request filter over it, pagination and the count and sum statistics. */
module TradeRecords {
  import opened Common

  /** A trade record as the filter reads it. Text keys may be missing or
      `null` (`None`); the time is the already parsed timestamp. */
  datatype Trade = Trade(
    id: string,
    strategyName: Option<string>,
    strategyType: Option<string>,
    pair: Option<string>,
    tradeType: Option<string>,
    direction: Option<string>,
    exchange: Option<string>,
    exchangeOrderId: Option<string>,
    contractType: Option<string>,
    time: real,
    total: real,
    profit: real)

  /** A query: the filters (each applies only when set and non-empty) and the page. */
  datatype TradeQuery = TradeQuery(
    strategyType: Option<string>,
    exchange: Option<string>,
    contractType: Option<string>,
    direction: Option<string>,
    tradeType: Option<string>,
    profitStatus: Option<string>,
    dateRange: Option<seq<real>>,
    searchKeyword: Option<string>,
    page: int,
    pageSize: int)

  const CacheLimit := 1000

  // ---- the filter ----

  /** An equality filter: off when unset or empty, otherwise the field must equal it. */
  predicate MatchesEq(filter: Option<string>, field: Option<string>)
  {
    !TextSet(filter) || field == filter
  }

  /** "profit" keeps strictly positive results, "loss" strictly negative ones; any other value keeps all. */
  predicate MatchesProfit(status: Option<string>, profit: real)
  {
    !TextSet(status)
    || (!(status.value == "profit" && profit <= 0.0) && !(status.value == "loss" && profit >= 0.0))
  }

  /** With a two-element range, the time must lie within it (both ends included). */
  predicate MatchesDate(range: Option<seq<real>>, time: real)
  {
    range.None? || range.value == [] || |range.value| != 2 || (range.value[0] <= time <= range.value[1])
  }

  /** The keyword, lower-cased, must occur in one of the four searchable fields, lower-cased. */
  predicate FieldHas(field: Option<string>, keyword: string)
  {
    TextSet(field) && ContainsText(Lower(field.value), keyword)
  }

  predicate MatchesKeyword(keyword: Option<string>, t: Trade)
  {
    !TextSet(keyword)
    || FieldHas(t.strategyName, Lower(keyword.value)) || FieldHas(t.pair, Lower(keyword.value))
    || FieldHas(t.exchange, Lower(keyword.value)) || FieldHas(t.exchangeOrderId, Lower(keyword.value))
  }

  /** The reference filter: every set filter must accept the trade. */
  predicate Keeps(q: TradeQuery, t: Trade)
  {
    && MatchesEq(q.strategyType, t.strategyType)
    && MatchesEq(q.exchange, t.exchange)
    && MatchesEq(q.contractType, t.contractType)
    && MatchesEq(q.direction, t.direction)
    && MatchesEq(q.tradeType, t.tradeType)
    && MatchesProfit(q.profitStatus, t.profit)
    && MatchesDate(q.dateRange, t.time)
    && MatchesKeyword(q.searchKeyword, t)
  }

  function Filtered(ts: seq<Trade>, q: TradeQuery): seq<Trade>
  {
    if ts == [] then [] else Filtered(ts[..|ts| - 1], q) + (if Keeps(q, ts[|ts| - 1]) then [ts[|ts| - 1]] else [])
  }

  /** The filter keeps exactly the accepted trades, in their order. */
  lemma {:induction false} FilteredIsOrderedSelection(ts: seq<Trade>, q: TradeQuery)
    ensures IsSubsequence(Filtered(ts, q), ts)
    ensures forall t :: t in Filtered(ts, q) <==> t in ts && Keeps(q, t)
    ensures |Filtered(ts, q)| <= |ts|
  {
    if ts != [] {
      var init := ts[..|ts| - 1];
      var last := ts[|ts| - 1];
      FilteredIsOrderedSelection(init, q);
      assert forall t :: t in ts <==> t in init || t == last;
      var f := Filtered(ts, q);
      if Keeps(q, last) {
        assert f[..|f| - 1] == Filtered(init, q);
      } else {
        assert f == Filtered(init, q);
      }
    }
  }

  /** A query with no filter set returns every trade. */
  lemma {:induction false} NoFilterKeepsAll(ts: seq<Trade>, q: TradeQuery)
    requires !TextSet(q.strategyType) && !TextSet(q.exchange) && !TextSet(q.contractType)
    requires !TextSet(q.direction) && !TextSet(q.tradeType) && !TextSet(q.profitStatus)
    requires q.dateRange.None? && !TextSet(q.searchKeyword)
    ensures Filtered(ts, q) == ts
  {
    if ts != [] {
      NoFilterKeepsAll(ts[..|ts| - 1], q);
    }
  }

  /** A zero result passes neither the "profit" nor the "loss" status filter. */
  lemma ZeroProfitMatchesNoStatus(q: TradeQuery, t: Trade)
    requires t.profit == 0.0 && q.profitStatus.Some? && (q.profitStatus.value == "profit" || q.profitStatus.value == "loss")
    ensures !Keeps(q, t)
  {
  }

  /** The filter's test of one trade: each set filter may reject it. */
  method KeepsTrade(q: TradeQuery, t: Trade) returns (keep: bool)
    ensures keep == Keeps(q, t)
  {
    keep := true;
    if TextSet(q.strategyType) && t.strategyType != q.strategyType { keep := false; }
    if TextSet(q.exchange) && t.exchange != q.exchange { keep := false; }
    assert keep == (MatchesEq(q.strategyType, t.strategyType) && MatchesEq(q.exchange, t.exchange));
    if TextSet(q.contractType) && t.contractType != q.contractType { keep := false; }
    if TextSet(q.direction) && t.direction != q.direction { keep := false; }
    if TextSet(q.tradeType) && t.tradeType != q.tradeType { keep := false; }
    ghost var fieldsMatch := keep;
    assert fieldsMatch == (MatchesEq(q.strategyType, t.strategyType) && MatchesEq(q.exchange, t.exchange)
      && MatchesEq(q.contractType, t.contractType) && MatchesEq(q.direction, t.direction)
      && MatchesEq(q.tradeType, t.tradeType));
    if TextSet(q.profitStatus) {
      if q.profitStatus.value == "profit" && t.profit <= 0.0 { keep := false; }
      if q.profitStatus.value == "loss" && t.profit >= 0.0 { keep := false; }
    }
    assert keep == (fieldsMatch && MatchesProfit(q.profitStatus, t.profit));
    if q.dateRange.Some? && q.dateRange.value != [] && |q.dateRange.value| == 2 {
      if t.time < q.dateRange.value[0] || t.time > q.dateRange.value[1] { keep := false; }
    }
    assert keep == (fieldsMatch && MatchesProfit(q.profitStatus, t.profit) && MatchesDate(q.dateRange, t.time));
    if TextSet(q.searchKeyword) {
      var found := KeywordFound(Lower(q.searchKeyword.value), t);
      if !found { keep := false; }
    }
  }

  /** The keyword search over the name, pair, exchange and order id of a trade. */
  method KeywordFound(keyword: string, t: Trade) returns (found: bool)
    ensures found <==> FieldHas(t.strategyName, keyword) || FieldHas(t.pair, keyword)
                       || FieldHas(t.exchange, keyword) || FieldHas(t.exchangeOrderId, keyword)
  {
    var fields := [t.strategyName, t.pair, t.exchange, t.exchangeOrderId];
    found := false;
    var k := 0;
    while k < |fields|
      invariant 0 <= k <= |fields|
      invariant found <==> exists j :: 0 <= j < k && FieldHas(fields[j], keyword)
    {
      if FieldHas(fields[k], keyword) {
        found := true;
      }
      k := k + 1;
    }
    assert fields[0] == t.strategyName && fields[1] == t.pair;
    assert fields[2] == t.exchange && fields[3] == t.exchangeOrderId;
  }

  /** The filter loop, appending accepted trades in order. */
  method FilterTrades(ts: seq<Trade>, q: TradeQuery) returns (filtered: seq<Trade>)
    ensures filtered == Filtered(ts, q)
  {
    filtered := [];
    var i := 0;
    while i < |ts|
      invariant 0 <= i <= |ts|
      invariant filtered == Filtered(ts[..i], q)
    {
      var t := ts[i];
      assert ts[..i + 1][..i] == ts[..i];
      var keep := KeepsTrade(q, t);
      if keep {
        filtered := filtered + [t];
      }
      i := i + 1;
    }
    assert ts[..i] == ts;
  }

  // ---- pagination ----

  /** Page `page` (from 1) of size `pageSize`, by Python slicing. */
  function Page<T>(items: seq<T>, page: int, pageSize: int): seq<T>
  {
    PySlice(items, (page - 1) * pageSize, (page - 1) * pageSize + pageSize)
  }

  /** The position of the first item of page `page` (from 1). */
  function PageStart(page: int, pageSize: int): (lo: nat)
    requires page >= 1 && pageSize >= 0
    ensures lo == (page - 1) * pageSize
  {
    PageOffsets(page, pageSize);
    (page - 1) * pageSize
  }

  /** The first item of page `page` (from 1), written as `offset` for the arithmetic. */
  lemma PageOffsets(page: int, pageSize: int)
    requires page >= 1 && pageSize >= 0
    ensures (page - 1) * pageSize >= 0
    ensures page * pageSize == (page - 1) * pageSize + pageSize
  {
  }

  /** A page holds at most `pageSize` items, the ones from position
      `(page-1)*pageSize` on, and page `page+1` continues where page `page` stops. */
  lemma PageBounds<T>(items: seq<T>, page: int, pageSize: int)
    requires page >= 1 && pageSize >= 0
    ensures var lo := PageStart(page, pageSize);
      Page(items, page, pageSize) == items[Min(lo, |items|)..Min(lo + pageSize, |items|)]
    ensures |Page(items, page, pageSize)| <= pageSize
    ensures var lo := PageStart(page, pageSize);
      Page(items, page, pageSize) + Page(items, page + 1, pageSize)
        == items[Min(lo, |items|)..Min(lo + 2 * pageSize, |items|)]
  {
    var lo := PageStart(page, pageSize);
    NextPageStart(page, pageSize);
    assert Page(items, page, pageSize) == PySlice(items, lo, lo + pageSize);
    assert Page(items, page + 1, pageSize) == PySlice(items, lo + pageSize, lo + 2 * pageSize);
    PageWindow(items, lo, pageSize);
    PageWindow(items, lo + pageSize, pageSize);
    WindowsJoin(items, lo, pageSize);
  }

  /** Page `page+1` starts where page `page` ends. */
  lemma NextPageStart(page: int, pageSize: int)
    requires page >= 1 && pageSize >= 0
    ensures PageStart(page + 1, pageSize) == PageStart(page, pageSize) + pageSize
  {
    PageOffsets(page + 1, pageSize);
  }

  lemma WindowsJoin<T>(items: seq<T>, lo: int, size: int)
    requires lo >= 0 && size >= 0
    ensures items[Min(lo, |items|)..Min(lo + 2 * size, |items|)]
      == items[Min(lo, |items|)..Min(lo + size, |items|)] + items[Min(lo + size, |items|)..Min(lo + 2 * size, |items|)]
  {
  }

  lemma PageWindow<T>(items: seq<T>, lo: int, size: int)
    requires lo >= 0 && size >= 0
    ensures PySlice(items, lo, lo + size) == items[Min(lo, |items|)..Min(lo + size, |items|)]
  {
  }

  // ---- statistics ----

  /** The count and the sums of the statistics; the derived percentages and
      the rounding are not modelled. */
  datatype TradeStatistics = TradeStatistics(totalTrades: int, totalVolume: real, totalProfit: real, winCount: int)

  function SumTotal(ts: seq<Trade>): real
  {
    if ts == [] then 0.0 else SumTotal(ts[..|ts| - 1]) + ts[|ts| - 1].total
  }

  function SumProfit(ts: seq<Trade>): real
  {
    if ts == [] then 0.0 else SumProfit(ts[..|ts| - 1]) + ts[|ts| - 1].profit
  }

  function WinCount(ts: seq<Trade>): (n: nat)
    ensures n <= |ts|
  {
    if ts == [] then 0 else WinCount(ts[..|ts| - 1]) + (if ts[|ts| - 1].profit > 0.0 then 1 else 0)
  }

  function CalculateStatistics(ts: seq<Trade>): (s: TradeStatistics)
    ensures ts == [] ==> s == TradeStatistics(0, 0.0, 0.0, 0)
    ensures s.totalTrades == |ts| && 0 <= s.winCount <= s.totalTrades
  {
    if ts == [] then TradeStatistics(0, 0.0, 0.0, 0)
    else TradeStatistics(|ts|, SumTotal(ts), SumProfit(ts), WinCount(ts))
  }

  /** The answer to a query: one page of the filtered trades, the filtered count and its statistics. */
  datatype TradePage = TradePage(records: seq<Trade>, total: int, statistics: TradeStatistics)

  class TradeCache {
    var recentTrades: seq<Trade>

    constructor ()
      ensures recentTrades == []
    {
      recentTrades := [];
    }

    /** Appends the trade and keeps only the newest `CacheLimit` records. */
    method AddToRecentTrades(t: Trade)
      modifies this
      ensures |recentTrades| == if |old(recentTrades)| < CacheLimit then |old(recentTrades)| + 1 else CacheLimit
      ensures recentTrades != [] && recentTrades[|recentTrades| - 1] == t
      ensures exists k :: 0 <= k <= |old(recentTrades)| && recentTrades == (old(recentTrades) + [t])[k..]
      ensures |old(recentTrades)| < CacheLimit ==> recentTrades == old(recentTrades) + [t]
    {
      var s := recentTrades + [t];
      if |s| > CacheLimit {
        s := PySlice(s, -CacheLimit, |s|);
        assert s == (recentTrades + [t])[|recentTrades| + 1 - CacheLimit..];
      } else {
        assert s == s[0..];
      }
      recentTrades := s;
    }

    /** A page of the filtered cache, with the filtered count and statistics. */
    method GetTransactions(q: TradeQuery) returns (r: TradePage)
      ensures r.records == Page(Filtered(recentTrades, q), q.page, q.pageSize)
      ensures r.total == |Filtered(recentTrades, q)|
      ensures r.statistics == CalculateStatistics(Filtered(recentTrades, q))
      ensures r.total <= |recentTrades|
    {
      var filtered := FilterTrades(recentTrades, q);
      FilteredIsOrderedSelection(recentTrades, q);
      var start := (q.page - 1) * q.pageSize;
      assert PySlice(filtered, start, start + q.pageSize) == Page(filtered, q.page, q.pageSize);
      r := TradePage(PySlice(filtered, start, start + q.pageSize), |filtered|, CalculateStatistics(filtered));
    }
  }
}
