/** Tumbling windows of the risk engine: the order-frequency window, the
    loss-streak window and the account loss window. Each step takes the window
    (absent before the first event), the event time and the window length. */
module TimeWindow {
  import opened Common

  datatype TimeWindowState = TimeWindowState(
    startTime: real,
    endTime: real,
    totalLoss: real,
    totalProfit: real,
    tradeCount: int,
    consecutiveLosses: int)

  /** A trade as the windows see it: when it happened and its signed result. */
  datatype Trade = Trade(time: real, result: real)

  /** A fresh window opened at `now`, all counters zero. */
  function Opened(now: real, len: int): TimeWindowState
  {
    TimeWindowState(now, now + len as real, 0.0, 0.0, 0, 0)
  }

  /** True when this event opens a new window: there is none yet, or the
      current one ended before `now`. */
  predicate Rolls(w: Option<TimeWindowState>, now: real)
  {
    w.None? || now > w.value.endTime
  }

  /** Order-frequency window: every trade counts; a rollover restarts the count at this trade. */
  function FrequencyStep(w: Option<TimeWindowState>, now: real, len: int): TimeWindowState
  {
    if w.None? then Opened(now, len).(tradeCount := 1)
    else if now > w.value.endTime then
      w.value.(startTime := now, endTime := now + len as real, tradeCount := 1)
    else w.value.(tradeCount := w.value.tradeCount + 1)
  }

  /** Loss-streak window: a loss extends the streak, anything else resets it. */
  function LossStreakStep(w: Option<TimeWindowState>, now: real, result: real, len: int): TimeWindowState
  {
    var seed := if result < 0.0 then 1 else 0;
    if w.None? then Opened(now, len).(consecutiveLosses := seed)
    else if now > w.value.endTime then
      w.value.(startTime := now, endTime := now + len as real, consecutiveLosses := seed)
    else if result < 0.0 then w.value.(consecutiveLosses := w.value.consecutiveLosses + 1)
    else w.value.(consecutiveLosses := 0)
  }

  /** Account window: losses add their size to `totalLoss`, other results add to `totalProfit`. */
  function AccountStep(w: Option<TimeWindowState>, now: real, result: real, len: int): TimeWindowState
  {
    var loss := if result < 0.0 then Abs(result) else 0.0;
    var profit := if result > 0.0 then result else 0.0;
    if w.None? then Opened(now, len).(totalLoss := loss, totalProfit := profit)
    else if now > w.value.endTime then
      w.value.(startTime := now, endTime := now + len as real, totalLoss := loss, totalProfit := profit)
    else if result < 0.0 then w.value.(totalLoss := w.value.totalLoss + Abs(result))
    else w.value.(totalProfit := w.value.totalProfit + result)
  }

  /** Every step leaves a window that is current at `now` (for a non-negative
      length), and either reopens it at `now` or keeps its bounds. */
  lemma StepsKeepWindowCurrent(w: Option<TimeWindowState>, now: real, result: real, len: int)
    requires len >= 0
    ensures var f := FrequencyStep(w, now, len);
      now <= f.endTime
      && (if Rolls(w, now) then f.startTime == now && f.endTime == now + len as real && f.tradeCount == 1
          else f.startTime == w.value.startTime && f.endTime == w.value.endTime
               && f.tradeCount == w.value.tradeCount + 1)
    ensures var s := LossStreakStep(w, now, result, len);
      now <= s.endTime
      && (if Rolls(w, now) then s.startTime == now && s.endTime == now + len as real
          else s.startTime == w.value.startTime && s.endTime == w.value.endTime)
      && (result < 0.0 ==> s.consecutiveLosses == (if Rolls(w, now) then 0 else w.value.consecutiveLosses) + 1)
      && (result >= 0.0 ==> s.consecutiveLosses == 0)
    ensures var a := AccountStep(w, now, result, len);
      now <= a.endTime
      && (if Rolls(w, now) then a.startTime == now && a.endTime == now + len as real
          else a.startTime == w.value.startTime && a.endTime == w.value.endTime)
      && a.totalLoss == (if Rolls(w, now) then 0.0 else w.value.totalLoss) + (if result < 0.0 then -result else 0.0)
      && a.totalProfit == (if Rolls(w, now) then 0.0 else w.value.totalProfit) + (if result > 0.0 then result else 0.0)
  {
  }

  // ---- the windows over a whole trade history ----

  /** Trades arrive in time order. */
  ghost predicate Chronological(es: seq<Trade>)
  {
    forall i, j :: 0 <= i < j < |es| ==> es[i].time <= es[j].time
  }

  function Last(es: seq<Trade>): Trade
    requires es != []
  {
    es[|es| - 1]
  }

  function Init(es: seq<Trade>): seq<Trade>
    requires es != []
  {
    es[..|es| - 1]
  }

  /** The windows after feeding a whole history, one step per trade. */
  function FrequencyAfter(es: seq<Trade>, len: int): Option<TimeWindowState>
  {
    if es == [] then None else Some(FrequencyStep(FrequencyAfter(Init(es), len), Last(es).time, len))
  }

  function LossStreakAfter(es: seq<Trade>, len: int): Option<TimeWindowState>
  {
    if es == [] then None
    else Some(LossStreakStep(LossStreakAfter(Init(es), len), Last(es).time, Last(es).result, len))
  }

  function AccountAfter(es: seq<Trade>, len: int): Option<TimeWindowState>
  {
    if es == [] then None
    else Some(AccountStep(AccountAfter(Init(es), len), Last(es).time, Last(es).result, len))
  }

  /** Reference definitions, independent of the steps: what the trades at or
      after time `t` add up to. */
  function CountSince(es: seq<Trade>, t: real): nat
  {
    if es == [] then 0 else CountSince(Init(es), t) + (if Last(es).time >= t then 1 else 0)
  }

  function LossSince(es: seq<Trade>, t: real): real
  {
    if es == [] then 0.0
    else LossSince(Init(es), t) + (if Last(es).time >= t && Last(es).result < 0.0 then -Last(es).result else 0.0)
  }

  function ProfitSince(es: seq<Trade>, t: real): real
  {
    if es == [] then 0.0
    else ProfitSince(Init(es), t) + (if Last(es).time >= t && Last(es).result > 0.0 then Last(es).result else 0.0)
  }

  /** Length of the run of losses that ends the history, counting only trades at or after `t`. */
  function TrailingLossesSince(es: seq<Trade>, t: real): nat
  {
    if es == [] then 0
    else if Last(es).time >= t && Last(es).result < 0.0 then TrailingLossesSince(Init(es), t) + 1
    else 0
  }

  lemma {:induction false} NothingSinceLater(es: seq<Trade>, t: real)
    requires forall i :: 0 <= i < |es| ==> es[i].time < t
    ensures CountSince(es, t) == 0 && LossSince(es, t) == 0.0 && ProfitSince(es, t) == 0.0
    ensures TrailingLossesSince(es, t) == 0
  {
    if es != [] {
      NothingSinceLater(Init(es), t);
    }
  }

  lemma ChronologicalInit(es: seq<Trade>)
    requires es != [] && Chronological(es)
    ensures Chronological(Init(es))
    ensures forall i :: 0 <= i < |es| ==> es[i].time <= Last(es).time
  {
  }

  /** Shape shared by the three windows after a history: the window spans
      `len` seconds, started at or before the last trade, and every trade so far
      happened no later than its end. */
  ghost predicate WindowCovers(es: seq<Trade>, w: TimeWindowState, len: int)
    requires es != []
  {
    && w.endTime == w.startTime + len as real
    && w.startTime <= Last(es).time
    && (forall i :: 0 <= i < |es| ==> es[i].time <= w.endTime)
  }

  /** The order-frequency window counts exactly the trades since its start:
      a tumbling window, re-seeded at each rollover. */
  lemma {:induction false} FrequencyCountsTradesSinceStart(es: seq<Trade>, len: int)
    requires es != [] && Chronological(es) && len >= 0
    ensures FrequencyAfter(es, len).Some?
    ensures WindowCovers(es, FrequencyAfter(es, len).value, len)
    ensures FrequencyAfter(es, len).value.tradeCount == CountSince(es, FrequencyAfter(es, len).value.startTime)
  {
    var init, e := Init(es), Last(es);
    ChronologicalInit(es);
    var w := FrequencyAfter(es, len).value;
    if init == [] {
      assert CountSince(init, e.time) == 0;
    } else {
      FrequencyCountsTradesSinceStart(init, len);
      var w0 := FrequencyAfter(init, len).value;
      assert Last(init) == es[|es| - 2];
      if e.time > w0.endTime {
        NothingSinceLater(init, e.time);
      } else {
        assert e.time >= w0.startTime;
      }
    }
  }

  /** The loss-streak window holds the length of the loss run that ends the
      history, counting only trades since the window opened. */
  lemma {:induction false} StreakCountsTrailingLossesSinceStart(es: seq<Trade>, len: int)
    requires es != [] && Chronological(es) && len >= 0
    ensures LossStreakAfter(es, len).Some?
    ensures WindowCovers(es, LossStreakAfter(es, len).value, len)
    ensures LossStreakAfter(es, len).value.consecutiveLosses
         == TrailingLossesSince(es, LossStreakAfter(es, len).value.startTime)
  {
    var init, e := Init(es), Last(es);
    ChronologicalInit(es);
    if init == [] {
      assert TrailingLossesSince(init, e.time) == 0;
    } else {
      StreakCountsTrailingLossesSinceStart(init, len);
      var w0 := LossStreakAfter(init, len).value;
      assert Last(init) == es[|es| - 2];
      if e.time > w0.endTime {
        NothingSinceLater(init, e.time);
      } else {
        assert e.time >= w0.startTime;
      }
    }
  }

  /** The account window holds the total size of the losses and the total of
      the profits of the trades since the window opened. */
  lemma {:induction false} AccountSumsTradesSinceStart(es: seq<Trade>, len: int)
    requires es != [] && Chronological(es) && len >= 0
    ensures AccountAfter(es, len).Some?
    ensures WindowCovers(es, AccountAfter(es, len).value, len)
    ensures AccountAfter(es, len).value.totalLoss == LossSince(es, AccountAfter(es, len).value.startTime)
    ensures AccountAfter(es, len).value.totalProfit == ProfitSince(es, AccountAfter(es, len).value.startTime)
  {
    var init, e := Init(es), Last(es);
    ChronologicalInit(es);
    if init == [] {
      assert LossSince(init, e.time) == 0.0 && ProfitSince(init, e.time) == 0.0;
    } else {
      AccountSumsTradesSinceStart(init, len);
      var w0 := AccountAfter(init, len).value;
      assert Last(init) == es[|es| - 2];
      if e.time > w0.endTime {
        NothingSinceLater(init, e.time);
      } else {
        assert e.time >= w0.startTime;
      }
    }
  }
}
