/** The controller-hosting strategy script's supervision rules: per-controller
    and global peak-PnL drawdown limits, the timed cash-out latch, the manual
    kill switch with its restart rule, and the throttled performance report.
    Controllers are reduced to their run status and kill switch; the
    performance reports to each controller's global PnL. */
module CashOut {
  import opened Common

  datatype RunStatus = NotStarted | Running | Terminated

  datatype Controller = Controller(status: RunStatus, manualKillSwitch: bool)

  /** The peak after seeing `pnl`: raised when exceeded, otherwise kept. */
  function NewPeak(peak: real, pnl: real): (r: real)
    ensures r >= peak
    ensures r == peak || r == pnl
    ensures pnl > peak <==> r == pnl && r != peak
  {
    if pnl > peak then pnl else peak
  }

  /** A drawdown exit: the PnL did not set a new peak and fell more than `limit` below it. */
  predicate DrawdownHit(peak: real, pnl: real, limit: real)
  {
    pnl <= peak && peak - pnl > limit
  }

  /** Every listed controller has a peak and a PnL. */
  predicate Visitable(ids: seq<string>, peaks: map<string, real>, pnl: map<string, real>)
  {
    forall id :: id in ids ==> id in peaks && id in pnl
  }

  /** The controllers among the first `n` that the drawdown check stops, in controller order. */
  function HitsUpTo(ids: seq<string>, n: nat, peaks: map<string, real>, pnl: map<string, real>, limit: real): (hits: seq<string>)
    requires n <= |ids| && Visitable(ids, peaks, pnl)
    ensures |hits| <= n
  {
    if n == 0 then []
    else
      var id := ids[n - 1];
      HitsUpTo(ids, n - 1, peaks, pnl, limit) + (if DrawdownHit(peaks[id], pnl[id], limit) then [id] else [])
  }

  /** The controllers a drawdown check stops, in controller order. */
  function DrawdownHits(ids: seq<string>, peaks: map<string, real>, pnl: map<string, real>, limit: real): (hits: seq<string>)
    requires Visitable(ids, peaks, pnl)
    ensures |hits| <= |ids|
  {
    HitsUpTo(ids, |ids|, peaks, pnl, limit)
  }

  lemma {:induction false} HitsUpToExactly(ids: seq<string>, n: nat, peaks: map<string, real>, pnl: map<string, real>, limit: real)
    requires n <= |ids| && Visitable(ids, peaks, pnl)
    ensures forall id :: id in HitsUpTo(ids, n, peaks, pnl, limit) <==> id in ids[..n] && DrawdownHit(peaks[id], pnl[id], limit)
  {
    if n > 0 {
      assert forall x :: x in ids[..n] <==> x in ids[..n - 1] || x == ids[n - 1];
      HitsUpToExactly(ids, n - 1, peaks, pnl, limit);
    }
  }

  /** Exactly the controllers in drawdown are stopped. */
  lemma DrawdownHitsExactly(ids: seq<string>, peaks: map<string, real>, pnl: map<string, real>, limit: real)
    requires Visitable(ids, peaks, pnl)
    ensures forall id :: id in DrawdownHits(ids, peaks, pnl, limit) <==> id in ids && DrawdownHit(peaks[id], pnl[id], limit)
  {
    HitsUpToExactly(ids, |ids|, peaks, pnl, limit);
    assert ids[..|ids|] == ids;
  }

  /** The peaks once the drawdown check has visited the first `n` controllers: each moved by its PnL. */
  function PeaksUpTo(peaks: map<string, real>, ids: seq<string>, n: nat, pnl: map<string, real>): (r: map<string, real>)
    requires n <= |ids| && Visitable(ids, peaks, pnl)
    ensures forall x :: x in r <==> x in peaks
  {
    if n == 0 then peaks
    else
      var id := ids[n - 1];
      PeaksUpTo(peaks, ids, n - 1, pnl)[id := NewPeak(peaks[id], pnl[id])]
  }

  /** The controllers once the drawdown check has visited the first `n`: those in drawdown are terminated. */
  function StoppedUpTo(cs: map<string, Controller>, ids: seq<string>, n: nat, peaks: map<string, real>,
                       pnl: map<string, real>, limit: real): (r: map<string, Controller>)
    requires n <= |ids| && Visitable(ids, peaks, pnl) && forall id :: id in ids ==> id in cs
    ensures forall x :: x in r <==> x in cs
  {
    if n == 0 then cs
    else
      var id := ids[n - 1];
      var rest := StoppedUpTo(cs, ids, n - 1, peaks, pnl, limit);
      if DrawdownHit(peaks[id], pnl[id], limit) then rest[id := rest[id].(status := Terminated)] else rest
  }

  /** With distinct ids, each visited controller's peak has moved once and every other peak is kept. */
  lemma {:induction false} PeaksUpToAt(peaks: map<string, real>, ids: seq<string>, n: nat, pnl: map<string, real>)
    requires Distinct(ids) && n <= |ids| && Visitable(ids, peaks, pnl)
    ensures forall k :: 0 <= k < n ==> PeaksUpTo(peaks, ids, n, pnl)[ids[k]] == NewPeak(peaks[ids[k]], pnl[ids[k]])
    ensures forall k :: n <= k < |ids| ==> PeaksUpTo(peaks, ids, n, pnl)[ids[k]] == peaks[ids[k]]
    ensures forall x :: x in peaks && x !in ids ==> PeaksUpTo(peaks, ids, n, pnl)[x] == peaks[x]
  {
    if n > 0 {
      PeaksUpToAt(peaks, ids, n - 1, pnl);
    }
  }

  /** With distinct ids, exactly the visited controllers in drawdown are terminated. */
  lemma {:induction false} StoppedUpToAt(cs: map<string, Controller>, ids: seq<string>, n: nat, peaks: map<string, real>,
                                         pnl: map<string, real>, limit: real)
    requires Distinct(ids) && n <= |ids| && Visitable(ids, peaks, pnl) && forall id :: id in ids ==> id in cs
    ensures forall k :: 0 <= k < n ==>
      StoppedUpTo(cs, ids, n, peaks, pnl, limit)[ids[k]]
      == (if DrawdownHit(peaks[ids[k]], pnl[ids[k]], limit) then cs[ids[k]].(status := Terminated) else cs[ids[k]])
    ensures forall k :: n <= k < |ids| ==> StoppedUpTo(cs, ids, n, peaks, pnl, limit)[ids[k]] == cs[ids[k]]
    ensures forall x :: x in cs && x !in ids ==> StoppedUpTo(cs, ids, n, peaks, pnl, limit)[x] == cs[x]
  {
    if n > 0 {
      StoppedUpToAt(cs, ids, n - 1, peaks, pnl, limit);
    }
  }

  /** Visiting the next controller: its peak is still the initial one, and
      moves only when its PnL is higher. */
  lemma PeaksStep(peaks: map<string, real>, ids: seq<string>, i: nat, pnl: map<string, real>)
    requires Distinct(ids) && i < |ids| && Visitable(ids, peaks, pnl)
    ensures var id := ids[i];
      var before := PeaksUpTo(peaks, ids, i, pnl);
      && before[id] == peaks[id]
      && (pnl[id] > peaks[id] ==> PeaksUpTo(peaks, ids, i + 1, pnl) == before[id := pnl[id]])
      && (pnl[id] <= peaks[id] ==> PeaksUpTo(peaks, ids, i + 1, pnl) == before)
  {
    PeaksUpToAt(peaks, ids, i, pnl);
    var id := ids[i];
    var before := PeaksUpTo(peaks, ids, i, pnl);
    if pnl[id] <= peaks[id] {
      assert before[id := peaks[id]] == before;
    }
  }

  /** The loop of the drawdown check over the controllers in order: it moves
      each peak, terminates the controllers in drawdown and lists them. */
  method DrawdownPass(ids: seq<string>, peaks0: map<string, real>, cs0: map<string, Controller>,
                      pnl: map<string, real>, limit: real)
    returns (peaks: map<string, real>, cs: map<string, Controller>, hits: seq<string>)
    requires Distinct(ids) && Visitable(ids, peaks0, pnl) && forall id :: id in ids ==> id in cs0
    ensures peaks == PeaksUpTo(peaks0, ids, |ids|, pnl)
    ensures cs == StoppedUpTo(cs0, ids, |ids|, peaks0, pnl, limit)
    ensures hits == DrawdownHits(ids, peaks0, pnl, limit)
  {
    peaks, cs, hits := peaks0, cs0, [];
    var i := 0;
    while i < |ids|
      invariant 0 <= i <= |ids|
      invariant peaks == PeaksUpTo(peaks0, ids, i, pnl)
      invariant cs == StoppedUpTo(cs0, ids, i, peaks0, pnl, limit)
      invariant hits == HitsUpTo(ids, i, peaks0, pnl, limit)
    {
      var id := ids[i];
      PeaksStep(peaks0, ids, i, pnl);
      var p := pnl[id];
      var last := peaks[id];
      assert DrawdownHit(peaks0[id], p, limit) <==> p <= last && last - p > limit;
      if p > last {
        peaks := peaks[id := p];
      } else {
        if last - p > limit {
          cs := cs[id := cs[id].(status := Terminated)];
          hits := hits + [id];
        }
      }
      i := i + 1;
    }
  }

  /** Sum of the controllers' PnL: the global PnL. */
  function SumPnl(ids: seq<string>, pnl: map<string, real>): real
    requires forall id :: id in ids ==> id in pnl
  {
    if ids == [] then 0.0 else SumPnl(ids[..|ids| - 1], pnl) + pnl[ids[|ids| - 1]]
  }

  /** The cash-out time is truthy and reached. */
  predicate CashOutDue(cashOutTime: Option<real>, now: real)
  {
    RealSet(cashOutTime) && now >= cashOutTime.value
  }

  function StopIfRunning(c: Controller): (r: Controller)
    ensures r.manualKillSwitch == c.manualKillSwitch
    ensures c.status == Running ==> r.status == Terminated
    ensures c.status != Running ==> r == c
  {
    if c.status == Running then c.(status := Terminated) else c
  }

  /** The manual check on one controller: a running controller whose kill
      switch is on is stopped; a terminated one whose switch is off is
      restarted unless it left on a drawdown. */
  function AfterManualCheck(c: Controller, drawdownExited: bool): (r: Controller)
    ensures r.manualKillSwitch == c.manualKillSwitch
    ensures c.manualKillSwitch && c.status == Running ==> r.status == Terminated
    ensures !c.manualKillSwitch && c.status == Terminated ==> r.status == (if drawdownExited then Terminated else Running)
    ensures c.status != Running && c.status != Terminated ==> r == c
    ensures c.manualKillSwitch && c.status == Terminated ==> r == c
    ensures !c.manualKillSwitch && c.status == Running ==> r == c
  {
    if c.manualKillSwitch && c.status == Running then c.(status := Terminated)
    else if !c.manualKillSwitch && c.status == Terminated && !drawdownExited then c.(status := Running)
    else c
  }

  /** A controller stopped by its drawdown limit stays stopped through every
      later manual check, whatever its kill switch, while one stopped by its
      kill switch comes back once the switch is turned off. */
  lemma DrawdownExitIsFinal(c: Controller)
    requires c.status == Terminated
    ensures AfterManualCheck(c, true) == c
    ensures AfterManualCheck(AfterManualCheck(c, true), true) == c
    ensures AfterManualCheck(c.(manualKillSwitch := false), false).status == Running
  {
  }

  class CashOutStrategy {
    const ids: seq<string>
    var controllers: map<string, Controller>
    var maxPnlByController: map<string, real>
    var maxGlobalPnl: real
    var drawdownExitedControllers: seq<string>
    var cashingOut: bool
    const cashOutTime: Option<real>
    const maxControllerDrawdown: Option<real>
    const maxGlobalDrawdown: Option<real>
    const performanceReportInterval: int
    const mqttEnabled: bool
    var lastPerformanceReportTimestamp: real
    var publishedReports: seq<map<string, real>>
    var appStopped: bool

    /** The controller dict: `ids` are its keys in order. */
    ghost predicate Valid()
      reads this
    {
      Distinct(ids) && forall id :: id in controllers <==> id in ids
    }

    /** The cash-out time is `now` plus the configured delay when one is set (non-zero). */
    constructor (ids: seq<string>, controllers: map<string, Controller>, timeToCashOut: Option<int>, now: real,
                 maxControllerDrawdown: Option<real>, maxGlobalDrawdown: Option<real>,
                 reportInterval: int, mqttEnabled: bool)
      requires Distinct(ids) && forall id :: id in controllers <==> id in ids
      ensures Valid()
      ensures this.ids == ids && this.controllers == controllers
      ensures cashOutTime == if IntSet(timeToCashOut) then Some(timeToCashOut.value as real + now) else None
      ensures !cashingOut && maxGlobalPnl == 0.0 && maxPnlByController == map[] && drawdownExitedControllers == []
      ensures this.maxControllerDrawdown == maxControllerDrawdown && this.maxGlobalDrawdown == maxGlobalDrawdown
      ensures performanceReportInterval == reportInterval && this.mqttEnabled == mqttEnabled
      ensures lastPerformanceReportTimestamp == 0.0 && publishedReports == [] && !appStopped
    {
      this.ids := ids;
      this.controllers := controllers;
      cashingOut := false;
      maxPnlByController := map[];
      maxGlobalPnl := 0.0;
      drawdownExitedControllers := [];
      performanceReportInterval := reportInterval;
      lastPerformanceReportTimestamp := 0.0;
      this.mqttEnabled := mqttEnabled;
      this.maxControllerDrawdown := maxControllerDrawdown;
      this.maxGlobalDrawdown := maxGlobalDrawdown;
      publishedReports := [];
      appStopped := false;
      cashOutTime := if IntSet(timeToCashOut) then Some(timeToCashOut.value as real + now) else None;
    }

    /** At start every controller's peak is reset to zero. */
    method ApplyInitialSetting()
      requires Valid()
      modifies this`maxPnlByController
      ensures forall id :: id in maxPnlByController <==> id in old(maxPnlByController) || id in ids
      ensures forall id :: id in ids ==> maxPnlByController[id] == 0.0
      ensures forall id :: id in old(maxPnlByController) && id !in ids ==> maxPnlByController[id] == old(maxPnlByController)[id]
    {
      for i := 0 to |ids|
        invariant forall id :: id in maxPnlByController <==> id in old(maxPnlByController) || id in ids[..i]
        invariant forall id :: id in ids[..i] ==> maxPnlByController[id] == 0.0
        invariant forall id :: id in old(maxPnlByController) && id !in ids[..i] ==>
          maxPnlByController[id] == old(maxPnlByController)[id]
      {
        assert forall x :: x in ids[..i + 1] <==> x in ids[..i] || x == ids[i];
        maxPnlByController := maxPnlByController[ids[i] := 0.0];
      }
      assert ids[..|ids|] == ids;
    }

    /** Each controller's peak follows its PnL; a controller that fell more
        than the limit below its peak is stopped and recorded as exited (again
        on every such check). */
    method CheckMaxControllerDrawdown(pnl: map<string, real>)
      requires Valid() && maxControllerDrawdown.Some?
      requires forall id :: id in ids ==> id in pnl && id in maxPnlByController
      modifies this`maxPnlByController, this`controllers, this`drawdownExitedControllers
      ensures Valid()
      ensures forall id :: id in maxPnlByController <==> id in old(maxPnlByController)
      ensures forall id :: id in ids ==> maxPnlByController[id] == NewPeak(old(maxPnlByController)[id], pnl[id])
      ensures forall id :: id in old(maxPnlByController) && id !in ids ==> maxPnlByController[id] == old(maxPnlByController)[id]
      ensures drawdownExitedControllers == old(drawdownExitedControllers)
        + DrawdownHits(ids, old(maxPnlByController), pnl, maxControllerDrawdown.value)
      ensures forall id :: id in controllers ==>
        controllers[id] == if DrawdownHit(old(maxPnlByController)[id], pnl[id], maxControllerDrawdown.value)
                           then old(controllers)[id].(status := Terminated) else old(controllers)[id]
    {
      var limit := maxControllerDrawdown.value;
      var peaks, cs, hits := DrawdownPass(ids, maxPnlByController, controllers, pnl, limit);
      PeaksUpToAt(maxPnlByController, ids, |ids|, pnl);
      StoppedUpToAt(controllers, ids, |ids|, maxPnlByController, pnl, limit);
      maxPnlByController, controllers, drawdownExitedControllers := peaks, cs, drawdownExitedControllers + hits;
    }

    /** The global peak follows the summed PnL; a fall of more than the limit
        below it records every controller as exited and stops the app. */
    method CheckMaxGlobalDrawdown(pnl: map<string, real>)
      requires maxGlobalDrawdown.Some?
      requires forall id :: id in ids ==> id in pnl
      modifies this`maxGlobalPnl, this`drawdownExitedControllers, this`appStopped
      ensures maxGlobalPnl == NewPeak(old(maxGlobalPnl), SumPnl(ids, pnl))
      ensures DrawdownHit(old(maxGlobalPnl), SumPnl(ids, pnl), maxGlobalDrawdown.value) ==>
        drawdownExitedControllers == old(drawdownExitedControllers) + ids && appStopped
      ensures !DrawdownHit(old(maxGlobalPnl), SumPnl(ids, pnl), maxGlobalDrawdown.value) ==>
        drawdownExitedControllers == old(drawdownExitedControllers) && appStopped == old(appStopped)
    {
      var current := SumPnl(ids, pnl);
      if current > maxGlobalPnl {
        maxGlobalPnl := current;
      } else if maxGlobalPnl - current > maxGlobalDrawdown.value {
        drawdownExitedControllers := drawdownExitedControllers + ids;
        appStopped := true;
      }
    }

    /** Each drawdown check runs only when its limit is set and non-zero. */
    method ControlMaxDrawdown(pnl: map<string, real>)
      requires Valid()
      requires forall id :: id in ids ==> id in pnl
      requires RealSet(maxControllerDrawdown) ==> forall id :: id in ids ==> id in maxPnlByController
      modifies this`maxPnlByController, this`controllers, this`drawdownExitedControllers, this`maxGlobalPnl, this`appStopped
      ensures Valid()
      ensures !RealSet(maxControllerDrawdown) ==> maxPnlByController == old(maxPnlByController) && controllers == old(controllers)
      ensures !RealSet(maxGlobalDrawdown) ==> maxGlobalPnl == old(maxGlobalPnl) && appStopped == old(appStopped)
      ensures !RealSet(maxControllerDrawdown) && !RealSet(maxGlobalDrawdown) ==>
        drawdownExitedControllers == old(drawdownExitedControllers)
      ensures forall id :: id in ids ==> id in maxPnlByController || !RealSet(maxControllerDrawdown)
      ensures RealSet(maxControllerDrawdown) ==>
        && (forall id :: id in maxPnlByController <==> id in old(maxPnlByController))
        && (forall id :: id in ids ==> maxPnlByController[id] == NewPeak(old(maxPnlByController)[id], pnl[id]))
        && (forall id :: id in old(maxPnlByController) && id !in ids ==>
              maxPnlByController[id] == old(maxPnlByController)[id])
        && (forall id :: id in controllers ==>
              controllers[id] == if DrawdownHit(old(maxPnlByController)[id], pnl[id], maxControllerDrawdown.value)
                                 then old(controllers)[id].(status := Terminated) else old(controllers)[id])
      ensures RealSet(maxGlobalDrawdown) ==> maxGlobalPnl == NewPeak(old(maxGlobalPnl), SumPnl(ids, pnl))
      ensures RealSet(maxGlobalDrawdown) ==>
        appStopped == (old(appStopped) || DrawdownHit(old(maxGlobalPnl), SumPnl(ids, pnl), maxGlobalDrawdown.value))
      ensures drawdownExitedControllers == old(drawdownExitedControllers)
        + (if RealSet(maxControllerDrawdown)
           then DrawdownHits(ids, old(maxPnlByController), pnl, maxControllerDrawdown.value) else [])
        + (if RealSet(maxGlobalDrawdown) && DrawdownHit(old(maxGlobalPnl), SumPnl(ids, pnl), maxGlobalDrawdown.value)
           then ids else [])
    {
      if RealSet(maxControllerDrawdown) {
        CheckMaxControllerDrawdown(pnl);
      }
      if RealSet(maxGlobalDrawdown) {
        CheckMaxGlobalDrawdown(pnl);
      }
    }

    /** Publishes the reports and moves the timestamp only when the interval
        has elapsed and MQTT is enabled. */
    method SendPerformanceReport(now: real, reports: map<string, real>)
      modifies this`publishedReports, this`lastPerformanceReportTimestamp
      ensures var due := now - old(lastPerformanceReportTimestamp) >= performanceReportInterval as real && mqttEnabled;
        && (due ==> publishedReports == old(publishedReports) + [reports] && lastPerformanceReportTimestamp == now)
        && (!due ==> publishedReports == old(publishedReports)
                     && lastPerformanceReportTimestamp == old(lastPerformanceReportTimestamp))
    {
      if now - lastPerformanceReportTimestamp >= performanceReportInterval as real && mqttEnabled {
        publishedReports := publishedReports + [reports];
        lastPerformanceReportTimestamp := now;
      }
    }

    /** The cash-out latch: once the cash-out time is reached it is set for
        good, and the running controllers are stopped on that transition only. */
    method EvaluateCashOutTime(now: real)
      requires Valid()
      modifies this`cashingOut, this`controllers
      ensures Valid()
      ensures cashingOut == (old(cashingOut) || CashOutDue(cashOutTime, now))
      ensures !old(cashingOut) && cashingOut ==>
        forall id :: id in controllers ==> controllers[id] == StopIfRunning(old(controllers)[id])
      ensures old(cashingOut) || !cashingOut ==> controllers == old(controllers)
      ensures forall id :: id in controllers <==> id in old(controllers)
    {
      if CashOutDue(cashOutTime, now) && !cashingOut {
        for i := 0 to |ids|
          invariant forall id :: id in controllers <==> id in old(controllers)
          invariant forall id :: id in controllers ==>
            controllers[id] == if id in ids[..i] then StopIfRunning(old(controllers)[id]) else old(controllers)[id]
        {
          assert forall x :: x in ids[..i + 1] <==> x in ids[..i] || x == ids[i];
          assert ids[i] !in ids[..i];
          if controllers[ids[i]].status == Running {
            controllers := controllers[ids[i] := controllers[ids[i]].(status := Terminated)];
          }
        }
        assert ids[..|ids|] == ids;
        cashingOut := true;
      }
    }

    /** The manual kill switch and restart rule applied to every controller. */
    method CheckManualCashOut()
      requires Valid()
      modifies this`controllers
      ensures Valid()
      ensures forall id :: id in controllers <==> id in old(controllers)
      ensures forall id :: id in controllers ==>
        controllers[id] == AfterManualCheck(old(controllers)[id], id in drawdownExitedControllers)
    {
      for i := 0 to |ids|
        invariant forall id :: id in controllers <==> id in old(controllers)
        invariant forall id :: id in controllers ==>
          controllers[id] == if id in ids[..i] then AfterManualCheck(old(controllers)[id], id in drawdownExitedControllers)
                             else old(controllers)[id]
      {
        var id := ids[i];
        assert forall x :: x in ids[..i + 1] <==> x in ids[..i] || x == id;
        assert id !in ids[..i];
        var c := controllers[id];
        if c.manualKillSwitch && c.status == Running {
          c := c.(status := Terminated);
          controllers := controllers[id := c];
        }
        if !c.manualKillSwitch && c.status == Terminated {
          if id !in drawdownExitedControllers {
            controllers := controllers[id := c.(status := Running)];
          }
        }
      }
      assert ids[..|ids|] == ids;
    }

    /** The cash-out step of a tick. While cashing out, the app stops once no
        executor is running; otherwise the manual switches are handled. */
    method ControlCashOut(now: real, anyExecutorRunning: bool)
      requires Valid()
      modifies this`cashingOut, this`controllers, this`appStopped
      ensures Valid()
      ensures cashingOut == (old(cashingOut) || CashOutDue(cashOutTime, now))
      ensures cashingOut ==> appStopped == (old(appStopped) || !anyExecutorRunning)
      ensures !cashingOut ==> appStopped == old(appStopped)
      ensures forall id :: id in controllers <==> id in old(controllers)
      ensures old(cashingOut) ==> controllers == old(controllers)
      ensures !old(cashingOut) && cashingOut ==>
        forall id :: id in controllers ==> controllers[id] == StopIfRunning(old(controllers)[id])
      ensures !cashingOut ==>
        forall id :: id in controllers ==> controllers[id] == AfterManualCheck(old(controllers)[id], id in drawdownExitedControllers)
    {
      EvaluateCashOutTime(now);
      if cashingOut {
        if !anyExecutorRunning {
          appStopped := true;
        }
      } else {
        CheckManualCashOut();
      }
    }
  }
}
