/** The SIYLConditions indicator as an object: the fields its callbacks assign in place,
    and one method per callback or updater, each proved to follow the matching step
    function of module Evaluator and to keep the range labels in agreement. */
module Indicator {
  import opened Conditions
  import opened Evaluator

  class SIYLConditions {
    /** The ATRPeriod parameter (default 7), fixed when the indicator is created. */
    const atrPeriod: int
    /** The host's ApproxCompare(0) == 0 test. */
    const nearZero: ZeroTest

    var lastPrice: real
    var currentHigh: real
    var currentLow: real
    var volatilityPercent: real
    var rangePosition: RangePosition
    var trendStatus: Trend
    var tlineBias: Bias

    /** The fields as a value. */
    function Snapshot(): Fields
      reads this
    {
      Fields(lastPrice, currentHigh, currentLow, volatilityPercent, rangePosition, trendStatus, tlineBias)
    }

    ghost predicate Valid()
      reads this
    {
      LabelsAgree(Snapshot())
    }

    constructor (atrPeriod: int, nearZero: ZeroTest)
      ensures Valid()
      ensures Snapshot() == Initial
      ensures this.atrPeriod == atrPeriod && this.nearZero == nearZero
    {
      this.atrPeriod := atrPeriod;
      this.nearZero := nearZero;
      lastPrice, currentHigh, currentLow, volatilityPercent := 0.0, 0.0, 0.0, 0.0;
      rangePosition, trendStatus, tlineBias := RangeUnset, TrendUnset, BiasUnset;
    }

    /** A trade sets lastPrice; all other market data is ignored. */
    method OnMarketData(kind: MarketDataType, price: real)
      requires Valid()
      modifies this
      ensures Valid()
      ensures Snapshot() == MarketDataStep(old(Snapshot()), kind, price)
    {
      if kind == Last {
        lastPrice := price;
      }
    }

    method CalculateVolatility(dailyBars: int, atr: real, todayHigh: real, todayLow: real)
      requires Valid()
      modifies this
      ensures Valid()
      ensures Snapshot() == VolatilityStep(old(Snapshot()), dailyBars, atrPeriod, atr, todayHigh, todayLow, nearZero)
    {
      if dailyBars < atrPeriod {
        return;
      }
      var atrValue := atr;
      if nearZero(atrValue) {
        return;
      }
      currentHigh := todayHigh;
      currentLow := todayLow;
      volatilityPercent := (currentHigh - currentLow) / atrValue * 100.0;
    }

    method DetermineRangePositionAndTrend(dailyBars: int, priorHigh: real, priorLow: real)
      requires Valid()
      modifies this
      ensures Valid()
      ensures Snapshot() == RangeTrendStep(old(Snapshot()), dailyBars, priorHigh, priorLow)
    {
      if dailyBars < 2 {
        return;
      }
      rangePosition := if lastPrice <= priorHigh && lastPrice >= priorLow then Inside else Outside;
      if lastPrice > priorHigh {
        trendStatus := Up;
      } else if lastPrice < priorLow {
        trendStatus := Down;
      } else {
        trendStatus := Neutral;
      }
    }

    /** Sets tlineBias and returns the value it set. */
    method GetTLineBias(ema: real) returns (bias: Bias)
      requires Valid()
      modifies this
      ensures Valid()
      ensures bias == tlineBias
      ensures Snapshot() == TLineBiasStep(old(Snapshot()), ema)
    {
      var emaValue := ema;
      if lastPrice > emaValue {
        tlineBias := Bullish;
      } else {
        tlineBias := Bearish;
      }
      bias := tlineBias;
    }

    /** The guard chain, then the three updaters and the verdict drawn on the chart;
        None when a guard returns before anything is drawn. */
    method OnBarUpdate(bar: BarInputs) returns (verdict: Option<Verdict>)
      requires Valid()
      modifies this
      ensures Valid()
      ensures Snapshot() == BarUpdate(old(Snapshot()), bar, atrPeriod, nearZero)
      ensures verdict == BarVerdict(old(Snapshot()), bar, atrPeriod, nearZero)
    {
      verdict := None;
      if bar.dailyBars < 1 {
        return;
      }
      if bar.dailyBars < atrPeriod {
        return;
      }
      if bar.dailyBars < 2 {
        return;
      }
      if bar.primaryBars < EmaPeriod {
        return;
      }
      DetermineRangePositionAndTrend(bar.dailyBars, bar.priorHigh, bar.priorLow);
      CalculateVolatility(bar.dailyBars, bar.atr, bar.todayHigh, bar.todayLow);
      var _ := GetTLineBias(bar.ema);
      verdict := Some(Classify(volatilityPercent, trendStatus));
    }
  }
}
