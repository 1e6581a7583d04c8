/** The condition evaluator of SIYLConditions on values: the indicator's fields as a
    snapshot, one step function per callback or updater, and the replay of a stream of
    host callbacks. The class in module Indicator is proved to follow these steps. */
module Evaluator {
  import opened Conditions

  datatype Option<T> = None | Some(value: T)

  /** Period of the trend-line moving average, fixed when the indicator loads its data. */
  const EmaPeriod: int := 233

  /** The host's "approximately zero" test on the ATR value. Its tolerance is the host's,
      so it is left abstract; all that is known is that zero itself is near zero. */
  type ZeroTest = nearZero: real -> bool | nearZero(0.0) witness (x: real) => x == 0.0

  /** Kinds of market data event the host delivers; only trades (Last) are used. */
  datatype MarketDataType = Ask | Bid | Last | Other

  /** The indicator's state fields, apart from the dead priorHigh/priorLow/volatilityStatus. */
  datatype Fields = Fields(
    lastPrice: real,
    currentHigh: real,
    currentLow: real,
    volatilityPercent: real,
    rangePosition: RangePosition,
    trendStatus: Trend,
    tlineBias: Bias)

  /** What the host shows the indicator on a bar update. */
  datatype BarInputs = BarInputs(
    primaryBars: int,   // CurrentBars[0], index of the current intraday bar
    dailyBars: int,     // CurrentBars[1], index of the current daily bar
    todayHigh: real,    // Highs[1][0]
    todayLow: real,     // Lows[1][0]
    priorHigh: real,    // Highs[1][1]
    priorLow: real,     // Lows[1][1]
    atr: real,          // dailyATR[0]
    ema: real)          // ema233[0]

  /** The fields of a freshly created indicator: numbers zero, labels empty. */
  const Initial: Fields := Fields(0.0, 0.0, 0.0, 0.0, RangeUnset, TrendUnset, BiasUnset)

  /** The object invariant: the two range labels are either both unset or agree,
      Inside exactly when Neutral. */
  predicate LabelsAgree(f: Fields) {
    (f.rangePosition == RangeUnset <==> f.trendStatus == TrendUnset) &&
    (f.rangePosition == Inside <==> f.trendStatus == Neutral)
  }

  /** OnMarketData: a trade sets the last price; every other event changes nothing. */
  function MarketDataStep(f: Fields, kind: MarketDataType, price: real): (r: Fields)
    ensures r.lastPrice == (if kind == Last then price else f.lastPrice)
    ensures r.(lastPrice := f.lastPrice) == f
  {
    if kind == Last then f.(lastPrice := price) else f
  }

  /** DetermineRangePositionAndTrend: from the third daily bar on, both range labels are
      recomputed from the last price and yesterday's extremes; nothing else changes. */
  function RangeTrendStep(f: Fields, dailyBars: int, priorHigh: real, priorLow: real): (r: Fields)
    ensures dailyBars < 2 ==> r == f
    ensures r.(rangePosition := f.rangePosition, trendStatus := f.trendStatus) == f
    ensures dailyBars >= 2 ==>
      r.rangePosition == RangePositionOf(f.lastPrice, priorHigh, priorLow) &&
      r.trendStatus == TrendOf(f.lastPrice, priorHigh, priorLow)
    ensures dailyBars >= 2 ==> LabelsAgree(r)
    ensures LabelsAgree(f) ==> LabelsAgree(r)
  {
    if dailyBars < 2 then f
    else f.(rangePosition := RangePositionOf(f.lastPrice, priorHigh, priorLow),
            trendStatus := TrendOf(f.lastPrice, priorHigh, priorLow))
  }

  /** CalculateVolatility: skipped while fewer daily bars than the ATR period exist or
      while the ATR value is near zero; otherwise it records today's high and low and
      sets the volatility percentage from them; the labels and the price never change. */
  function VolatilityStep(f: Fields, dailyBars: int, atrPeriod: int, atr: real,
                          todayHigh: real, todayLow: real, nearZero: ZeroTest): (r: Fields)
    ensures dailyBars < atrPeriod || nearZero(atr) ==> r == f
    ensures r.(currentHigh := f.currentHigh, currentLow := f.currentLow,
               volatilityPercent := f.volatilityPercent) == f
    ensures dailyBars >= atrPeriod && !nearZero(atr) ==>
      atr != 0.0 &&
      r.currentHigh == todayHigh && r.currentLow == todayLow &&
      r.volatilityPercent * atr == (todayHigh - todayLow) * 100.0
  {
    if dailyBars < atrPeriod then f
    else if nearZero(atr) then f
    else f.(currentHigh := todayHigh, currentLow := todayLow,
            volatilityPercent := VolatilityPercentOf(todayHigh, todayLow, atr))
  }

  /** GetTLineBias: the bias label is recomputed from the last price; nothing else changes. */
  function TLineBiasStep(f: Fields, ema: real): (r: Fields)
    ensures r.(tlineBias := f.tlineBias) == f
    ensures r.tlineBias != BiasUnset
    ensures r.tlineBias == Bullish <==> f.lastPrice > ema
  {
    f.(tlineBias := TLineBiasOf(f.lastPrice, ema))
  }

  /** The warm-up guards of OnBarUpdate, in their order. Since bar counts are zero-based
      indexes, passing them needs three daily bars; the first guard is subsumed by the third. */
  function Ready(bar: BarInputs, atrPeriod: int): (ok: bool)
    ensures ok <==> bar.dailyBars >= 2 && bar.dailyBars >= atrPeriod && bar.primaryBars >= EmaPeriod
  {
    if bar.dailyBars < 1 then false
    else if bar.dailyBars < atrPeriod then false
    else if bar.dailyBars < 2 then false
    else if bar.primaryBars < EmaPeriod then false
    else true
  }

  /** OnBarUpdate on the fields: nothing changes while warming up; once ready, the range
      and trend labels and the bias come from the last price, which itself is untouched,
      and the volatility is refreshed unless the ATR value is near zero. */
  function BarUpdate(f: Fields, bar: BarInputs, atrPeriod: int, nearZero: ZeroTest): (r: Fields)
    ensures !Ready(bar, atrPeriod) ==> r == f
    ensures r.lastPrice == f.lastPrice
    ensures Ready(bar, atrPeriod) ==>
      r.rangePosition == RangePositionOf(f.lastPrice, bar.priorHigh, bar.priorLow) &&
      r.trendStatus == TrendOf(f.lastPrice, bar.priorHigh, bar.priorLow) &&
      r.tlineBias == TLineBiasOf(f.lastPrice, bar.ema)
    ensures Ready(bar, atrPeriod) && nearZero(bar.atr) ==>
      r.volatilityPercent == f.volatilityPercent &&
      r.currentHigh == f.currentHigh && r.currentLow == f.currentLow
    ensures Ready(bar, atrPeriod) && !nearZero(bar.atr) ==>
      bar.atr != 0.0 &&
      r.volatilityPercent == VolatilityPercentOf(bar.todayHigh, bar.todayLow, bar.atr) &&
      r.currentHigh == bar.todayHigh && r.currentLow == bar.todayLow
    ensures Ready(bar, atrPeriod) ==> LabelsAgree(r)
    ensures LabelsAgree(f) ==> LabelsAgree(r)
  {
    if !Ready(bar, atrPeriod) then f
    else
      var ranged := RangeTrendStep(f, bar.dailyBars, bar.priorHigh, bar.priorLow);
      var measured := VolatilityStep(ranged, bar.dailyBars, atrPeriod, bar.atr,
                                     bar.todayHigh, bar.todayLow, nearZero);
      TLineBiasStep(measured, bar.ema)
  }

  /** The verdict OnBarUpdate displays, or None when a warm-up guard returns early.
      Because the labels agree once ready, conditions are good exactly when the market
      is volatile enough and the last price is outside yesterday's range. */
  function BarVerdict(f: Fields, bar: BarInputs, atrPeriod: int, nearZero: ZeroTest): (v: Option<Verdict>)
    ensures v == None <==> !Ready(bar, atrPeriod)
    ensures v == Some(LowVolatility) <==>
      Ready(bar, atrPeriod) &&
      BarUpdate(f, bar, atrPeriod, nearZero).volatilityPercent < VolatileEnough
    ensures v == Some(GoodConditions) <==>
      Ready(bar, atrPeriod) &&
      BarUpdate(f, bar, atrPeriod, nearZero).volatilityPercent >= VolatileEnough &&
      BarUpdate(f, bar, atrPeriod, nearZero).rangePosition == Outside
    ensures v == Some(ChoppyMarket) <==>
      Ready(bar, atrPeriod) &&
      BarUpdate(f, bar, atrPeriod, nearZero).volatilityPercent >= VolatileEnough &&
      BarUpdate(f, bar, atrPeriod, nearZero).rangePosition == Inside
  {
    if !Ready(bar, atrPeriod) then None
    else
      var r := BarUpdate(f, bar, atrPeriod, nearZero);
      Some(Classify(r.volatilityPercent, r.trendStatus))
  }

  /** One host callback: a market data event, or an OnBarUpdate call (made on every tick
      of either series, since the indicator calculates on each tick). */
  datatype Event = MarketData(kind: MarketDataType, price: real) | BarUpdated(bar: BarInputs)

  function Apply(f: Fields, e: Event, atrPeriod: int, nearZero: ZeroTest): Fields {
    match e
    case MarketData(kind, price) => MarketDataStep(f, kind, price)
    case BarUpdated(bar) => BarUpdate(f, bar, atrPeriod, nearZero)
  }

  /** The fields after the host has delivered the callbacks in order. */
  function Replay(f: Fields, events: seq<Event>, atrPeriod: int, nearZero: ZeroTest): Fields
    decreases |events|
  {
    if events == [] then f
    else Replay(Apply(f, events[0], atrPeriod, nearZero), events[1..], atrPeriod, nearZero)
  }

  /** The price of the most recent trade event, or the given price if there was none. */
  function LatestTrade(events: seq<Event>, initial: real): real
    decreases |events|
  {
    if events == [] then initial
    else
      var e := events[|events| - 1];
      if e.MarketData? && e.kind == Last then e.price
      else LatestTrade(events[..|events| - 1], initial)
  }

  /** Replaying one more callback applies it to the replayed fields. */
  lemma {:induction false} ReplaySnoc(f: Fields, events: seq<Event>, e: Event, atrPeriod: int, nearZero: ZeroTest)
    ensures Replay(f, events + [e], atrPeriod, nearZero) ==
            Apply(Replay(f, events, atrPeriod, nearZero), e, atrPeriod, nearZero)
    decreases |events|
  {
    if events == [] {
      assert events + [e] == [e];
    } else {
      assert (events + [e])[0] == events[0];
      assert (events + [e])[1..] == events[1..] + [e];
      ReplaySnoc(Apply(f, events[0], atrPeriod, nearZero), events[1..], e, atrPeriod, nearZero);
    }
  }

  /** The last price is always that of the most recent trade: bar updates never touch it. */
  lemma {:induction false} ReplayLastPrice(f: Fields, events: seq<Event>, atrPeriod: int, nearZero: ZeroTest)
    ensures Replay(f, events, atrPeriod, nearZero).lastPrice == LatestTrade(events, f.lastPrice)
    decreases |events|
  {
    if events != [] {
      var n := |events| - 1;
      assert events == events[..n] + [events[n]];
      ReplaySnoc(f, events[..n], events[n], atrPeriod, nearZero);
      ReplayLastPrice(f, events[..n], atrPeriod, nearZero);
    }
  }

  /** While warming up (no bar update passes the guards) the derived fields keep their
      prior values and only the last price follows the trades. */
  lemma {:induction false} ReplayDuringWarmUp(f: Fields, events: seq<Event>, atrPeriod: int, nearZero: ZeroTest)
    requires forall i :: 0 <= i < |events| && events[i].BarUpdated? ==> !Ready(events[i].bar, atrPeriod)
    ensures Replay(f, events, atrPeriod, nearZero) == f.(lastPrice := LatestTrade(events, f.lastPrice))
    decreases |events|
  {
    if events != [] {
      var n := |events| - 1;
      assert events == events[..n] + [events[n]];
      ReplaySnoc(f, events[..n], events[n], atrPeriod, nearZero);
      ReplayDuringWarmUp(f, events[..n], atrPeriod, nearZero);
    }
  }

  /** The labels agree at every point of any callback stream that starts from agreeing
      labels, in particular from a freshly created indicator. */
  lemma {:induction false} ReplayKeepsLabelsAgree(f: Fields, events: seq<Event>, atrPeriod: int, nearZero: ZeroTest)
    requires LabelsAgree(f)
    ensures LabelsAgree(Replay(f, events, atrPeriod, nearZero))
    decreases |events|
  {
    if events != [] {
      ReplayKeepsLabelsAgree(Apply(f, events[0], atrPeriod, nearZero), events[1..], atrPeriod, nearZero);
    }
  }

  /** No history is retained: after a bar update that passes the guards, the three labels
      depend only on that bar and the most recent trade price. */
  lemma ReadyBarLabels(f: Fields, events: seq<Event>, bar: BarInputs, atrPeriod: int, nearZero: ZeroTest)
    requires Ready(bar, atrPeriod)
    ensures var r := Replay(f, events + [BarUpdated(bar)], atrPeriod, nearZero);
            var price := LatestTrade(events, f.lastPrice);
            r.rangePosition == RangePositionOf(price, bar.priorHigh, bar.priorLow) &&
            r.trendStatus == TrendOf(price, bar.priorHigh, bar.priorLow) &&
            r.tlineBias == TLineBiasOf(price, bar.ema)
  {
    ReplaySnoc(f, events, BarUpdated(bar), atrPeriod, nearZero);
    ReplayLastPrice(f, events, atrPeriod, nearZero);
  }

  /** A worked example: yesterday 100..110, today 98..112, ATR 8, last
      trade 111, moving average 105 gives 175%, Outside, Up, Bullish and Good Conditions. */
  lemma WorkedExample(f: Fields, nearZero: ZeroTest)
    requires f.lastPrice == 111.0 && !nearZero(8.0)
    ensures var bar := BarInputs(EmaPeriod, 7, 112.0, 98.0, 110.0, 100.0, 8.0, 105.0);
            var r := BarUpdate(f, bar, 7, nearZero);
            r.volatilityPercent == 175.0 && r.rangePosition == Outside && r.trendStatus == Up &&
            r.tlineBias == Bullish && BarVerdict(f, bar, 7, nearZero) == Some(GoodConditions)
  {
  }

  /** The documented start-up staleness: before any trade the last price is zero, so with
      a positive prior range the first ready bar reads Outside and Down. */
  lemma StaleStartReadsOutside(bar: BarInputs, atrPeriod: int, nearZero: ZeroTest)
    requires Ready(bar, atrPeriod) && 0.0 < bar.priorLow <= bar.priorHigh
    ensures BarUpdate(Initial, bar, atrPeriod, nearZero).rangePosition == Outside
    ensures BarUpdate(Initial, bar, atrPeriod, nearZero).trendStatus == Down
  {
  }
}
