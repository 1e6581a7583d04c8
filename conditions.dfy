/** Labels and pure decision rules of the SIYLConditions indicator.

    The indicator keeps its labels as strings that start out empty; each
    label type here has an `...Unset` constructor standing for that initial
    empty string, because the classifier compares the trend label with
    "Neutral" and so treats the empty string as a clear trend. */
module Conditions {

  /** rangePosition: "" | "Inside" | "Outside" */
  datatype RangePosition = RangeUnset | Inside | Outside

  /** trendStatus: "" | "Up" | "Down" | "Neutral" */
  datatype Trend = TrendUnset | Up | Down | Neutral

  /** tlineBias: "" | "Bullish" | "Bearish" */
  datatype Bias = BiasUnset | Bullish | Bearish

  /** The three verdicts of GetTradingConditions. */
  datatype Verdict = LowVolatility | GoodConditions | ChoppyMarket

  /** The fixed volatility threshold, in percent, below which conditions are poor. */
  const VolatileEnough: real := 50.0

  /** Trend label of the last price against yesterday's extremes, with strict tests:
      above the high is Up, below the low is Down, anything in the closed range is Neutral. */
  function TrendOf(price: real, priorHigh: real, priorLow: real): (t: Trend)
    ensures t != TrendUnset
    ensures t == Up <==> price > priorHigh
    ensures t == Down <==> priorLow > price && priorHigh >= price
    ensures t == Neutral <==> priorLow <= price <= priorHigh
  {
    if price > priorHigh then Up
    else if price < priorLow then Down
    else Neutral
  }

  /** Range position of the last price against yesterday's range, with non-strict tests.
      It agrees with the strict trend label: Inside exactly when the trend is Neutral,
      for every price and every pair of extremes, so a price on either boundary is
      Inside and Neutral at once. */
  function RangePositionOf(price: real, priorHigh: real, priorLow: real): (p: RangePosition)
    ensures p != RangeUnset
    ensures p == Inside <==> TrendOf(price, priorHigh, priorLow) == Neutral
    ensures p == Outside <==> TrendOf(price, priorHigh, priorLow) in {Up, Down}
    ensures priorLow <= priorHigh && (price == priorHigh || price == priorLow) ==> p == Inside
  {
    if price <= priorHigh && price >= priorLow then Inside else Outside
  }

  /** Trend-line bias of the last price against the moving average; a tie is Bearish. */
  function TLineBiasOf(price: real, ema: real): (b: Bias)
    ensures b != BiasUnset
    ensures b == Bullish <==> price > ema
    ensures b == Bearish <==> price <= ema
  {
    if price > ema then Bullish else Bearish
  }

  /** Today's daily range as a percentage of the ATR value: multiplying back by the
      ATR gives a hundred times the range. */
  function VolatilityPercentOf(high: real, low: real, atr: real): (v: real)
    requires atr != 0.0
    ensures v * atr == (high - low) * 100.0
  {
    (high - low) / atr * 100.0
  }

  /** GetTradingConditions: Low Volatility below the threshold (exactly 50 is not low);
      at or above it, Good Conditions unless the trend label is "Neutral", which is Choppy. */
  function Classify(volatilityPercent: real, trend: Trend): (v: Verdict)
    ensures v == LowVolatility <==> volatilityPercent < VolatileEnough
    ensures v == GoodConditions <==> volatilityPercent >= VolatileEnough && trend != Neutral
    ensures v == ChoppyMarket <==> volatilityPercent >= VolatileEnough && trend == Neutral
  {
    var isVolatileEnough := volatilityPercent >= VolatileEnough;
    var hasClearTrend := trend != Neutral;
    if !isVolatileEnough then LowVolatility
    else if hasClearTrend then GoodConditions
    else ChoppyMarket
  }

  /** The volatility percentage is linear in the daily range for a fixed ATR value:
      stretching the range by a factor k (keeping the low) scales the percentage by k. */
  lemma VolatilityLinearInRange(high: real, low: real, atr: real, k: real)
    requires atr != 0.0
    ensures VolatilityPercentOf(low + k * (high - low), low, atr) == k * VolatilityPercentOf(high, low, atr)
  {
  }
}
