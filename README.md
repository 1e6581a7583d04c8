# SIYLConditions condition evaluator

A model of the condition evaluator of the `SIYLConditions` NinjaScript indicator
("TDGConditions"). The indicator watches one instrument. It keeps the price of the latest
trade, and on every bar update it derives four things once enough data is loaded:

- a volatility percentage: today's daily range over the daily ATR value, times 100;
- a range position: Inside or Outside yesterday's range, tested with `<=`/`>=`;
- a trend label: Up, Down or Neutral, tested against the same extremes with `>`/`<`;
- a trend-line bias: Bullish or Bearish against the 233-period EMA.

It then reduces (volatility, trend) to one of three verdicts: Low Volatility, Good
Conditions or Choppy Market.

The model has three modules:

- `Conditions` (`conditions.dfy`) holds the label types and the pure rules.
  Each string field that starts out empty gets an `...Unset` constructor for that empty string.
- `Evaluator` (`evaluator.dfy`) holds the indicator's fields as a `Fields` value:
  - one step function per callback or updater, with its guards as "nothing else changes" clauses;
  - the replay of a stream of host callbacks;
  - the lemmas about such streams.
- `Indicator` (`indicator.dfy`) holds the class `SIYLConditions`. Its fields are updated in place,
  and each method is proved to follow its step function and to keep the object invariant.
  The invariant is that the range labels agree: Inside exactly when Neutral.

The main property is that the two range labels always agree. `rangePosition` uses non-strict
comparisons and `trendStatus` uses strict ones, against the same `Highs[1][1]`/`Lows[1][1]`.
So "Inside" holds exactly when "Neutral" holds, for every price. A price on either
boundary is Inside and Neutral. That makes "Good Conditions" mean "volatile enough and
outside yesterday's range".

The host supplies these values, and they are method parameters (`BarInputs`):
`CurrentBars[0]`, `CurrentBars[1]`, `Highs[1][0]`, `Lows[1][0]`, `Highs[1][1]`, `Lows[1][1]`,
`dailyATR[0]` and `ema233[0]`. The tolerance test `ApproxCompare(0) == 0` is an abstract
predicate `nearZero`. The only thing known about it is that zero is near zero, so the
division is defined whenever the guard lets it through.

The comment at TDGConditions.cs:110 says the guard ensures "at least 2 daily bars (today + prior day)",
and the one at line 176 says "at least 1 prior day". But `CurrentBars[1]` is a zero-based index,
so `CurrentBars[1] < 2` lets a bar through only from the third daily bar on. The model follows the code.
`Evaluator.Ready` states the guard chain as written.

## Model

| member | source | states |
|---|---|---|
| `Conditions.TrendOf` | TDGConditions.cs:128-133 | the trend is always set; Up exactly when the price is above the prior high; Down exactly when it is below the prior low and not above the high; Neutral exactly when it lies in the closed prior range |
| `Conditions.RangePositionOf` | TDGConditions.cs:118-122 | the position is always set; Inside exactly when the strict trend label is Neutral, and Outside exactly when it is Up or Down, for every price; a price on either boundary of a well-formed range is Inside |
| `Conditions.TLineBiasOf` | TDGConditions.cs:141-146 | Bullish exactly when the price is above the EMA; Bearish exactly when it is at or below it, so a tie is Bearish |
| `Conditions.VolatilityPercentOf` | TDGConditions.cs:103 | the percentage times the ATR value is one hundred times the daily range |
| `Conditions.Classify` | TDGConditions.cs:149-161 | Low Volatility exactly below 50 (50 itself is not low); Good Conditions exactly at 50 or above with a trend other than Neutral; Choppy Market exactly at 50 or above with Neutral |
| `Conditions.VolatilityLinearInRange` | TDGConditions.cs:103 | for a fixed ATR value, stretching the daily range by k scales the percentage by k (doubling the range doubles it) |
| `Evaluator.MarketDataStep` | TDGConditions.cs:79-85 | a Last event sets the last price to the event price; any other event leaves it; no other field ever changes |
| `Evaluator.RangeTrendStep` | TDGConditions.cs:108-137 | below the daily-bar guard nothing changes; otherwise only the two labels change, to the range position and trend of the last price; after it the labels agree, and agreeing labels stay agreeing |
| `Evaluator.VolatilityStep` | TDGConditions.cs:87-106 | with fewer daily bars than the ATR period, or an ATR value near zero, nothing changes; otherwise only today's high/low and the percentage change, with percentage times ATR equal to 100 times the range |
| `Evaluator.TLineBiasStep` | TDGConditions.cs:138-147 | only the bias changes; it is set, and Bullish exactly when the last price is above the EMA |
| `Evaluator.Ready` | TDGConditions.cs:168-181 | the four guards pass exactly when the daily bar index is at least 2 and the ATR period, and the intraday bar index is at least 233 |
| `Evaluator.BarUpdate` | TDGConditions.cs:164-186 | when a guard fails nothing changes; the last price never changes; once ready, the labels and bias come from the last price and the prior extremes; the volatility is refreshed unless the ATR value is near zero, in which case it and today's high/low keep their old values; the labels agree afterwards |
| `Evaluator.BarVerdict` | TDGConditions.cs:183-195 | no verdict is drawn exactly when a guard fails; once ready, Good Conditions exactly when the volatility is at least 50 and the price is Outside the prior range, Choppy Market exactly when it is at least 50 and Inside, Low Volatility exactly when it is below 50 |
| `Evaluator.ReplayLastPrice` | TDGConditions.cs:79-85 | after any stream of callbacks the last price is the price of the most recent trade, or the starting price if there was none |
| `Evaluator.ReplayDuringWarmUp` | TDGConditions.cs:168-181 | while no bar update passes the guards, every derived field keeps its prior value and only the last price follows the trades |
| `Evaluator.ReplayKeepsLabelsAgree` | TDGConditions.cs:115-133 | from agreeing labels, the labels agree after any stream of callbacks (Inside exactly when Neutral) |
| `Evaluator.ReadyBarLabels` | TDGConditions.cs:115-146 | after a bar update that passes the guards, the range position, trend and bias depend only on that bar and the most recent trade price |
| `Evaluator.WorkedExample` | TDGConditions.cs:100-146 | prior range 100..110, today 98..112, ATR 8, last trade 111, EMA 105 give 175%, Outside, Up, Bullish and Good Conditions |
| `Evaluator.StaleStartReadsOutside` | TDGConditions.cs:164-184 | before any trade the last price is 0, so with a positive prior range the first ready bar reads Outside and Down |
| `Indicator.SIYLConditions.constructor` | TDGConditions.cs:29-42 | a new indicator has zero numbers and empty labels, and satisfies the invariant |
| `Indicator.SIYLConditions.OnMarketData` | TDGConditions.cs:79-85 | the new fields are those of `MarketDataStep`: only `lastPrice` changes, and only on a trade |
| `Indicator.SIYLConditions.CalculateVolatility` | TDGConditions.cs:87-106 | the new fields are those of `VolatilityStep`, including both early returns |
| `Indicator.SIYLConditions.DetermineRangePositionAndTrend` | TDGConditions.cs:108-137 | the new fields are those of `RangeTrendStep`; the invariant is kept |
| `Indicator.SIYLConditions.GetTLineBias` | TDGConditions.cs:138-147 | the returned bias equals the `tlineBias` field it sets; the new fields are those of `TLineBiasStep` |
| `Indicator.SIYLConditions.OnBarUpdate` | TDGConditions.cs:164-200 | the new fields are those of `BarUpdate` and the shown verdict is that of `BarVerdict`; the invariant is kept |

## Left out

- Chart output (TDGConditions.cs:188-199) is not modelled: building the text, `F2` formatting, `RemoveDrawObject` and `Draw.TextFixed` are host rendering. `OnBarUpdate` returns the verdict it would display instead.
- The verdict and label texts, including their emoji prefixes, are constructors rather than strings.
- `OnStateChange` (TDGConditions.cs:51-75) is not modelled. It sets defaults, adds the daily series and gets the ATR/EMA handles through host calls. The ATR period there is hard-coded to 7, independent of `ATRPeriod`, so the model just receives the ATR value. The EMA period 233 is kept as a constant.
- The ATR and EMA calculations are host library code and are inputs here.
- Floating point is not modelled: prices are reals. `ApproxCompare`'s tolerance is left abstract, except that zero counts as near zero.
- The generated cache accessors (TDGConditions.cs:204-259) are left out. They are host-generated boilerplate over the foreign `CacheIndicator`.
- The fields `priorHigh`/`priorLow` are left out. Locals shadow them at lines 115-116, and they are never read anywhere.
- The field `volatilityStatus` is left out. It is never assigned, and it only appears, empty, in the output text at line 193.
- `ATRPeriod`'s `[Range(1, int.MaxValue)]` is a host UI constraint and is not imposed. The guards are modelled for any integer.
- Market data kinds other than `Last`, `Ask` and `Bid` are one `Other` kind, because the indicator ignores all but `Last`.
- The host's single-threaded callback dispatch is modelled as a sequence of callbacks (`Evaluator.Replay`). Nothing concurrent is modelled.
