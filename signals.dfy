/**
 * The signal classifier: each indicator family maps its reading to BUY, SELL
 * or NEUTRAL by strict thresholds, so a reading exactly on a threshold is
 * NEUTRAL. The moving-average rule is two-way and never NEUTRAL.
 */
module Signals {
  import opened Primitives

  datatype Action = Buy | Sell | Neutral

  /** The three-way rule shared by the banded oscillators: below `lower` buys, above `upper` sells. */
  function Band(v: real, lower: real, upper: real): (a: Action)
    requires lower <= upper
    ensures a == Buy <==> v < lower
    ensures a == Sell <==> v > upper
    ensures a == Neutral <==> lower <= v <= upper
  {
    if v < lower then Buy else if v > upper then Sell else Neutral
  }

  /** RSI and the Ultimate Oscillator: oversold below 30, overbought above 70. */
  function CheckRsi(v: real): (a: Action)
    ensures a == Buy <==> v < 30.0
    ensures a == Sell <==> v > 70.0
    ensures a == Neutral <==> 30.0 <= v <= 70.0
  {
    Band(v, 30.0, 70.0)
  }

  /**
   * The RSI rule applied to a reading the engine may leave undefined: both of
   * its comparisons are false for NaN, so an undefined reading is NEUTRAL.
   */
  function CheckRsiReading(r: Option<real>): (a: Action)
    ensures a == Buy <==> r.Some? && r.value < 30.0
    ensures a == Sell <==> r.Some? && r.value > 70.0
    ensures a == Neutral <==> r.None? || 30.0 <= r.value <= 70.0
  {
    match r
    case None => Neutral
    case Some(v) => CheckRsi(v)
  }

  /** Stochastic %K and Stochastic-RSI %K: oversold below 20, overbought above 80. */
  function CheckStoch(v: real): (a: Action)
    ensures a == Buy <==> v < 20.0
    ensures a == Sell <==> v > 80.0
    ensures a == Neutral <==> 20.0 <= v <= 80.0
  {
    Band(v, 20.0, 80.0)
  }

  /** CCI: below -100 buys, above 100 sells. */
  function CheckCci(v: real): (a: Action)
    ensures a == Buy <==> v < -100.0
    ensures a == Sell <==> v > 100.0
    ensures a == Neutral <==> -100.0 <= v <= 100.0
  {
    Band(v, -100.0, 100.0)
  }

  /** Williams %R: below -80 buys, above -20 sells. */
  function CheckWpr(v: real): (a: Action)
    ensures a == Buy <==> v < -80.0
    ensures a == Sell <==> v > -20.0
    ensures a == Neutral <==> -80.0 <= v <= -20.0
  {
    Band(v, -80.0, -20.0)
  }

  /** Zero-centred readings (AO, Momentum, MACD histogram, Bull/Bear Power): no dead band. */
  function CheckZero(v: real): (a: Action)
    ensures a == Buy <==> v > 0.0
    ensures a == Sell <==> v < 0.0
    ensures a == Neutral <==> v == 0.0
  {
    if v > 0.0 then Buy else if v < 0.0 then Sell else Neutral
  }

  /** ADX: a trend stronger than 25 follows the dominant directional index. */
  function CheckAdx(adx: real, pdi: real, mdi: real): (a: Action)
    ensures a == Buy <==> adx > 25.0 && pdi > mdi
    ensures a == Sell <==> adx > 25.0 && mdi > pdi
    ensures a == Neutral <==> adx <= 25.0 || pdi == mdi
  {
    if adx > 25.0 && pdi > mdi then Buy
    else if adx > 25.0 && mdi > pdi then Sell
    else Neutral
  }

  /** Moving averages: price strictly above the average buys, anything else sells. */
  function CheckMa(price: real, ma: real): (a: Action)
    ensures a != Neutral
    ensures a == Buy <==> price > ma
  {
    if price > ma then Buy else Sell
  }
}
