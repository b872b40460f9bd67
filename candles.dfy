/** One OHLC bar of the price history, as the CSV loader produces it. */
module Candles {

  /** `time` is the parsed timestamp, `timeStr` the first 16 characters of the CSV time column. */
  datatype Candle = Candle(time: int, timeStr: string, open: real, high: real, low: real, close: real)

  function Closes(candles: seq<Candle>): (r: seq<real>)
    ensures |r| == |candles| && forall i {:trigger r[i]} :: 0 <= i < |r| ==> r[i] == candles[i].close
  {
    seq(|candles|, i requires 0 <= i < |candles| => candles[i].close)
  }

  function Highs(candles: seq<Candle>): (r: seq<real>)
    ensures |r| == |candles| && forall i {:trigger r[i]} :: 0 <= i < |r| ==> r[i] == candles[i].high
  {
    seq(|candles|, i requires 0 <= i < |candles| => candles[i].high)
  }

  function Lows(candles: seq<Candle>): (r: seq<real>)
    ensures |r| == |candles| && forall i {:trigger r[i]} :: 0 <= i < |r| ==> r[i] == candles[i].low
  {
    seq(|candles|, i requires 0 <= i < |candles| => candles[i].low)
  }

  /** Every bar has its close inside its own low..high range. */
  ghost predicate WellFormed(highs: seq<real>, lows: seq<real>, closes: seq<real>)
  {
    |highs| == |lows| == |closes| &&
    forall i :: 0 <= i < |closes| ==> lows[i] <= closes[i] <= highs[i]
  }
}
