/**
 * The eleven oscillator calculators of the indicator engine. Each loop-based
 * calculator is a method proved against a pure definition (`RsiSpec`,
 * `StochSpec`, `CciSpec`, `AdxSpec`, `MacdSpec`, `StochRsiSpec`, `UoSpec`);
 * the calculators that are single expressions (`Ao`, `Mom`, `Wpr`, `Bbp`)
 * are functions. A zero denominator guarded by `|| 1` in the engine is
 * replaced by 1 here.
 */
module Oscillators {
  import opened Primitives
  import opened Candles

  function Abs(x: real): real { if x < 0.0 then -x else x }

  // ---------------------------------------------------------------------------
  // RSI: Wilder-smoothed average gain and loss

  datatype GainLoss = GainLoss(gain: real, loss: real)

  /** Gains and losses summed over the first `n` deltas s[1]-s[0] .. s[n]-s[n-1]; a zero delta counts as a loss of 0. */
  function SeedSums(s: seq<real>, n: nat): (t: GainLoss)
    requires n < |s|
    ensures t.gain >= 0.0 && t.loss >= 0.0
  {
    if n == 0 then GainLoss(0.0, 0.0)
    else
      var t := SeedSums(s, n - 1);
      var d := s[n] - s[n - 1];
      if d > 0.0 then GainLoss(t.gain + d, t.loss) else GainLoss(t.gain, t.loss - d)
  }

  /** Wilder's average: (prev * (len - 1) + x) / len. */
  function WilderAverage(prev: real, x: real, len: nat): real
    requires len >= 1
  {
    (prev * (len as real - 1.0) + x) / len as real
  }

  /** Wilder's average of values inside [lo, hi] stays inside [lo, hi]. */
  lemma WilderAverageBounds(prev: real, x: real, len: nat, lo: real, hi: real)
    requires len >= 1 && lo <= prev <= hi && lo <= x <= hi
    ensures lo <= WilderAverage(prev, x, len) <= hi
  {
    var n := len as real;
    assert (prev - lo) * (n - 1.0) >= 0.0;
    assert (hi - prev) * (n - 1.0) >= 0.0;
    MeanBounds(prev * (n - 1.0) + x, len, lo, hi);
  }

  /** One step of the RSI recurrence: the delta feeds the gain average when positive, the loss average otherwise. */
  function WilderStep(avg: GainLoss, d: real, len: nat): (r: GainLoss)
    requires len >= 1 && avg.gain >= 0.0 && avg.loss >= 0.0
    ensures r.gain >= 0.0 && r.loss >= 0.0
  {
    var (gx, lx) := if d > 0.0 then (d, 0.0) else (0.0, -d);
    WilderAverageBounds(avg.gain, gx, len, 0.0, Max2(avg.gain, gx));
    WilderAverageBounds(avg.loss, lx, len, 0.0, Max2(avg.loss, lx));
    GainLoss(WilderAverage(avg.gain, gx, len), WilderAverage(avg.loss, lx, len))
  }

  /** The average gain and loss once the delta ending at index `i` has been folded in. */
  function WilderState(s: seq<real>, len: nat, i: nat): (a: GainLoss)
    requires 1 <= len <= i < |s|
    ensures a.gain >= 0.0 && a.loss >= 0.0
    decreases i
  {
    if i == len then
      var t := SeedSums(s, len);
      GainLoss(t.gain / len as real, t.loss / len as real)
    else WilderStep(WilderState(s, len, i - 1), s[i] - s[i - 1], len)
  }

  /** RSI from the averages: 100 when there is no average loss. */
  function RsiOf(avg: GainLoss): (r: real)
    requires avg.gain >= 0.0 && avg.loss >= 0.0
    ensures 0.0 <= r <= 100.0
    ensures r == 100.0 <==> avg.loss == 0.0
    ensures r == 0.0 <==> avg.gain == 0.0 && avg.loss > 0.0
  {
    if avg.loss == 0.0 then 100.0
    else
      var q := 1.0 + avg.gain / avg.loss;
      assert q >= 1.0;
      assert 100.0 / q <= 100.0 && 100.0 / q > 0.0;
      100.0 - 100.0 / q
  }

  /** RSI of the whole series, or the sentinel 50 when there are fewer than len + 1 values. */
  function RsiSpec(data: seq<real>, len: nat): (r: real)
    requires len >= 1
    ensures 0.0 <= r <= 100.0
    ensures |data| < len + 1 ==> r == 50.0
  {
    if |data| < len + 1 then 50.0 else RsiOf(WilderState(data, len, |data| - 1))
  }

  method Rsi(data: seq<real>, len: nat) returns (r: real)
    requires len >= 1
    ensures r == RsiSpec(data, len)
  {
    if |data| < len + 1 {
      return 50.0;
    }
    var gains, losses := 0.0, 0.0;
    for i := 1 to len + 1
      invariant GainLoss(gains, losses) == SeedSums(data, i - 1)
    {
      var d := data[i] - data[i - 1];
      if d > 0.0 { gains := gains + d; } else { losses := losses - d; }
    }
    var n := len as real;
    var avgGain, avgLoss := gains / n, losses / n;
    for i := len + 1 to |data|
      invariant GainLoss(avgGain, avgLoss) == WilderState(data, len, i - 1)
    {
      var d := data[i] - data[i - 1];
      if d > 0.0 {
        avgGain := WilderAverage(avgGain, d, len);
        avgLoss := WilderAverage(avgLoss, 0.0, len);
      } else {
        avgGain := WilderAverage(avgGain, 0.0, len);
        avgLoss := WilderAverage(avgLoss, -d, len);
      }
    }
    if avgLoss == 0.0 {
      return 100.0;
    }
    r := 100.0 - 100.0 / (1.0 + avgGain / avgLoss);
  }

  ghost predicate NonDecreasing(s: seq<real>)
  {
    forall i :: 1 <= i < |s| ==> s[i - 1] <= s[i]
  }

  ghost predicate StrictlyDecreasing(s: seq<real>)
  {
    forall i :: 1 <= i < |s| ==> s[i - 1] > s[i]
  }

  lemma {:induction false} SeedLossZero(s: seq<real>, n: nat)
    requires n < |s| && NonDecreasing(s)
    ensures SeedSums(s, n).loss == 0.0
  {
    if n > 0 {
      SeedLossZero(s, n - 1);
    }
  }

  lemma {:induction false} WilderLossZero(s: seq<real>, len: nat, i: nat)
    requires 1 <= len <= i < |s| && NonDecreasing(s)
    ensures WilderState(s, len, i).loss == 0.0
    decreases i
  {
    if i == len {
      SeedLossZero(s, len);
    } else {
      WilderLossZero(s, len, i - 1);
    }
  }

  /** With no falling step (a constant series included) the average loss is 0, so the RSI is 100. */
  lemma RsiOfNonDecreasing(data: seq<real>, len: nat)
    requires len >= 1 && |data| >= len + 1 && NonDecreasing(data)
    ensures RsiSpec(data, len) == 100.0
  {
    WilderLossZero(data, len, |data| - 1);
  }

  lemma {:induction false} SeedFalling(s: seq<real>, n: nat)
    requires 1 <= n < |s| && StrictlyDecreasing(s)
    ensures SeedSums(s, n).gain == 0.0 && SeedSums(s, n).loss > 0.0
  {
    if n > 1 {
      SeedFalling(s, n - 1);
    }
  }

  lemma {:induction false} WilderFalling(s: seq<real>, len: nat, i: nat)
    requires 1 <= len <= i < |s| && StrictlyDecreasing(s)
    ensures WilderState(s, len, i).gain == 0.0 && WilderState(s, len, i).loss > 0.0
    decreases i
  {
    if i == len {
      SeedFalling(s, len);
    } else {
      WilderFalling(s, len, i - 1);
      var prev, n := WilderState(s, len, i - 1), len as real;
      assert prev.loss * (n - 1.0) >= 0.0;
    }
  }

  /** On a strictly falling series every step is a loss and nothing is gained, so the RSI is 0. */
  lemma RsiOfStrictlyDecreasing(data: seq<real>, len: nat)
    requires len >= 1 && |data| >= len + 1 && StrictlyDecreasing(data)
    ensures RsiSpec(data, len) == 0.0
  {
    WilderFalling(data, len, |data| - 1);
  }

  // ---------------------------------------------------------------------------
  // Stochastic %K / %D

  /** The position of `x` in the range lo..hi as a percentage; a zero range is replaced by 1. */
  function RangePercent(x: real, lo: real, hi: real): (p: real)
    ensures lo <= x <= hi ==> 0.0 <= p <= 100.0
  {
    var range := if hi - lo == 0.0 then 1.0 else hi - lo;
    if lo <= x <= hi && hi - lo != 0.0 then
      FractionInUnit(x - lo, range);
      (x - lo) / range * 100.0
    else (x - lo) / range * 100.0
  }

  /** Raw %K at bar `i`: 50 during the first period - 1 bars, else the close's place in the trailing high-low range. */
  function RawK(highs: seq<real>, lows: seq<real>, closes: seq<real>, period: nat, i: nat): real
    requires period >= 1 && i < |closes| && |highs| == |lows| == |closes|
  {
    if i < period - 1 then 50.0
    else RangePercent(closes[i], Min(lows[i - period + 1 .. i + 1]), Max(highs[i - period + 1 .. i + 1]))
  }

  /** The raw %K of every bar from `start` to the end. */
  function RawKs(highs: seq<real>, lows: seq<real>, closes: seq<real>, period: nat, start: nat): (r: seq<real>)
    requires period >= 1 && start <= |closes| && |highs| == |lows| == |closes|
    ensures |r| == |closes| - start
    ensures forall j :: 0 <= j < |r| ==> r[j] == RawK(highs, lows, closes, period, start + j)
  {
    seq(|closes| - start, j requires 0 <= j < |closes| - start => RawK(highs, lows, closes, period, start + j))
  }

  method CollectRawKs(highs: seq<real>, lows: seq<real>, closes: seq<real>, period: nat, start: nat)
    returns (rawKs: seq<real>)
    requires period >= 1 && start <= |closes| && |highs| == |lows| == |closes|
    ensures rawKs == RawKs(highs, lows, closes, period, start)
  {
    rawKs := [];
    for i := start to |closes|
      invariant |rawKs| == i - start
      invariant forall j :: 0 <= j < |rawKs| ==> rawKs[j] == RawK(highs, lows, closes, period, start + j)
    {
      if i < period - 1 {
        rawKs := rawKs + [50.0];
      } else {
        var h := Max(highs[i - period + 1 .. i + 1]);
        var l := Min(lows[i - period + 1 .. i + 1]);
        rawKs := rawKs + [(closes[i] - l) / (if h - l == 0.0 then 1.0 else h - l) * 100.0];
      }
    }
  }

  /** Smoothed %K at index `i`: the raw value for the first kSmooth - 1 entries, else the mean of the last kSmooth raw values. */
  function SmoothAt(raw: seq<real>, kSmooth: nat, i: nat): real
    requires kSmooth >= 1 && i < |raw|
  {
    if i < kSmooth - 1 then raw[i] else TailSum(raw[..i + 1], kSmooth) / kSmooth as real
  }

  function SmoothedKs(raw: seq<real>, kSmooth: nat): (r: seq<real>)
    requires kSmooth >= 1
    ensures |r| == |raw| && forall i {:trigger r[i]} :: 0 <= i < |r| ==> r[i] == SmoothAt(raw, kSmooth, i)
  {
    seq(|raw|, i requires 0 <= i < |raw| => SmoothAt(raw, kSmooth, i))
  }

  method SmoothRawKs(rawKs: seq<real>, kSmooth: nat) returns (smoothKs: seq<real>)
    requires kSmooth >= 1
    ensures smoothKs == SmoothedKs(rawKs, kSmooth)
  {
    smoothKs := [];
    for i := 0 to |rawKs|
      invariant |smoothKs| == i
      invariant forall j {:trigger smoothKs[j]} :: 0 <= j < i ==> smoothKs[j] == SmoothAt(rawKs, kSmooth, j)
    {
      if i < kSmooth - 1 {
        smoothKs := smoothKs + [rawKs[i]];
      } else {
        var s := 0.0;
        for j := 0 to kSmooth
          invariant s == TailSum(rawKs[..i + 1], j)
        {
          s := s + rawKs[i - j];
        }
        smoothKs := smoothKs + [s / kSmooth as real];
      }
    }
  }

  function Min2Nat(a: nat, b: nat): nat { if a <= b then a else b }

  /**
   * Sum of the last `p` elements. Positions before the start of `arr` count as
   * 0, as the `|| 0` of the %D loop makes them; the `sum` helper of the UO
   * calculation is only ever called with p <= |arr|.
   */
  method WindowSum(arr: seq<real>, p: nat) returns (s: real)
    ensures s == TailSum(arr, Min2Nat(p, |arr|))
  {
    s := 0.0;
    for j := 0 to p
      invariant s == TailSum(arr, Min2Nat(j, |arr|))
    {
      if j < |arr| {
        s := s + arr[|arr| - 1 - j];
      }
    }
  }

  datatype StochResult = StochResult(k: real, d: real)

  /** First bar of the bounded trailing slice: Math.max(0, n - needed). */
  function TrailingStart(n: nat, needed: nat): (start: nat)
    ensures start <= n && n - start == (if n > needed then needed else n)
  {
    if n > needed then n - needed else 0
  }

  function StochSpec(highs: seq<real>, lows: seq<real>, closes: seq<real>, period: nat, kSmooth: nat, dSmooth: nat): StochResult
    requires period >= 1 && kSmooth >= 1 && dSmooth >= 1
    requires |highs| == |lows| == |closes| >= 1
  {
    var start := TrailingStart(|closes|, period + kSmooth + dSmooth + 50);
    var sm := SmoothedKs(RawKs(highs, lows, closes, period, start), kSmooth);
    StochResult(sm[|sm| - 1], TailSum(sm, Min2Nat(dSmooth, |sm|)) / dSmooth as real)
  }

  method Stoch(highs: seq<real>, lows: seq<real>, closes: seq<real>, period: nat, kSmooth: nat, dSmooth: nat)
    returns (r: StochResult)
    requires period >= 1 && kSmooth >= 1 && dSmooth >= 1
    requires |highs| == |lows| == |closes| >= 1
    ensures r == StochSpec(highs, lows, closes, period, kSmooth, dSmooth)
  {
    var start := TrailingStart(|closes|, period + kSmooth + dSmooth + 50);
    var rawKs := CollectRawKs(highs, lows, closes, period, start);
    var smoothKs := SmoothRawKs(rawKs, kSmooth);
    var k := smoothKs[|smoothKs| - 1];
    var s := WindowSum(smoothKs, dSmooth);
    r := StochResult(k, s / dSmooth as real);
  }

  /** Raw %K lies in [0, 100] whenever the bar's close lies inside its own low..high range. */
  lemma RawKInRange(highs: seq<real>, lows: seq<real>, closes: seq<real>, period: nat, i: nat)
    requires period >= 1 && i < |closes| && |highs| == |lows| == |closes|
    requires lows[i] <= closes[i] <= highs[i]
    ensures 0.0 <= RawK(highs, lows, closes, period, i) <= 100.0
  {
    if i >= period - 1 {
      assert lows[i - period + 1 .. i + 1][period - 1] == lows[i];
      assert highs[i - period + 1 .. i + 1][period - 1] == highs[i];
      MinIsLeast(lows[i - period + 1 .. i + 1], period - 1);
      MaxIsGreatest(highs[i - period + 1 .. i + 1], period - 1);
    }
  }

  /** Smoothing values in [0, 100] gives values in [0, 100]. */
  lemma SmoothedInRange(raw: seq<real>, kSmooth: nat)
    requires kSmooth >= 1
    requires forall i :: 0 <= i < |raw| ==> 0.0 <= raw[i] <= 100.0
    ensures forall i :: 0 <= i < |raw| ==> 0.0 <= SmoothedKs(raw, kSmooth)[i] <= 100.0
  {
    forall i | 0 <= i < |raw|
      ensures 0.0 <= SmoothAt(raw, kSmooth, i) <= 100.0
    {
      if i >= kSmooth - 1 {
        TailSumBounds(raw[..i + 1], kSmooth, 0.0, 100.0);
        MeanBounds(TailSum(raw[..i + 1], kSmooth), kSmooth, 0.0, 100.0);
      }
    }
  }

  /** %D divides the sum of at most `p` trailing values by `p`, so values in [0, 100] keep it in [0, 100]. */
  lemma WindowMeanInRange(sm: seq<real>, p: nat)
    requires p >= 1
    requires forall i :: 0 <= i < |sm| ==> 0.0 <= sm[i] <= 100.0
    ensures 0.0 <= TailSum(sm, Min2Nat(p, |sm|)) / p as real <= 100.0
  {
    var available := Min2Nat(p, |sm|);
    TailSumBounds(sm, available, 0.0, 100.0);
    assert available as real * 100.0 <= p as real * 100.0;
    MeanBounds(TailSum(sm, available), p, 0.0, 100.0);
  }

  /** With every close inside its bar's range, both %K and %D lie in [0, 100]. */
  lemma StochInRange(highs: seq<real>, lows: seq<real>, closes: seq<real>, period: nat, kSmooth: nat, dSmooth: nat)
    requires period >= 1 && kSmooth >= 1 && dSmooth >= 1
    requires |closes| >= 1 && WellFormed(highs, lows, closes)
    ensures 0.0 <= StochSpec(highs, lows, closes, period, kSmooth, dSmooth).k <= 100.0
    ensures 0.0 <= StochSpec(highs, lows, closes, period, kSmooth, dSmooth).d <= 100.0
  {
    var start := TrailingStart(|closes|, period + kSmooth + dSmooth + 50);
    var raw := RawKs(highs, lows, closes, period, start);
    forall j | 0 <= j < |raw| ensures 0.0 <= raw[j] <= 100.0 {
      RawKInRange(highs, lows, closes, period, start + j);
    }
    SmoothedInRange(raw, kSmooth);
    WindowMeanInRange(SmoothedKs(raw, kSmooth), dSmooth);
  }

  // ---------------------------------------------------------------------------
  // Williams %R

  /** %R from the window's high and low and the last close: 0 at the high, -100 at the low. */
  function PercentR(h: real, l: real, c: real): real
  {
    (h - c) / (if h - l == 0.0 then 1.0 else h - l) * -100.0
  }

  function Wpr(highs: seq<real>, lows: seq<real>, closes: seq<real>, len: nat): (r: real)
    requires len >= 1 && |highs| == |lows| == |closes|
    ensures |closes| < len ==> r == -50.0
  {
    if |closes| < len then -50.0
    else
      var idx := |closes| - 1;
      var h := Max(highs[idx - len + 1 .. idx + 1]);
      var l := Min(lows[idx - len + 1 .. idx + 1]);
      PercentR(h, l, closes[idx])
  }

  /** With every close inside its bar's range, %R lies in [-100, 0]. */
  lemma WprInRange(highs: seq<real>, lows: seq<real>, closes: seq<real>, len: nat)
    requires len >= 1 && WellFormed(highs, lows, closes)
    ensures -100.0 <= Wpr(highs, lows, closes, len) <= 0.0
  {
    if |closes| >= len {
      var idx := |closes| - 1;
      var hs, ls := highs[idx - len + 1 .. idx + 1], lows[idx - len + 1 .. idx + 1];
      assert hs[len - 1] == highs[idx] && ls[len - 1] == lows[idx];
      MaxIsGreatest(hs, len - 1);
      MinIsLeast(ls, len - 1);
      PercentRInRange(Max(hs), Min(ls), closes[idx]);
    }
  }

  /** A close inside [low, high] has a %R in [-100, 0]. */
  lemma PercentRInRange(h: real, l: real, c: real)
    requires l <= c <= h
    ensures -100.0 <= PercentR(h, l, c) <= 0.0
  {
    var range := if h - l == 0.0 then 1.0 else h - l;
    var f := (h - c) / range;
    if h - l != 0.0 {
      FractionInUnit(h - c, h - l);
    }
    assert 0.0 <= f <= 1.0;
    assert PercentR(h, l, c) == f * -100.0;
  }

  /** When the window's range is not flat, %R is the Stochastic raw %K of the last bar moved down by 100. */
  lemma WprIsRawKMinus100(highs: seq<real>, lows: seq<real>, closes: seq<real>, len: nat)
    requires len >= 1 && |highs| == |lows| == |closes| >= len
    requires Max(highs[|closes| - len .. |closes|]) != Min(lows[|closes| - len .. |closes|])
    ensures Wpr(highs, lows, closes, len) == RawK(highs, lows, closes, len, |closes| - 1) - 100.0
  {
    var h, l, c := Max(highs[|closes| - len .. |closes|]), Min(lows[|closes| - len .. |closes|]), closes[|closes| - 1];
    var r := h - l;
    var q := (c - l) / r;
    assert q * r == c - l;
    assert (1.0 - q) * r == h - c;
    QuotientUnique(1.0 - q, h - c, r);
  }

  lemma PercentRShift(h: real, l: real, c: real, h': real, l': real, c': real, d: real)
    requires h' == h + d && l' == l + d && c' == c + d
    ensures PercentR(h', l', c') == PercentR(h, l, c)
  {
    assert h' - c' == h - c && h' - l' == h - l;
  }

  /** %R is unchanged when the same constant is added to every high, low and close. */
  lemma WprShift(highs: seq<real>, lows: seq<real>, closes: seq<real>, len: nat, d: real)
    requires len >= 1 && |highs| == |lows| == |closes|
    ensures Wpr(Shift(highs, d), Shift(lows, d), Shift(closes, d), len) == Wpr(highs, lows, closes, len)
  {
    var hs, ls, cs := Shift(highs, d), Shift(lows, d), Shift(closes, d);
    if |closes| >= len {
      var a, b := |closes| - len, |closes|;
      ShiftSlice(highs, d, a, b);
      ShiftSlice(lows, d, a, b);
      MaxMinShift(highs[a..b], d);
      MaxMinShift(lows[a..b], d);
      PercentRShift(Max(highs[a..b]), Min(lows[a..b]), closes[b - 1], Max(hs[a..b]), Min(ls[a..b]), cs[b - 1], d);
    } else {
      assert |cs| < len;
      assert Wpr(hs, ls, cs, len) == -50.0;
    }
  }

  // ---------------------------------------------------------------------------
  // CCI

  function TypicalPrice(h: real, l: real, c: real): real { (h + l + c) / 3.0 }

  function TypicalPrices(highs: seq<real>, lows: seq<real>, closes: seq<real>, start: nat): (r: seq<real>)
    requires start <= |closes| && |highs| == |lows| == |closes|
    ensures |r| == |closes| - start
    ensures forall j :: 0 <= j < |r| ==> r[j] == TypicalPrice(highs[start + j], lows[start + j], closes[start + j])
  {
    seq(|closes| - start, j requires 0 <= j < |closes| - start =>
      TypicalPrice(highs[start + j], lows[start + j], closes[start + j]))
  }

  /** The first loop of the CCI calculation: the typical price of every bar from `start`. */
  method TypicalPriceValues(highs: seq<real>, lows: seq<real>, closes: seq<real>, start: nat) returns (tps: seq<real>)
    requires start <= |closes| && |highs| == |lows| == |closes|
    ensures tps == TypicalPrices(highs, lows, closes, start)
  {
    tps := [];
    for i := start to |closes|
      invariant |tps| == i - start
      invariant forall j :: 0 <= j < |tps| ==> tps[j] == TypicalPrice(highs[start + j], lows[start + j], closes[start + j])
    {
      tps := tps + [(highs[i] + lows[i] + closes[i]) / 3.0];
    }
  }

  /** Sum of |x - center| over the last `n` elements. */
  function TailAbsDev(s: seq<real>, n: nat, center: real): real
    requires n <= |s|
  {
    if n == 0 then 0.0 else TailAbsDev(s, n - 1, center) + Abs(s[|s| - n] - center)
  }

  /** CCI of the last typical price against the mean and mean deviation of the last len; a zero deviation is replaced by 1. */
  function CciOf(tps: seq<real>, len: nat): real
    requires 1 <= len <= |tps|
  {
    var smaTp := TailSum(tps, len) / len as real;
    var md := TailAbsDev(tps, len, smaTp) / len as real;
    (tps[|tps| - 1] - smaTp) / (if 0.015 * md == 0.0 then 1.0 else 0.015 * md)
  }

  /** CCI over the trailing 2 * len typical prices, or the sentinel 0 with fewer than len bars. */
  function CciSpec(highs: seq<real>, lows: seq<real>, closes: seq<real>, len: nat): (r: real)
    requires len >= 1 && |highs| == |lows| == |closes|
    ensures |closes| < len ==> r == 0.0
  {
    if |closes| < len then 0.0
    else CciOf(TypicalPrices(highs, lows, closes, TrailingStart(|closes|, len * 2)), len)
  }

  method Cci(highs: seq<real>, lows: seq<real>, closes: seq<real>, len: nat) returns (r: real)
    requires len >= 1 && |highs| == |lows| == |closes|
    ensures r == CciSpec(highs, lows, closes, len)
  {
    if |closes| < len {
      return 0.0;
    }
    var tps := TypicalPriceValues(highs, lows, closes, TrailingStart(|closes|, len * 2));
    var currentTp := tps[|tps| - 1];
    var sum := WindowSum(tps, len);
    var smaTp := sum / len as real;
    var md := AbsDeviationSum(tps, len, smaTp);
    md := md / len as real;
    r := (currentTp - smaTp) / (if 0.015 * md == 0.0 then 1.0 else 0.015 * md);
  }

  /** The mean-deviation loop of the CCI calculation, before the division by len. */
  method AbsDeviationSum(tps: seq<real>, len: nat, center: real) returns (md: real)
    requires len <= |tps|
    ensures md == TailAbsDev(tps, len, center)
  {
    md := 0.0;
    for i := 0 to len
      invariant md == TailAbsDev(tps, i, center)
    {
      md := md + Abs(tps[|tps| - 1 - i] - center);
    }
  }

  lemma {:induction false} TailAbsDevShift(s: seq<real>, t: seq<real>, n: nat, center: real, d: real)
    requires n <= |s| == |t|
    requires forall i :: |s| - n <= i < |s| ==> t[i] == s[i] + d
    ensures TailAbsDev(t, n, center + d) == TailAbsDev(s, n, center)
  {
    if n > 0 {
      TailAbsDevShift(s, t, n - 1, center, d);
    }
  }

  /** Shifting every typical price by `d` leaves the CCI unchanged. */
  lemma CciOfShift(tps: seq<real>, tps': seq<real>, len: nat, d: real)
    requires 1 <= len <= |tps| == |tps'|
    requires forall i :: 0 <= i < |tps| ==> tps'[i] == tps[i] + d
    ensures CciOf(tps', len) == CciOf(tps, len)
  {
    TailSumShift(tps, tps', len, d);
    MeanShift(TailSum(tps, len), len, d);
    var sma := TailSum(tps, len) / len as real;
    TailAbsDevShift(tps, tps', len, sma, d);
    assert tps'[|tps| - 1] - (sma + d) == tps[|tps| - 1] - sma;
  }

  /** CCI is unchanged when the same constant is added to every high, low and close. */
  lemma CciShift(highs: seq<real>, lows: seq<real>, closes: seq<real>, len: nat, d: real)
    requires len >= 1 && |highs| == |lows| == |closes|
    ensures CciSpec(Shift(highs, d), Shift(lows, d), Shift(closes, d), len) == CciSpec(highs, lows, closes, len)
  {
    var hs, ls, cs := Shift(highs, d), Shift(lows, d), Shift(closes, d);
    if |closes| >= len {
      var start := TrailingStart(|closes|, len * 2);
      var tps := TypicalPrices(highs, lows, closes, start);
      var tps' := TypicalPrices(hs, ls, cs, start);
      forall j | 0 <= j < |tps| ensures tps'[j] == tps[j] + d {
        var i := start + j;
        assert TypicalPrice(highs[i] + d, lows[i] + d, closes[i] + d) == TypicalPrice(highs[i], lows[i], closes[i]) + d;
      }
      CciOfShift(tps, tps', len, d);
    } else {
      assert |cs| < len;
      assert CciSpec(hs, ls, cs, len) == 0.0;
    }
  }

  // ---------------------------------------------------------------------------
  // ADX / +DI / -DI

  datatype AdxResult = AdxResult(adx: real, pdi: real, mdi: real)

  datatype Movement = Movement(plus: real, minus: real)

  /** True range: Math.max(h - l, |h - pc|, |l - pc|). */
  function TrueRange(h: real, l: real, pc: real): (r: real)
    ensures r >= 0.0 && r >= h - l
  {
    Max2(h - l, Max2(Abs(h - pc), Abs(l - pc)))
  }

  /** +DM / -DM of one bar: only the larger move counts, and only when positive. */
  function DirectionalMove(up: real, down: real): (m: Movement)
    ensures m.plus >= 0.0 && m.minus >= 0.0
    ensures m.plus == 0.0 || m.minus == 0.0
    ensures m.plus == (if up > down && up > 0.0 then up else 0.0)
    ensures m.minus == (if down > up && down > 0.0 then down else 0.0)
  {
    Movement(if up > down && up > 0.0 then up else 0.0, if down > up && down > 0.0 then down else 0.0)
  }

  /** First bar of the ADX slice: Math.max(1, n - 5 * len). */
  function AdxStart(n: nat, len: nat): (start: nat)
    ensures start >= 1
    ensures len >= 1 && n >= len * 2 ==> start < n && n - start >= len * 2 - 1
  {
    if n > len * 5 + 1 then n - len * 5 else 1
  }

  function TrueRanges(highs: seq<real>, lows: seq<real>, closes: seq<real>, start: nat): (r: seq<real>)
    requires 1 <= start <= |closes| && |highs| == |lows| == |closes|
    ensures |r| == |closes| - start
    ensures forall j :: 0 <= j < |r| ==> r[j] == TrueRange(highs[start + j], lows[start + j], closes[start + j - 1])
  {
    seq(|closes| - start, j requires 0 <= j < |closes| - start =>
      TrueRange(highs[start + j], lows[start + j], closes[start + j - 1]))
  }

  function MoveAt(highs: seq<real>, lows: seq<real>, i: nat): Movement
    requires 1 <= i < |highs| == |lows|
  {
    DirectionalMove(highs[i] - highs[i - 1], lows[i - 1] - lows[i])
  }

  function PlusMoves(highs: seq<real>, lows: seq<real>, start: nat): (r: seq<real>)
    requires 1 <= start <= |highs| == |lows|
    ensures |r| == |highs| - start
    ensures forall j :: 0 <= j < |r| ==> r[j] == MoveAt(highs, lows, start + j).plus
  {
    seq(|highs| - start, j requires 0 <= j < |highs| - start => MoveAt(highs, lows, start + j).plus)
  }

  function MinusMoves(highs: seq<real>, lows: seq<real>, start: nat): (r: seq<real>)
    requires 1 <= start <= |highs| == |lows|
    ensures |r| == |highs| - start
    ensures forall j :: 0 <= j < |r| ==> r[j] == MoveAt(highs, lows, start + j).minus
  {
    seq(|highs| - start, j requires 0 <= j < |highs| - start => MoveAt(highs, lows, start + j).minus)
  }

  /** The first loop of the ADX calculation: true range, +DM and -DM of every bar from `start`. */
  method BarMovements(highs: seq<real>, lows: seq<real>, closes: seq<real>, start: nat)
    returns (tr: seq<real>, pdm: seq<real>, mdm: seq<real>)
    requires 1 <= start <= |closes| && |highs| == |lows| == |closes|
    ensures tr == TrueRanges(highs, lows, closes, start)
    ensures pdm == PlusMoves(highs, lows, start)
    ensures mdm == MinusMoves(highs, lows, start)
  {
    tr, pdm, mdm := [], [], [];
    for i := start to |closes|
      invariant |tr| == |pdm| == |mdm| == i - start
      invariant forall j :: 0 <= j < |tr| ==> tr[j] == TrueRange(highs[start + j], lows[start + j], closes[start + j - 1])
      invariant forall j :: 0 <= j < |pdm| ==> pdm[j] == MoveAt(highs, lows, start + j).plus
      invariant forall j :: 0 <= j < |mdm| ==> mdm[j] == MoveAt(highs, lows, start + j).minus
    {
      var h, l, pc := highs[i], lows[i], closes[i - 1];
      tr := tr + [Max2(h - l, Max2(Abs(h - pc), Abs(l - pc)))];
      var up := h - highs[i - 1];
      var down := lows[i - 1] - l;
      pdm := pdm + [if up > down && up > 0.0 then up else 0.0];
      mdm := mdm + [if down > up && down > 0.0 then down else 0.0];
    }
  }

  /** Wilder's running sum at index `i`: the plain sum of the first len values, then v := v - v / len + x. */
  function WilderSum(src: seq<real>, len: nat, i: nat): real
    requires 1 <= len && len - 1 <= i < |src|
    decreases i
  {
    if i == len - 1 then TailSum(src[..len], len)
    else
      var v := WilderSum(src, len, i - 1);
      v - v / len as real + src[i]
  }

  function Smoothed(src: seq<real>, len: nat): (r: seq<real>)
    requires 1 <= len <= |src|
    ensures |r| == |src| - len + 1
    ensures forall j :: 0 <= j < |r| ==> r[j] == WilderSum(src, len, len - 1 + j)
  {
    seq(|src| - len + 1, j requires 0 <= j < |src| - len + 1 => WilderSum(src, len, len - 1 + j))
  }

  /** The `smooth` helper of the ADX calculation. */
  method WilderSmooth(src: seq<real>, len: nat) returns (res: seq<real>)
    requires 1 <= len <= |src|
    ensures res == Smoothed(src, len)
  {
    var val := TailSum(src[..len], len);
    res := [val];
    for i := len to |src|
      invariant |res| == i - len + 1 && val == res[|res| - 1]
      invariant forall j :: 0 <= j < |res| ==> res[j] == WilderSum(src, len, len - 1 + j)
    {
      val := val - (val / len as real) + src[i];
      res := res + [val];
    }
  }

  /** +DI or -DI: 100 * smoothed move / smoothed true range, a zero range replaced by 1. */
  function DirectionalIndex(move: real, range: real): real
  {
    100.0 * move / (if range == 0.0 then 1.0 else range)
  }

  /** DX = |+DI - -DI| / (+DI + -DI) * 100, a zero sum replaced by 1. */
  function Dx(sp: real, sm: real, st: real): (r: real)
    ensures sp >= 0.0 && sm >= 0.0 && st >= 0.0 ==> 0.0 <= r <= 100.0
  {
    var pdi := DirectionalIndex(sp, st);
    var mdi := DirectionalIndex(sm, st);
    assert sp >= 0.0 && sm >= 0.0 && st >= 0.0 ==> pdi >= 0.0 && mdi >= 0.0;
    var total := if pdi + mdi == 0.0 then 1.0 else pdi + mdi;
    SpreadRatioInUnit(pdi, mdi);
    Abs(pdi - mdi) / total * 100.0
  }

  /** |a - b| / (a + b), a zero sum replaced by 1, lies in [0, 1] for non-negative a and b. */
  lemma SpreadRatioInUnit(a: real, b: real)
    ensures a >= 0.0 && b >= 0.0 ==> 0.0 <= Abs(a - b) / (if a + b == 0.0 then 1.0 else a + b) <= 1.0
  {
    if a >= 0.0 && b >= 0.0 && a + b != 0.0 {
      FractionInUnit(Abs(a - b), a + b);
    }
  }

  /** ADX at index `i` of the DX series: the mean of the first len DX values, then Wilder's average. */
  function AdxAt(dx: seq<real>, len: nat, i: nat): real
    requires 1 <= len && len - 1 <= i < |dx|
    decreases i
  {
    if i == len - 1 then TailSum(dx[..len], len) / len as real
    else WilderAverage(AdxAt(dx, len, i - 1), dx[i], len)
  }

  function DxSeries(spdm: seq<real>, smdm: seq<real>, str: seq<real>): (r: seq<real>)
    requires |spdm| == |smdm| == |str|
    ensures |r| == |str| && forall i {:trigger r[i]} :: 0 <= i < |r| ==> r[i] == Dx(spdm[i], smdm[i], str[i])
  {
    seq(|str|, i requires 0 <= i < |str| => Dx(spdm[i], smdm[i], str[i]))
  }

  /** ADX, +DI and -DI of the last bar over the trailing 5 * len bars, or all zero with fewer than 2 * len bars. */
  function AdxSpec(highs: seq<real>, lows: seq<real>, closes: seq<real>, len: nat): (r: AdxResult)
    requires len >= 1 && |highs| == |lows| == |closes|
    ensures |closes| < len * 2 ==> r == AdxResult(0.0, 0.0, 0.0)
  {
    if |closes| < len * 2 then AdxResult(0.0, 0.0, 0.0)
    else
      var start := AdxStart(|closes|, len);
      AdxOf(Smoothed(TrueRanges(highs, lows, closes, start), len),
            Smoothed(PlusMoves(highs, lows, start), len),
            Smoothed(MinusMoves(highs, lows, start), len), len)
  }

  /** ADX, +DI and -DI of the last bar from the smoothed true ranges and directional moves. */
  function AdxOf(str: seq<real>, spdm: seq<real>, smdm: seq<real>, len: nat): AdxResult
    requires 1 <= len <= |str| == |spdm| == |smdm|
  {
    var dx := DxSeries(spdm, smdm, str);
    var last := |str| - 1;
    AdxResult(AdxAt(dx, len, |dx| - 1), DirectionalIndex(spdm[last], str[last]), DirectionalIndex(smdm[last], str[last]))
  }

  /** The DX loop of the ADX calculation. */
  method DxValues(spdm: seq<real>, smdm: seq<real>, str: seq<real>) returns (dx: seq<real>)
    requires |spdm| == |smdm| == |str|
    ensures dx == DxSeries(spdm, smdm, str)
  {
    dx := [];
    for i := 0 to |str|
      invariant |dx| == i && forall j {:trigger dx[j]} :: 0 <= j < i ==> dx[j] == Dx(spdm[j], smdm[j], str[j])
    {
      var pdi := 100.0 * spdm[i] / (if str[i] == 0.0 then 1.0 else str[i]);
      var mdi := 100.0 * smdm[i] / (if str[i] == 0.0 then 1.0 else str[i]);
      dx := dx + [Abs(pdi - mdi) / (if pdi + mdi == 0.0 then 1.0 else pdi + mdi) * 100.0];
    }
  }

  /** The last loop of the ADX calculation: the seed mean of the first len DX values, then Wilder's average. */
  method AdxAverage(dx: seq<real>, len: nat) returns (v: real)
    requires 1 <= len <= |dx|
    ensures v == AdxAt(dx, len, |dx| - 1)
  {
    v := TailSum(dx[..len], len) / len as real;
    for i := len to |dx|
      invariant v == AdxAt(dx, len, i - 1)
    {
      v := WilderAverage(v, dx[i], len);
    }
  }

  method Adx(highs: seq<real>, lows: seq<real>, closes: seq<real>, len: nat) returns (r: AdxResult)
    requires len >= 1 && |highs| == |lows| == |closes|
    ensures r == AdxSpec(highs, lows, closes, len)
  {
    if |closes| < len * 2 {
      return AdxResult(0.0, 0.0, 0.0);
    }
    var start := AdxStart(|closes|, len);
    var tr, pdm, mdm := BarMovements(highs, lows, closes, start);
    var str := WilderSmooth(tr, len);
    var spdm := WilderSmooth(pdm, len);
    var smdm := WilderSmooth(mdm, len);
    var dx := DxValues(spdm, smdm, str);
    var adxVal := AdxAverage(dx, len);
    var last := |str| - 1;
    r := AdxResult(adxVal, DirectionalIndex(spdm[last], str[last]), DirectionalIndex(smdm[last], str[last]));
    assert r == AdxOf(str, spdm, smdm, len);
  }

  lemma {:induction false} WilderSumNonNegative(src: seq<real>, len: nat, i: nat)
    requires 1 <= len && len - 1 <= i < |src|
    requires forall j :: 0 <= j < |src| ==> src[j] >= 0.0
    ensures WilderSum(src, len, i) >= 0.0
    decreases i
  {
    if i == len - 1 {
      TailSumNonNegative(src[..len], len);
    } else {
      WilderSumNonNegative(src, len, i - 1);
      var v, n := WilderSum(src, len, i - 1), len as real;
      assert v - v / n == v * (n - 1.0) / n;
      assert v * (n - 1.0) >= 0.0;
    }
  }

  lemma {:induction false} AdxAtInRange(dx: seq<real>, len: nat, i: nat)
    requires 1 <= len && len - 1 <= i < |dx|
    requires forall j :: 0 <= j < |dx| ==> 0.0 <= dx[j] <= 100.0
    ensures 0.0 <= AdxAt(dx, len, i) <= 100.0
    decreases i
  {
    if i == len - 1 {
      TailSumBounds(dx[..len], len, 0.0, 100.0);
      MeanBounds(TailSum(dx[..len], len), len, 0.0, 100.0);
    } else {
      AdxAtInRange(dx, len, i - 1);
      WilderAverageBounds(AdxAt(dx, len, i - 1), dx[i], len, 0.0, 100.0);
    }
  }

  /** From non-negative smoothed series, ADX lies in [0, 100] and both directional indices are non-negative. */
  lemma AdxOfInRange(str: seq<real>, spdm: seq<real>, smdm: seq<real>, len: nat)
    requires 1 <= len <= |str| == |spdm| == |smdm|
    requires forall j :: 0 <= j < |str| ==> str[j] >= 0.0 && spdm[j] >= 0.0 && smdm[j] >= 0.0
    ensures 0.0 <= AdxOf(str, spdm, smdm, len).adx <= 100.0
    ensures AdxOf(str, spdm, smdm, len).pdi >= 0.0
    ensures AdxOf(str, spdm, smdm, len).mdi >= 0.0
  {
    var dx := DxSeries(spdm, smdm, str);
    AdxAtInRange(dx, len, |dx| - 1);
  }

  /** For every input, ADX lies in [0, 100] and both directional indices are non-negative. */
  lemma AdxInRange(highs: seq<real>, lows: seq<real>, closes: seq<real>, len: nat)
    requires len >= 1 && |highs| == |lows| == |closes|
    ensures 0.0 <= AdxSpec(highs, lows, closes, len).adx <= 100.0
    ensures AdxSpec(highs, lows, closes, len).pdi >= 0.0
    ensures AdxSpec(highs, lows, closes, len).mdi >= 0.0
  {
    if |closes| >= len * 2 {
      var start := AdxStart(|closes|, len);
      var tr := TrueRanges(highs, lows, closes, start);
      var pdm := PlusMoves(highs, lows, start);
      var mdm := MinusMoves(highs, lows, start);
      var str, spdm, smdm := Smoothed(tr, len), Smoothed(pdm, len), Smoothed(mdm, len);
      forall j | 0 <= j < |str| ensures str[j] >= 0.0 && spdm[j] >= 0.0 && smdm[j] >= 0.0 {
        WilderSumNonNegative(tr, len, len - 1 + j);
        WilderSumNonNegative(pdm, len, len - 1 + j);
        WilderSumNonNegative(mdm, len, len - 1 + j);
      }
      AdxOfInRange(str, spdm, smdm, len);
    } else {
      assert AdxSpec(highs, lows, closes, len) == AdxResult(0.0, 0.0, 0.0);
    }
  }

  // ---------------------------------------------------------------------------
  // Awesome Oscillator, Momentum

  function Midpoints(highs: seq<real>, lows: seq<real>): (r: seq<real>)
    requires |highs| == |lows|
    ensures |r| == |highs| && forall i {:trigger r[i]} :: 0 <= i < |r| ==> r[i] == (highs[i] + lows[i]) / 2.0
  {
    seq(|highs|, i requires 0 <= i < |highs| => (highs[i] + lows[i]) / 2.0)
  }

  /** AO = SMA(midpoint, 5) - SMA(midpoint, 34), or 0 with fewer than 34 bars. */
  function Ao(highs: seq<real>, lows: seq<real>): (r: real)
    requires |highs| == |lows|
    ensures |highs| < 34 ==> r == 0.0
  {
    if |highs| < 34 then 0.0
    else
      var mp := Midpoints(highs, lows);
      SmaSpec(mp, 5) - SmaSpec(mp, 34)
  }

  /** AO is unchanged when the same constant is added to every high and low. */
  lemma AoShift(highs: seq<real>, lows: seq<real>, d: real)
    requires |highs| == |lows|
    ensures Ao(Shift(highs, d), Shift(lows, d)) == Ao(highs, lows)
  {
    if |highs| >= 34 {
      var mp := Midpoints(highs, lows);
      assert Midpoints(Shift(highs, d), Shift(lows, d)) == Shift(mp, d);
      SmaShift(mp, 5, d);
      SmaShift(mp, 34, d);
    }
  }

  /** On bars whose midpoints are all equal (a constant series included), AO is 0. */
  lemma AoOfFlat(highs: seq<real>, lows: seq<real>, c: real)
    requires |highs| == |lows|
    requires forall i :: 0 <= i < |highs| ==> (highs[i] + lows[i]) / 2.0 == c
    ensures Ao(highs, lows) == 0.0
  {
    if |highs| >= 34 {
      var mp := Midpoints(highs, lows);
      SmaOfConstant(mp, 5, c);
      SmaOfConstant(mp, 34, c);
    }
  }

  /**
   * Momentum as the engine writes it: the guard returns 0 only below `len`
   * bars, so with exactly `len` bars the engine reads the close at index -1,
   * which is undefined and makes the difference NaN; `None` stands for that.
   */
  function MomAsWritten(closes: seq<real>, len: nat): (r: Option<real>)
    ensures r.None? <==> |closes| == len
    ensures |closes| < len ==> r == Some(0.0)
  {
    if |closes| < len then Some(0.0)
    else if |closes| == len then None
    else Some(closes[|closes| - 1] - closes[|closes| - 1 - len])
  }

  /** With exactly `len` bars the engine's momentum has no value, while `Mom` gives 0. */
  lemma MomAsWrittenUndefinedAtLength(closes: seq<real>)
    requires |closes| >= 1
    ensures MomAsWritten(closes, |closes|) == None
    ensures Mom(closes, |closes|) == 0.0
  {
  }

  /**
   * Momentum: the change of the close over `len` bars, or 0 when there is no
   * close `len` bars back.
   */
  function Mom(closes: seq<real>, len: nat): (r: real)
    ensures |closes| <= len ==> r == 0.0
  {
    if |closes| <= len then 0.0 else closes[|closes| - 1] - closes[|closes| - 1 - len]
  }

  /** Everywhere the engine's momentum is defined, `Mom` agrees with it. */
  lemma MomAgreesWhereDefined(closes: seq<real>, len: nat)
    ensures MomAsWritten(closes, len).Some? <==> |closes| != len
    ensures MomAsWritten(closes, len).Some? ==> MomAsWritten(closes, len).value == Mom(closes, len)
  {
  }

  /** On a non-decreasing series momentum is never negative, and on a constant one it is 0. */
  lemma MomOfNonDecreasing(closes: seq<real>, len: nat)
    requires NonDecreasing(closes)
    ensures Mom(closes, len) >= 0.0
    ensures (forall i :: 0 <= i < |closes| ==> closes[i] == closes[0]) ==> Mom(closes, len) == 0.0
  {
    if |closes| > len {
      var n := |closes|;
      var i := n - 1 - len;
      while i < n - 1
        invariant n - 1 - len <= i <= n - 1
        invariant closes[n - 1 - len] <= closes[i]
      {
        i := i + 1;
      }
    }
  }

  // ---------------------------------------------------------------------------
  // MACD

  datatype MacdResult = MacdResult(macd: real, signal: real, hist: real)

  /** The pointwise EMA series of the MACD calculation, seeded with data[0] and with no sentinel. */
  function EmaSeriesSpec(data: seq<real>, p: nat): (r: seq<real>)
    requires |data| >= 1
    ensures |r| == |data| && forall i :: 0 <= i < |r| ==> r[i] == EmaAt(data, Smoothing(p), i + 1)
  {
    seq(|data|, i requires 0 <= i < |data| => EmaAt(data, Smoothing(p), i + 1))
  }

  method EmaSeries(data: seq<real>, p: nat) returns (res: seq<real>)
    requires |data| >= 1
    ensures res == EmaSeriesSpec(data, p)
  {
    var k := 2.0 / (p as real + 1.0);
    var e := data[0];
    res := [e];
    for i := 1 to |data|
      invariant |res| == i && e == res[i - 1]
      invariant forall j :: 0 <= j < i ==> res[j] == EmaAt(data, k, j + 1)
    {
      e := data[i] * k + e * (1.0 - k);
      res := res + [e];
    }
  }

  function MacdLine(f: seq<real>, s: seq<real>): (r: seq<real>)
    requires |f| == |s|
    ensures |r| == |f| && forall i {:trigger r[i]} :: 0 <= i < |r| ==> r[i] == f[i] - s[i]
  {
    seq(|f|, i requires 0 <= i < |f| => f[i] - s[i])
  }

  function MacdSpec(closes: seq<real>, fast: nat, slow: nat, sig: nat): MacdResult
    requires |closes| >= 1
  {
    var m := MacdLine(EmaSeriesSpec(closes, fast), EmaSeriesSpec(closes, slow));
    var signal := EmaSeriesSpec(m, sig);
    MacdResult(m[|m| - 1], signal[|signal| - 1], m[|m| - 1] - signal[|signal| - 1])
  }

  method Macd(closes: seq<real>, fast: nat, slow: nat, sig: nat) returns (r: MacdResult)
    requires |closes| >= 1
    ensures r == MacdSpec(closes, fast, slow, sig)
  {
    var f := EmaSeries(closes, fast);
    var s := EmaSeries(closes, slow);
    var m := [];
    for i := 0 to |f|
      invariant |m| == i && forall j {:trigger m[j]} :: 0 <= j < i ==> m[j] == f[j] - s[j]
    {
      m := m + [f[i] - s[i]];
    }
    assert m == MacdLine(f, s);
    var sign := EmaSeries(m, sig);
    var lastM := m[|m| - 1];
    var lastS := sign[|sign| - 1];
    r := MacdResult(lastM, lastS, lastM - lastS);
  }

  /** MACD, its signal and its histogram are unchanged when every close is shifted by the same amount. */
  lemma MacdShift(closes: seq<real>, fast: nat, slow: nat, sig: nat, d: real)
    requires |closes| >= 1
    ensures MacdSpec(Shift(closes, d), fast, slow, sig) == MacdSpec(closes, fast, slow, sig)
  {
    var f, s := EmaSeriesSpec(closes, fast), EmaSeriesSpec(closes, slow);
    var f', s' := EmaSeriesSpec(Shift(closes, d), fast), EmaSeriesSpec(Shift(closes, d), slow);
    forall i | 0 <= i < |closes| ensures f'[i] - s'[i] == f[i] - s[i] {
      EmaAtShift(closes, Smoothing(fast), i + 1, d);
      EmaAtShift(closes, Smoothing(slow), i + 1, d);
    }
    assert MacdLine(f', s') == MacdLine(f, s);
  }

  /** On a constant series the MACD line, its signal and the histogram are all 0. */
  lemma MacdOfConstant(closes: seq<real>, fast: nat, slow: nat, sig: nat, c: real)
    requires |closes| >= 1
    requires forall i :: 0 <= i < |closes| ==> closes[i] == c
    ensures MacdSpec(closes, fast, slow, sig) == MacdResult(0.0, 0.0, 0.0)
  {
    var f, s := EmaSeriesSpec(closes, fast), EmaSeriesSpec(closes, slow);
    forall i | 0 <= i < |closes| ensures f[i] == c && s[i] == c {
      EmaAtOfConstant(closes, Smoothing(fast), i + 1, c);
      EmaAtOfConstant(closes, Smoothing(slow), i + 1, c);
    }
    var m := MacdLine(f, s);
    EmaAtOfConstant(m, Smoothing(sig), |m|, 0.0);
  }

  // ---------------------------------------------------------------------------
  // Stochastic RSI

  /** The RSI after every step of Wilder's recurrence, from the seed onwards. */
  function RsiSeries(s: seq<real>, len: nat): (r: seq<real>)
    requires 1 <= len < |s|
    ensures |r| == |s| - len
    ensures forall j :: 0 <= j < |r| ==> r[j] == RsiOf(WilderState(s, len, len + j))
  {
    seq(|s| - len, j requires 0 <= j < |s| - len => RsiOf(WilderState(s, len, len + j)))
  }

  /**
   * One Stochastic-RSI reading as the engine writes it: 100 - 100 / (1 + gain / loss)
   * with no guard. A zero loss with a positive gain gives exactly 100 in IEEE
   * arithmetic, as `RsiOf` does; a zero loss with a zero gain gives 0/0, NaN,
   * which `None` stands for. The RSI calculator guards that case with 100.
   */
  function RsiReadingAsWritten(avg: GainLoss): (r: Option<real>)
    requires avg.gain >= 0.0 && avg.loss >= 0.0
    ensures r.None? <==> avg.gain == 0.0 && avg.loss == 0.0
    ensures r.Some? ==> r.value == RsiOf(avg)
  {
    if avg.gain == 0.0 && avg.loss == 0.0 then None
    else if avg.loss == 0.0 then Some(100.0)
    else Some(100.0 - 100.0 / (1.0 + avg.gain / avg.loss))
  }

  /** On a flat series every seed delta is 0, so the seed sums are both 0. */
  lemma {:induction false} SeedSumsOfFlat(s: seq<real>, n: nat)
    requires n < |s|
    requires forall i :: 0 <= i < |s| ==> s[i] == s[0]
    ensures SeedSums(s, n) == GainLoss(0.0, 0.0)
  {
    if n > 0 {
      SeedSumsOfFlat(s, n - 1);
      assert s[n] - s[n - 1] == 0.0;
    }
  }

  /**
   * A flat window (a constant close over the last bars) leaves the engine's
   * first Stochastic-RSI reading undefined, where the RSI calculator, and
   * `RsiSeries`, give 100.
   */
  lemma FlatWindowRsiReadingUndefined(s: seq<real>, len: nat)
    requires 1 <= len < |s|
    requires forall i :: 0 <= i < |s| ==> s[i] == s[0]
    ensures RsiReadingAsWritten(WilderState(s, len, len)) == None
    ensures RsiSeries(s, len)[0] == 100.0
  {
    SeedSumsOfFlat(s, len);
  }

  /** The closes the Stochastic RSI looks at: the last 200. */
  function StochRsiSubset(closes: seq<real>): (r: seq<real>)
    ensures |r| == (if |closes| > 200 then 200 else |closes|)
    ensures r == closes[|closes| - |r|..]
  {
    closes[TrailingStart(|closes|, 200)..]
  }

  function StochRsiSpec(closes: seq<real>, len: nat, stochLen: nat, k: nat, d: nat): (r: real)
    requires len >= 1 && stochLen >= 1 && k >= 1
    requires len < |closes| && len < 200
  {
    var rsis := RsiSeries(StochRsiSubset(closes), len);
    var sm := SmoothedKs(RawKs(rsis, rsis, rsis, stochLen, 0), k);
    sm[|sm| - 1]
  }

  /**
   * The two loops of the Stochastic RSI: the RSI after the seed and after
   * every later step of Wilder's recurrence over `subset`.
   */
  method RsiValues(subset: seq<real>, len: nat) returns (rsis: seq<real>)
    requires 1 <= len < |subset|
    ensures rsis == RsiSeries(subset, len)
  {
    rsis := [];
    var gains, losses := 0.0, 0.0;
    for i := 1 to len + 1
      invariant GainLoss(gains, losses) == SeedSums(subset, i - 1)
    {
      var diff := subset[i] - subset[i - 1];
      if diff > 0.0 { gains := gains + diff; } else { losses := losses - diff; }
    }
    var n := len as real;
    var avgGain, avgLoss := gains / n, losses / n;
    assert GainLoss(avgGain, avgLoss) == WilderState(subset, len, len);
    rsis := rsis + [RsiOf(GainLoss(avgGain, avgLoss))];
    for i := len + 1 to |subset|
      invariant GainLoss(avgGain, avgLoss) == WilderState(subset, len, i - 1)
      invariant |rsis| == i - len
      invariant forall j {:trigger rsis[j]} :: 0 <= j < |rsis| ==> rsis[j] == RsiOf(WilderState(subset, len, len + j))
    {
      var diff := subset[i] - subset[i - 1];
      if diff > 0.0 {
        avgGain := WilderAverage(avgGain, diff, len);
        avgLoss := WilderAverage(avgLoss, 0.0, len);
      } else {
        avgGain := WilderAverage(avgGain, 0.0, len);
        avgLoss := WilderAverage(avgLoss, -diff, len);
      }
      assert GainLoss(avgGain, avgLoss) == WilderState(subset, len, i);
      rsis := rsis + [RsiOf(GainLoss(avgGain, avgLoss))];
    }
  }

  method StochRsi(closes: seq<real>, len: nat, stochLen: nat, k: nat, d: nat) returns (r: real)
    requires len >= 1 && stochLen >= 1 && k >= 1
    requires len < |closes| && len < 200
    ensures r == StochRsiSpec(closes, len, stochLen, k, d)
  {
    var start := if |closes| > 200 then |closes| - 200 else 0;
    var subset := closes[start..];
    var rsis := RsiValues(subset, len);
    var rawKs := CollectRawKs(rsis, rsis, rsis, stochLen, 0);
    var smoothKs := SmoothRawKs(rawKs, k);
    r := smoothKs[|smoothKs| - 1];
  }

  /** The Stochastic RSI lies in [0, 100] for every input it is defined on. */
  lemma StochRsiInRange(closes: seq<real>, len: nat, stochLen: nat, k: nat, d: nat)
    requires len >= 1 && stochLen >= 1 && k >= 1
    requires len < |closes| && len < 200
    ensures 0.0 <= StochRsiSpec(closes, len, stochLen, k, d) <= 100.0
  {
    var rsis := RsiSeries(StochRsiSubset(closes), len);
    var raw := RawKs(rsis, rsis, rsis, stochLen, 0);
    forall j | 0 <= j < |raw| ensures 0.0 <= raw[j] <= 100.0 {
      RawKInRange(rsis, rsis, rsis, stochLen, j);
    }
    SmoothedInRange(raw, k);
  }

  // ---------------------------------------------------------------------------
  // Bull/Bear Power

  /**
   * BBP = (last high - EMA) + (last low - EMA). With fewer than `len` bars the
   * EMA is the sentinel 0, so BBP is then the raw last high plus last low.
   */
  function Bbp(highs: seq<real>, lows: seq<real>, closes: seq<real>, len: nat): (r: real)
    requires len >= 1 && |highs| == |lows| == |closes| >= 1
    ensures |closes| < len ==> r == highs[|closes| - 1] + lows[|closes| - 1]
  {
    var ema := EmaSpec(closes, len);
    var idx := |closes| - 1;
    highs[idx] - ema + (lows[idx] - ema)
  }

  /** With at least `len` bars, BBP is unchanged when every high, low and close is shifted by the same amount. */
  lemma BbpShift(highs: seq<real>, lows: seq<real>, closes: seq<real>, len: nat, d: real)
    requires len >= 1 && |highs| == |lows| == |closes| >= len
    ensures Bbp(Shift(highs, d), Shift(lows, d), Shift(closes, d), len) == Bbp(highs, lows, closes, len)
  {
    EmaAtShift(closes, Smoothing(len), |closes|, d);
  }

  /** On flat bars (every high, low and close equal to c), BBP is 0. */
  lemma BbpOfFlat(highs: seq<real>, lows: seq<real>, closes: seq<real>, len: nat, c: real)
    requires len >= 1 && |highs| == |lows| == |closes| >= len
    requires forall i :: 0 <= i < |closes| ==> highs[i] == c && lows[i] == c && closes[i] == c
    ensures Bbp(highs, lows, closes, len) == 0.0
  {
    EmaAtOfConstant(closes, Smoothing(len), |closes|, c);
  }

  // ---------------------------------------------------------------------------
  // Ultimate Oscillator

  /** First bar of the UO slice: Math.max(1, n - p3 - 50). */
  function UoStart(n: nat, p3: nat): (start: nat)
    ensures start >= 1
  {
    if n > p3 + 51 then n - p3 - 50 else 1
  }

  function BuyingPressure(c: real, l: real, pc: real): real { c - Min2(l, pc) }

  function UoRange(h: real, l: real, pc: real): real { Max2(h, pc) - Min2(l, pc) }

  function Pressures(lows: seq<real>, closes: seq<real>, start: nat): (r: seq<real>)
    requires 1 <= start <= |closes| == |lows|
    ensures |r| == |closes| - start
    ensures forall j :: 0 <= j < |r| ==> r[j] == BuyingPressure(closes[start + j], lows[start + j], closes[start + j - 1])
  {
    seq(|closes| - start, j requires 0 <= j < |closes| - start =>
      BuyingPressure(closes[start + j], lows[start + j], closes[start + j - 1]))
  }

  function UoRanges(highs: seq<real>, lows: seq<real>, closes: seq<real>, start: nat): (r: seq<real>)
    requires 1 <= start <= |closes| && |highs| == |lows| == |closes|
    ensures |r| == |closes| - start
    ensures forall j :: 0 <= j < |r| ==> r[j] == UoRange(highs[start + j], lows[start + j], closes[start + j - 1])
  {
    seq(|closes| - start, j requires 0 <= j < |closes| - start =>
      UoRange(highs[start + j], lows[start + j], closes[start + j - 1]))
  }

  /**
   * Where the engine's UO is a number: a non-empty history, every period
   * within the bar slice (a longer one makes `sum` read before the start of
   * the slice, undefined), and every true-range sum nonzero (the engine
   * divides by it with no guard).
   */
  predicate UoDefined(highs: seq<real>, lows: seq<real>, closes: seq<real>, p1: nat, p2: nat, p3: nat)
    requires |highs| == |lows| == |closes|
  {
    |closes| >= 1 &&
    var trs := UoRanges(highs, lows, closes, UoStart(|closes|, p3));
    p1 <= |trs| && p2 <= |trs| && p3 <= |trs| &&
    TailSum(trs, p1) != 0.0 && TailSum(trs, p2) != 0.0 && TailSum(trs, p3) != 0.0
  }

  /**
   * The Ultimate Oscillator 100 * (4 * a1 + 2 * a2 + a3) / 7 of the three
   * pressure ratios, or `None` where the engine's arithmetic yields no number.
   */
  function UoSpec(highs: seq<real>, lows: seq<real>, closes: seq<real>, p1: nat, p2: nat, p3: nat): (r: Option<real>)
    requires |highs| == |lows| == |closes|
    ensures r.Some? <==> UoDefined(highs, lows, closes, p1, p2, p3)
  {
    if !UoDefined(highs, lows, closes, p1, p2, p3) then None
    else
      var start := UoStart(|closes|, p3);
      Some(UoOf(Pressures(lows, closes, start), UoRanges(highs, lows, closes, start), p1, p2, p3))
  }

  /** The weighted average of the three pressure ratios over the windows `p1`, `p2`, `p3`. */
  function UoOf(bps: seq<real>, trs: seq<real>, p1: nat, p2: nat, p3: nat): real
    requires p1 <= |bps| == |trs| && p2 <= |trs| && p3 <= |trs|
    requires TailSum(trs, p1) != 0.0 && TailSum(trs, p2) != 0.0 && TailSum(trs, p3) != 0.0
  {
    var a1 := TailSum(bps, p1) / TailSum(trs, p1);
    var a2 := TailSum(bps, p2) / TailSum(trs, p2);
    var a3 := TailSum(bps, p3) / TailSum(trs, p3);
    100.0 * (4.0 * a1 + 2.0 * a2 + a3) / 7.0
  }

  /** The bar loop of the Ultimate Oscillator: buying pressure and true range of every bar from `start`. */
  method BarPressures(highs: seq<real>, lows: seq<real>, closes: seq<real>, start: nat) returns (bps: seq<real>, trs: seq<real>)
    requires 1 <= start <= |closes| && |highs| == |lows| == |closes|
    ensures bps == Pressures(lows, closes, start)
    ensures trs == UoRanges(highs, lows, closes, start)
  {
    bps, trs := [], [];
    for i := start to |closes|
      invariant |bps| == |trs| == i - start
      invariant forall j :: 0 <= j < |bps| ==> bps[j] == BuyingPressure(closes[start + j], lows[start + j], closes[start + j - 1])
      invariant forall j :: 0 <= j < |trs| ==> trs[j] == UoRange(highs[start + j], lows[start + j], closes[start + j - 1])
    {
      var c, pc, l, h := closes[i], closes[i - 1], lows[i], highs[i];
      bps := bps + [c - Min2(l, pc)];
      trs := trs + [Max2(h, pc) - Min2(l, pc)];
    }
  }

  /**
   * The three window sums and ratios of the UO over the bar series, or `None`
   * when a window reaches before the series or has a zero true-range sum.
   */
  method WeightedPressure(bps: seq<real>, trs: seq<real>, p1: nat, p2: nat, p3: nat) returns (r: Option<real>)
    requires |bps| == |trs|
    ensures r.Some? <==> p1 <= |trs| && p2 <= |trs| && p3 <= |trs| &&
                         TailSum(trs, p1) != 0.0 && TailSum(trs, p2) != 0.0 && TailSum(trs, p3) != 0.0
    ensures r.Some? ==> r.value == UoOf(bps, trs, p1, p2, p3)
  {
    if p1 > |trs| || p2 > |trs| || p3 > |trs| {
      return None;
    }
    var b1 := WindowSum(bps, p1);
    var t1 := WindowSum(trs, p1);
    var b2 := WindowSum(bps, p2);
    var t2 := WindowSum(trs, p2);
    var b3 := WindowSum(bps, p3);
    var t3 := WindowSum(trs, p3);
    if t1 == 0.0 || t2 == 0.0 || t3 == 0.0 {
      return None;
    }
    var a1, a2, a3 := b1 / t1, b2 / t2, b3 / t3;
    r := Some(100.0 * (4.0 * a1 + 2.0 * a2 + a3) / 7.0);
  }

  method Uo(highs: seq<real>, lows: seq<real>, closes: seq<real>, p1: nat, p2: nat, p3: nat) returns (r: Option<real>)
    requires |highs| == |lows| == |closes|
    ensures r == UoSpec(highs, lows, closes, p1, p2, p3)
  {
    if |closes| == 0 {
      return None;
    }
    var start := UoStart(|closes|, p3);
    var bps, trs := BarPressures(highs, lows, closes, start);
    r := WeightedPressure(bps, trs, p1, p2, p3);
  }

  /** A ratio of tail sums with 0 <= numerator term <= denominator term lies in [0, 1]. */
  lemma PressureRatioInRange(bps: seq<real>, trs: seq<real>, p: nat)
    requires p <= |bps| == |trs|
    requires forall i :: 0 <= i < |bps| ==> 0.0 <= bps[i] <= trs[i]
    requires TailSum(trs, p) != 0.0
    ensures 0.0 <= TailSum(bps, p) / TailSum(trs, p) <= 1.0
  {
    TailSumMonotone(bps, trs, p);
    TailSumNonNegative(bps, p);
    FractionInUnit(TailSum(bps, p), TailSum(trs, p));
  }

  /** A close inside its bar's range has a buying pressure between 0 and the bar's true range. */
  lemma PressureWithinRange(h: real, l: real, c: real, pc: real)
    requires l <= c <= h
    ensures 0.0 <= BuyingPressure(c, l, pc) <= UoRange(h, l, pc)
  {
  }

  /** When every bar's pressure lies between 0 and its range, the weighted average of the ratios lies in [0, 100]. */
  lemma UoOfInRange(bps: seq<real>, trs: seq<real>, p1: nat, p2: nat, p3: nat)
    requires p1 <= |bps| == |trs| && p2 <= |trs| && p3 <= |trs|
    requires TailSum(trs, p1) != 0.0 && TailSum(trs, p2) != 0.0 && TailSum(trs, p3) != 0.0
    requires forall i :: 0 <= i < |bps| ==> 0.0 <= bps[i] <= trs[i]
    ensures 0.0 <= UoOf(bps, trs, p1, p2, p3) <= 100.0
  {
    PressureRatioInRange(bps, trs, p1);
    PressureRatioInRange(bps, trs, p2);
    PressureRatioInRange(bps, trs, p3);
  }

  /** With every close inside its bar's range, each bar's buying pressure lies in [0, true range], so UO lies in [0, 100]. */
  lemma UoInRange(highs: seq<real>, lows: seq<real>, closes: seq<real>, p1: nat, p2: nat, p3: nat)
    requires WellFormed(highs, lows, closes)
    ensures UoSpec(highs, lows, closes, p1, p2, p3).Some? ==> 0.0 <= UoSpec(highs, lows, closes, p1, p2, p3).value <= 100.0
  {
    if UoDefined(highs, lows, closes, p1, p2, p3) {
      var start := UoStart(|closes|, p3);
      var bps := Pressures(lows, closes, start);
      var trs := UoRanges(highs, lows, closes, start);
      forall j | 0 <= j < |bps| ensures 0.0 <= bps[j] <= trs[j] {
        var i := start + j;
        PressureWithinRange(highs[i], lows[i], closes[i], closes[i - 1]);
      }
      UoOfInRange(bps, trs, p1, p2, p3);
    }
  }

  /**
   * On bars whose closes lie inside their ranges, a window with a zero
   * true-range sum also has a zero buying-pressure sum: the engine's ratio is
   * then 0/0, NaN, which is what `None` stands for.
   */
  lemma ZeroRangeWindowIsZeroOverZero(highs: seq<real>, lows: seq<real>, closes: seq<real>, start: nat, p: nat)
    requires WellFormed(highs, lows, closes) && 1 <= start <= |closes|
    requires p <= |closes| - start
    requires TailSum(UoRanges(highs, lows, closes, start), p) == 0.0
    ensures TailSum(Pressures(lows, closes, start), p) == 0.0
  {
    var bps := Pressures(lows, closes, start);
    var trs := UoRanges(highs, lows, closes, start);
    forall j | 0 <= j < |bps| ensures 0.0 <= bps[j] <= trs[j] {
      var i := start + j;
      PressureWithinRange(highs[i], lows[i], closes[i], closes[i - 1]);
    }
    TailSumMonotone(bps, trs, p);
    TailSumNonNegative(bps, p);
  }
}
