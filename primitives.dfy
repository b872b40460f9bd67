/**
 * The primitive calculators of the indicator engine: sums over the tail of a
 * series, window maxima and minima, the simple and the exponential moving
 * average. The loops of `sma` and `ema` are methods proved against the pure
 * definitions `SmaSpec` and `EmaSpec`.
 */
module Primitives {

  /** A value, or none where the engine's arithmetic leaves it undefined. */
  datatype Option<T> = None | Some(value: T)

  /** Sum of the last `n` elements of `s`, added from the newest backwards. */
  function TailSum(s: seq<real>, n: nat): real
    requires n <= |s|
  {
    if n == 0 then 0.0 else TailSum(s, n - 1) + s[|s| - n]
  }

  /** `s` with `d` added to every element (a pure price-level shift). */
  function Shift(s: seq<real>, d: real): (r: seq<real>)
    ensures |r| == |s| && forall i {:trigger r[i]} :: 0 <= i < |s| ==> r[i] == s[i] + d
  {
    seq(|s|, i requires 0 <= i < |s| => s[i] + d)
  }

  /** A window of a shifted series is the shifted window. */
  lemma ShiftSlice(s: seq<real>, d: real, lo: nat, hi: nat)
    requires lo <= hi <= |s|
    ensures Shift(s, d)[lo..hi] == Shift(s[lo..hi], d)
  {
  }

  function Max2(a: real, b: real): real { if a >= b then a else b }

  function Min2(a: real, b: real): real { if a <= b then a else b }

  /** `Math.max(...s)` over a non-empty window. */
  function Max(s: seq<real>): real
    requires |s| > 0
  {
    if |s| == 1 then s[0] else Max2(Max(s[..|s| - 1]), s[|s| - 1])
  }

  /** `Math.min(...s)` over a non-empty window. */
  function Min(s: seq<real>): real
    requires |s| > 0
  {
    if |s| == 1 then s[0] else Min2(Min(s[..|s| - 1]), s[|s| - 1])
  }

  /** The window maximum bounds every element of the window and is one of them. */
  lemma {:induction false} MaxIsGreatest(s: seq<real>, i: nat)
    requires i < |s|
    ensures s[i] <= Max(s)
    ensures exists j :: 0 <= j < |s| && s[j] == Max(s)
  {
    if |s| > 1 {
      var p := s[..|s| - 1];
      if i < |s| - 1 {
        assert p[i] == s[i];
        MaxIsGreatest(p, i);
      } else {
        MaxIsGreatest(p, 0);
      }
      var j :| 0 <= j < |p| && p[j] == Max(p);
      assert s[j] == p[j];
    }
  }

  /** The window minimum is below every element of the window and is one of them. */
  lemma {:induction false} MinIsLeast(s: seq<real>, i: nat)
    requires i < |s|
    ensures Min(s) <= s[i]
    ensures exists j :: 0 <= j < |s| && s[j] == Min(s)
  {
    if |s| > 1 {
      var p := s[..|s| - 1];
      if i < |s| - 1 {
        assert p[i] == s[i];
        MinIsLeast(p, i);
      } else {
        MinIsLeast(p, 0);
      }
      var j :| 0 <= j < |p| && p[j] == Min(p);
      assert s[j] == p[j];
    }
  }

  /** A tail sum of values inside [lo, hi] lies between n * lo and n * hi. */
  lemma {:induction false} TailSumBounds(s: seq<real>, n: nat, lo: real, hi: real)
    requires n <= |s|
    requires forall i :: |s| - n <= i < |s| ==> lo <= s[i] <= hi
    ensures n as real * lo <= TailSum(s, n) <= n as real * hi
  {
    if n > 0 {
      TailSumBounds(s, n - 1, lo, hi);
      var m := (n - 1) as real;
      assert TailSum(s, n) == TailSum(s, n - 1) + s[|s| - n];
      assert n as real * lo == m * lo + lo && n as real * hi == m * hi + hi;
    }
  }

  /** A tail sum of non-negative values is non-negative. */
  lemma {:induction false} TailSumNonNegative(s: seq<real>, n: nat)
    requires n <= |s|
    requires forall i :: |s| - n <= i < |s| ==> s[i] >= 0.0
    ensures TailSum(s, n) >= 0.0
  {
    if n > 0 {
      TailSumNonNegative(s, n - 1);
    }
  }

  /** Adding `d` to every summed element adds `n * d` to the tail sum. */
  lemma {:induction false} TailSumShift(s: seq<real>, t: seq<real>, n: nat, d: real)
    requires n <= |s| == |t|
    requires forall i :: |s| - n <= i < |s| ==> t[i] == s[i] + d
    ensures TailSum(t, n) == TailSum(s, n) + n as real * d
  {
    if n > 0 {
      TailSumShift(s, t, n - 1, d);
    }
  }

  /** Tail sums are monotone in their elements. */
  lemma {:induction false} TailSumMonotone(a: seq<real>, b: seq<real>, n: nat)
    requires n <= |a| == |b|
    requires forall i :: |a| - n <= i < |a| ==> a[i] <= b[i]
    ensures TailSum(a, n) <= TailSum(b, n)
  {
    if n > 0 {
      TailSumMonotone(a, b, n - 1);
    }
  }

  /** Shifting a window shifts its maximum and its minimum by the same amount. */
  lemma {:induction false} MaxMinShift(s: seq<real>, d: real)
    requires |s| > 0
    ensures Max(Shift(s, d)) == Max(s) + d
    ensures Min(Shift(s, d)) == Min(s) + d
  {
    if |s| > 1 {
      var p := s[..|s| - 1];
      assert Shift(s, d)[..|s| - 1] == Shift(p, d);
      MaxMinShift(p, d);
    }
  }

  /** A part of a positive whole, divided by the whole, lies in [0, 1]. */
  lemma FractionInUnit(part: real, whole: real)
    requires 0.0 <= part <= whole && whole > 0.0
    ensures 0.0 <= part / whole <= 1.0
  {
    assert part / whole * whole == part;
  }

  /** Division is the inverse of multiplication by a non-zero factor. */
  lemma QuotientUnique(x: real, y: real, r: real)
    requires r != 0.0 && x * r == y
    ensures x == y / r
  {
    var q := y / r;
    assert q * r == y;
    assert (x - q) * r == 0.0;
  }

  /** A mean of `n` values in [lo, hi] lies in [lo, hi]. */
  lemma MeanBounds(total: real, n: nat, lo: real, hi: real)
    requires n > 0
    requires n as real * lo <= total <= n as real * hi
    ensures lo <= total / n as real <= hi
  {
    var m := n as real;
    assert total / m * m == total;
  }

  /** Adding `d` to each of `n` values moves their mean by `d`. */
  lemma MeanShift(total: real, n: nat, d: real)
    requires n > 0
    ensures (total + n as real * d) / n as real == total / n as real + d
  {
    var m := n as real;
    var a := total / m;
    assert a * m == total;
    assert (a + d) * m == total + m * d;
    QuotientUnique(a + d, total + m * d, m);
  }

  // ---------------------------------------------------------------------------
  // Simple moving average

  /** Mean of the last `len` values, or the "insufficient data" sentinel 0. */
  function SmaSpec(data: seq<real>, len: nat): (r: real)
    requires len >= 1
    ensures |data| < len ==> r == 0.0
  {
    if |data| < len then 0.0 else TailSum(data, len) / len as real
  }

  method Sma(data: seq<real>, len: nat) returns (r: real)
    requires len >= 1
    ensures r == SmaSpec(data, len)
  {
    if |data| < len {
      return 0.0;
    }
    var sum := 0.0;
    for i := 0 to len
      invariant sum == TailSum(data, i)
    {
      sum := sum + data[|data| - 1 - i];
    }
    r := sum / len as real;
  }

  /** With enough data, the SMA lies between the least and the greatest of the averaged values. */
  lemma SmaWithinRange(data: seq<real>, len: nat, lo: real, hi: real)
    requires 1 <= len <= |data|
    requires forall i :: |data| - len <= i < |data| ==> lo <= data[i] <= hi
    ensures lo <= SmaSpec(data, len) <= hi
  {
    TailSumBounds(data, len, lo, hi);
    MeanBounds(TailSum(data, len), len, lo, hi);
  }

  /** The SMA of a constant window is that constant. */
  lemma SmaOfConstant(data: seq<real>, len: nat, c: real)
    requires 1 <= len <= |data|
    requires forall i :: 0 <= i < |data| ==> data[i] == c
    ensures SmaSpec(data, len) == c
  {
    SmaWithinRange(data, len, c, c);
  }

  /** Shifting every value by `d` shifts the SMA by `d` once there is enough data. */
  lemma SmaShift(data: seq<real>, len: nat, d: real)
    requires 1 <= len <= |data|
    ensures SmaSpec(Shift(data, d), len) == SmaSpec(data, len) + d
  {
    TailSumShift(data, Shift(data, d), len, d);
    MeanShift(TailSum(data, len), len, d);
  }

  // ---------------------------------------------------------------------------
  // Exponential moving average

  /** The EMA smoothing factor k = 2 / (len + 1). */
  function Smoothing(len: nat): (k: real)
    ensures 0.0 < k
    ensures len >= 1 ==> k <= 1.0
  {
    2.0 / (len as real + 1.0)
  }

  /** The EMA after the first `n` values: seeded with data[0], then e := x * k + e * (1 - k). */
  function EmaAt(data: seq<real>, k: real, n: nat): real
    requires 1 <= n <= |data|
  {
    if n == 1 then data[0] else data[n - 1] * k + EmaAt(data, k, n - 1) * (1.0 - k)
  }

  /** EMA over the whole history, or the sentinel 0 when there are fewer than `len` values. */
  function EmaSpec(data: seq<real>, len: nat): (r: real)
    requires len >= 1
    ensures |data| < len ==> r == 0.0
  {
    if |data| < len then 0.0 else EmaAt(data, Smoothing(len), |data|)
  }

  method Ema(data: seq<real>, len: nat) returns (r: real)
    requires len >= 1
    ensures r == EmaSpec(data, len)
  {
    if |data| < len {
      return 0.0;
    }
    var k := 2.0 / (len as real + 1.0);
    var ema := data[0];
    for i := 1 to |data|
      invariant ema == EmaAt(data, k, i)
    {
      ema := data[i] * k + ema * (1.0 - k);
    }
    r := ema;
  }

  /** One EMA step with 0 <= k <= 1 is a convex combination, so it stays in [lo, hi]. */
  lemma ConvexStep(x: real, e: real, k: real, lo: real, hi: real)
    requires 0.0 <= k <= 1.0
    requires lo <= x <= hi && lo <= e <= hi
    ensures lo <= x * k + e * (1.0 - k) <= hi
  {
    assert (x - lo) * k >= 0.0;
    assert (e - lo) * (1.0 - k) >= 0.0;
    assert (hi - x) * k >= 0.0;
    assert (hi - e) * (1.0 - k) >= 0.0;
  }

  /** With 0 <= k <= 1 the EMA stays between the least and the greatest value seen. */
  lemma {:induction false} EmaAtWithinRange(data: seq<real>, k: real, n: nat, lo: real, hi: real)
    requires 1 <= n <= |data|
    requires 0.0 <= k <= 1.0
    requires forall i :: 0 <= i < n ==> lo <= data[i] <= hi
    ensures lo <= EmaAt(data, k, n) <= hi
  {
    if n > 1 {
      EmaAtWithinRange(data, k, n - 1, lo, hi);
      ConvexStep(data[n - 1], EmaAt(data, k, n - 1), k, lo, hi);
    }
  }

  /** For len >= 1 and enough data, the EMA lies between the min and the max of the series. */
  lemma EmaWithinRange(data: seq<real>, len: nat, lo: real, hi: real)
    requires 1 <= len <= |data|
    requires forall i :: 0 <= i < |data| ==> lo <= data[i] <= hi
    ensures lo <= EmaSpec(data, len) <= hi
  {
    EmaAtWithinRange(data, Smoothing(len), |data|, lo, hi);
  }

  /** For any factor k, the EMA of a constant series is that constant. */
  lemma {:induction false} EmaAtOfConstant(data: seq<real>, k: real, n: nat, c: real)
    requires 1 <= n <= |data|
    requires forall i :: 0 <= i < n ==> data[i] == c
    ensures EmaAt(data, k, n) == c
  {
    if n > 1 {
      EmaAtOfConstant(data, k, n - 1, c);
      assert c * k + c * (1.0 - k) == c;
    }
  }

  /** Shifting every value by `d` shifts the EMA by `d`, for any factor k. */
  lemma {:induction false} EmaAtShift(data: seq<real>, k: real, n: nat, d: real)
    requires 1 <= n <= |data|
    ensures EmaAt(Shift(data, d), k, n) == EmaAt(data, k, n) + d
  {
    if n > 1 {
      EmaAtShift(data, k, n - 1, d);
      var x, e := data[n - 1], EmaAt(data, k, n - 1);
      assert (x + d) * k + (e + d) * (1.0 - k) == x * k + e * (1.0 - k) + d;
    }
  }

  // ---------------------------------------------------------------------------
  // Averages of a rising series

  /** Every close is above the one before it. */
  ghost predicate StrictlyIncreasing(s: seq<real>)
  {
    forall i :: 1 <= i < |s| ==> s[i - 1] < s[i]
  }

  /** In a strictly increasing series every value is below every later one. */
  lemma {:induction false} IncreasingBelowLater(s: seq<real>, i: nat, j: nat)
    requires StrictlyIncreasing(s) && i < j < |s|
    ensures s[i] < s[j]
    decreases j - i
  {
    if i + 1 < j {
      IncreasingBelowLater(s, i, j - 1);
    }
  }

  /** In a strictly increasing series every value lies between the first and the last. */
  lemma IncreasingBetweenEnds(s: seq<real>)
    requires |s| >= 1 && StrictlyIncreasing(s)
    ensures forall i :: 0 <= i < |s| ==> s[0] <= s[i] <= s[|s| - 1]
  {
    forall i | 0 <= i < |s| ensures s[0] <= s[i] <= s[|s| - 1] {
      if 0 < i { IncreasingBelowLater(s, 0, i); }
      if i < |s| - 1 { IncreasingBelowLater(s, i, |s| - 1); }
    }
  }

  /** With at least two values averaged, the SMA of a strictly increasing series is below its last value. */
  lemma SmaBelowLast(data: seq<real>, len: nat)
    requires 2 <= len <= |data| && StrictlyIncreasing(data)
    ensures SmaSpec(data, len) < data[|data| - 1]
  {
    var last := data[|data| - 1];
    IncreasingBetweenEnds(data);
    TailSumBounds(data, len - 1, data[0], last);
    IncreasingBelowLater(data, |data| - len, |data| - 1);
    var n := len as real;
    var rest := TailSum(data, len - 1);
    assert rest <= (n - 1.0) * last;
    assert TailSum(data, len) == rest + data[|data| - len];
    assert (n - 1.0) * last + last == n * last;
    MeanBelow(TailSum(data, len), len, last);
  }

  /** A total below n·hi has a mean below hi. */
  lemma MeanBelow(total: real, n: nat, hi: real)
    requires n > 0 && total < n as real * hi
    ensures total / n as real < hi
  {
    var m := n as real;
    assert total / m * m == total;
  }

  /** One EMA step towards a value above the running average stays below that value. */
  lemma EmaStepBelow(x: real, e: real, k: real)
    requires e < x && 0.0 < k < 1.0
    ensures x * k + e * (1.0 - k) < x
  {
    var gap, keep := x - e, 1.0 - k;
    assert x * k + e * keep == x - gap * keep;
    ProductPositive(gap, keep);
    assert x * k + e * keep < x;
  }

  /** The product of two positive reals is positive. */
  lemma ProductPositive(a: real, b: real)
    requires a > 0.0 && b > 0.0
    ensures a * b > 0.0
  {
  }

  /** With a factor below 1, the EMA of a strictly increasing series after two or more values is below the newest. */
  lemma {:induction false} EmaAtBelowLast(data: seq<real>, k: real, n: nat)
    requires 2 <= n <= |data| && StrictlyIncreasing(data)
    requires 0.0 < k < 1.0
    ensures EmaAt(data, k, n) < data[n - 1]
  {
    if n > 2 {
      EmaAtBelowLast(data, k, n - 1);
    }
    EmaStepBelow(data[n - 1], EmaAt(data, k, n - 1), k);
  }

  /** For a period of at least 2 the EMA of a strictly increasing series is below its last value. */
  lemma EmaBelowLast(data: seq<real>, len: nat)
    requires 2 <= len <= |data| && StrictlyIncreasing(data)
    ensures EmaSpec(data, len) < data[|data| - 1]
  {
    var m := len as real + 1.0;
    var k := Smoothing(len);
    assert k * m == 2.0;
    MeanBelow(2.0, len + 1, 1.0);
    EmaAtBelowLast(data, k, |data|);
  }
}
