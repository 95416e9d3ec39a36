/** The rolling z-score detector, over exact reals: |z| > t is decided by comparing squares. */
module Anomaly {
  import opened Common
  import opened Domain

  // ----- Statistics of a window -----

  function Sum(w: seq<real>): real {
    if w == [] then 0.0 else Sum(w[..|w| - 1]) + w[|w| - 1]
  }

  function Mean(w: seq<real>): real
    requires w != []
  {
    Sum(w) / |w| as real
  }

  function Square(x: real): real {
    x * x
  }

  /** Sum of squared distances from `m`. */
  function Spread(w: seq<real>, m: real): (s: real)
    ensures s >= 0.0
  {
    if w == [] then 0.0 else Spread(w[..|w| - 1], m) + Square(w[|w| - 1] - m)
  }

  /** Population variance. */
  function Variance(w: seq<real>): real
    requires w != []
  {
    Spread(w, Mean(w)) / |w| as real
  }

  /** |value - mean| / sqrt(variance) > t, for a positive variance. */
  predicate Exceeds(deviation: real, variance: real, t: real) {
    t < 0.0 || Square(deviation) > Square(t) * variance
  }

  lemma SquaresKeepOrder(a: real, b: real)
    requires a >= 0.0 && b >= 0.0
    ensures Square(a) > Square(b) <==> a > b
  {
    if a > b { LargerSquare(a, b); } else if a < b { LargerSquare(b, a); }
  }

  lemma LargerSquare(a: real, b: real)
    requires a > b >= 0.0
    ensures Square(a) > Square(b)
  {
    if b > 0.0 {
      ScaleUp(a, a, b);
      ScaleUp(b, a, b);
      assert a * b == b * a;
    } else {
      PositiveSquare(a, Square(a), a / 2.0);
      assert Square(0.0) == 0.0;
    }
  }

  lemma OverQuotient(x: real, s: real, t: real)
    requires s > 0.0
    ensures x / s > t <==> x > s * t
  {
    Divide(x, s);
    if x / s > t { ScaleUp(s, x / s, t); } else if x / s < t { ScaleUp(s, t, x / s); }
  }

  /** Comparing squares is comparing the z-score: `s` is the standard deviation. */
  lemma ExceedsIsTheZScore(deviation: real, s: real, t: real)
    requires s > 0.0
    ensures Exceeds(deviation, Square(s), t) <==> Abs(deviation) / s > t
  {
    OverQuotient(Abs(deviation), s, t);
    assert Square(deviation) == Square(Abs(deviation));
    if t < 0.0 {
      ScaleUp(s, 0.0, t);
    } else {
      assert Square(s * t) == Square(t) * Square(s) by { SquareOfProduct(s, t); }
      assert s * t >= 0.0;
      SquaresKeepOrder(Abs(deviation), s * t);
    }
  }

  lemma SquareOfProduct(s: real, t: real)
    ensures Square(s * t) == Square(t) * Square(s)
  {
    assert (s * t) * (s * t) == s * (t * (s * t));
    assert t * (s * t) == s * (t * t);
    assert s * (s * (t * t)) == (s * s) * (t * t);
  }

  datatype Verdict = Verdict(metric: Metric, value: real, baseline: real, anomalous: bool, severity: Severity)

  /** The verdict on the last sample of a window. */
  function Judge(metric: Metric, w: seq<real>, value: real, threshold: real, minHistory: nat): Verdict
    requires minHistory >= 1
  {
    if |w| < minHistory then Verdict(metric, value, value, false, Info) else
    var mean, variance := Mean(w), Variance(w);
    if variance == 0.0 then Verdict(metric, value, mean, false, Info) else
    var anomalous := Exceeds(value - mean, variance, threshold);
    var severity := if !anomalous then Info
                    else if Exceeds(value - mean, variance, threshold * 2.0) then Critical
                    else Warning;
    Verdict(metric, value, mean, anomalous, severity)
  }

  /** The standard deviation of a window, if it has one. */
  predicate IsDeviation(w: seq<real>, m: real, s: real) {
    s > 0.0 && |w| as real * Square(s) == Spread(w, m)
  }

  /** A verdict reports the sample and the mean of the window; the sample is flagged if it is more than `threshold` standard
      deviations from that mean, and CRITICAL if it is more than twice that. */
  lemma JudgeSays(metric: Metric, w: seq<real>, value: real, threshold: real, minHistory: nat, s: real)
    requires w != [] && minHistory >= 1 && threshold >= 0.0
    ensures var v := Judge(metric, w, value, threshold, minHistory);
      && v.metric == metric && v.value == value
      && (|w| < minHistory ==> !v.anomalous && v.baseline == value)
      && (|w| >= minHistory ==> |w| as real * v.baseline == Sum(w))
      && (!v.anomalous <==> v.severity == Info)
      && (|w| >= minHistory && IsDeviation(w, v.baseline, s) ==>
            && (v.anomalous <==> Abs(value - v.baseline) / s > threshold)
            && (v.severity == Critical <==> Abs(value - v.baseline) / s > threshold * 2.0))
  {
    hide Sum, Spread;
    var m, n := Mean(w), |w| as real;
    Divide(Sum(w), n);
    Divide(Spread(w, m), n);
    if |w| >= minHistory && IsDeviation(w, m, s) {
      CancelPositive(n, Variance(w), Square(s));
      CancelPositive(n, Square(s), Variance(w));
      ExceedsIsTheZScore(value - m, s, threshold);
      ExceedsIsTheZScore(value - m, s, threshold * 2.0);
    }
  }

  // ----- The self-inclusion bound -----

  /** Sum of the distances from `m`. */
  function Drift(w: seq<real>, m: real): real {
    if w == [] then 0.0 else Drift(w[..|w| - 1], m) + (w[|w| - 1] - m)
  }

  lemma {:induction false} DriftIsSum(w: seq<real>, m: real, n: real)
    requires n == |w| as real
    ensures Drift(w, m) == Sum(w) - n * m
  {
    if w != [] {
      DriftIsSum(w[..|w| - 1], m, n - 1.0);
      assert n * m == (n - 1.0) * m + m;
    }
  }

  predicate Bounded(s: real, q: real, k: real) {
    Square(s) <= k * q
  }

  lemma {:induction false} CauchySchwarz(w: seq<real>, m: real, n: real)
    requires n == |w| as real
    ensures Bounded(Drift(w, m), Spread(w, m), n)
  {
    if w == [] {
      assert Bounded(0.0, 0.0, 0.0);
    } else {
      var v, x, k := w[..|w| - 1], w[|w| - 1] - m, n - 1.0;
      assert k == |v| as real;
      CauchySchwarz(v, m, k);
      OneMoreTerm(Drift(v, m), Spread(v, m), x, k, n);
    }
  }

  lemma OneMoreTerm(s: real, q: real, x: real, k: real, n: real)
    requires k >= 0.0 && q >= 0.0 && n == k + 1.0 && Bounded(s, q, k) && (k == 0.0 ==> s == 0.0)
    ensures Bounded(s + x, q + Square(x), n)
  {
    Cross(s, q, x, k);
    assert Square(s + x) == Square(s) + 2.0 * (s * x) + Square(x);
    assert n * (q + Square(x)) == k * q + k * Square(x) + q + Square(x);
  }

  lemma Cross(s: real, q: real, x: real, k: real)
    requires k >= 0.0 && q >= 0.0 && Square(s) <= k * q && (k == 0.0 ==> s == 0.0)
    ensures 2.0 * (s * x) <= q + k * Square(x)
  {
    if k == 0.0 {
      assert s * x == 0.0 && k * Square(x) == 0.0;
    } else {
      var y := k * x;
      SquareOfDifference(s, y);
      assert s * y == k * (s * x);
      assert Square(y) == k * (k * Square(x));
      assert k * (2.0 * (s * x)) == 2.0 * (k * (s * x));
      assert k * (q + k * Square(x)) == k * q + k * (k * Square(x));
      CancelPositive(k, 2.0 * (s * x), q + k * Square(x));
    }
  }

  lemma SquareOfDifference(s: real, y: real)
    ensures 2.0 * (s * y) <= Square(s) + Square(y)
  {
    assert Square(s - y) == Square(s) - 2.0 * (s * y) + Square(y);
  }

  lemma ScaleUp(k: real, a: real, b: real)
    requires k > 0.0 && a > b
    ensures k * a > k * b
  {
    assert k * (a - b) > 0.0;
  }

  lemma CancelPositive(k: real, a: real, b: real)
    requires k > 0.0 && k * a <= k * b
    ensures a <= b
  {
    if a > b { ScaleUp(k, a, b); }
  }

  lemma BoundFromSums(n: real, k: real, d: real, drift: real, rest: real, variance: real)
    requires k >= 0.0 && n == k + 1.0 && drift == -d && Square(drift) <= k * rest && n * variance == rest + Square(d)
    ensures Square(d) <= k * variance
  {
    assert Square(drift) == Square(d);
    assert n * (k * variance) == k * (n * variance);
    assert k * (rest + Square(d)) == k * rest + k * Square(d);
    assert n * Square(d) == k * Square(d) + Square(d);
    CancelPositive(n, Square(d), k * variance);
  }

  lemma Divide(x: real, n: real)
    requires n > 0.0
    ensures n * (x / n) == x
  {
  }

  lemma LastDrift(w: seq<real>, n: real, m: real)
    requires w != [] && n == |w| as real && n * m == Sum(w)
    ensures Drift(w[..|w| - 1], m) == -(w[|w| - 1] - m)
  {
    DriftIsSum(w, m, n);
  }

  lemma LastSpread(w: seq<real>, m: real)
    requires w != []
    ensures Spread(w, m) == Spread(w[..|w| - 1], m) + Square(w[|w| - 1] - m)
  {
  }

  /** The last element of a window whose mean is `m`. */
  lemma LastIsWithin(w: seq<real>, n: real, k: real, m: real, variance: real)
    requires w != [] && n == |w| as real && n == k + 1.0 && n * m == Sum(w) && n * variance == Spread(w, m)
    ensures Square(w[|w| - 1] - m) <= k * variance
  {
    hide Drift, Spread, Sum;
    var v, d := w[..|w| - 1], w[|w| - 1] - m;
    var drift, rest := Drift(v, m), Spread(v, m);
    LastDrift(w, n, m);
    CauchySchwarz(v, m, k);
    assert Spread(w, m) == rest + Square(d) by { LastSpread(w, m); }
    BoundFromSums(n, k, d, drift, rest, variance);
  }

  /** The last sample, being part of its own window, is at most sqrt(n - 1) deviations from the mean. */
  lemma SelfInclusion(w: seq<real>)
    requires w != []
    ensures Square(w[|w| - 1] - Mean(w)) <= (|w| as real - 1.0) * Variance(w)
  {
    var n := |w| as real;
    Divide(Sum(w), n);
    Divide(Spread(w, Mean(w)), n);
    LastIsWithin(w, n, n - 1.0, Mean(w), Variance(w));
  }

  lemma VarianceIsPositive(w: seq<real>)
    requires w != []
    ensures Variance(w) >= 0.0
  {
  }

  lemma BeyondBound(dev: real, variance: real, t: real, k: real)
    requires variance > 0.0 && t >= 0.0 && Exceeds(dev, variance, t) && Square(dev) <= k * variance
    ensures k > Square(t)
  {
    if k <= Square(t) {
      if k < Square(t) { ScaleUp(variance, Square(t), k); }
    }
  }

  /** A flag needs more than t^2 + 1 samples, a critical one more than 4 t^2 + 1. */
  lemma FlagNeedsHistory(metric: Metric, w: seq<real>, threshold: real, minHistory: nat)
    requires w != [] && threshold >= 0.0 && minHistory >= 1
    ensures var v := Judge(metric, w, w[|w| - 1], threshold, minHistory);
      && (v.anomalous ==> |w| as real > Square(threshold) + 1.0)
      && (v.severity == Critical ==> |w| as real > 4.0 * Square(threshold) + 1.0)
  {
    var v := Judge(metric, w, w[|w| - 1], threshold, minHistory);
    if v.anomalous {
      var n, d := |w| as real, w[|w| - 1] - Mean(w);
      SelfInclusion(w);
      VarianceIsPositive(w);
      BeyondBound(d, Variance(w), threshold, n - 1.0);
      if v.severity == Critical {
        BeyondBound(d, Variance(w), threshold * 2.0, n - 1.0);
        assert Square(threshold * 2.0) == 4.0 * Square(threshold);
      }
    }
  }

  lemma PositiveSquare(s: real, q: real, half: real)
    requires s > 0.0 && q == s * s && half == s / 2.0
    ensures q > 0.0
  {
    ScaleUp(s, s, half);
    assert s * half == q / 2.0;
  }

  lemma SquareIsZero(s: real)
    requires Square(s) == 0.0
    ensures s == 0.0
  {
    if s > 0.0 {
      PositiveSquare(s, Square(s), s / 2.0);
    } else if s < 0.0 {
      assert Square(s) == -s * -s;
      PositiveSquare(-s, Square(s), -s / 2.0);
    }
  }

  // ----- The bound is tight: a single spike attains it -----

  function Zeros(n: nat): seq<real> {
    seq(n, _ => 0.0)
  }

  function Spike(n: nat): seq<real>
    requires n >= 1
  {
    Zeros(n - 1) + [1.0]
  }

  lemma {:induction false} ZeroStatistics(n: nat, m: real, r: real)
    requires r == n as real
    ensures Sum(Zeros(n)) == 0.0 && Spread(Zeros(n), m) == r * Square(m)
  {
    if n > 0 {
      assert Zeros(n)[..n - 1] == Zeros(n - 1);
      ZeroStatistics(n - 1, m, r - 1.0);
      assert Square(0.0 - m) == Square(m);
      assert r * Square(m) == (r - 1.0) * Square(m) + Square(m);
    }
  }

  lemma SpikeAlgebra(n: real, k: real, m: real, d: real, variance: real)
    requires n >= 1.0 && n == k + 1.0 && n * m == 1.0 && d == 1.0 - m && n * variance == k * Square(m) + Square(d)
    ensures n * variance == d && Square(d) == k * variance
  {
    assert k * m == n * m - m;
    assert k * Square(m) == (k * m) * m == d * m;
    assert d * m + Square(d) == d * (m + d) == d;
    assert n * d == n - n * m == k;
    assert n * (k * variance) == k * (n * variance) == (n * d) * d;
    assert (n * d) * d == n * Square(d);
    CancelPositive(n, k * variance, Square(d));
    CancelPositive(n, Square(d), k * variance);
  }

  lemma SpikeStatistics(n: nat)
    requires n >= 1
    ensures var w := Spike(n); var d := 1.0 - Mean(w);
      n as real * Variance(w) == d && Square(d) == (n as real - 1.0) * Variance(w) && Mean(w) == 1.0 / n as real
  {
    var w, r := Spike(n), n as real;
    assert w[..n - 1] == Zeros(n - 1);
    ZeroStatistics(n - 1, Mean(w), r - 1.0);
    assert Sum(w) == 1.0;
    Divide(1.0, r);
    Divide(Spread(w, Mean(w)), r);
    SpikeAlgebra(r, r - 1.0, Mean(w), 1.0 - Mean(w), Variance(w));
  }

  lemma AtBound(d: real, variance: real, k: real, t: real)
    requires variance > 0.0 && t >= 0.0 && Square(d) == k * variance && k > Square(t)
    ensures Exceeds(d, variance, t)
  {
    ScaleUp(variance, k, Square(t));
  }

  lemma SpikeExceeds(n: nat, t: real)
    requires t >= 0.0 && n as real > Square(t) + 1.0
    ensures n >= 2 && Variance(Spike(n)) > 0.0 && Exceeds(1.0 - Mean(Spike(n)), Variance(Spike(n)), t)
  {
    assert n >= 2 by { assert Square(t) >= 0.0; }
    var w, r := Spike(n), n as real;
    SpikeStatistics(n);
    VarianceIsPositive(w);
    assert Mean(w) < 1.0;
    ZeroProduct(r, Variance(w));
    AtBound(1.0 - Mean(w), Variance(w), r - 1.0, t);
  }

  lemma Doubled(t: real)
    requires t >= 0.0
    ensures Square(t * 2.0) == 4.0 * Square(t) >= Square(t)
  {
  }

  /** What the spike raises at lengths that allow it. */
  lemma SpikeIsFlagged(metric: Metric, n: nat, threshold: real, minHistory: nat)
    requires threshold >= 0.0 && minHistory >= 1 && n >= minHistory && n as real > Square(threshold) + 1.0
    ensures |Spike(n)| == n && Spike(n)[n - 1] == 1.0
    ensures var v := Judge(metric, Spike(n), 1.0, threshold, minHistory);
      v.anomalous && (n as real > 4.0 * Square(threshold) + 1.0 ==> v.severity == Critical)
  {
    SpikeExceeds(n, threshold);
    Doubled(threshold);
    if n as real > 4.0 * Square(threshold) + 1.0 { SpikeExceeds(n, threshold * 2.0); }
  }

  /** A window of `n` samples can raise a flag exactly when n >= min_history and n > t^2 + 1 ... */
  lemma FlagIsPossibleIff(metric: Metric, n: nat, threshold: real, minHistory: nat)
    requires threshold >= 0.0 && minHistory >= 1
    ensures (exists w: seq<real> :: |w| == n && n > 0 && Judge(metric, w, w[n - 1], threshold, minHistory).anomalous)
       <==> n >= minHistory && n as real > Square(threshold) + 1.0
  {
    if n >= minHistory && n as real > Square(threshold) + 1.0 {
      SpikeIsFlagged(metric, n, threshold, minHistory);
      assert |Spike(n)| == n && Spike(n)[n - 1] == 1.0;
    }
    forall w: seq<real> | |w| == n && n > 0 && Judge(metric, w, w[n - 1], threshold, minHistory).anomalous
      ensures n >= minHistory && n as real > Square(threshold) + 1.0
    {
      FlagNeedsHistory(metric, w, threshold, minHistory);
    }
  }

  /** ... and a critical one exactly when n >= min_history and n > 4 t^2 + 1. */
  lemma CriticalIsPossibleIff(metric: Metric, n: nat, threshold: real, minHistory: nat)
    requires threshold >= 0.0 && minHistory >= 1
    ensures (exists w: seq<real> :: |w| == n && n > 0 && Judge(metric, w, w[n - 1], threshold, minHistory).severity == Critical)
       <==> n >= minHistory && n as real > 4.0 * Square(threshold) + 1.0
  {
    if n >= minHistory && n as real > 4.0 * Square(threshold) + 1.0 {
      Doubled(threshold);
      SpikeIsFlagged(metric, n, threshold, minHistory);
      assert |Spike(n)| == n && Spike(n)[n - 1] == 1.0;
    }
    forall w: seq<real> | |w| == n && n > 0 && Judge(metric, w, w[n - 1], threshold, minHistory).severity == Critical
      ensures n >= minHistory && n as real > 4.0 * Square(threshold) + 1.0
    {
      FlagNeedsHistory(metric, w, threshold, minHistory);
    }
  }

  // ----- Constant windows -----

  predicate Constant(w: seq<real>) {
    forall i, j :: 0 <= i < |w| && 0 <= j < |w| ==> w[i] == w[j]
  }

  lemma {:induction false} NoSpread(w: seq<real>, m: real)
    ensures Spread(w, m) == 0.0 <==> forall i :: 0 <= i < |w| ==> w[i] == m
  {
    if w != [] {
      var v, x := w[..|w| - 1], w[|w| - 1] - m;
      NoSpread(v, m);
      if Spread(w, m) == 0.0 {
        assert Square(x) == 0.0;
        SquareIsZero(x);
        assert forall i :: 0 <= i < |v| ==> w[i] == v[i];
      }
      if forall i :: 0 <= i < |w| ==> w[i] == m {
        assert forall i :: 0 <= i < |v| ==> v[i] == w[i];
        assert x == 0.0;
      }
    }
  }

  lemma {:induction false} SumOfConstant(w: seq<real>, m: real, n: real)
    requires n == |w| as real && forall i :: 0 <= i < |w| ==> w[i] == m
    ensures Sum(w) == n * m
  {
    if w != [] {
      SumOfConstant(w[..|w| - 1], m, n - 1.0);
      assert n * m == (n - 1.0) * m + m;
    }
  }

  lemma MeanIs(w: seq<real>, m: real)
    requires w != [] && Sum(w) == |w| as real * m
    ensures Mean(w) == m
  {
    var n := |w| as real;
    Divide(Sum(w), n);
    CancelPositive(n, Mean(w), m);
    CancelPositive(n, m, Mean(w));
  }

  lemma ZeroQuotient(x: real, n: real)
    requires n > 0.0
    ensures x / n == 0.0 <==> x == 0.0
  {
    Divide(x, n);
    if x / n == 0.0 { assert n * (x / n) == 0.0; }
  }

  /** The variance vanishes exactly on constant windows. */
  lemma VarianceIsZeroIffConstant(w: seq<real>)
    requires w != []
    ensures Variance(w) == 0.0 <==> Constant(w)
  {
    ZeroQuotient(Spread(w, Mean(w)), |w| as real);
    NoSpread(w, Mean(w));
    if Constant(w) {
      SumOfConstant(w, w[0], |w| as real);
      MeanIs(w, w[0]);
    }
  }

  // ----- Change of units -----

  function Rescale(x: real, a: real, b: real): real {
    a * x + b
  }

  function Affine(w: seq<real>, a: real, b: real): (v: seq<real>)
    ensures |v| == |w|
    ensures w != [] ==> v[|w| - 1] == Rescale(w[|w| - 1], a, b)
  {
    if w == [] then [] else Affine(w[..|w| - 1], a, b) + [Rescale(w[|w| - 1], a, b)]
  }

  // The products below are kept behind predicates, so that inductions need no arithmetic.

  predicate RescaledSum(sum': real, sum: real, a: real, b: real, n: real) {
    sum' == a * sum + n * b
  }

  predicate Times(z: real, k: real, x: real) {
    z == k * x
  }

  lemma RescaledSumStep(sum': real, sum: real, a: real, b: real, k: real, n: real, x: real)
    requires RescaledSum(sum', sum, a, b, k) && n == k + 1.0
    ensures RescaledSum(sum' + Rescale(x, a, b), sum + x, a, b, n)
  {
    assert n * b == k * b + b;
    assert a * (sum + x) == a * sum + a * x;
  }

  lemma {:induction false} AffineSum(w: seq<real>, a: real, b: real, n: real)
    requires n == |w| as real
    ensures RescaledSum(Sum(Affine(w, a, b)), Sum(w), a, b, n)
  {
    if w == [] {
      assert RescaledSum(0.0, 0.0, a, b, 0.0);
    } else {
      var v, x, k := w[..|w| - 1], w[|w| - 1], n - 1.0;
      assert k == |v| as real;
      assert Affine(w, a, b)[..|w| - 1] == Affine(v, a, b);
      AffineSum(v, a, b, k);
      RescaledSumStep(Sum(Affine(v, a, b)), Sum(v), a, b, k, n, x);
    }
  }

  lemma RescaledSquare(a: real, b: real, x: real, m: real)
    ensures Times(Square(Rescale(x, a, b) - Rescale(m, a, b)), Square(a), Square(x - m))
  {
    var d := x - m;
    assert Rescale(x, a, b) - Rescale(m, a, b) == a * d;
    assert Square(a * d) == Square(a) * Square(d);
  }

  lemma TimesAdds(z: real, k: real, x: real, z': real, x': real)
    requires Times(z, k, x) && Times(z', k, x')
    ensures Times(z + z', k, x + x')
  {
    assert k * (x + x') == k * x + k * x';
  }

  lemma {:induction false} AffineSpread(w: seq<real>, a: real, b: real, m: real)
    ensures Times(Spread(Affine(w, a, b), Rescale(m, a, b)), Square(a), Spread(w, m))
  {
    if w == [] {
      assert Times(0.0, Square(a), 0.0);
    } else {
      var v, x := w[..|w| - 1], w[|w| - 1];
      assert Affine(w, a, b)[..|w| - 1] == Affine(v, a, b);
      AffineSpread(v, a, b, m);
      RescaledSquare(a, b, x, m);
      TimesAdds(Spread(Affine(v, a, b), Rescale(m, a, b)), Square(a), Spread(v, m),
                Square(Rescale(x, a, b) - Rescale(m, a, b)), Square(x - m));
    }
  }

  lemma RescaledMean(sum': real, sum: real, a: real, b: real, n: real, m: real)
    requires n > 0.0 && RescaledSum(sum', sum, a, b, n) && Times(sum, n, m)
    ensures sum' / n == Rescale(m, a, b)
  {
    assert n * (a * m + b) == a * (n * m) + n * b;
    Divide(sum', n);
    CancelPositive(n, sum' / n, Rescale(m, a, b));
    CancelPositive(n, Rescale(m, a, b), sum' / n);
  }

  lemma AffineMean(w: seq<real>, a: real, b: real)
    requires w != []
    ensures Mean(Affine(w, a, b)) == Rescale(Mean(w), a, b)
  {
    var n := |w| as real;
    AffineSum(w, a, b, n);
    Divide(Sum(w), n);
    assert Times(Sum(w), n, Mean(w));
    RescaledMean(Sum(Affine(w, a, b)), Sum(w), a, b, n, Mean(w));
  }

  lemma TimesDivides(z: real, k: real, x: real, n: real)
    requires n > 0.0 && Times(z, k, x)
    ensures Times(z / n, k, x / n)
  {
    Divide(x, n);
    Divide(z, n);
    assert n * (k * (x / n)) == k * (n * (x / n));
    CancelPositive(n, z / n, k * (x / n));
    CancelPositive(n, k * (x / n), z / n);
  }

  lemma AffineVariance(w: seq<real>, a: real, b: real)
    requires w != []
    ensures Times(Variance(Affine(w, a, b)), Square(a), Variance(w))
  {
    AffineMean(w, a, b);
    AffineSpread(w, a, b, Mean(w));
    TimesDivides(Spread(Affine(w, a, b), Rescale(Mean(w), a, b)), Square(a), Spread(w, Mean(w)), |w| as real);
  }

  lemma CancelNot(k: real, x: real, y: real)
    requires k > 0.0 && x <= y
    ensures k * x <= k * y
  {
    if x < y { ScaleUp(k, y, x); }
  }

  lemma RescaledExceeds(a2: real, d: real, e: real, v: real, u: real, t: real)
    requires a2 > 0.0 && Times(Square(e), a2, Square(d)) && Times(u, a2, v)
    ensures Exceeds(e, u, t) <==> Exceeds(d, v, t)
  {
    var d2, t2 := Square(d), Square(t);
    assert t2 * (a2 * v) == a2 * (t2 * v);
    if d2 > t2 * v { ScaleUp(a2, d2, t2 * v); } else { CancelNot(a2, d2, t2 * v); }
  }

  lemma NonZeroSquare(a: real)
    requires a != 0.0
    ensures Square(a) > 0.0
  {
    if Square(a) == 0.0 { SquareIsZero(a); }
    assert Square(a) >= 0.0;
  }

  lemma ZeroProduct(k: real, x: real)
    requires k > 0.0
    ensures k * x == 0.0 <==> x == 0.0
  {
    if x > 0.0 { ScaleUp(k, x, 0.0); } else if x < 0.0 { ScaleUp(k, 0.0, x); }
  }

  lemma ZeroTimes(z: real, k: real, x: real)
    requires k > 0.0 && Times(z, k, x)
    ensures z == 0.0 <==> x == 0.0
  {
    ZeroProduct(k, x);
  }

  /** Flag and severity do not depend on the unit of measurement. */
  lemma VerdictIsAffineInvariant(metric: Metric, w: seq<real>, a: real, b: real, threshold: real, minHistory: nat)
    requires w != [] && a != 0.0 && minHistory >= 1
    ensures var u, v := Judge(metric, w, w[|w| - 1], threshold, minHistory),
                        Judge(metric, Affine(w, a, b), Rescale(w[|w| - 1], a, b), threshold, minHistory);
      u.anomalous == v.anomalous && u.severity == v.severity
  {
    var x, m, w' := w[|w| - 1], Mean(w), Affine(w, a, b);
    AffineMean(w, a, b);
    AffineVariance(w, a, b);
    NonZeroSquare(a);
    ZeroTimes(Variance(w'), Square(a), Variance(w));
    RescaledSquare(a, b, x, m);
    RescaledExceeds(Square(a), x - m, Rescale(x, a, b) - Rescale(m, a, b), Variance(w), Variance(w'), threshold);
    RescaledExceeds(Square(a), x - m, Rescale(x, a, b) - Rescale(m, a, b), Variance(w), Variance(w'), threshold * 2.0);
  }
}
