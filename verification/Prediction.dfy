/**
  The least-squares revenue forecast of src/ai/utils/revenue-prediction.util.ts, over exact reals:
  rounding error is not modelled, `Math.round` is.
 */
module Prediction {
  import opened Fees

  datatype Trend = Up | Down | Flat

  datatype Forecast = Forecast(trend: Trend, predicted: seq<real>)

  const TREND_THRESHOLD := 0.05

  // ---- the sums the loops accumulate, as inner products ----

  /** The sum of u[i] v[i], for i below n. */
  function DotTo(u: seq<real>, v: seq<real>, n: nat): real
    requires n <= |u| == |v|
  {
    if n == 0 then 0.0 else DotTo(u, v, n - 1) + u[n - 1] * v[n - 1]
  }

  function Dot(u: seq<real>, v: seq<real>): real
    requires |u| == |v|
  {
    DotTo(u, v, |u|)
  }

  /** u + k v. */
  function Plus(u: seq<real>, k: real, v: seq<real>): (r: seq<real>)
    requires |u| == |v|
    ensures |r| == |u|
  {
    seq(|u|, i requires 0 <= i < |u| => u[i] + k * v[i])
  }

  function Ones(n: nat): (r: seq<real>)
    ensures |r| == n
  {
    seq(n, _ => 1.0)
  }

  function Offsets(n: nat, x: real): (r: seq<real>)
    ensures |r| == n
  {
    seq(n, i => i as real - x)
  }

  function XMean(n: nat): real {
    (n as real - 1.0) / 2.0
  }

  /** The months, measured from the mean month. */
  function Months(n: nat): (r: seq<real>)
    ensures |r| == n
  {
    Offsets(n, XMean(n))
  }

  /** The history, measured from y. */
  function Deviations(h: seq<real>, y: real): (r: seq<real>)
    ensures |r| == |h|
  {
    Plus(h, -y, Ones(|h|))
  }

  function YMean(h: seq<real>): real
    requires h != []
  {
    Dot(h, Ones(|h|)) / |h| as real
  }

  function Slope(h: seq<real>): real
    requires h != []
  {
    var d := Dot(Months(|h|), Months(|h|));
    if d == 0.0 then 0.0 else Dot(Months(|h|), Deviations(h, YMean(h))) / d
  }

  function TrendOf(slope: real, mean: real): Trend {
    var relative := if mean != 0.0 then slope / mean else 0.0;
    if relative > TREND_THRESHOLD then Up else if relative < -TREND_THRESHOLD then Down else Flat
  }

  function Clamp(x: real): real {
    if Round(x) < 0 then 0.0 else Round(x) as real
  }

  function Extrapolate(last: real, slope: real, i: nat): real {
    Clamp(last + slope * i as real)
  }

  function Predicted(last: real, slope: real, months: nat): (r: seq<real>)
    ensures |r| == months
  {
    seq(months, i requires 0 <= i < months => Extrapolate(last, slope, i + 1))
  }

  function Predict(h: seq<real>, months: nat): Forecast {
    if h == [] then Forecast(Flat, seq(months, _ => 0.0))
    else if |h| == 1 then Forecast(Flat, seq(months, _ => h[0]))
    else Forecast(TrendOf(Slope(h), YMean(h)), Predicted(h[|h| - 1], Slope(h), months))
  }

  // ---- inner products are symmetric, linear and positive ----

  lemma {:induction false} DotSymmetric(u: seq<real>, v: seq<real>, n: nat)
    requires n <= |u| == |v|
    ensures DotTo(u, v, n) == DotTo(v, u, n)
  {
    if n != 0 {
      DotSymmetric(u, v, n - 1);
    }
  }

  lemma LinearStep(a: real, k: real, b: real, w: real, u: real, v: real)
    ensures (a + k * b) + w * (u + k * v) == (a + w * u) + k * (b + w * v)
  {
    assert w * (k * v) == k * (w * v);
  }

  lemma {:induction false} LinearTo(w: seq<real>, u: seq<real>, k: real, v: seq<real>, n: nat)
    requires n <= |w| == |u| == |v|
    ensures DotTo(w, Plus(u, k, v), n) == DotTo(w, u, n) + k * DotTo(w, v, n)
  {
    if n != 0 {
      LinearTo(w, u, k, v, n - 1);
      assert Plus(u, k, v)[n - 1] == u[n - 1] + k * v[n - 1];
      LinearStep(DotTo(w, u, n - 1), k, DotTo(w, v, n - 1), w[n - 1], u[n - 1], v[n - 1]);
    }
  }

  lemma Linear(w: seq<real>, u: seq<real>, k: real, v: seq<real>)
    requires |w| == |u| == |v|
    ensures Dot(w, Plus(u, k, v)) == Dot(w, u) + k * Dot(w, v)
  {
    LinearTo(w, u, k, v, |w|);
  }

  lemma SameSign(p: real, q: real)
    requires (p <= 0.0 && q <= 0.0) || (p >= 0.0 && q >= 0.0)
    ensures p * q >= 0.0
  {
  }

  predicate SameSigns(u: seq<real>, v: seq<real>)
    requires |u| == |v|
  {
    forall i :: 0 <= i < |u| ==> (u[i] <= 0.0 && v[i] <= 0.0) || (u[i] >= 0.0 && v[i] >= 0.0)
  }

  lemma {:induction false} DotNonNegative(u: seq<real>, v: seq<real>, n: nat)
    requires n <= |u| == |v| && SameSigns(u, v)
    ensures DotTo(u, v, n) >= 0.0
  {
    if n != 0 {
      DotNonNegative(u, v, n - 1);
      SameSign(u[n - 1], v[n - 1]);
    }
  }

  // ---- the denominator ----

  lemma {:induction false} OffsetsSum(m: nat, x: real, n: nat)
    requires n <= m
    ensures DotTo(Offsets(m, x), Ones(m), n) == n as real * (n as real - 1.0) / 2.0 - n as real * x
  {
    if n != 0 {
      OffsetsSum(m, x, n - 1);
    }
  }

  lemma SquareSumStep(r: real, x: real)
    ensures (r - 2.0) * (r - 1.0) * (2.0 * r - 3.0) / 6.0 - x * (r - 1.0) * (r - 2.0) + (r - 1.0) * x * x
            + (r - 1.0 - x) * (r - 1.0 - x)
            == (r - 1.0) * r * (2.0 * r - 1.0) / 6.0 - x * r * (r - 1.0) + r * x * x
  {
  }

  lemma {:induction false} SquaresSum(m: nat, x: real, n: nat)
    requires n <= m
    ensures var r := n as real;
            DotTo(Offsets(m, x), Offsets(m, x), n)
            == (r - 1.0) * r * (2.0 * r - 1.0) / 6.0 - x * r * (r - 1.0) + r * x * x
  {
    if n != 0 {
      SquaresSum(m, x, n - 1);
      SquareSumStep(n as real, x);
      assert (n - 1) as real == n as real - 1.0;
    }
  }

  /** n(n^2 - 1)/12: positive as soon as there are two months, so the guard against zero never acts. */
  lemma Denominator(n: nat)
    requires n >= 2
    ensures var r := n as real; Dot(Months(n), Months(n)) == r * (r * r - 1.0) / 12.0 > 0.0
  {
    SquaresSum(n, XMean(n), n);
    CentredSquares(n as real, XMean(n));
  }

  lemma CentredSquares(r: real, x: real)
    requires r >= 2.0 && x == (r - 1.0) / 2.0
    ensures (r - 1.0) * r * (2.0 * r - 1.0) / 6.0 - x * r * (r - 1.0) + r * x * x == r * (r * r - 1.0) / 12.0 > 0.0
  {
    assert r * r >= 2.0 * r;
    assert r * (r * r - 1.0) > 0.0;
  }

  lemma DenominatorPositive(n: nat)
    requires n >= 2
    ensures Dot(Months(n), Months(n)) > 0.0
  {
    Denominator(n);
  }

  lemma MonthsCentred(n: nat)
    ensures Dot(Months(n), Ones(n)) == 0.0
  {
    OffsetsSum(n, XMean(n), n);
  }

  lemma {:induction false} OnesSum(m: nat, n: nat)
    requires n <= m
    ensures DotTo(Ones(m), Ones(m), n) == n as real
  {
    if n != 0 {
      OnesSum(m, n - 1);
    }
  }

  lemma Quotient(a: real, d: real)
    requires d != 0.0
    ensures a / d * d == a
  {
  }

  /** Because the months are centred, the numerator does not depend on the value subtracted from the history. */
  lemma NumeratorFrom(h: seq<real>, y: real)
    ensures Dot(Months(|h|), Deviations(h, y)) == Dot(Months(|h|), h)
  {
    Linear(Months(|h|), h, -y, Ones(|h|));
    MonthsCentred(|h|);
  }

  /** How the mean and the slope are told by the sums they divide. */
  lemma Fit(h: seq<real>)
    requires |h| >= 2
    ensures YMean(h) * |h| as real == Dot(h, Ones(|h|))
    ensures Slope(h) * Dot(Months(|h|), Months(|h|)) == Dot(Months(|h|), h)
  {
    DenominatorPositive(|h|);
    NumeratorFrom(h, YMean(h));
    Quotient(Dot(h, Ones(|h|)), |h| as real);
    Quotient(Dot(Months(|h|), h), Dot(Months(|h|), Months(|h|)));
  }

  // ---- the slope is the least-squares slope ----

  /** What the line a + b i leaves unexplained. */
  function Errors(h: seq<real>, a: real, b: real): (r: seq<real>)
    ensures |r| == |h|
  {
    seq(|h|, i requires 0 <= i < |h| => h[i] - a - b * i as real)
  }

  function SquaredError(h: seq<real>, a: real, b: real): real {
    Dot(Errors(h, a, b), Errors(h, a, b))
  }

  /** What the line through the mean month and y with slope b leaves unexplained. */
  function Residuals(h: seq<real>, y: real, b: real): (r: seq<real>)
    ensures |r| == |h|
  {
    Plus(Deviations(h, y), -b, Months(|h|))
  }

  lemma ResidualsBalance(h: seq<real>, y: real, b: real)
    requires y * |h| as real == Dot(h, Ones(|h|))
    ensures Dot(Ones(|h|), Residuals(h, y, b)) == 0.0
  {
    var n := |h|;
    MonthsCentred(n);
    DotSymmetric(Months(n), Ones(n), n);
    DotSymmetric(h, Ones(n), n);
    OnesSum(n, n);
    Linear(Ones(n), h, -y, Ones(n));
    Linear(Ones(n), Deviations(h, y), -b, Months(n));
  }

  lemma ResidualsBalanceByMonth(h: seq<real>, y: real, b: real)
    requires b * Dot(Months(|h|), Months(|h|)) == Dot(Months(|h|), h)
    ensures Dot(Months(|h|), Residuals(h, y, b)) == 0.0
  {
    NumeratorFrom(h, y);
    Linear(Months(|h|), Deviations(h, y), -b, Months(|h|));
  }

  /** The normal equations: the residuals of the fitted line balance, also when weighted by month. */
  lemma NormalEquations(h: seq<real>, y: real, b: real)
    requires y * |h| as real == Dot(h, Ones(|h|)) && b * Dot(Months(|h|), Months(|h|)) == Dot(Months(|h|), h)
    ensures Dot(Residuals(h, y, b), Ones(|h|)) == 0.0 && Dot(Residuals(h, y, b), Months(|h|)) == 0.0
  {
    ResidualsBalance(h, y, b);
    ResidualsBalanceByMonth(h, y, b);
    DotSymmetric(Residuals(h, y, b), Ones(|h|), |h|);
    DotSymmetric(Residuals(h, y, b), Months(|h|), |h|);
  }

  /** Moving away from r in directions to which r is orthogonal only makes it longer. */
  lemma OrthogonalIsShortest(r: seq<real>, c: real, u: seq<real>, q: real, v: seq<real>)
    requires |r| == |u| == |v| && Dot(r, u) == 0.0 && Dot(r, v) == 0.0
    ensures var e := Plus(Plus(r, c, u), q, v); Dot(r, r) <= Dot(e, e)
  {
    var e := Plus(Plus(r, c, u), q, v);
    Linear(r, r, c, u);
    Linear(r, Plus(r, c, u), q, v);
    assert Dot(r, e) == Dot(r, r);
    DifferenceIsPositive(e, r);
  }

  lemma DifferenceIsPositive(e: seq<real>, r: seq<real>)
    requires |e| == |r|
    ensures Dot(e, e) - 2.0 * Dot(r, e) + Dot(r, r) >= 0.0
  {
    var d := Plus(e, -1.0, r);
    DotNonNegative(d, d, |d|);
    Linear(d, e, -1.0, r);
    DotSymmetric(d, e, |d|);
    DotSymmetric(d, r, |d|);
    Linear(e, e, -1.0, r);
    Linear(r, e, -1.0, r);
    DotSymmetric(e, r, |d|);
  }

  lemma ErrorTerm(v: real, i: real, x: real, y: real, b0: real, a: real, b: real)
    ensures v - a - b * i == (v + (-y) * 1.0 + (-b0) * (i - x)) + (y - a - b * x) * 1.0 + (b0 - b) * (i - x)
  {
    assert (b0 - b) * (i - x) == b0 * (i - x) - b * (i - x);
    assert b * (i - x) == b * i - b * x;
  }

  /** The errors of any line, told from the residuals of another. */
  lemma ErrorsFromResiduals(h: seq<real>, y: real, b0: real, a: real, b: real)
    ensures Errors(h, a, b) ==
            Plus(Plus(Residuals(h, y, b0), y - a - b * XMean(|h|), Ones(|h|)), b0 - b, Months(|h|))
  {
    var told := Plus(Plus(Residuals(h, y, b0), y - a - b * XMean(|h|), Ones(|h|)), b0 - b, Months(|h|));
    forall i | 0 <= i < |h| ensures Errors(h, a, b)[i] == told[i] {
      ErrorTerm(h[i], i as real, XMean(|h|), y, b0, a, b);
    }
  }

  lemma BestAt(h: seq<real>, y: real, b0: real, a: real, b: real)
    requires Dot(Residuals(h, y, b0), Ones(|h|)) == 0.0 && Dot(Residuals(h, y, b0), Months(|h|)) == 0.0
    ensures Dot(Residuals(h, y, b0), Residuals(h, y, b0)) <= SquaredError(h, a, b)
  {
    ErrorsFromResiduals(h, y, b0, a, b);
    OrthogonalIsShortest(Residuals(h, y, b0), y - a - b * XMean(|h|), Ones(|h|), b0 - b, Months(|h|));
  }

  lemma ResidualTerm(v: real, i: real, x: real, y: real, b: real)
    ensures v + (-y) * 1.0 + (-b) * (i - x) == v - (y - b * x) - b * i
  {
    assert (-b) * (i - x) == b * x - b * i;
  }

  lemma ResidualsAreErrors(h: seq<real>, y: real, b: real, a: real)
    requires a == y - b * XMean(|h|)
    ensures Residuals(h, y, b) == Errors(h, a, b)
  {
    forall i | 0 <= i < |h| ensures Residuals(h, y, b)[i] == Errors(h, a, b)[i] {
      ResidualTerm(h[i], i as real, XMean(|h|), y, b);
    }
  }

  /** The line through the mean month and y with slope b fits at least as well as every other line. */
  ghost predicate FitsBest(h: seq<real>, y: real, b: real) {
    forall a1, b1 :: SquaredError(h, y - b * XMean(|h|), b) <= SquaredError(h, a1, b1)
  }

  lemma BalancedFitsBest(h: seq<real>, y: real, b: real)
    requires Dot(Residuals(h, y, b), Ones(|h|)) == 0.0 && Dot(Residuals(h, y, b), Months(|h|)) == 0.0
    ensures FitsBest(h, y, b)
  {
    ResidualsAreErrors(h, y, b, y - b * XMean(|h|));
    forall a1, b1 ensures SquaredError(h, y - b * XMean(|h|), b) <= SquaredError(h, a1, b1) {
      BestAt(h, y, b, a1, b1);
    }
  }

  /** No line fits the history better than the one with this slope through the means. */
  lemma SlopeIsLeastSquares(h: seq<real>)
    requires |h| >= 2
    ensures FitsBest(h, YMean(h), Slope(h))
  {
    Fit(h);
    NormalEquations(h, YMean(h), Slope(h));
    BalancedFitsBest(h, YMean(h), Slope(h));
  }

  // ---- the direction of the slope ----

  predicate NonDecreasing(h: seq<real>) {
    forall i, j :: 0 <= i < j < |h| ==> h[i] <= h[j]
  }

  predicate NonIncreasing(h: seq<real>) {
    forall i, j :: 0 <= i < j < |h| ==> h[i] >= h[j]
  }

  predicate NonNegative(h: seq<real>) {
    forall i :: 0 <= i < |h| ==> h[i] >= 0.0
  }

  /** Months on one side of the mean month have values on the same side of the middle value. */
  lemma MiddleSplits(h: seq<real>)
    requires h != [] && NonDecreasing(h)
    ensures SameSigns(Months(|h|), Deviations(h, h[(|h| - 1) / 2]))
  {
    var m := (|h| - 1) / 2;
    var dev := Deviations(h, h[m]);
    forall i | 0 <= i < |h|
      ensures (Months(|h|)[i] <= 0.0 && dev[i] <= 0.0) || (Months(|h|)[i] >= 0.0 && dev[i] >= 0.0)
    {
      assert dev[i] == h[i] - h[m];
      if i > m {
        assert 2 * i >= |h| - 1;
      } else {
        assert 2 * i <= |h| - 1;
      }
    }
  }

  lemma PositiveFactor(s: real, d: real)
    requires d > 0.0
    ensures s * d >= 0.0 ==> s >= 0.0
  {
    if s < 0.0 {
      Scale(d, s, 0.0);
      assert d * s != 0.0;
    }
  }

  /** The sum inequality of Chebyshev: months and values that rise together correlate. */
  lemma GrowthHasSlope(h: seq<real>)
    requires |h| >= 2 && NonDecreasing(h)
    ensures Slope(h) >= 0.0
  {
    MiddleSplits(h);
    DotNonNegative(Months(|h|), Deviations(h, h[(|h| - 1) / 2]), |h|);
    NumeratorFrom(h, h[(|h| - 1) / 2]);
    Fit(h);
    DenominatorPositive(|h|);
    PositiveFactor(Slope(h), Dot(Months(|h|), Months(|h|)));
  }

  // ---- scaling ----

  function Scaled(h: seq<real>, k: real): (r: seq<real>)
    ensures |r| == |h|
  {
    seq(|h|, i requires 0 <= i < |h| => k * h[i])
  }

  lemma ScaleStep(a: real, k: real, w: real, u: real)
    ensures k * a + w * (k * u) == k * (a + w * u)
  {
    assert w * (k * u) == k * (w * u);
  }

  lemma {:induction false} DotScaled(w: seq<real>, h: seq<real>, k: real, n: nat)
    requires n <= |w| == |h|
    ensures DotTo(w, Scaled(h, k), n) == k * DotTo(w, h, n)
  {
    if n != 0 {
      DotScaled(w, h, k, n - 1);
      assert Scaled(h, k)[n - 1] == k * h[n - 1];
      ScaleStep(DotTo(w, h, n - 1), k, w[n - 1], h[n - 1]);
    }
  }

  lemma SameFactor(s: real, b: real, d: real)
    requires d > 0.0 && s * d == b * d
    ensures s == b
  {
    assert (s - b) * d == 0.0;
  }

  /** s is what the slope is defined as, told without dividing. */
  predicate IsSlope(h: seq<real>, s: real) {
    s * Dot(Months(|h|), Months(|h|)) == Dot(Months(|h|), h)
  }

  predicate IsMean(h: seq<real>, m: real) {
    m * |h| as real == Dot(h, Ones(|h|))
  }

  lemma OnlySlope(h: seq<real>, s: real)
    requires |h| >= 2 && IsSlope(h, s)
    ensures s == Slope(h)
  {
    Fit(h);
    DenominatorPositive(|h|);
    SameFactor(s, Slope(h), Dot(Months(|h|), Months(|h|)));
  }

  lemma OnlyMean(h: seq<real>, m: real)
    requires |h| >= 2 && IsMean(h, m)
    ensures m == YMean(h)
  {
    Fit(h);
    SameFactor(m, YMean(h), |h| as real);
  }

  lemma Regroup(k: real, a: real, d: real)
    ensures k * (a * d) == (k * a) * d
  {
  }

  lemma ScaledIsSlope(h: seq<real>, s: real, k: real)
    requires IsSlope(h, s)
    ensures IsSlope(Scaled(h, k), k * s)
  {
    DotScaled(Months(|h|), h, k, |h|);
    Regroup(k, s, Dot(Months(|h|), Months(|h|)));
  }

  lemma ScaledIsMean(h: seq<real>, m: real, k: real)
    requires IsMean(h, m)
    ensures IsMean(Scaled(h, k), k * m)
  {
    var n := |h|;
    DotSymmetric(h, Ones(n), n);
    DotSymmetric(Scaled(h, k), Ones(n), n);
    DotScaled(Ones(n), h, k, n);
    Regroup(k, m, n as real);
  }

  lemma MeanScales(h: seq<real>, k: real)
    requires |h| >= 2
    ensures YMean(Scaled(h, k)) == k * YMean(h)
  {
    Fit(h);
    ScaledIsMean(h, YMean(h), k);
    OnlyMean(Scaled(h, k), k * YMean(h));
  }

  lemma SlopeScales(h: seq<real>, k: real)
    requires |h| >= 2
    ensures Slope(Scaled(h, k)) == k * Slope(h)
  {
    Fit(h);
    ScaledIsSlope(h, Slope(h), k);
    OnlySlope(Scaled(h, k), k * Slope(h));
  }

  lemma ScaledQuotient(k: real, a: real, d: real)
    requires d != 0.0 && k != 0.0
    ensures k * d != 0.0 && (k * a) / (k * d) == a / d
  {
    var q := (k * a) / (k * d);
    assert q * (k * d) == k * a;
    assert k * (q * d - a) == 0.0;
    assert q * d == a;
  }

  lemma TrendScales(s: real, m: real, k: real)
    requires k != 0.0
    ensures TrendOf(k * s, k * m) == TrendOf(s, m)
  {
    if m != 0.0 {
      ScaledQuotient(k, s, m);
    }
  }

  lemma TrendIs(h: seq<real>, s: real, m: real, months: nat)
    requires |h| >= 2 && Slope(h) == s && YMean(h) == m
    ensures Predict(h, months).trend == TrendOf(s, m)
  {
  }

  /** The trend depends on the shape of the history, not on its unit. */
  lemma ScalingKeepsTrend(h: seq<real>, k: real, months: nat)
    requires k != 0.0
    ensures Predict(Scaled(h, k), months).trend == Predict(h, months).trend
  {
    if |h| >= 2 {
      MeanScales(h, k);
      SlopeScales(h, k);
      var s, m := Slope(h), YMean(h);
      TrendScales(s, m, k);
      TrendIs(h, s, m, months);
      TrendIs(Scaled(h, k), k * s, k * m, months);
    }
  }

  /** Decline mirrors growth. */
  lemma DeclineHasSlope(h: seq<real>)
    requires |h| >= 2 && NonIncreasing(h)
    ensures Slope(h) <= 0.0
  {
    SlopeScales(h, -1.0);
    GrowthHasSlope(Scaled(h, -1.0));
  }

  lemma LineTerm(a: real, b: real, i: real, x: real)
    ensures a + b * i == (a + b * x) * 1.0 + b * (i - x)
  {
    assert b * (i - x) == b * i - b * x;
  }

  /** A history that already is a line gives back the slope of that line. */
  lemma LineIsRecovered(h: seq<real>, a: real, b: real)
    requires |h| >= 2 && forall i :: 0 <= i < |h| ==> h[i] == a + b * i as real
    ensures Slope(h) == b
  {
    var n := |h|;
    var level := Scaled(Ones(n), a + b * XMean(n));
    forall i | 0 <= i < n ensures h[i] == Plus(level, b, Months(n))[i] {
      LineTerm(a, b, i as real, XMean(n));
    }
    assert h == Plus(level, b, Months(n));
    SlopeOfLine(h, level, a + b * XMean(n), b);
  }

  lemma SlopeOfLine(h: seq<real>, level: seq<real>, c: real, b: real)
    requires |h| >= 2 && level == Scaled(Ones(|h|), c) && h == Plus(level, b, Months(|h|))
    ensures Slope(h) == b
  {
    var n := |h|;
    Linear(Months(n), level, b, Months(n));
    DotScaled(Months(n), Ones(n), c, n);
    MonthsCentred(n);
    Fit(h);
    DenominatorPositive(n);
    SameFactor(Slope(h), b, Dot(Months(n), Months(n)));
  }

  // ---- what the forecast promises ----

  lemma TrendFollowsSlope(s: real, m: real)
    requires m >= 0.0
    ensures s >= 0.0 ==> TrendOf(s, m) != Down
    ensures s <= 0.0 ==> TrendOf(s, m) != Up
  {
    if m > 0.0 {
      Quotient(s, m);
      PositiveFactor(s / m, m);
      PositiveFactor(-(s / m), m);
    }
  }

  lemma MeanNonNegative(h: seq<real>)
    requires |h| >= 2 && NonNegative(h)
    ensures YMean(h) >= 0.0
  {
    DotNonNegative(h, Ones(|h|), |h|);
    Fit(h);
    PositiveFactor(YMean(h), |h| as real);
  }

  lemma RoundMonotone(a: real, b: real)
    requires a <= b
    ensures Round(a) <= Round(b)
  {
    var f, g := (a + 0.5).Floor, (b + 0.5).Floor;
    assert f as real <= a + 0.5 < f as real + 1.0;
    assert g as real <= b + 0.5 < g as real + 1.0;
    assert f as real < (g + 1) as real;
  }

  lemma ExtrapolationFollowsSlope(last: real, s: real, i: nat, j: nat)
    requires i <= j
    ensures s >= 0.0 ==> Extrapolate(last, s, i) <= Extrapolate(last, s, j)
    ensures s <= 0.0 ==> Extrapolate(last, s, i) >= Extrapolate(last, s, j)
  {
    var p, q := last + s * i as real, last + s * j as real;
    if s >= 0.0 {
      Scale(s, i as real, j as real);
      RoundMonotone(p, q);
    }
    if s <= 0.0 {
      Scale(-s, i as real, j as real);
      assert (-s) * i as real == -(s * i as real) && (-s) * j as real == -(s * j as real);
      RoundMonotone(q, p);
    }
  }

  /** The last month of the history, as the forecast would report it, and the forecast. */
  function Outlook(h: seq<real>, months: nat): (r: seq<real>)
    requires |h| >= 2
    ensures |r| == months + 1 && r[1..] == Predict(h, months).predicted
  {
    [Clamp(h[|h| - 1])] + Predict(h, months).predicted
  }

  lemma OutlookAt(h: seq<real>, months: nat, i: nat)
    requires |h| >= 2 && i <= months
    ensures Outlook(h, months)[i] == Extrapolate(h[|h| - 1], Slope(h), i)
  {
    if i > 0 {
      assert Outlook(h, months)[i] == Predicted(h[|h| - 1], Slope(h), months)[i - 1];
    }
  }

  /** Whole, non-negative amounts are reported as they are. */
  lemma OutlookStartsAtLast(h: seq<real>, months: nat, last: nat)
    requires |h| >= 2 && h[|h| - 1] == last as real
    ensures Outlook(h, months)[0] == h[|h| - 1]
  {
    var x := last as real;
    assert Round(x) == last;
  }

  /** A history that never falls is not called a decline, and the forecast goes on without falling. */
  lemma GrowthIsForecast(h: seq<real>, months: nat)
    requires |h| >= 2 && NonDecreasing(h) && NonNegative(h)
    ensures Predict(h, months).trend != Down && NonDecreasing(Outlook(h, months))
  {
    GrowthHasSlope(h);
    MeanNonNegative(h);
    TrendFollowsSlope(Slope(h), YMean(h));
    TrendIs(h, Slope(h), YMean(h), months);
    var all := Outlook(h, months);
    forall i, j | 0 <= i < j < |all| ensures all[i] <= all[j] {
      OutlookAt(h, months, i);
      OutlookAt(h, months, j);
      ExtrapolationFollowsSlope(h[|h| - 1], Slope(h), i, j);
    }
  }

  /** In whole amounts: after steady growth no month is forecast below the last one. */
  lemma GrowthKeepsLast(h: seq<real>, months: nat, last: nat, i: nat)
    requires |h| >= 2 && NonDecreasing(h) && NonNegative(h) && h[|h| - 1] == last as real && i < months
    ensures Predict(h, months).predicted[i] >= h[|h| - 1]
  {
    GrowthIsForecast(h, months);
    OutlookStartsAtLast(h, months, last);
    assert Predict(h, months).predicted[i] == Outlook(h, months)[i + 1];
  }

  lemma DeclineIsForecast(h: seq<real>, months: nat)
    requires |h| >= 2 && NonIncreasing(h) && NonNegative(h)
    ensures Predict(h, months).trend != Up && NonIncreasing(Outlook(h, months))
  {
    DeclineHasSlope(h);
    MeanNonNegative(h);
    TrendFollowsSlope(Slope(h), YMean(h));
    var all := Outlook(h, months);
    forall i, j | 0 <= i < j < |all| ensures all[i] >= all[j] {
      OutlookAt(h, months, i);
      OutlookAt(h, months, j);
      ExtrapolationFollowsSlope(h[|h| - 1], Slope(h), i, j);
    }
  }

  /** The quotient r = s / m against a threshold, told without dividing. */
  lemma BelowThresholdIff(r: real, m: real, s: real, t: real)
    requires m < 0.0 && r * m == s
    ensures r < -t <==> s > t * -m
  {
    var q := r + t;
    ShiftedProduct(r, t, m);
    NegativeFactor(q, m);
    assert q * m == s - t * -m;
  }

  lemma ShiftedProduct(r: real, t: real, m: real)
    ensures (r + t) * m == r * m - t * -m
  {
  }

  lemma NegativeFactor(q: real, m: real)
    requires m < 0.0
    ensures q < 0.0 <==> q * m > 0.0
  {
    if q < 0.0 {
      NegativeTimesNegative(q, m);
    } else {
      SameSign(q, -m);
      assert q * -m == -(q * m);
    }
  }

  lemma NegativeTimesNegative(q: real, m: real)
    requires q < 0.0 && m < 0.0
    ensures q * m > 0.0
  {
    assert (-q) * (-m) > 0.0;
  }

  lemma DownIff(s: real, m: real)
    requires s > 0.0
    ensures TrendOf(s, m) == Down <==> m < 0.0 && s > TREND_THRESHOLD * -m
  {
    if m != 0.0 {
      Quotient(s, m);
      if m < 0.0 {
        NegativeFactor(s / m, m);
        BelowThresholdIff(s / m, m, s, TREND_THRESHOLD);
      } else {
        PositiveFactor(s / m, m);
      }
    }
  }

  /** Rising months are called a decline exactly when their mean is negative and the rise is steep against it. */
  lemma GrowthCalledDownIff(h: seq<real>, months: nat)
    requires |h| >= 2 && Slope(h) > 0.0
    ensures Predict(h, months).trend == Down <==> YMean(h) < 0.0 && Slope(h) > TREND_THRESHOLD * -YMean(h)
  {
    DownIff(Slope(h), YMean(h));
    TrendIs(h, Slope(h), YMean(h), months);
  }

  /** Such a history. */
  lemma NegativeGrowthIsCalledDown(months: nat)
    ensures Slope([-3.0, -2.0]) == 1.0 && Predict([-3.0, -2.0], months).trend == Down
  {
    var h := [-3.0, -2.0];
    LineIsRecovered(h, -3.0, 1.0);
    assert DotTo(h, Ones(2), 1) == -3.0;
    assert Dot(h, Ones(2)) == -5.0;
    TrendIs(h, 1.0, YMean(h), months);
    DownIff(1.0, YMean(h));
  }

  /** The forecast is never negative, but for one case: a single negative month is repeated as it is. */
  lemma NeverNegativeIff(h: seq<real>, months: nat)
    ensures NonNegative(Predict(h, months).predicted) <==> !(|h| == 1 && months > 0 && h[0] < 0.0)
  {
    if |h| == 1 && months > 0 && h[0] < 0.0 {
      assert Predict(h, months).predicted[0] < 0.0;
    } else if |h| >= 2 {
      forall i | 0 <= i < months ensures Predict(h, months).predicted[i] >= 0.0 {
        OutlookAt(h, months, i + 1);
      }
    }
  }

  // ---- the forecast and the trend, told from the history ----

  lemma ClampIsNearest(x: real)
    ensures var p := Clamp(x);
            p >= 0.0 && p == p.Floor as real && (if x < -0.5 then p == 0.0 else p - 0.5 <= x < p + 0.5)
  {
    var f := (x + 0.5).Floor;
    assert f as real <= x + 0.5 < f as real + 1.0;
  }

  lemma WholeLine(a: int, b: int, k: int)
    ensures a as real + b as real * k as real == (a + b * k) as real
  {
  }

  lemma Apart(b: int, m: int, k: int)
    ensures b * m + b * k == b * (m + k)
  {
  }

  lemma FurtherOnLine(a: int, b: int, m: int, k: nat)
    ensures (a as real + b as real * m as real) + b as real * k as real == (a + b * (m + k)) as real
  {
    WholeLine(a, b, m);
    WholeLine(0, b, k);
    Apart(b, m, k);
  }

  lemma ExtrapolateIs(last: real, slope: real, k: nat, move: real, x: real)
    requires move == slope * k as real && last + move == x
    ensures Extrapolate(last, slope, k) == Clamp(x)
  {
  }

  lemma NearestWhole(x: int)
    ensures Clamp(x as real) == if x < 0 then 0.0 else x as real
  {
    assert Round(x as real) == x;
  }

  lemma PredictedIs(h: seq<real>, months: nat, i: nat, b: real)
    requires |h| >= 2 && i < months && Slope(h) == b
    ensures Predict(h, months).predicted[i] == Extrapolate(h[|h| - 1], b, i + 1)
  {
    assert Predict(h, months).predicted == Predicted(h[|h| - 1], b, months);
  }

  /** Forecast month i is the whole number nearest to the line through the last month, i + 1 months on, or zero. */
  lemma ForecastFollowsLine(h: seq<real>, months: nat, i: nat)
    requires |h| >= 2 && i < months
    ensures var line, p := h[|h| - 1] + Slope(h) * (i + 1) as real, Predict(h, months).predicted[i];
            p >= 0.0 && p == p.Floor as real && (if line < -0.5 then p == 0.0 else p - 0.5 <= line < p + 0.5)
  {
    PredictedIs(h, months, i, Slope(h));
    ClampIsNearest(h[|h| - 1] + Slope(h) * (i + 1) as real);
  }

  predicate IsLine(h: seq<real>, a: real, b: real) {
    forall k :: 0 <= k < |h| ==> h[k] == a + b * k as real
  }

  lemma LastOnLine(h: seq<real>, a: real, b: real)
    requires |h| >= 2 && IsLine(h, a, b)
    ensures Slope(h) == b && h[|h| - 1] == a + b * (|h| - 1) as real
  {
    LineIsRecovered(h, a, b);
  }

  /** A history that is a line of whole amounts goes on as that line, down to zero. */
  lemma LineIsContinued(h: seq<real>, a: int, b: int, months: nat, i: nat)
    requires |h| >= 2 && i < months && IsLine(h, a as real, b as real)
    ensures Predict(h, months).predicted[i] == var next := a + b * (|h| + i); if next < 0 then 0.0 else next as real
  {
    LastOnLine(h, a as real, b as real);
    PredictedIs(h, months, i, b as real);
    FurtherOnLine(a, b, |h| - 1, i + 1);
    assert |h| - 1 + (i + 1) == |h| + i;
    var next := a + b * (|h| + i);
    ExtrapolateIs(h[|h| - 1], b as real, i + 1, b as real * (i + 1) as real, next as real);
    NearestWhole(next);
  }

  /** Without two months there is no slope: nothing is forecast from nothing, and one month is repeated. */
  lemma ShortHistory(h: seq<real>, months: nat)
    requires |h| < 2
    ensures var f := Predict(h, months);
            f.trend == Flat && |f.predicted| == months
            && forall i :: 0 <= i < months ==> f.predicted[i] == if h == [] then 0.0 else h[0]
  {
  }

  lemma Slack(q: real, m: real)
    requires m > 0.0
    ensures q > 0.0 <==> q * m > 0.0
  {
    if q <= 0.0 {
      SameSign(-q, m);
      assert (-q) * m == -(q * m);
    }
  }

  lemma AboveThresholdIff(r: real, m: real, s: real, t: real)
    requires m > 0.0 && r * m == s
    ensures r > t <==> s > t * m
  {
    Slack(r - t, m);
    assert (r - t) * m == s - t * m;
  }

  lemma TwentiethIff(r: real, s: real, m: real)
    requires m > 0.0 && r * m == s
    ensures r > 0.05 <==> 20.0 * s > m
    ensures r < -0.05 <==> 20.0 * s < -m
  {
    AboveThresholdIff(r, m, s, 0.05);
    assert (-r) * m == -s;
    AboveThresholdIff(-r, m, -s, 0.05);
  }

  /** Months of positive mean: the trend is the slope against a twentieth of the mean. */
  lemma TrendIff(h: seq<real>, months: nat)
    requires |h| >= 2 && YMean(h) > 0.0
    ensures Predict(h, months).trend == Up <==> 20.0 * Slope(h) > YMean(h)
    ensures Predict(h, months).trend == Down <==> 20.0 * Slope(h) < -YMean(h)
  {
    Quotient(Slope(h), YMean(h));
    TwentiethIff(Slope(h) / YMean(h), Slope(h), YMean(h));
    TrendIs(h, Slope(h), YMean(h), months);
  }

  lemma NoMeanNoTrend(h: seq<real>, months: nat)
    requires |h| >= 2 && YMean(h) == 0.0
    ensures Predict(h, months).trend == Flat
  {
    TrendIs(h, Slope(h), 0.0, months);
  }

  // ---- the code ----

  method PredictRevenue(history: seq<real>, monthsAhead: nat) returns (f: Forecast)
    ensures f == Predict(history, monthsAhead)
  {
    if |history| == 0 {
      return Forecast(Flat, seq(monthsAhead, _ => 0.0));
    }
    if |history| == 1 {
      return Forecast(Flat, seq(monthsAhead, _ => history[0]));
    }

    var n := |history|;
    var sum := 0.0;
    for i := 0 to n
      invariant sum == DotTo(history, Ones(n), i)
    {
      sum := sum + history[i];
    }
    var yMean := sum / n as real;

    var slope := SlopeByLoop(history, yMean);
    var relativeSlope := if yMean != 0.0 then slope / yMean else 0.0;
    var trend := Flat;
    if relativeSlope > TREND_THRESHOLD {
      trend := Up;
    } else if relativeSlope < -TREND_THRESHOLD {
      trend := Down;
    }
    var predicted := PredictByLoop(history[n - 1], slope, monthsAhead);
    return Forecast(trend, predicted);
  }

  method SlopeByLoop(history: seq<real>, yMean: real) returns (slope: real)
    requires |history| >= 2 && yMean == YMean(history)
    ensures slope == Slope(history)
  {
    var n := |history|;
    var xMean := (n as real - 1.0) / 2.0;
    var numerator, denominator := 0.0, 0.0;
    ghost var months, values := Months(n), Deviations(history, yMean);
    for i := 0 to n
      invariant numerator == DotTo(months, values, i) && denominator == DotTo(months, months, i)
    {
      assert months[i] == i as real - xMean && values[i] == history[i] - yMean;
      numerator := numerator + (i as real - xMean) * (history[i] - yMean);
      denominator := denominator + (i as real - xMean) * (i as real - xMean);
    }
    slope := if denominator == 0.0 then 0.0 else numerator / denominator;
  }

  method PredictByLoop(lastValue: real, slope: real, monthsAhead: nat) returns (predicted: seq<real>)
    ensures predicted == Predicted(lastValue, slope, monthsAhead)
  {
    predicted := [];
    for i := 1 to monthsAhead + 1
      invariant predicted == Predicted(lastValue, slope, i - 1)
    {
      ghost var before := predicted;
      var next := Clamp(lastValue + slope * i as real);
      assert next == Extrapolate(lastValue, slope, i);
      predicted := predicted + [next];
      forall k | 0 <= k < i ensures predicted[k] == Extrapolate(lastValue, slope, k + 1) {
        if k < i - 1 {
          assert predicted[k] == before[k] == Predicted(lastValue, slope, i - 1)[k];
        } else {
          assert predicted[k] == next;
        }
      }
    }
  }
}
