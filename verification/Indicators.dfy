/** Directional movement with Wilder smoothing, and rolling correlation, over real numbers. */
module Indicators {

  function Abs(x: real): real {
    if x < 0.0 then -x else x
  }

  function Max(x: real, y: real): real {
    if x < y then y else x
  }

  // ---------- directional movement ----------

  datatype Bars = Bars(highs: seq<real>, lows: seq<real>, closes: seq<real>)

  predicate SameLength(b: Bars) {
    |b.highs| == |b.lows| == |b.closes|
  }

  /** Upstream validation keeps every close between its low and its high. */
  ghost predicate Ordered(b: Bars)
    requires SameLength(b)
  {
    forall i :: 0 <= i < |b.highs| ==> b.lows[i] <= b.closes[i] <= b.highs[i]
  }

  function PlusDm(b: Bars, i: nat): real
    requires SameLength(b) && 0 < i < |b.highs|
  {
    var h, l := b.highs[i] - b.highs[i - 1], b.lows[i - 1] - b.lows[i];
    if h > l then Max(h, 0.0) else 0.0
  }

  function MinusDm(b: Bars, i: nat): real
    requires SameLength(b) && 0 < i < |b.highs|
  {
    var h, l := b.highs[i] - b.highs[i - 1], b.lows[i - 1] - b.lows[i];
    if l > h then Max(l, 0.0) else 0.0
  }

  function TrueRange(b: Bars, i: nat): real
    requires SameLength(b) && 0 < i < |b.highs|
  {
    Max(b.highs[i] - b.lows[i], Max(Abs(b.highs[i] - b.closes[i - 1]), Abs(b.lows[i] - b.closes[i - 1])))
  }

  /** The three Wilder sums. */
  datatype Sums = Sums(tr: real, plus: real, minus: real)

  function Add(s: Sums, b: Bars, i: nat): Sums
    requires SameLength(b) && 0 < i < |b.highs|
  {
    Sums(s.tr + TrueRange(b, i), s.plus + PlusDm(b, i), s.minus + MinusDm(b, i))
  }

  /** Wilder smoothing keeps all but one `period`-th of each sum. */
  function Decay(s: Sums, period: nat): Sums
    requires period > 0
  {
    Sums(s.tr - s.tr / period as real, s.plus - s.plus / period as real, s.minus - s.minus / period as real)
  }

  /** The sums after bar `i`: plain sums over the first `period` bars, smoothed afterwards. */
  function SumsAfter(b: Bars, period: nat, i: nat): Sums
    requires SameLength(b) && period > 0 && i < |b.highs|
  {
    if i == 0 then Sums(0.0, 0.0, 0.0)
    else if i <= period then Add(SumsAfter(b, period, i - 1), b, i)
    else Add(Decay(SumsAfter(b, period, i - 1), period), b, i)
  }

  function PlusDi(s: Sums): real
    requires s.tr != 0.0
  {
    100.0 * s.plus / s.tr
  }

  function MinusDi(s: Sums): real
    requires s.tr != 0.0
  {
    100.0 * s.minus / s.tr
  }

  datatype Adx = Insufficient | Value(dx: real)

  function AdxOf(s: Sums): real {
    if s.tr == 0.0 then 0.0
    else
      var p, m := PlusDi(s), MinusDi(s);
      if p + m > 0.0 then 100.0 * Abs(p - m) / (p + m) else 0.0
  }

  /** `compute_adx`; every division is by a number that the preceding test made nonzero. */
  method ComputeAdx(b: Bars, period: nat) returns (r: Adx)
    requires SameLength(b) && period > 0
    ensures r == if |b.highs| < period * 2 then Insufficient else Value(AdxOf(SumsAfter(b, period, |b.highs| - 1)))
  {
    if |b.highs| < period * 2 {
      return Insufficient;
    }
    var plusDm, minusDm, trueRanges := [], [], [];
    for i := 1 to |b.highs|
      invariant |plusDm| == |minusDm| == |trueRanges| == i - 1
      invariant forall j :: 0 <= j < i - 1 ==> plusDm[j] == PlusDm(b, j + 1) && minusDm[j] == MinusDm(b, j + 1)
      invariant forall j :: 0 <= j < i - 1 ==> trueRanges[j] == TrueRange(b, j + 1)
    {
      plusDm := plusDm + [PlusDm(b, i)];
      minusDm := minusDm + [MinusDm(b, i)];
      trueRanges := trueRanges + [TrueRange(b, i)];
    }
    var smoothed := Sums(0.0, 0.0, 0.0);
    for i := 0 to period
      invariant smoothed == SumsAfter(b, period, i)
    {
      smoothed := Sums(smoothed.tr + trueRanges[i], smoothed.plus + plusDm[i], smoothed.minus + minusDm[i]);
    }
    for i := period to |trueRanges|
      invariant smoothed == SumsAfter(b, period, i)
    {
      var kept := Decay(smoothed, period);
      smoothed := Sums(kept.tr + trueRanges[i], kept.plus + plusDm[i], kept.minus + minusDm[i]);
    }
    return Value(AdxOf(smoothed));
  }

  /** Directional movement never exceeds the range. */
  ghost predicate Balanced(s: Sums) {
    s.plus >= 0.0 && s.minus >= 0.0 && s.plus + s.minus <= s.tr
  }

  lemma MovementWithinRange(b: Bars, i: nat)
    requires SameLength(b) && Ordered(b) && 0 < i < |b.highs|
    ensures Balanced(Sums(TrueRange(b, i), PlusDm(b, i), MinusDm(b, i)))
  {
    assert b.lows[i - 1] <= b.closes[i - 1] <= b.highs[i - 1] && b.lows[i] <= b.closes[i] <= b.highs[i];
  }

  lemma DecayBalanced(s: Sums, period: nat)
    requires period > 0 && Balanced(s)
    ensures Balanced(Decay(s, period))
  {
    var p := period as real;
    KeptShare(s.plus, p);
    KeptShare(s.minus, p);
    KeptShare(s.tr - s.plus - s.minus, p);
    QuotientSum(s.plus, s.minus, p);
    QuotientSum(s.plus + s.minus, s.tr - s.plus - s.minus, p);
  }

  lemma KeptShare(x: real, p: real)
    requires x >= 0.0 && p >= 1.0
    ensures x - x / p >= 0.0
  {
    var q := x / p;
    assert q * p == x;
    assert q < 0.0 ==> q * p < 0.0;
    assert q * (p - 1.0) >= 0.0;
  }

  /** The smoothing loop keeps 0 <= plus + minus <= true range. */
  lemma {:induction false} SumsBalanced(b: Bars, period: nat, i: nat)
    requires SameLength(b) && Ordered(b) && period > 0 && i < |b.highs|
    ensures Balanced(SumsAfter(b, period, i))
  {
    if i > 0 {
      SumsBalanced(b, period, i - 1);
      MovementWithinRange(b, i);
      DecayBalanced(SumsAfter(b, period, i - 1), period);
    }
  }

  /** The two indicators share at most 100, and the index itself lies between 0 and 100. */
  lemma AdxBounds(b: Bars, period: nat, i: nat)
    requires SameLength(b) && Ordered(b) && period > 0 && i < |b.highs|
    ensures var s := SumsAfter(b, period, i);
            && (s.tr != 0.0 ==> PlusDi(s) >= 0.0 && MinusDi(s) >= 0.0 && PlusDi(s) + MinusDi(s) <= 100.0)
            && 0.0 <= AdxOf(s) <= 100.0
  {
    SumsBalanced(b, period, i);
    var s := SumsAfter(b, period, i);
    if s.tr != 0.0 {
      SharesBounded(s);
      var p, m := PlusDi(s), MinusDi(s);
      if p + m > 0.0 {
        QuotientBounds(100.0 * Abs(p - m), p + m, 100.0);
      }
    }
  }

  lemma SharesBounded(s: Sums)
    requires Balanced(s) && s.tr != 0.0
    ensures PlusDi(s) >= 0.0 && MinusDi(s) >= 0.0 && PlusDi(s) + MinusDi(s) <= 100.0
  {
    QuotientBounds(100.0 * s.plus, s.tr, 100.0);
    QuotientBounds(100.0 * s.minus, s.tr, 100.0);
    QuotientBounds(100.0 * s.plus + 100.0 * s.minus, s.tr, 100.0);
    QuotientSum(100.0 * s.plus, 100.0 * s.minus, s.tr);
  }

  lemma QuotientSum(a: real, b: real, c: real)
    requires c > 0.0
    ensures (a + b) / c == a / c + b / c
  {
    var p, q := a / c, b / c;
    assert p * c == a && q * c == b;
    assert (p + q) * c == a + b;
  }

  lemma QuotientBounds(x: real, y: real, hi: real)
    requires y > 0.0 && 0.0 <= x <= hi * y
    ensures 0.0 <= x / y <= hi
  {
    var q := x / y;
    assert q * y == x;
    assert (hi - q) * y == hi * y - x;
    assert (q < 0.0 ==> q * y < 0.0) && (hi - q < 0.0 ==> (hi - q) * y < 0.0);
  }

  // ---------- correlation ----------

  function Sum(xs: seq<real>): real {
    if xs == [] then 0.0 else Sum(xs[..|xs| - 1]) + xs[|xs| - 1]
  }

  /** The sum of the products of paired entries. */
  function Dot(xs: seq<real>, ys: seq<real>): real
    requires |xs| == |ys|
  {
    if xs == [] then 0.0 else Dot(xs[..|xs| - 1], ys[..|xs| - 1]) + xs[|xs| - 1] * ys[|xs| - 1]
  }

  function Mean(xs: seq<real>): real
    requires xs != []
  {
    Sum(xs) / |xs| as real
  }

  function Centered(xs: seq<real>): (c: seq<real>)
    requires xs != []
    ensures |c| == |xs|
  {
    seq(|xs|, i requires 0 <= i < |xs| => xs[i] - Mean(xs))
  }

  function Covariance(xs: seq<real>, ys: seq<real>): real
    requires xs != [] && |xs| == |ys|
  {
    Dot(Centered(xs), Centered(ys)) / |xs| as real
  }

  datatype Correlation = InsufficientData | ZeroVariance | Valid(value: real)

  /** A standard deviation: the nonnegative root of the variance. */
  ghost predicate IsStd(std: real, xs: seq<real>)
    requires xs != []
  {
    std >= 0.0 && std * std == Covariance(xs, xs)
  }

  function Tail(xs: seq<real>, window: nat): seq<real>
    requires window <= |xs|
  {
    xs[|xs| - window..]
  }

  /** `rolling_correlation`, given the two square roots. */
  function RollingCorrelation(a: seq<real>, b: seq<real>, window: nat, stdA: real, stdB: real): Correlation
    requires window > 0
    requires |a| >= window && |b| >= window ==> IsStd(stdA, Tail(a, window)) && IsStd(stdB, Tail(b, window))
  {
    if |a| < window || |b| < window then InsufficientData
    else if stdA == 0.0 || stdB == 0.0 then ZeroVariance
    else NonzeroProduct(stdA, stdB); Valid(Covariance(Tail(a, window), Tail(b, window)) / (stdA * stdB))
  }

  lemma NonzeroProduct(x: real, y: real)
    requires x != 0.0 && y != 0.0
    ensures x * y != 0.0
  {
  }

  function Combine(xs: seq<real>, ys: seq<real>, u: real, v: real): (c: seq<real>)
    requires |xs| == |ys|
    ensures |c| == |xs|
  {
    if xs == [] then [] else Combine(xs[..|xs| - 1], ys[..|xs| - 1], u, v) + [u * xs[|xs| - 1] + v * ys[|xs| - 1]]
  }

  lemma {:induction false} DotNonNegative(xs: seq<real>)
    ensures Dot(xs, xs) >= 0.0
  {
    if xs != [] {
      DotNonNegative(xs[..|xs| - 1]);
    }
  }

  /** The square of a combination, expanded. */
  lemma {:induction false} DotCombine(xs: seq<real>, ys: seq<real>, u: real, v: real)
    requires |xs| == |ys|
    ensures Dot(Combine(xs, ys, u, v), Combine(xs, ys, u, v)) == u * u * Dot(xs, xs) + 2.0 * u * v * Dot(xs, ys) + v * v * Dot(ys, ys)
  {
    if xs != [] {
      var fx, fy := xs[..|xs| - 1], ys[..|xs| - 1];
      DotStep(xs, xs);
      DotStep(xs, ys);
      DotStep(ys, ys);
      hide Dot;
      DotCombine(fx, fy, u, v);
      var c, z := Combine(fx, fy, u, v), u * xs[|xs| - 1] + v * ys[|xs| - 1];
      DotAppend(c, z);
      ExpandStep(u, v, xs[|xs| - 1], ys[|xs| - 1], Dot(fx, fx), Dot(fx, fy), Dot(fy, fy));
    }
  }

  lemma DotStep(xs: seq<real>, ys: seq<real>)
    requires |xs| == |ys| > 0
    ensures Dot(xs, ys) == Dot(xs[..|xs| - 1], ys[..|xs| - 1]) + xs[|xs| - 1] * ys[|xs| - 1]
  {
  }

  lemma DotAppend(c: seq<real>, z: real)
    ensures Dot(c + [z], c + [z]) == Dot(c, c) + z * z
  {
    assert (c + [z])[..|c|] == c;
  }

  lemma ExpandStep(u: real, v: real, x: real, y: real, xx: real, xy: real, yy: real)
    ensures u * u * xx + 2.0 * u * v * xy + v * v * yy + (u * x + v * y) * (u * x + v * y)
         == u * u * (xx + x * x) + 2.0 * u * v * (xy + x * y) + v * v * (yy + y * y)
  {
  }

  /** A vector of length zero is orthogonal to everything. */
  lemma {:induction false} DotZero(xs: seq<real>, ys: seq<real>)
    requires |xs| == |ys| && Dot(ys, ys) == 0.0
    ensures Dot(xs, ys) == 0.0
  {
    if xs != [] {
      var y := ys[|ys| - 1];
      DotNonNegative(ys[..|ys| - 1]);
      SquareNonNegative(y);
      SquareOfNonzero(y);
      ZeroProduct(xs[|xs| - 1], y);
      DotZero(xs[..|xs| - 1], ys[..|ys| - 1]);
    }
  }

  lemma SquareNonNegative(y: real)
    ensures y * y >= 0.0
  {
  }

  lemma ZeroProduct(x: real, y: real)
    ensures y == 0.0 ==> x * y == 0.0
  {
  }

  lemma SquareOfNonzero(y: real)
    ensures y != 0.0 ==> y * y > 0.0
  {
  }

  /** Cauchy-Schwarz for sequences of any length. */
  lemma CauchySchwarz(xs: seq<real>, ys: seq<real>)
    requires |xs| == |ys|
    ensures Dot(xs, ys) * Dot(xs, ys) <= Dot(xs, xs) * Dot(ys, ys)
  {
    hide Dot;
    DotNonNegative(ys);
    if Dot(ys, ys) == 0.0 {
      DotZero(xs, ys);
    } else {
      DotCombine(xs, ys, Dot(ys, ys), -Dot(xs, ys));
      DotNonNegative(Combine(xs, ys, Dot(ys, ys), -Dot(xs, ys)));
      Discriminant(Dot(xs, xs), Dot(xs, ys), Dot(ys, ys));
    }
  }

  lemma Discriminant(xx: real, xy: real, yy: real)
    requires yy > 0.0 && yy * yy * xx + 2.0 * yy * (-xy) * xy + (-xy) * (-xy) * yy >= 0.0
    ensures xy * xy <= xx * yy
  {
    assert (xx * yy - xy * xy) * yy >= 0.0;
    PositiveFactor(xx * yy - xy * xy, yy);
  }

  lemma PositiveFactor(x: real, y: real)
    requires y > 0.0 && x * y >= 0.0
    ensures x >= 0.0
  {
    assert x < 0.0 ==> x * y < 0.0;
  }

  /** Every reported correlation lies in [-1, 1]. */
  lemma CorrelationBounded(a: seq<real>, b: seq<real>, window: nat, stdA: real, stdB: real)
    requires window > 0
    requires |a| >= window && |b| >= window ==> IsStd(stdA, Tail(a, window)) && IsStd(stdB, Tail(b, window))
    ensures var r := RollingCorrelation(a, b, window, stdA, stdB);
            r.Valid? ==> -1.0 <= r.value <= 1.0
  {
    if |a| >= window && |b| >= window && stdA != 0.0 && stdB != 0.0 {
      var xs, ys := Tail(a, window), Tail(b, window);
      CovarianceBounded(xs, ys);
      RatioBounded(Covariance(xs, ys), stdA, stdB);
    }
  }

  /** The squared covariance is at most the product of the variances. */
  lemma CovarianceBounded(xs: seq<real>, ys: seq<real>)
    requires xs != [] && |xs| == |ys|
    ensures Covariance(xs, ys) * Covariance(xs, ys) <= Covariance(xs, xs) * Covariance(ys, ys)
  {
    hide Dot, Centered;
    CauchySchwarz(Centered(xs), Centered(ys));
    ScaledSquares(Dot(Centered(xs), Centered(ys)), Dot(Centered(xs), Centered(xs)), Dot(Centered(ys), Centered(ys)), |xs| as real);
  }

  lemma ScaledSquares(xy: real, xx: real, yy: real, n: real)
    requires n > 0.0 && xy * xy <= xx * yy
    ensures (xy / n) * (xy / n) <= (xx / n) * (yy / n)
  {
    ScaledProducts(xy, xy, xx, yy, n, n);
  }

  lemma ScaledProducts(xy: real, yx: real, xx: real, yy: real, n: real, m: real)
    requires n > 0.0 && m > 0.0 && xy * yx <= xx * yy
    ensures (xy / n) * (yx / m) <= (xx / n) * (yy / m)
  {
    DividedProduct(xy, yx, n, m);
    DividedProduct(xx, yy, n, m);
    PositiveProduct(n, m);
    CommonFactor((xy / n) * (yx / m), (xx / n) * (yy / m), n * m, xy * yx, xx * yy);
  }

  lemma DividedProduct(x: real, y: real, n: real, m: real)
    requires n > 0.0 && m > 0.0
    ensures x * y == (x / n) * (y / m) * (n * m)
  {
    var p, q := x / n, y / m;
    assert p * n == x && q * m == y;
    assert (p * n) * (q * m) == (p * q) * (n * m);
  }

  lemma CommonFactor(a: real, b: real, c: real, ac: real, bc: real)
    requires c > 0.0 && ac == a * c && bc == b * c && ac <= bc
    ensures a <= b
  {
    PositiveFactor(b - a, c);
  }

  lemma SquareScale(a: real, b: real, n: real)
    requires n > 0.0
    ensures (a * n) * (b * n) == (a * b) * (n * n) && n * n > 0.0
  {
  }

  lemma RatioBounded(c: real, s: real, t: real)
    requires s > 0.0 && t > 0.0 && c * c <= (s * s) * (t * t)
    ensures s * t > 0.0 && -1.0 <= c / (s * t) <= 1.0
  {
    SquareScale(s, s, t);
    PositiveProduct(s, t);
    UnitRatio(c, s * t);
  }

  lemma PositiveProduct(x: real, y: real)
    requires x > 0.0 && y > 0.0
    ensures x * y > 0.0
  {
  }

  lemma UnitRatio(c: real, d: real)
    requires d > 0.0 && c * c <= d * d
    ensures -1.0 <= c / d <= 1.0
  {
    SquareOrder(c, d);
    QuotientBounds(c + d, d, 2.0);
    assert (c + d) / d == c / d + d / d;
  }

  lemma SquareOrder(c: real, d: real)
    requires d > 0.0 && c * c <= d * d
    ensures -d <= c <= d
  {
    assert (d - c) * (d + c) >= 0.0;
    assert c > d ==> (c - d) * (d + c) > 0.0;
    assert c < -d ==> (d - c) * (-d - c) > 0.0;
  }

  /** The upper bound is attained: a series with nonzero variance correlates fully with itself. */
  lemma CorrelationWithSelf(a: seq<real>, window: nat, std: real)
    requires 0 < window <= |a| && IsStd(std, Tail(a, window)) && std != 0.0
    ensures RollingCorrelation(a, a, window, std, std) == Valid(1.0)
  {
    SelfRatio(Covariance(Tail(a, window), Tail(a, window)), std, std);
  }

  lemma SelfRatio(c: real, s: real, t: real)
    requires s > 0.0 && t > 0.0 && c == s * t
    ensures s * t > 0.0 && c / (s * t) == 1.0
  {
    PositiveProduct(s, t);
    EqualRatio(c, s * t);
  }

  lemma EqualRatio(c: real, d: real)
    requires d > 0.0 && c == d
    ensures c / d == 1.0
  {
  }
}
