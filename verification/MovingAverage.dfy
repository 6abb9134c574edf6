/** Exponential moving averages and MACD over real numbers. */
module MovingAverage {
  import opened Common

  function Sum(xs: seq<real>): real {
    if xs == [] then 0.0 else Sum(xs[..|xs| - 1]) + xs[|xs| - 1]
  }

  function Smoothing(period: nat): (k: real)
    requires period > 0
    ensures 0.0 < k <= 1.0
  {
    2.0 / (period as real + 1.0)
  }

  /** The average whose last input is `values[i]`. */
  function EmaAt(values: seq<real>, period: nat, i: nat): real
    requires period > 0 && period - 1 <= i < |values|
    decreases i
  {
    if i == period - 1 then Sum(values[..period]) / period as real
    else values[i] * Smoothing(period) + EmaAt(values, period, i - 1) * (1.0 - Smoothing(period))
  }

  function EmaLength(n: nat, period: nat): nat {
    if n < period then 0 else n - period + 1
  }

  /** `ema`: entry `j` is the average that ends at input `period - 1 + j`. */
  method Ema(values: seq<real>, period: nat) returns (result: seq<real>)
    requires period > 0
    ensures |result| == EmaLength(|values|, period)
    ensures forall j :: 0 <= j < |result| ==> result[j] == EmaAt(values, period, period - 1 + j)
  {
    if |values| < period {
      return [];
    }
    var k := Smoothing(period);
    var total := 0.0;
    for i := 0 to period
      invariant total == Sum(values[..i])
    {
      assert values[..i + 1][..i] == values[..i];
      total := total + values[i];
    }
    result := [total / period as real];
    for i := period to |values|
      invariant |result| == i - period + 1
      invariant forall j :: 0 <= j < |result| ==> result[j] == EmaAt(values, period, period - 1 + j)
    {
      result := result + [values[i] * k + result[|result| - 1] * (1.0 - k)];
    }
  }

  // ---------- the closed form ----------

  function Pow(base: real, n: nat): real {
    if n == 0 then 1.0 else base * Pow(base, n - 1)
  }

  /** The weight of input `m` in the average that ends at `i`. */
  function WeightOf(period: nat, m: nat, i: nat): real
    requires period > 0 && period - 1 <= i && m <= i
  {
    var keep := 1.0 - Smoothing(period);
    if m < period then Pow(keep, i - (period - 1)) / period as real
    else Smoothing(period) * Pow(keep, i - m)
  }

  function WeightedSum(values: seq<real>, period: nat, i: nat, n: nat): real
    requires period > 0 && period - 1 <= i < |values| && n <= i + 1
  {
    if n == 0 then 0.0 else WeightedSum(values, period, i, n - 1) + WeightOf(period, n - 1, i) * values[n - 1]
  }

  function TotalWeight(period: nat, i: nat, n: nat): real
    requires period > 0 && period - 1 <= i && n <= i + 1
  {
    if n == 0 then 0.0 else TotalWeight(period, i, n - 1) + WeightOf(period, n - 1, i)
  }

  lemma {:induction false} PowNonNegative(base: real, n: nat)
    requires base >= 0.0
    ensures Pow(base, n) >= 0.0
  {
    if n > 0 {
      PowNonNegative(base, n - 1);
    }
  }

  lemma WeightNonNegative(period: nat, m: nat, i: nat)
    requires period > 0 && period - 1 <= i && m <= i
    ensures WeightOf(period, m, i) >= 0.0
  {
    var keep := 1.0 - Smoothing(period);
    if m < period {
      PowNonNegative(keep, i - (period - 1));
    } else {
      PowNonNegative(keep, i - m);
    }
  }

  ghost predicate Scaled(keep: real, older: real, newer: real) {
    newer == keep * older
  }

  /** One more term `w * v` on a sum. */
  ghost predicate Extends(s: real, w: real, v: real, longer: real) {
    longer == s + w * v
  }

  /** Moving the end by one input scales every older weight by the same factor. */
  lemma WeightDecays(period: nat, m: nat, i: nat)
    requires period > 0 && period - 1 < i && m < i
    ensures Scaled(1.0 - Smoothing(period), WeightOf(period, m, i - 1), WeightOf(period, m, i))
  {
    hide Smoothing, Scaled, Pow;
    var k := Smoothing(period);
    if m < period {
      PowScaled(1.0 - k, i - (period - 1));
      ScaledQuotient(1.0 - k, Pow(1.0 - k, i - 1 - (period - 1)), Pow(1.0 - k, i - (period - 1)), period as real);
    } else {
      PowScaled(1.0 - k, i - m);
      var older, newer := Pow(1.0 - k, i - 1 - m), Pow(1.0 - k, i - m);
      ScaledProduct(1.0 - k, older, newer, k);
      assert WeightOf(period, m, i) == k * newer && WeightOf(period, m, i - 1) == k * older;
    }
  }

  lemma PowScaled(base: real, n: nat)
    requires n > 0
    ensures Scaled(base, Pow(base, n - 1), Pow(base, n))
  {
  }

  lemma ScaledProduct(keep: real, a: real, b: real, c: real)
    requires Scaled(keep, a, b)
    ensures Scaled(keep, c * a, c * b)
  {
    assert c * (keep * a) == keep * (c * a);
  }

  lemma ScaledQuotient(keep: real, a: real, b: real, c: real)
    requires Scaled(keep, a, b) && c > 0.0
    ensures Scaled(keep, a / c, b / c)
  {
    assert (keep * (a / c)) * c == keep * a == b;
  }

  lemma {:induction false} WeightedSumDecays(values: seq<real>, period: nat, i: nat, n: nat)
    requires period > 0 && period - 1 < i < |values| && n <= i
    ensures Scaled(1.0 - Smoothing(period), WeightedSum(values, period, i - 1, n), WeightedSum(values, period, i, n))
    ensures Scaled(1.0 - Smoothing(period), TotalWeight(period, i - 1, n), TotalWeight(period, i, n))
  {
    if n > 0 {
      SumStep(values, period, i, n);
      SumStep(values, period, i - 1, n);
      hide Smoothing, WeightOf, WeightedSum, TotalWeight, Scaled, Extends;
      WeightedSumDecays(values, period, i, n - 1);
      WeightDecays(period, n - 1, i);
      var keep, w0, w1 := 1.0 - Smoothing(period), WeightOf(period, n - 1, i - 1), WeightOf(period, n - 1, i);
      DecayStep(keep, WeightedSum(values, period, i - 1, n - 1), WeightedSum(values, period, i, n - 1), w0, w1, values[n - 1],
                WeightedSum(values, period, i - 1, n), WeightedSum(values, period, i, n));
      DecayStep(keep, TotalWeight(period, i - 1, n - 1), TotalWeight(period, i, n - 1), w0, w1, 1.0,
                TotalWeight(period, i - 1, n), TotalWeight(period, i, n));
    }
  }

  lemma SumStep(values: seq<real>, period: nat, i: nat, n: nat)
    requires period > 0 && period - 1 <= i < |values| && 0 < n <= i + 1
    ensures Extends(WeightedSum(values, period, i, n - 1), WeightOf(period, n - 1, i), values[n - 1], WeightedSum(values, period, i, n))
    ensures Extends(TotalWeight(period, i, n - 1), WeightOf(period, n - 1, i), 1.0, TotalWeight(period, i, n))
  {
  }

  lemma DecayStep(keep: real, s0: real, s1: real, w0: real, w1: real, v: real, t0: real, t1: real)
    requires Scaled(keep, s0, s1) && Scaled(keep, w0, w1) && Extends(s0, w0, v, t0) && Extends(s1, w1, v, t1)
    ensures Scaled(keep, t0, t1)
  {
    assert w1 * v == keep * (w0 * v);
  }

  lemma {:induction false} SeedWeights(values: seq<real>, period: nat, n: nat)
    requires 0 < period <= |values| && n <= period
    ensures WeightedSum(values, period, period - 1, n) == Sum(values[..n]) / period as real
    ensures TotalWeight(period, period - 1, n) == n as real / period as real
  {
    if n > 0 {
      SeedWeights(values, period, n - 1);
      assert values[..n][..n - 1] == values[..n - 1];
      assert WeightOf(period, n - 1, period - 1) == 1.0 / period as real;
      QuotientSum(Sum(values[..n - 1]), values[n - 1], period as real);
      QuotientSum((n - 1) as real, 1.0, period as real);
    }
  }

  lemma QuotientSum(a: real, b: real, c: real)
    requires c > 0.0
    ensures a / c + 1.0 / c * b == (a + b) / c
  {
    assert (1.0 / c * b) * c == b;
    assert (a / c + 1.0 / c * b) * c == a + b;
  }

  /** The newest input after the first average has weight 2 / (period + 1). */
  lemma NewestWeight(period: nat, i: nat)
    requires 0 < period <= i
    ensures WeightOf(period, i, i) == Smoothing(period) == 2.0 / (period as real + 1.0)
  {
  }

  /** The first average is the mean of the first inputs. */
  lemma FirstIsMean(values: seq<real>, period: nat)
    requires 0 < period <= |values|
    ensures EmaAt(values, period, period - 1) * period as real == Sum(values[..period])
  {
  }

  /** The average is the weighted sum of the inputs, and the weights add to one. */
  lemma {:induction false} EmaClosedForm(values: seq<real>, period: nat, i: nat)
    requires period > 0 && period - 1 <= i < |values|
    ensures EmaAt(values, period, i) == WeightedSum(values, period, i, i + 1)
    ensures TotalWeight(period, i, i + 1) == 1.0
    decreases i
  {
    if i == period - 1 {
      SeedWeights(values, period, period);
    } else {
      NewestWeight(period, i);
      SumStep(values, period, i, i + 1);
      EmaStep(values, period, i);
      hide Smoothing, WeightOf, WeightedSum, TotalWeight, Scaled, Extends, EmaAt, Blend;
      EmaClosedForm(values, period, i - 1);
      WeightedSumDecays(values, period, i, i);
      var k := Smoothing(period);
      BlendStep(k, WeightedSum(values, period, i - 1, i), WeightedSum(values, period, i, i), values[i], WeightedSum(values, period, i, i + 1));
      BlendStep(k, TotalWeight(period, i - 1, i), TotalWeight(period, i, i), 1.0, TotalWeight(period, i, i + 1));
      BlendOne(k);
    }
  }

  function Blend(k: real, older: real, v: real): real {
    v * k + older * (1.0 - k)
  }

  lemma BlendStep(k: real, older: real, scaled: real, v: real, longer: real)
    requires Scaled(1.0 - k, older, scaled) && Extends(scaled, k, v, longer)
    ensures longer == Blend(k, older, v)
  {
  }

  lemma BlendOne(k: real)
    ensures Blend(k, 1.0, 1.0) == 1.0
  {
  }

  lemma EmaStep(values: seq<real>, period: nat, i: nat)
    requires 0 < period <= i < |values|
    ensures EmaAt(values, period, i) == Blend(Smoothing(period), EmaAt(values, period, i - 1), values[i])
  {
  }

  ghost predicate Within(lo: real, hi: real, total: real, s: real) {
    lo * total <= s <= hi * total
  }

  lemma {:induction false} WeightedSumBounds(values: seq<real>, period: nat, i: nat, n: nat, lo: real, hi: real)
    requires period > 0 && period - 1 <= i < |values| && n <= i + 1
    requires forall m :: 0 <= m <= i ==> lo <= values[m] <= hi
    ensures Within(lo, hi, TotalWeight(period, i, n), WeightedSum(values, period, i, n))
  {
    if n > 0 {
      SumStep(values, period, i, n);
      hide WeightOf, WeightedSum, TotalWeight, Extends, Within;
      WeightedSumBounds(values, period, i, n - 1, lo, hi);
      WeightNonNegative(period, n - 1, i);
      BoundStep(lo, hi, TotalWeight(period, i, n - 1), WeightedSum(values, period, i, n - 1), WeightOf(period, n - 1, i), values[n - 1],
                TotalWeight(period, i, n), WeightedSum(values, period, i, n));
    }
  }

  lemma BoundStep(lo: real, hi: real, total: real, s: real, w: real, v: real, total1: real, s1: real)
    requires Within(lo, hi, total, s) && w >= 0.0 && lo <= v <= hi
    requires Extends(total, w, 1.0, total1) && Extends(s, w, v, s1)
    ensures Within(lo, hi, total1, s1)
  {
    ScaleOrder(w, lo, v);
    ScaleOrder(w, v, hi);
    assert lo * total1 == lo * total + w * lo && hi * total1 == hi * total + w * hi;
  }

  lemma ScaleOrder(w: real, a: real, b: real)
    requires w >= 0.0 && a <= b
    ensures w * a <= w * b
  {
    assert w * (b - a) >= 0.0;
  }

  /** Hence every average lies between the smallest and the largest input seen so far. */
  lemma EmaWithinRange(values: seq<real>, period: nat, i: nat, lo: real, hi: real)
    requires period > 0 && period - 1 <= i < |values|
    requires forall m :: 0 <= m <= i ==> lo <= values[m] <= hi
    ensures lo <= EmaAt(values, period, i) <= hi
  {
    EmaClosedForm(values, period, i);
    WeightedSumBounds(values, period, i, i + 1, lo, hi);
  }

  // ---------- MACD ----------

  datatype Macd = Insufficient | Valid(line: real, signal: real, histogram: real)

  function Longer(fast: nat, slow: nat): nat {
    if fast < slow then slow else fast
  }

  /** The fast and the slow average that end at the same close. */
  function MacdAt(closes: seq<real>, fast: nat, slow: nat, i: nat): real
    requires fast > 0 && slow > 0 && Longer(fast, slow) - 1 <= i < |closes|
  {
    EmaAt(closes, fast, i) - EmaAt(closes, slow, i)
  }

  /** The MACD line over all closes at which both averages exist. */
  function MacdLine(closes: seq<real>, fast: nat, slow: nat): (line: seq<real>)
    requires fast > 0 && slow > 0
    ensures |line| == EmaLength(|closes|, Longer(fast, slow))
  {
    seq(EmaLength(|closes|, Longer(fast, slow)), j requires 0 <= j < EmaLength(|closes|, Longer(fast, slow)) =>
      MacdAt(closes, fast, slow, Longer(fast, slow) - 1 + j))
  }

  /**
   * `compute_macd`.  The two averages are aligned at the same close, and the method gives a value
   * exactly when the line has `signalPeriod` entries: the second test of the source never fires.
   */
  method ComputeMacd(closes: seq<real>, fast: nat, slow: nat, signalPeriod: nat) returns (r: Macd)
    requires fast > 0 && slow > 0 && signalPeriod > 0
    ensures r.Valid? <==> |closes| >= Longer(fast, slow) + signalPeriod - 1
    ensures r.Valid? ==> r.line == MacdAt(closes, fast, slow, |closes| - 1)
    ensures r.Valid? ==> r.signal == EmaAt(MacdLine(closes, fast, slow), signalPeriod, |MacdLine(closes, fast, slow)| - 1)
    ensures r.Valid? ==> r.histogram == r.line - r.signal
  {
    hide EmaAt;
    var emaFast := Ema(closes, fast);
    var emaSlow := Ema(closes, slow);
    var minLen := if |emaFast| < |emaSlow| then |emaFast| else |emaSlow|;
    if minLen < signalPeriod {
      return Insufficient;
    }
    var fastTail, slowTail := emaFast[|emaFast| - minLen..], emaSlow[|emaSlow| - minLen..];
    var macdLine := seq(minLen, j requires 0 <= j < minLen => fastTail[j] - slowTail[j]);
    forall j | 0 <= j < minLen
      ensures macdLine[j] == MacdAt(closes, fast, slow, Longer(fast, slow) - 1 + j)
    {
      assert fastTail[j] == emaFast[|emaFast| - minLen + j] && slowTail[j] == emaSlow[|emaSlow| - minLen + j];
    }
    assert macdLine == MacdLine(closes, fast, slow);
    var signalLine := Ema(macdLine, signalPeriod);
    assert signalLine != [];
    var line, signal := macdLine[|macdLine| - 1], signalLine[|signalLine| - 1];
    return Valid(line, signal, line - signal);
  }

  // ---------- the sign of the line ----------

  ghost predicate Rising(values: seq<real>) {
    forall i, j :: 0 <= i < j < |values| ==> values[i] <= values[j]
  }

  /** `after` moves from `before` towards `v` by the fraction `k`. */
  ghost predicate Moves(before: real, v: real, k: real, after: real) {
    after == v * k + before * (1.0 - k)
  }

  /** The quicker of two averages that both move towards a higher value stays ahead. */
  lemma QuickerLeads(f: real, g: real, v: real, kf: real, kg: real, f': real, g': real)
    requires g <= f <= v && 0.0 <= kg <= kf && kg <= 1.0 && Moves(f, v, kf, f') && Moves(g, v, kg, g')
    ensures g' <= f'
  {
    ProductNonNegative(f - g, 1.0 - kg);
    ProductNonNegative(kf - kg, v - f);
    assert f' - g' == (f - g) * (1.0 - kg) + (kf - kg) * (v - f);
  }

  lemma ProductNonNegative(x: real, y: real)
    requires x >= 0.0 && y >= 0.0
    ensures x * y >= 0.0
  {
  }

  /** The mean of the first `n` values. */
  function MeanOf(values: seq<real>, n: nat): real
    requires 0 < n <= |values|
  {
    Sum(values[..n]) / n as real
  }

  lemma MeanMoves(values: seq<real>, n: nat)
    requires 0 < n < |values|
    ensures Moves(MeanOf(values, n), values[n], 1.0 / (n as real + 1.0), MeanOf(values, n + 1))
  {
    assert values[..n + 1][..n] == values[..n];
    NextMean(Sum(values[..n]), values[n], n as real);
  }

  lemma NextMean(s: real, v: real, n: real)
    requires n > 0.0
    ensures Moves(s / n, v, 1.0 / (n + 1.0), (s + v) / (n + 1.0))
  {
    var q, m := 1.0 / (n + 1.0), s / n;
    assert m * n == s && q * (n + 1.0) == 1.0;
    assert (v * q + m * (1.0 - q)) * (n + 1.0) == v * (q * (n + 1.0)) + m * ((n + 1.0) - q * (n + 1.0));
    assert (v * q + m * (1.0 - q)) * (n + 1.0) == v + m * n;
  }

  lemma EmaMoves(values: seq<real>, period: nat, i: nat)
    requires 0 < period <= i < |values|
    ensures Moves(EmaAt(values, period, i - 1), values[i], Smoothing(period), EmaAt(values, period, i))
  {
  }

  /** A larger period means a smaller step, but never one below 1 / (n + 1) while n is at least the period. */
  lemma SmoothingOrder(fast: nat, slow: nat, n: nat)
    requires 0 < fast <= slow && fast <= n
    ensures Smoothing(slow) <= Smoothing(fast) && 1.0 / (n as real + 1.0) <= Smoothing(fast)
  {
    QuotientOrder(2.0, 2.0, fast as real + 1.0, slow as real + 1.0);
    QuotientOrder(1.0, 2.0, fast as real + 1.0, n as real + 1.0);
  }

  lemma QuotientOrder(a: real, b: real, x: real, y: real)
    requires 0.0 < a <= b && 0.0 < x <= y
    ensures 0.0 < a / y <= b / x
  {
    var p, q := a / y, b / x;
    assert p * y == a && q * x == b;
    assert p <= 0.0 ==> p * y <= 0.0;
    assert p > q ==> p * y > q * x;
  }

  lemma BelowNext(values: seq<real>, period: nat, i: nat)
    requires Rising(values) && 0 < period <= i < |values|
    ensures EmaAt(values, period, i - 1) <= values[i]
  {
    EmaWithinRange(values, period, i - 1, values[0], values[i]);
  }

  /** On rising values an average is at least the mean of everything so far. */
  lemma {:induction false} EmaAboveMean(values: seq<real>, period: nat, n: nat)
    requires Rising(values) && 0 < period <= n <= |values|
    ensures MeanOf(values, n) <= EmaAt(values, period, n - 1)
    decreases n
  {
    if n > period {
      EmaAboveMean(values, period, n - 1);
      MeanMoves(values, n - 1);
      EmaMoves(values, period, n - 1);
      SmoothingOrder(period, period, n - 1);
      BelowNext(values, period, n - 1);
      QuotientOrder(1.0, 1.0, 1.0, (n - 1) as real + 1.0);
      hide Moves, EmaAt, Smoothing, MeanOf, Rising;
      QuickerLeads(EmaAt(values, period, n - 2), MeanOf(values, n - 1), values[n - 1], Smoothing(period), 1.0 / ((n - 1) as real + 1.0),
                   EmaAt(values, period, n - 1), MeanOf(values, n));
    }
  }

  /** On rising closes the fast average is ahead of the slow one: the line is not negative. */
  lemma {:induction false} RisingLine(closes: seq<real>, fast: nat, slow: nat, i: nat)
    requires Rising(closes) && 0 < fast <= slow && slow - 1 <= i < |closes|
    ensures MacdAt(closes, fast, slow, i) >= 0.0
    decreases i
  {
    if i == slow - 1 {
      EmaAboveMean(closes, fast, slow);
    } else {
      RisingLine(closes, fast, slow, i - 1);
      EmaMoves(closes, fast, i);
      EmaMoves(closes, slow, i);
      SmoothingOrder(fast, slow, i);
      BelowNext(closes, fast, i);
      hide Moves, EmaAt, Smoothing, Rising;
      QuickerLeads(EmaAt(closes, fast, i - 1), EmaAt(closes, slow, i - 1), closes[i], Smoothing(fast), Smoothing(slow),
                   EmaAt(closes, fast, i), EmaAt(closes, slow, i));
    }
  }
}
