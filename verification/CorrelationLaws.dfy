/** What the rolling correlation measures: deviations from the mean, over the last window only. */
module CorrelationLaws {
  import opened Indicators

  // ---------- shifting a series ----------

  function Shifted(xs: seq<real>, k: real): (ys: seq<real>)
    ensures |ys| == |xs|
  {
    seq(|xs|, i requires 0 <= i < |xs| => xs[i] + k)
  }

  lemma {:induction false} SumShifted(xs: seq<real>, k: real)
    ensures Sum(Shifted(xs, k)) == Sum(xs) + |xs| as real * k
  {
    if xs != [] {
      var front := xs[..|xs| - 1];
      SumShifted(front, k);
      assert Shifted(xs, k)[..|xs| - 1] == Shifted(front, k);
      OneMore(|front| as real, k);
    }
  }

  lemma OneMore(n: real, k: real)
    ensures (n + 1.0) * k == n * k + k
  {
  }

  lemma MeanShifted(xs: seq<real>, k: real)
    requires xs != []
    ensures Mean(Shifted(xs, k)) == Mean(xs) + k
  {
    hide Sum;
    SumShifted(xs, k);
    SplitQuotient(Sum(xs), |xs| as real, k);
  }

  lemma SplitQuotient(s: real, n: real, k: real)
    requires n > 0.0
    ensures (s + n * k) / n == s / n + k
  {
    assert (s / n + k) * n == s + n * k;
  }

  lemma CenteredShifted(xs: seq<real>, k: real)
    requires xs != []
    ensures Centered(Shifted(xs, k)) == Centered(xs)
  {
    hide Mean;
    MeanShifted(xs, k);
    assert forall i :: 0 <= i < |xs| ==> Centered(Shifted(xs, k))[i] == Centered(xs)[i];
  }

  /** Adding a constant to a series changes no covariance. */
  lemma CovarianceShifted(xs: seq<real>, ys: seq<real>, k: real)
    requires xs != [] && |xs| == |ys|
    ensures Covariance(Shifted(xs, k), ys) == Covariance(xs, ys) && Covariance(ys, Shifted(xs, k)) == Covariance(ys, xs)
    ensures Covariance(Shifted(xs, k), Shifted(xs, k)) == Covariance(xs, xs)
  {
    CenteredShifted(xs, k);
  }

  /** Hence it changes no correlation. */
  lemma CorrelationShifted(a: seq<real>, b: seq<real>, window: nat, k: real, stdA: real, stdB: real)
    requires 0 < window <= |a| && window <= |b| && IsStd(stdA, Tail(a, window)) && IsStd(stdB, Tail(b, window))
    ensures IsStd(stdA, Tail(Shifted(a, k), window))
    ensures RollingCorrelation(Shifted(a, k), b, window, stdA, stdB) == RollingCorrelation(a, b, window, stdA, stdB)
  {
    assert Tail(Shifted(a, k), window) == Shifted(Tail(a, window), k);
    CovarianceShifted(Tail(a, window), Tail(b, window), k);
  }

  // ---------- constant windows ----------

  ghost predicate Constant(xs: seq<real>) {
    forall i, j :: 0 <= i < |xs| && 0 <= j < |xs| ==> xs[i] == xs[j]
  }

  lemma {:induction false} SumConstant(xs: seq<real>, v: real)
    requires forall i :: 0 <= i < |xs| ==> xs[i] == v
    ensures Sum(xs) == |xs| as real * v
  {
    if xs != [] {
      SumConstant(xs[..|xs| - 1], v);
      OneMore((|xs| - 1) as real, v);
    }
  }

  lemma {:induction false} DotOfZeros(xs: seq<real>, ys: seq<real>)
    requires |xs| == |ys| && forall i :: 0 <= i < |xs| ==> xs[i] == 0.0
    ensures Dot(xs, ys) == 0.0
  {
    if xs != [] {
      DotOfZeros(xs[..|xs| - 1], ys[..|ys| - 1]);
      ZeroTimes(xs[|xs| - 1], ys[|ys| - 1]);
    }
  }

  lemma ZeroTimes(x: real, y: real)
    requires x == 0.0
    ensures x * y == 0.0
  {
  }

  lemma {:induction false} ZeroDotIsZero(xs: seq<real>, i: nat)
    requires i < |xs| && Dot(xs, xs) == 0.0
    ensures xs[i] == 0.0
  {
    var front := xs[..|xs| - 1];
    DotNonNegative(front);
    DotStep(xs, xs);
    BothZero(Dot(front, front), xs[|xs| - 1], xs[|xs| - 1], Dot(xs, xs));
    if i < |xs| - 1 {
      ZeroDotIsZero(xs[..|xs| - 1], i);
    }
  }

  lemma BothZero(front: real, x: real, y: real, total: real)
    requires front >= 0.0 && x == y && total == front + x * y && total == 0.0
    ensures front == 0.0 && x == 0.0
  {
    SquareSign(x, y);
  }

  lemma SquareSign(x: real, y: real)
    requires x == y
    ensures x != 0.0 ==> x * y > 0.0
    ensures x == 0.0 ==> x * y == 0.0
  {
  }

  lemma MeanOfConstant(xs: seq<real>, v: real)
    requires xs != [] && forall i :: 0 <= i < |xs| ==> xs[i] == v
    ensures Mean(xs) == v
  {
    SumConstant(xs, v);
    FullQuotient(|xs| as real, v);
  }

  lemma FullQuotient(n: real, v: real)
    requires n > 0.0
    ensures n * v / n == v
  {
  }

  /** The variance vanishes exactly for constant series. */
  lemma ZeroVarianceExactly(xs: seq<real>)
    requires xs != []
    ensures Covariance(xs, xs) == 0.0 <==> Constant(xs)
  {
    var c := Centered(xs);
    if Constant(xs) {
      MeanOfConstant(xs, xs[0]);
      DotOfZeros(c, c);
    } else if Covariance(xs, xs) == 0.0 {
      ZeroQuotient(Dot(c, c), |xs| as real);
      forall i | 0 <= i < |xs|
        ensures xs[i] == Mean(xs)
      {
        ZeroDotIsZero(c, i);
        assert c[i] == xs[i] - Mean(xs);
      }
    }
  }

  lemma ZeroQuotient(x: real, n: real)
    requires n > 0.0 && x / n == 0.0
    ensures x == 0.0
  {
    assert x / n * n == x;
  }

  lemma StdZeroExactly(std: real, xs: seq<real>)
    requires xs != [] && IsStd(std, xs)
    ensures std == 0.0 <==> Constant(xs)
  {
    ZeroVarianceExactly(xs);
    hide Covariance, Constant;
    RootZero(std, std, Covariance(xs, xs));
  }

  lemma RootZero(x: real, y: real, square: real)
    requires x == y && square == x * y
    ensures square == 0.0 <==> x == 0.0
  {
    SquareSign(x, y);
  }

  /** The three outcomes, by the data alone. */
  lemma OutcomeExactly(a: seq<real>, b: seq<real>, window: nat, stdA: real, stdB: real)
    requires window > 0
    requires |a| >= window && |b| >= window ==> IsStd(stdA, Tail(a, window)) && IsStd(stdB, Tail(b, window))
    ensures var r := RollingCorrelation(a, b, window, stdA, stdB);
            && (r == InsufficientData <==> |a| < window || |b| < window)
            && (|a| >= window && |b| >= window ==> (r == ZeroVariance <==> Constant(Tail(a, window)) || Constant(Tail(b, window))))
  {
    if |a| >= window && |b| >= window {
      StdZeroExactly(stdA, Tail(a, window));
      StdZeroExactly(stdB, Tail(b, window));
      hide Covariance, Constant, IsStd;
    }
  }

  // ---------- opposite series ----------

  function Negated(xs: seq<real>): (ys: seq<real>)
    ensures |ys| == |xs|
  {
    seq(|xs|, i requires 0 <= i < |xs| => -xs[i])
  }

  lemma {:induction false} SumNegated(xs: seq<real>)
    ensures Sum(Negated(xs)) == -Sum(xs)
  {
    if xs != [] {
      SumNegated(xs[..|xs| - 1]);
      assert Negated(xs)[..|xs| - 1] == Negated(xs[..|xs| - 1]);
    }
  }

  lemma {:induction false} DotNegated(xs: seq<real>, ys: seq<real>)
    requires |xs| == |ys|
    ensures Dot(xs, Negated(ys)) == -Dot(xs, ys)
    ensures Dot(Negated(xs), Negated(ys)) == Dot(xs, ys)
  {
    if xs != [] {
      DotNegated(xs[..|xs| - 1], ys[..|ys| - 1]);
      assert Negated(ys)[..|ys| - 1] == Negated(ys[..|ys| - 1]) && Negated(xs)[..|xs| - 1] == Negated(xs[..|xs| - 1]);
      SignsOut(xs[|xs| - 1], ys[|ys| - 1]);
    }
  }

  lemma SignsOut(x: real, y: real)
    ensures x * -y == -(x * y) && -x * -y == x * y
  {
  }

  lemma CenteredNegated(xs: seq<real>)
    requires xs != []
    ensures Centered(Negated(xs)) == Negated(Centered(xs))
  {
    SumNegated(xs);
    NegatedQuotient(Sum(xs), |xs| as real);
    hide Sum;
    assert Mean(Negated(xs)) == -Mean(xs);
    hide Mean;
    assert forall i :: 0 <= i < |xs| ==> Centered(Negated(xs))[i] == Negated(Centered(xs))[i];
  }

  lemma NegatedQuotient(s: real, n: real)
    requires n > 0.0
    ensures -s / n == -(s / n)
  {
    assert -(s / n) * n == -s;
  }

  /** The lower bound is attained: a series with nonzero variance correlates with its negation at -1. */
  lemma CorrelationWithNegation(a: seq<real>, window: nat, std: real)
    requires 0 < window <= |a| && IsStd(std, Tail(a, window)) && std != 0.0
    ensures IsStd(std, Tail(Negated(a), window))
    ensures RollingCorrelation(a, Negated(a), window, std, std) == Valid(-1.0)
  {
    var xs := Tail(a, window);
    assert Tail(Negated(a), window) == Negated(xs);
    CenteredNegated(xs);
    DotNegated(Centered(xs), Centered(xs));
    NegatedQuotient(Dot(Centered(xs), Centered(xs)), |xs| as real);
    hide Dot, Centered;
    MinusOne(Covariance(xs, xs), std, std);
  }

  lemma MinusOne(c: real, s: real, t: real)
    requires s > 0.0 && t > 0.0 && c == s * t
    ensures s * t != 0.0 && -c / (s * t) == -1.0
  {
    SelfRatio(c, s, t);
    NegatedQuotient(c, s * t);
  }

  // ---------- windows ----------

  /** Entries before the window do not matter. */
  lemma OnlyWindowMatters(p: seq<real>, a: seq<real>, q: seq<real>, b: seq<real>, stdA: real, stdB: real)
    requires |a| == |b| > 0 && IsStd(stdA, a) && IsStd(stdB, b)
    ensures Tail(p + a, |a|) == a && Tail(q + b, |a|) == b && Tail(a, |a|) == a && Tail(b, |b|) == b
    ensures RollingCorrelation(p + a, q + b, |a|, stdA, stdB) == RollingCorrelation(a, b, |a|, stdA, stdB)
  {
  }

  lemma {:induction false} DotSymmetric(xs: seq<real>, ys: seq<real>)
    requires |xs| == |ys|
    ensures Dot(xs, ys) == Dot(ys, xs)
  {
    if xs != [] {
      DotSymmetric(xs[..|xs| - 1], ys[..|ys| - 1]);
    }
  }

  /** The order of the two series does not matter. */
  lemma CorrelationSymmetric(a: seq<real>, b: seq<real>, window: nat, stdA: real, stdB: real)
    requires 0 < window <= |a| && window <= |b| && IsStd(stdA, Tail(a, window)) && IsStd(stdB, Tail(b, window))
    ensures RollingCorrelation(a, b, window, stdA, stdB) == RollingCorrelation(b, a, window, stdB, stdA)
  {
    DotSymmetric(Centered(Tail(a, window)), Centered(Tail(b, window)));
    hide Dot, Centered;
    assert stdA * stdB == stdB * stdA;
  }
}
