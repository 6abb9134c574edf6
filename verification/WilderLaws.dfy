/** What the directional movement index measures: the movements themselves, their weights, and its extreme values. */
module WilderLaws {
  import opened Indicators
  import M = MovingAverage

  // ---------- the movements of one bar ----------

  /** Only the larger of the two movements counts, and only when it is positive. */
  lemma MovementMeans(b: Bars, i: nat)
    requires SameLength(b) && 0 < i < |b.highs|
    ensures var up, down := b.highs[i] - b.highs[i - 1], b.lows[i - 1] - b.lows[i];
            && (up > down && up > 0.0 ==> PlusDm(b, i) == up && MinusDm(b, i) == 0.0)
            && (down > up && down > 0.0 ==> MinusDm(b, i) == down && PlusDm(b, i) == 0.0)
            && (up == down || (up <= 0.0 && down <= 0.0) ==> PlusDm(b, i) == 0.0 && MinusDm(b, i) == 0.0)
  {
  }

  /** The true range is the largest of the bar's range and its distances from the previous close. */
  lemma TrueRangeMeans(b: Bars, i: nat)
    requires SameLength(b) && 0 < i < |b.highs|
    ensures var tr, range, c := TrueRange(b, i), b.highs[i] - b.lows[i], b.closes[i - 1];
            && tr >= range && tr >= b.highs[i] - c && tr >= c - b.highs[i] && tr >= b.lows[i] - c && tr >= c - b.lows[i]
            && (tr == range || tr == b.highs[i] - c || tr == c - b.highs[i] || tr == b.lows[i] - c || tr == c - b.lows[i])
  {
  }

  // ---------- the closed form of the Wilder sums ----------

  datatype Part = Range | Plus | Minus

  function PartOf(s: Sums, part: Part): real {
    match part
    case Range => s.tr
    case Plus => s.plus
    case Minus => s.minus
  }

  function Movement(b: Bars, part: Part, i: nat): real
    requires SameLength(b) && 0 < i < |b.highs|
  {
    match part
    case Range => TrueRange(b, i)
    case Plus => PlusDm(b, i)
    case Minus => MinusDm(b, i)
  }

  /** The weight of bar `m` after bar `i`: one in the first `period` bars, then a factor 1 - 1/period for every later bar. */
  function WilderWeight(period: nat, m: nat, i: nat): real
    requires 0 < period && m <= i
  {
    M.Pow(1.0 - 1.0 / period as real, if i <= period then 0 else if m <= period then i - period else i - m)
  }

  function WilderSum(b: Bars, part: Part, period: nat, i: nat, n: nat): real
    requires SameLength(b) && 0 < period && n <= i < |b.highs|
  {
    if n == 0 then 0.0 else WilderSum(b, part, period, i, n - 1) + WilderWeight(period, n, i) * Movement(b, part, n)
  }

  lemma WeightStep(period: nat, m: nat, i: nat)
    requires 0 < period && m < i
    ensures i <= period ==> WilderWeight(period, m, i) == WilderWeight(period, m, i - 1)
    ensures i > period ==> M.Scaled(1.0 - 1.0 / period as real, WilderWeight(period, m, i - 1), WilderWeight(period, m, i))
    ensures WilderWeight(period, i, i) == 1.0
  {
    if i > period {
      M.PowScaled(1.0 - 1.0 / period as real, if m <= period then i - period else i - m);
    }
  }

  lemma WilderStep(b: Bars, part: Part, period: nat, i: nat, n: nat)
    requires SameLength(b) && 0 < period && 0 < n <= i < |b.highs|
    ensures M.Extends(WilderSum(b, part, period, i, n - 1), WilderWeight(period, n, i), Movement(b, part, n), WilderSum(b, part, period, i, n))
  {
  }

  lemma {:induction false} WilderSumStep(b: Bars, part: Part, period: nat, i: nat, n: nat)
    requires SameLength(b) && 0 < period && n < i < |b.highs|
    ensures i <= period ==> WilderSum(b, part, period, i, n) == WilderSum(b, part, period, i - 1, n)
    ensures i > period ==> M.Scaled(1.0 - 1.0 / period as real, WilderSum(b, part, period, i - 1, n), WilderSum(b, part, period, i, n))
  {
    if n > 0 {
      WilderSumStep(b, part, period, i, n - 1);
      WeightStep(period, n, i);
      WilderStep(b, part, period, i, n);
      WilderStep(b, part, period, i - 1, n);
      hide WilderWeight, Movement, M.Scaled, M.Extends, WilderSum;
      if i > period {
        M.DecayStep(1.0 - 1.0 / period as real,
                    WilderSum(b, part, period, i - 1, n - 1), WilderSum(b, part, period, i, n - 1),
                    WilderWeight(period, n, i - 1), WilderWeight(period, n, i), Movement(b, part, n),
                    WilderSum(b, part, period, i - 1, n), WilderSum(b, part, period, i, n));
      } else {
        SameExtension(WilderSum(b, part, period, i, n - 1), WilderWeight(period, n, i), Movement(b, part, n),
                      WilderSum(b, part, period, i - 1, n), WilderSum(b, part, period, i, n));
      }
    }
  }

  lemma SameExtension(s: real, w: real, v: real, x: real, y: real)
    requires M.Extends(s, w, v, x) && M.Extends(s, w, v, y)
    ensures x == y
  {
  }

  lemma DecayScales(s: Sums, part: Part, period: nat)
    requires period > 0
    ensures M.Scaled(1.0 - 1.0 / period as real, PartOf(s, part), PartOf(Decay(s, period), part))
  {
    KeptFraction(s.tr, period as real);
    KeptFraction(s.plus, period as real);
    KeptFraction(s.minus, period as real);
  }

  lemma KeptFraction(x: real, p: real)
    requires p > 0.0
    ensures M.Scaled(1.0 - 1.0 / p, x, x - x / p)
  {
    assert (1.0 / p * x) * p == x;
    assert x / p == 1.0 / p * x;
  }

  lemma SameScale(keep: real, older: real, x: real, y: real)
    requires M.Scaled(keep, older, x) && M.Scaled(keep, older, y)
    ensures x == y
  {
  }

  /** The sums are weighted sums of the movements. */
  lemma {:induction false} WilderClosedForm(b: Bars, part: Part, period: nat, i: nat)
    requires SameLength(b) && 0 < period && i < |b.highs|
    ensures PartOf(SumsAfter(b, period, i), part) == WilderSum(b, part, period, i, i)
  {
    if i > 0 {
      WilderClosedForm(b, part, period, i - 1);
      WilderSumStep(b, part, period, i, i - 1);
      WeightStep(period, i - 1, i);
      WilderStep(b, part, period, i, i);
      DecayScales(SumsAfter(b, period, i - 1), part, period);
      AddPart(if i <= period then SumsAfter(b, period, i - 1) else Decay(SumsAfter(b, period, i - 1), period), b, part, i);
      assert SumsAfter(b, period, i)
          == Add(if i <= period then SumsAfter(b, period, i - 1) else Decay(SumsAfter(b, period, i - 1), period), b, i);
      hide WilderWeight, Movement, M.Scaled, WilderSum, SumsAfter, Add, Decay, PartOf;
      if i > period {
        SameScale(1.0 - 1.0 / period as real, WilderSum(b, part, period, i - 1, i - 1),
                  WilderSum(b, part, period, i, i - 1), PartOf(Decay(SumsAfter(b, period, i - 1), period), part));
      }
    }
  }

  lemma AddPart(s: Sums, b: Bars, part: Part, i: nat)
    requires SameLength(b) && 0 < i < |b.highs|
    ensures PartOf(Add(s, b, i), part) == PartOf(s, part) + Movement(b, part, i)
  {
  }

  // ---------- the extreme values of the index ----------

  /** Every bar moves up: a higher high and no lower low. */
  ghost predicate Rising(b: Bars)
    requires SameLength(b)
  {
    forall i :: 0 < i < |b.highs| ==> b.highs[i - 1] < b.highs[i] && b.lows[i - 1] <= b.lows[i]
  }

  /** Every bar moves down: a lower low and no higher high. */
  ghost predicate Falling(b: Bars)
    requires SameLength(b)
  {
    forall i :: 0 < i < |b.highs| ==> b.lows[i] < b.lows[i - 1] && b.highs[i] <= b.highs[i - 1]
  }

  lemma {:induction false} OneSidedSums(b: Bars, period: nat, i: nat)
    requires SameLength(b) && Ordered(b) && period > 0 && 0 < i < |b.highs|
    ensures Rising(b) ==> SumsAfter(b, period, i).minus == 0.0 && SumsAfter(b, period, i).plus > 0.0
    ensures Falling(b) ==> SumsAfter(b, period, i).plus == 0.0 && SumsAfter(b, period, i).minus > 0.0
  {
    MovementMeans(b, i);
    if i > 1 {
      OneSidedSums(b, period, i - 1);
      var s := SumsAfter(b, period, i - 1);
      SumsBalanced(b, period, i - 1);
      KeptShare(s.plus, period as real);
      KeptShare(s.minus, period as real);
      ZeroOver(period as real);
      hide TrueRange, PlusDm, MinusDm;
      assert SumsAfter(b, period, i) == Add(if i <= period then s else Decay(s, period), b, i);
    }
  }

  lemma ZeroOver(p: real)
    requires p > 0.0
    ensures 0.0 / p == 0.0
  {
  }

  /** One-sided movement gives 100. */
  lemma OneSidedIsFull(b: Bars, period: nat, i: nat)
    requires SameLength(b) && Ordered(b) && period > 0 && 0 < i < |b.highs| && (Rising(b) || Falling(b))
    ensures AdxOf(SumsAfter(b, period, i)) == 100.0
  {
    OneSidedSums(b, period, i);
    SumsBalanced(b, period, i);
    hide SumsAfter, Rising, Falling;
    FullIndex(SumsAfter(b, period, i));
  }

  lemma FullIndex(s: Sums)
    requires s.tr > 0.0 && ((s.plus > 0.0 && s.minus == 0.0) || (s.minus > 0.0 && s.plus == 0.0))
    ensures AdxOf(s) == 100.0
  {
    ZeroOver(s.tr);
    PositiveQuotient(100.0 * s.plus, s.tr);
    PositiveQuotient(100.0 * s.minus, s.tr);
    var p, m := PlusDi(s), MinusDi(s);
    hide PlusDi, MinusDi;
    WholeShare(p + m);
  }

  lemma PositiveQuotient(x: real, y: real)
    requires y > 0.0
    ensures x > 0.0 ==> x / y > 0.0
  {
    assert x / y * y == x;
    assert x / y <= 0.0 ==> x / y * y <= 0.0;
  }

  lemma WholeShare(x: real)
    requires x > 0.0
    ensures 100.0 * x / x == 100.0
  {
  }

  /** Balanced movement gives 0. */
  lemma BalancedIsZero(s: Sums)
    requires s.plus == s.minus
    ensures AdxOf(s) == 0.0
  {
    if s.tr != 0.0 {
      var p, m := PlusDi(s), MinusDi(s);
      assert p == m;
      if p + m > 0.0 {
        ZeroOver(p + m);
      }
    }
  }

  /** The two indicators are the shares of the true range, in per cent. */
  lemma SharesMean(s: Sums)
    requires s.tr != 0.0
    ensures PlusDi(s) * s.tr == 100.0 * s.plus && MinusDi(s) * s.tr == 100.0 * s.minus
  {
  }
}
