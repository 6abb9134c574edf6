/** Missing-bar detection on the weekday calendar; times are seconds since the epoch. */
module MissingBars {

  datatype Bar = Bar(barId: string, openTime: int)

  datatype Incident = Incident(barId: string, missing: nat)

  const DAY := 86400

  /** Monday is 0; the epoch day was a Thursday. */
  function Weekday(t: int): int {
    (t / DAY + 3) % 7
  }

  predicate IsTradingSlot(t: int) {
    Weekday(t) < 5
  }

  function Weight(t: int): nat {
    if IsTradingSlot(t) then 1 else 0
  }

  /** Weekday slots from `first` on, one every `gap` seconds, before `limit`. */
  function SlotsBefore(first: int, limit: int, gap: int): nat
    requires gap > 0
    decreases limit - first
  {
    if first >= limit then 0 else Weight(first) + SlotsBefore(first + gap, limit, gap)
  }

  function MissingBetween(previous: int, current: int, gap: int): nat
    requires gap > 0
  {
    if current - previous <= gap then 0 else SlotsBefore(previous + gap, current, gap)
  }

  /** The incidents of the first `n` adjacent pairs. */
  function IncidentsUpTo(bars: seq<Bar>, n: nat, gap: int): seq<Incident>
    requires gap > 0 && n < |bars|
  {
    if n == 0 then []
    else
      var missing := MissingBetween(bars[n - 1].openTime, bars[n].openTime, gap);
      IncidentsUpTo(bars, n - 1, gap) + if missing > 0 then [Incident(bars[n].barId, missing)] else []
  }

  /** `detect_missing_bars`: one incident per gap that misses at least one weekday slot. */
  method DetectMissingBars(bars: seq<Bar>, gap: int) returns (incidents: seq<Incident>)
    requires gap > 0
    ensures incidents == if bars == [] then [] else IncidentsUpTo(bars, |bars| - 1, gap)
  {
    incidents := [];
    if |bars| < 2 {
      return;
    }
    for i := 1 to |bars|
      invariant incidents == IncidentsUpTo(bars, i - 1, gap)
    {
      var previous, current := bars[i - 1].openTime, bars[i].openTime;
      if current - previous <= gap {
        continue;
      }
      var missing: nat, candidate := 0, previous + gap;
      while candidate < current
        invariant missing + SlotsBefore(candidate, current, gap) == SlotsBefore(previous + gap, current, gap)
        decreases current - candidate
      {
        if IsTradingSlot(candidate) {
          missing := missing + 1;
        }
        candidate := candidate + gap;
      }
      if missing > 0 {
        incidents := incidents + [Incident(bars[i].barId, missing)];
      }
    }
  }

  // ---------- conservation ----------

  /** Each bar lies a positive number of slots after the previous one. */
  ghost predicate OnGrid(bars: seq<Bar>, gap: int)
    requires gap > 0
  {
    forall i :: 0 < i < |bars| ==> Steps(bars[i - 1].openTime, bars[i].openTime, gap)
  }

  ghost predicate Steps(a: int, b: int, gap: int)
    requires gap > 0
  {
    a < b && (b - a) % gap == 0
  }

  function Total(incidents: seq<Incident>): nat {
    if incidents == [] then 0 else Total(incidents[..|incidents| - 1]) + incidents[|incidents| - 1].missing
  }

  /** Weekday bars among the bars 1 to `n`. */
  function Present(bars: seq<Bar>, n: nat): nat
    requires n < |bars|
  {
    if n == 0 then 0 else Present(bars, n - 1) + Weight(bars[n].openTime)
  }

  /** Weekday grid slots in (first, last]. */
  function SlotsIn(first: int, last: int, gap: int): nat
    requires gap > 0
  {
    SlotsBefore(first + gap, last + 1, gap)
  }

  lemma GridStep(a: int, b: int, gap: int)
    requires gap > 0 && Steps(a, b, gap)
    ensures a + gap == b || Steps(a + gap, b, gap)
    ensures b - a >= gap
  {
    var k := (b - a) / gap;
    assert b - a == k * gap;
    assert k <= 0 ==> k * gap <= 0;
    assert b - a - gap == (k - 1) * gap;
    MultipleHasNoRemainder(k - 1, gap);
    if k >= 2 {
      assert (k - 1) * gap >= gap;
    }
  }

  lemma MultipleHasNoRemainder(k: int, gap: int)
    requires gap > 0
    ensures k * gap % gap == 0
  {
    var r := k * gap % gap;
    var d := k - k * gap / gap;
    assert d * gap == r;
    assert (d >= 1 ==> d * gap >= gap) && (d <= -1 ==> d * gap <= -gap);
  }

  /** Splitting the slots of (a, c] at a grid point b. */
  lemma {:induction false} SlotsSplit(a: int, b: int, c: int, gap: int)
    requires gap > 0 && Steps(a, b, gap) && b <= c
    ensures SlotsIn(a, c, gap) == SlotsBefore(a + gap, b, gap) + Weight(b) + SlotsIn(b, c, gap)
    decreases b - a
  {
    GridStep(a, b, gap);
    if a + gap != b {
      SlotsSplit(a + gap, b, c, gap);
    }
  }

  lemma {:induction false} BarsIncrease(bars: seq<Bar>, n: nat, gap: int)
    requires gap > 0 && OnGrid(bars, gap) && n < |bars|
    ensures bars[0].openTime <= bars[n].openTime
  {
    if n > 0 {
      BarsIncrease(bars, n - 1, gap);
      assert Steps(bars[n - 1].openTime, bars[n].openTime, gap);
    }
  }

  lemma {:induction false} SlotsAppend(a: int, b: int, c: int, gap: int)
    requires gap > 0 && (a == b || Steps(a, b, gap)) && Steps(b, c, gap)
    ensures a == c || Steps(a, c, gap)
    ensures SlotsIn(a, c, gap) == SlotsIn(a, b, gap) + SlotsBefore(b + gap, c, gap) + Weight(c)
    decreases b - a
  {
    if a == b {
      SlotsSplit(b, c, c, gap);
      assert SlotsIn(c, c, gap) == 0;
    } else {
      GridStep(a, b, gap);
      SlotsAppend(a + gap, b, c, gap);
      StepsAdd(a, b, c, gap);
      GridStep(a, c, gap);
    }
  }

  lemma StepsAdd(a: int, b: int, c: int, gap: int)
    requires gap > 0 && Steps(a, b, gap) && Steps(b, c, gap)
    ensures Steps(a, c, gap)
  {
    var k, m := (b - a) / gap, (c - b) / gap;
    assert c - a == (k + m) * gap;
    MultipleHasNoRemainder(k + m, gap);
  }

  lemma MissingIsSlots(b: int, c: int, gap: int)
    requires gap > 0 && Steps(b, c, gap)
    ensures MissingBetween(b, c, gap) == SlotsBefore(b + gap, c, gap)
  {
    GridStep(b, c, gap);
  }

  /** The conservation law for the first `n` pairs. */
  lemma {:induction false} ConservedUpTo(bars: seq<Bar>, n: nat, gap: int)
    requires gap > 0 && OnGrid(bars, gap) && n < |bars|
    ensures bars[0].openTime == bars[n].openTime || Steps(bars[0].openTime, bars[n].openTime, gap)
    ensures Total(IncidentsUpTo(bars, n, gap)) + Present(bars, n) == SlotsIn(bars[0].openTime, bars[n].openTime, gap)
  {
    if n == 0 {
      assert SlotsIn(bars[0].openTime, bars[0].openTime, gap) == 0;
    } else {
      var a, b, c := bars[0].openTime, bars[n - 1].openTime, bars[n].openTime;
      assert Steps(b, c, gap);
      hide Steps, SlotsBefore, SlotsIn, MissingBetween, Weight;
      ConservedUpTo(bars, n - 1, gap);
      MissingIsSlots(b, c, gap);
      SlotsAppend(a, b, c, gap);
      var missing := MissingBetween(b, c, gap);
      var before := IncidentsUpTo(bars, n - 1, gap);
      assert (before + [Incident(bars[n].barId, missing)])[..|before|] == before;
      assert before + [] == before;
    }
  }

  /**
   * Every weekday slot after the first bar is either present as a bar or counted missing by exactly
   * one incident.
   */
  lemma MissingBarsConserved(bars: seq<Bar>, gap: int)
    requires gap > 0 && bars != [] && OnGrid(bars, gap)
    ensures Total(IncidentsUpTo(bars, |bars| - 1, gap)) + Present(bars, |bars| - 1)
         == SlotsIn(bars[0].openTime, bars[|bars| - 1].openTime, gap)
  {
    ConservedUpTo(bars, |bars| - 1, gap);
  }

  /** The weekday is the calendar's: it starts on a Thursday and advances by one every day, cyclically. */
  lemma WeekdayAdvances(t: int)
    ensures Weekday(0) == 3 && 0 <= Weekday(t) < 7
    ensures Weekday(t + DAY) == if Weekday(t) == 6 then 0 else Weekday(t) + 1
  {
    NextDay(t);
    NextWeekday(t / DAY + 3);
  }

  lemma NextDay(t: int)
    ensures (t + DAY) / DAY == t / DAY + 1
  {
  }

  lemma NextWeekday(n: int)
    ensures (n + 1) % 7 == if n % 7 == 6 then 0 else n % 7 + 1
  {
  }

  // ---------- what an incident says ----------

  /** Saturdays and Sundays have no slots; the epoch day was a Thursday. */
  lemma WeekendHasNoSlots(t: int)
    ensures IsTradingSlot(t) <==> (t / 86400) % 7 != 2 && (t / 86400) % 7 != 3
  {
    var d := t / 86400;
    assert (d + 3) % 7 == (d % 7 + 3) % 7;
  }

  /** The weekday slots that a gap skips. */
  function SkippedSlots(previous: int, current: int, gap: int): (slots: set<int>)
    requires gap > 0
    ensures forall t :: t in slots <==> previous < t < current && (t - previous) % gap == 0 && IsTradingSlot(t)
  {
    set t | previous < t < current && (t - previous) % gap == 0 && IsTradingSlot(t)
  }

  lemma GapRemainder(x: int, gap: int)
    requires gap > 0
    ensures (x + gap) % gap == x % gap
  {
    var k := x / gap;
    assert x == k * gap + x % gap;
    var m := (x + gap) / gap;
    assert x + gap == m * gap + (x + gap) % gap;
    var d := m - k - 1;
    assert d * gap == x % gap - (x + gap) % gap;
    assert (d >= 1 ==> d * gap >= gap) && (d <= -1 ==> d * gap <= -gap);
  }

  lemma SmallRemainder(x: int, gap: int)
    requires 0 < x < gap
    ensures x % gap == x
  {
  }

  lemma {:induction false} SlotsAreCounted(previous: int, current: int, gap: int)
    requires gap > 0
    ensures SlotsBefore(previous + gap, current, gap) == |SkippedSlots(previous, current, gap)|
    decreases current - previous
  {
    var next, slots := previous + gap, SkippedSlots(previous, current, gap);
    if next >= current {
      forall t
        ensures t !in slots
      {
        if previous < t < current {
          SmallRemainder(t - previous, gap);
        }
      }
      assert slots == {};
    } else {
      SlotsAreCounted(next, current, gap);
      var rest := SkippedSlots(next, current, gap);
      forall t
        ensures t in slots <==> t in rest || (t == next && IsTradingSlot(next))
      {
        GapRemainder(t - next, gap);
        if previous < t < next {
          SmallRemainder(t - previous, gap);
        }
        MultipleHasNoRemainder(1, gap);
      }
      assert slots == if IsTradingSlot(next) then rest + {next} else rest;
    }
  }

  /**
   * Each incident names the bar after its gap and counts the weekday slots that the gap skips, and every
   * gap that skips one is reported.
   */
  lemma {:induction false} IncidentsMean(bars: seq<Bar>, n: nat, gap: int, i: Incident)
    requires gap > 0 && n < |bars|
    ensures i in IncidentsUpTo(bars, n, gap) <==>
            exists k :: 0 < k <= n && i.barId == bars[k].barId && i.missing > 0
              && i.missing == |SkippedSlots(bars[k - 1].openTime, bars[k].openTime, gap)|
  {
    if n > 0 {
      IncidentsMean(bars, n - 1, gap, i);
      MissingIsSkipped(bars[n - 1].openTime, bars[n].openTime, gap);
      hide MissingBetween, SkippedSlots;
    }
  }

  lemma MissingIsSkipped(previous: int, current: int, gap: int)
    requires gap > 0
    ensures MissingBetween(previous, current, gap) == |SkippedSlots(previous, current, gap)|
  {
    SlotsAreCounted(previous, current, gap);
  }

  /** Daily bars: a weekend between Friday and Monday reports nothing, a missing Tuesday is reported once. */
  lemma WeekendReportsNothing(friday: int)
    requires (friday / 86400) % 7 == 1
    ensures MissingBetween(friday, friday + 3 * 86400, 86400) == 0
    ensures MissingBetween(friday + 3 * 86400, friday + 5 * 86400, 86400) == 1
  {
    var d := friday / 86400;
    assert (friday + 86400) / 86400 == d + 1 && (friday + 2 * 86400) / 86400 == d + 2 && (friday + 4 * 86400) / 86400 == d + 4;
    WeekendHasNoSlots(friday + 86400);
    WeekendHasNoSlots(friday + 2 * 86400);
    WeekendHasNoSlots(friday + 4 * 86400);
    assert SlotsBefore(friday + 3 * 86400, friday + 3 * 86400, 86400) == 0;
    assert SlotsBefore(friday + 2 * 86400, friday + 3 * 86400, 86400) == 0;
    assert SlotsBefore(friday + 5 * 86400, friday + 5 * 86400, 86400) == 0;
  }
}
