/**
 * Batch normalization: stable time sort, first record per id.  Ticks (sequence_id, market_time_msc)
 * and bars (bar_id, open_time_utc) go through the same code.
 */
module BatchQuality {
  import opened Common

  datatype Record = Record(id: string, time: int, body: string)

  type Batch = seq<Record>

  ghost predicate Sorted(xs: Batch) {
    forall i, j :: 0 <= i < j < |xs| ==> xs[i].time <= xs[j].time
  }

  // ---------- Python's sorted(): the stable sort ----------

  /** Insert behind every record that is not later. */
  function Insert(r: Record, xs: Batch): Batch {
    if xs == [] || r.time >= xs[|xs| - 1].time then xs + [r]
    else Insert(r, xs[..|xs| - 1]) + [xs[|xs| - 1]]
  }

  function StableSort(xs: Batch): Batch {
    if xs == [] then [] else Insert(xs[|xs| - 1], StableSort(xs[..|xs| - 1]))
  }

  /** The records of one timestamp, in order. */
  function AtTime(xs: Batch, t: int): Batch {
    if xs == [] then []
    else AtTime(xs[..|xs| - 1], t) + if xs[|xs| - 1].time == t then [xs[|xs| - 1]] else []
  }

  lemma SortedAppend(xs: Batch, r: Record)
    requires Sorted(xs) && forall x :: x in xs ==> x.time <= r.time
    ensures Sorted(xs + [r])
  {
  }

  lemma {:induction false} InsertElements(r: Record, xs: Batch)
    ensures multiset(Insert(r, xs)) == multiset(xs) + multiset{r}
  {
    if !(xs == [] || r.time >= xs[|xs| - 1].time) {
      InsertElements(r, xs[..|xs| - 1]);
      assert xs == xs[..|xs| - 1] + [xs[|xs| - 1]];
    }
  }

  lemma {:induction false} InsertSorted(r: Record, xs: Batch)
    requires Sorted(xs)
    ensures Sorted(Insert(r, xs))
  {
    if xs == [] || r.time >= xs[|xs| - 1].time {
      SortedAppend(xs, r);
    } else {
      var front, last := xs[..|xs| - 1], xs[|xs| - 1];
      InsertSorted(r, front);
      InsertElements(r, front);
      forall x | x in Insert(r, front)
        ensures x.time <= last.time
      {
        assert x in multiset(Insert(r, front));
        assert x in multiset(front) || x == r;
      }
      SortedAppend(Insert(r, front), last);
    }
  }

  lemma {:induction false} AtTimeAppend(xs: Batch, r: Record, t: int)
    ensures AtTime(xs + [r], t) == AtTime(xs, t) + if r.time == t then [r] else []
  {
    assert (xs + [r])[..|xs|] == xs;
  }

  lemma {:induction false} InsertStable(r: Record, xs: Batch, t: int)
    requires Sorted(xs)
    ensures AtTime(Insert(r, xs), t) == AtTime(xs, t) + if r.time == t then [r] else []
  {
    if xs == [] || r.time >= xs[|xs| - 1].time {
      AtTimeAppend(xs, r, t);
    } else {
      var front, last := xs[..|xs| - 1], xs[|xs| - 1];
      InsertStable(r, front, t);
      AtTimeAppend(Insert(r, front), last, t);
    }
  }

  lemma {:induction false} StableSortSorted(xs: Batch)
    ensures Sorted(StableSort(xs))
  {
    if xs != [] {
      hide Sorted, Insert;
      StableSortSorted(xs[..|xs| - 1]);
      InsertSorted(xs[|xs| - 1], StableSort(xs[..|xs| - 1]));
    } else {
      assert StableSort(xs) == [];
    }
  }

  lemma {:induction false} StableSortElements(xs: Batch)
    ensures multiset(StableSort(xs)) == multiset(xs)
  {
    if xs != [] {
      var front, last := xs[..|xs| - 1], xs[|xs| - 1];
      hide Insert;
      StableSortElements(front);
      InsertElements(last, StableSort(front));
      assert xs == front + [last];
    }
  }

  lemma {:induction false} StableSortStable(xs: Batch, t: int)
    ensures AtTime(StableSort(xs), t) == AtTime(xs, t)
  {
    if xs != [] {
      var front, last := xs[..|xs| - 1], xs[|xs| - 1];
      hide Sorted, Insert;
      StableSortStable(front, t);
      StableSortSorted(front);
      InsertStable(last, StableSort(front), t);
    }
  }

  /** The result is sorted, a permutation, and keeps the order within each timestamp. */
  lemma StableSortCorrect(xs: Batch)
    ensures Sorted(StableSort(xs)) && multiset(StableSort(xs)) == multiset(xs)
    ensures forall t :: AtTime(StableSort(xs), t) == AtTime(xs, t)
  {
    StableSortSorted(xs);
    StableSortElements(xs);
    forall t
      ensures AtTime(StableSort(xs), t) == AtTime(xs, t)
    {
      StableSortStable(xs, t);
    }
  }

  lemma {:induction false} AtTimeElements(xs: Batch, t: int)
    ensures forall r :: r in AtTime(xs, t) <==> r in xs && r.time == t
  {
    if xs != [] {
      AtTimeElements(xs[..|xs| - 1], t);
      assert xs == xs[..|xs| - 1] + [xs[|xs| - 1]];
    }
  }

  ghost predicate SameTimes(xs: Batch, ys: Batch) {
    forall t :: AtTime(xs, t) == AtTime(ys, t)
  }

  lemma SortedFront(xs: Batch)
    requires Sorted(xs) && xs != []
    ensures Sorted(xs[..|xs| - 1])
  {
  }

  lemma LastIsLatest(xs: Batch, ys: Batch)
    requires Sorted(ys) && xs != [] && ys != [] && SameTimes(xs, ys)
    ensures xs[|xs| - 1].time <= ys[|ys| - 1].time
  {
    var a := xs[|xs| - 1];
    AtTimeElements(xs, a.time);
    AtTimeElements(ys, a.time);
    assert a in xs && a in AtTime(ys, a.time);
  }

  lemma SameTimesEmpty(xs: Batch, ys: Batch)
    requires SameTimes(xs, ys) && xs == []
    ensures ys == []
  {
    if ys != [] {
      AtTimeElements(ys, ys[0].time);
    }
  }

  /** Equal last records can be removed. */
  lemma SameTimesFront(fx: Batch, fy: Batch, a: Record, b: Record)
    requires SameTimes(fx + [a], fy + [b]) && a.time == b.time
    ensures a == b && SameTimes(fx, fy)
  {
    var xs, ys := fx + [a], fy + [b];
    forall t
      ensures AtTime(fx, t) == AtTime(fy, t) && a == b
    {
      AtTimeAppend(fx, a, t);
      AtTimeAppend(fy, b, t);
      AtTimeAppend(fx, a, a.time);
      AtTimeAppend(fy, b, a.time);
      assert AtTime(xs, t) == AtTime(ys, t) && AtTime(xs, a.time) == AtTime(ys, a.time);
      assert AtTime(xs, a.time)[|AtTime(xs, a.time)| - 1] == a && AtTime(ys, a.time)[|AtTime(ys, a.time)| - 1] == b;
      if t == a.time {
        assert AtTime(fx, t) == AtTime(xs, t)[..|AtTime(xs, t)| - 1];
        assert AtTime(fy, t) == AtTime(ys, t)[..|AtTime(ys, t)| - 1];
      } else {
        assert AtTime(fx, t) + [] == AtTime(fx, t) && AtTime(fy, t) + [] == AtTime(fy, t);
      }
    }
  }

  /** These properties leave no choice: a sorted batch is determined by its records per timestamp. */
  lemma {:induction false} StableSortUnique(xs: Batch, ys: Batch)
    requires Sorted(xs) && Sorted(ys) && SameTimes(xs, ys)
    ensures xs == ys
  {
    hide Sorted, AtTime;
    if xs == [] {
      SameTimesEmpty(xs, ys);
    } else if ys == [] {
      SameTimesEmpty(ys, xs);
    } else {
      var fx, fy, a, b := xs[..|xs| - 1], ys[..|ys| - 1], xs[|xs| - 1], ys[|ys| - 1];
      assert xs == fx + [a] && ys == fy + [b];
      LastIsLatest(xs, ys);
      LastIsLatest(ys, xs);
      SameTimesFront(fx, fy, a, b);
      SortedFront(xs);
      SortedFront(ys);
      StableSortUnique(fx, fy);
    }
  }

  // ---------- removing duplicates ----------

  function IdsOf(xs: Batch): set<string> {
    set r | r in xs :: r.id
  }

  /** The records whose id was not met before. */
  function KeepFirst(xs: Batch): Batch {
    if xs == [] then []
    else
      var kept, last := KeepFirst(xs[..|xs| - 1]), xs[|xs| - 1];
      if last.id in IdsOf(xs[..|xs| - 1]) then kept else kept + [last]
  }

  ghost predicate DistinctIds(xs: Batch) {
    forall i, j :: 0 <= i < j < |xs| ==> xs[i].id != xs[j].id
  }

  lemma {:induction false} KeepFirstElements(xs: Batch)
    ensures IdsOf(KeepFirst(xs)) == IdsOf(xs) && |KeepFirst(xs)| <= |xs|
    ensures forall r :: r in KeepFirst(xs) ==> r in xs
  {
    if xs != [] {
      var front, last := xs[..|xs| - 1], xs[|xs| - 1];
      KeepFirstElements(front);
      assert xs == front + [last];
      IdsAppend(front, last);
      IdsAppend(KeepFirst(front), last);
    }
  }

  lemma IdsAppend(xs: Batch, r: Record)
    ensures IdsOf(xs + [r]) == IdsOf(xs) + {r.id}
  {
    assert forall x :: x in xs + [r] <==> x in xs || x == r;
    assert r in xs + [r];
  }

  lemma {:induction false} KeepFirstCorrect(xs: Batch)
    ensures DistinctIds(KeepFirst(xs))
    ensures Sorted(xs) ==> Sorted(KeepFirst(xs))
  {
    if xs != [] {
      var front, last := xs[..|xs| - 1], xs[|xs| - 1];
      KeepFirstCorrect(front);
      KeepFirstElements(front);
      var kept := KeepFirst(front);
      forall r | r in kept
        ensures r.id in IdsOf(front) && (Sorted(xs) ==> r.time <= last.time)
      {
        assert r in front && r.id in IdsOf(kept);
      }
      if Sorted(xs) {
        SortedAppend(kept, last);
      }
    }
  }

  lemma {:induction false} KeepFirstOfDistinct(xs: Batch)
    requires DistinctIds(xs)
    ensures KeepFirst(xs) == xs
  {
    if xs != [] {
      var front, last := xs[..|xs| - 1], xs[|xs| - 1];
      KeepFirstOfDistinct(front);
      assert xs == front + [last];
      assert last.id !in IdsOf(front);
    }
  }

  // ---------- the batch normalizer ----------

  /** Adjacent records out of order, as the source looks for them. */
  predicate OutOfOrder(xs: Batch) {
    exists i :: 0 <= i < |xs| - 1 && xs[i].time > xs[i + 1].time
  }

  /** Timestamps that carry more than one id. */
  ghost function Collisions(xs: Batch): set<int> {
    set a, b | a in xs && b in xs && a.time == b.time && a.id != b.id :: a.time
  }

  datatype Normalized = Normalized(kept: Batch, outOfOrder: bool, duplicates: int)

  function Normalize(xs: Batch): Normalized {
    var kept := KeepFirst(StableSort(xs));
    Normalized(kept, OutOfOrder(xs), |xs| - |kept|)
  }

  lemma StableSortLength(xs: Batch)
    ensures |StableSort(xs)| == |xs|
  {
    StableSortCorrect(xs);
    assert |StableSort(xs)| == |multiset(StableSort(xs))| == |multiset(xs)| == |xs|;
  }

  /** `normalize_bar_batch`: the kept records and the counts that its incidents report. */
  method NormalizeBatch(records: Batch) returns (r: Normalized)
    ensures r == Normalize(records)
  {
    var sorted := StableSort(records);
    StableSortLength(records);
    var deduped, duplicateCount := Deduplicate(sorted);
    return Normalized(deduped, OutOfOrder(records), duplicateCount);
  }

  /** The loop over the sorted records with its set of seen ids. */
  method Deduplicate(sorted: Batch) returns (deduped: Batch, duplicateCount: int)
    ensures deduped == KeepFirst(sorted) && duplicateCount == |sorted| - |deduped|
  {
    hide IdsOf;
    var seen: set<string> := {};
    deduped, duplicateCount := [], 0;
    NoIds();
    for i := 0 to |sorted|
      invariant deduped == KeepFirst(sorted[..i]) && seen == IdsOf(sorted[..i])
      invariant duplicateCount == i - |deduped|
    {
      assert sorted[..i + 1][..i] == sorted[..i] && sorted[..i + 1] == sorted[..i] + [sorted[i]];
      IdsAppend(sorted[..i], sorted[i]);
      var record := sorted[i];
      if record.id in seen {
        duplicateCount := duplicateCount + 1;
      } else {
        seen := seen + {record.id};
        deduped := deduped + [record];
      }
    }
    assert sorted[..|sorted|] == sorted;
  }

  /** What `normalize_tick_batch` reports, in order. */
  datatype TickIncident = OutOfOrderTicks | TickTimeCollision(count: nat, earliest: int) | DuplicateTicks(dropped: int)

  ghost predicate IsLeast(t: int, times: set<int>) {
    t in times && forall o :: o in times ==> t <= o
  }

  /** The incidents say whether the batch was sorted, which times carry several ids, and how much was dropped. */
  ghost predicate Reports(incidents: seq<TickIncident>, xs: Batch) {
    var collisions, dropped := Collisions(xs), |xs| - |Normalize(xs).kept|;
    && (OutOfOrderTicks in incidents <==> !Sorted(xs))
    && (forall n, t :: TickTimeCollision(n, t) in incidents <==> collisions != {} && n == |collisions| && IsLeast(t, collisions))
    && (forall n :: DuplicateTicks(n) in incidents <==> n == dropped && n > 0)
  }

  function IdsAt(xs: Batch, t: int): set<string> {
    set x | x in xs && x.time == t :: x.id
  }

  lemma IdsAtSize(xs: Batch, t: int)
    ensures |IdsAt(xs, t)| > 1 <==> t in Collisions(xs)
  {
    var ids := IdsAt(xs, t);
    if t in Collisions(xs) {
      var a, b :| a in xs && b in xs && a.time == b.time && a.id != b.id && a.time == t;
      assert a.id in ids && b.id in ids;
      SubsetSize({a.id, b.id}, ids);
      assert |{a.id, b.id}| == 2;
    }
    if |ids| > 1 {
      var i, j := TwoElements(ids);
      var a :| a in xs && a.time == t && a.id == i;
      var b :| b in xs && b.time == t && b.id == j;
      assert a.time in Collisions(xs);
    }
  }

  lemma Pick<T>(s: set<T>) returns (x: T)
    requires s != {}
    ensures x in s
  {
    x :| x in s;
  }

  lemma TwoElements(ids: set<string>) returns (i: string, j: string)
    requires |ids| > 1
    ensures i in ids && j in ids && i != j
  {
    i := Pick(ids);
    assert |ids - {i}| > 0;
    j := Pick(ids - {i});
  }

  lemma {:induction false} LeastExists(times: set<int>)
    requires times != {}
    ensures exists t :: IsLeast(t, times)
  {
    var x := Pick(times);
    if times == {x} {
      assert IsLeast(x, times);
    } else {
      assert times - {x} != {};
      LeastExists(times - {x});
      var y :| IsLeast(y, times - {x});
      var least := if x < y then x else y;
      forall o | o in times
        ensures least <= o
      {
        assert o == x || o in times - {x};
      }
      assert IsLeast(least, times);
    }
  }

  /** The timestamps that carry more than one id, computed as the source does. */
  method FindCollisions(records: Batch) returns (times: set<int>)
    ensures times == Collisions(records)
  {
    times := set r | r in records && |IdsAt(records, r.time)| > 1 :: r.time;
    forall t
      ensures t in times <==> t in Collisions(records)
    {
      IdsAtSize(records, t);
    }
  }

  method Earliest(times: set<int>) returns (t: int)
    requires times != {}
    ensures IsLeast(t, times)
  {
    LeastExists(times);
    t :| t in times && forall o :: o in times ==> t <= o;
  }

  /** `normalize_tick_batch`. */
  method NormalizeTickBatch(records: Batch) returns (kept: Batch, incidents: seq<TickIncident>)
    ensures kept == Normalize(records).kept
    ensures Reports(incidents, records)
  {
    hide Normalize, Collisions, Sorted, IsLeast, OutOfOrder;
    NormalizeCorrect(records);
    var r := NormalizeBatch(records);
    kept, incidents := r.kept, [];
    if r.outOfOrder {
      incidents := [OutOfOrderTicks];
    }
    var collisions := FindCollisions(records);
    if collisions != {} {
      var earliest := Earliest(collisions);
      LeastUnique(collisions, earliest);
      incidents := incidents + [TickTimeCollision(|collisions|, earliest)];
    }
    if r.duplicates != 0 {
      incidents := incidents + [DuplicateTicks(r.duplicates)];
    }
  }

  lemma LeastUnique(times: set<int>, t: int)
    requires IsLeast(t, times)
    ensures forall o :: IsLeast(o, times) ==> o == t
  {
  }

  lemma NoIds()
    ensures IdsOf([]) == {}
  {
  }

  lemma {:induction false} AdjacentSorted(xs: Batch, i: nat, j: nat)
    requires !OutOfOrder(xs) && i <= j < |xs|
    ensures xs[i].time <= xs[j].time
  {
    if i < j {
      AdjacentSorted(xs, i, j - 1);
      assert !(xs[j - 1].time > xs[j - 1 + 1].time);
    }
  }

  /** The adjacent comparison flags exactly the batches that are not globally sorted. */
  lemma OutOfOrderExact(xs: Batch)
    ensures OutOfOrder(xs) <==> !Sorted(xs)
  {
    if !OutOfOrder(xs) {
      forall i, j | 0 <= i < j < |xs|
        ensures xs[i].time <= xs[j].time
      {
        AdjacentSorted(xs, i, j);
      }
    }
  }

  /** Sorted, distinct ids, no id lost or invented, and every dropped record counted. */
  lemma NormalizeCorrect(xs: Batch)
    ensures var n := Normalize(xs);
            && Sorted(n.kept) && DistinctIds(n.kept) && IdsOf(n.kept) == IdsOf(xs)
            && (forall r :: r in n.kept ==> r in xs)
            && |n.kept| + n.duplicates == |xs| && n.duplicates >= 0
            && (n.outOfOrder <==> !Sorted(xs))
  {
    StableSortCorrect(xs);
    KeepFirstCorrect(StableSort(xs));
    KeepFirstElements(StableSort(xs));
    OutOfOrderExact(xs);
    StableSortLength(xs);
    SamePermutedElements(StableSort(xs), xs);
  }

  lemma SamePermutedElements(xs: Batch, ys: Batch)
    requires multiset(xs) == multiset(ys)
    ensures forall r :: r in xs <==> r in ys
    ensures IdsOf(xs) == IdsOf(ys)
  {
    forall r
      ensures r in xs <==> r in ys
    {
      assert r in xs <==> r in multiset(xs);
      assert r in ys <==> r in multiset(ys);
    }
  }

  /** Normalizing a normalized batch changes nothing and reports nothing. */
  lemma NormalizeIdempotent(xs: Batch)
    ensures Normalize(Normalize(xs).kept) == Normalized(Normalize(xs).kept, false, 0)
  {
    NormalizeCorrect(xs);
    var kept := Normalize(xs).kept;
    StableSortCorrect(kept);
    StableSortUnique(StableSort(kept), kept);
    KeepFirstOfDistinct(kept);
    OutOfOrderExact(kept);
  }

  // ---------- which record is kept ----------

  /** Ids embed the timestamp, so equal ids have equal times. */
  ghost predicate IdsDetermineTime(xs: Batch) {
    forall a, b :: a in xs && b in xs && a.id == b.id ==> a.time == b.time
  }

  function FirstWith(xs: Batch, id: string): Option<Record> {
    if xs == [] then None
    else
      var earlier := FirstWith(xs[..|xs| - 1], id);
      if earlier.Some? then earlier else if xs[|xs| - 1].id == id then Some(xs[|xs| - 1]) else None
  }

  lemma {:induction false} FirstWithIds(xs: Batch, id: string)
    ensures FirstWith(xs, id).Some? <==> id in IdsOf(xs)
    ensures FirstWith(xs, id).Some? ==> FirstWith(xs, id).value in xs && FirstWith(xs, id).value.id == id
  {
    if xs != [] {
      FirstWithIds(xs[..|xs| - 1], id);
      assert xs == xs[..|xs| - 1] + [xs[|xs| - 1]];
    }
  }

  lemma {:induction false} KeepFirstKeepsFirst(xs: Batch, r: Record)
    ensures r in KeepFirst(xs) <==> FirstWith(xs, r.id) == Some(r)
  {
    if xs != [] {
      var front := xs[..|xs| - 1];
      KeepFirstKeepsFirst(front, r);
      FirstWithIds(front, r.id);
      FirstWithIds(front, xs[|xs| - 1].id);
    }
  }

  lemma FirstAppend(xs: Batch, r: Record, id: string)
    ensures FirstWith(xs + [r], id) == if FirstWith(xs, id).Some? then FirstWith(xs, id) else if r.id == id then Some(r) else None
  {
    assert (xs + [r])[..|xs|] == xs;
  }

  lemma {:induction false} FirstAtTime(xs: Batch, id: string, t: int)
    requires forall r :: r in xs && r.id == id ==> r.time == t
    ensures FirstWith(AtTime(xs, t), id) == FirstWith(xs, id)
  {
    if xs != [] {
      var front, last := xs[..|xs| - 1], xs[|xs| - 1];
      assert xs == front + [last] && last in xs;
      FirstAtTime(front, id, t);
      AtTimeAppend(front, last, t);
      FirstAppend(front, last, id);
      FirstAppend(AtTime(front, t), last, id);
      assert AtTime(front, t) + [] == AtTime(front, t);
    }
  }

  /** When ids determine times, the record kept for an id is the first one that arrived. */
  lemma KeptIsFirstArrived(xs: Batch, r: Record)
    requires IdsDetermineTime(xs)
    ensures r in Normalize(xs).kept ==> FirstWith(xs, r.id) == Some(r)
    ensures FirstWith(xs, r.id) == Some(r) ==> r in Normalize(xs).kept
  {
    var sorted := StableSort(xs);
    StableSortCorrect(xs);
    SamePermutedElements(sorted, xs);
    KeepFirstKeepsFirst(sorted, r);
    FirstWithIds(xs, r.id);
    FirstWithIds(sorted, r.id);
    if r.id in IdsOf(xs) {
      var t := FirstWith(xs, r.id).value.time;
      FirstAtTime(xs, r.id, t);
      FirstAtTime(sorted, r.id, t);
      assert AtTime(sorted, t) == AtTime(xs, t);
    }
  }

  /** Deduplication neither hides nor creates a timestamp collision. */
  lemma CollisionsUnchanged(xs: Batch)
    requires IdsDetermineTime(xs)
    ensures Collisions(Normalize(xs).kept) == Collisions(xs)
  {
    NormalizeCorrect(xs);
    var kept := Normalize(xs).kept;
    forall t | t in Collisions(xs)
      ensures t in Collisions(kept)
    {
      var a, b :| a in xs && b in xs && a.time == b.time && a.id != b.id && a.time == t;
      assert a.id in IdsOf(kept) && b.id in IdsOf(kept);
      var ka :| ka in kept && ka.id == a.id;
      var kb :| kb in kept && kb.id == b.id;
    }
  }
}
