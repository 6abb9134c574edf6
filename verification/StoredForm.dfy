/**
 * The completed-task dictionary as it comes back from a checkpoint file: values in their JSON form,
 * keys in order.
 */
module StoredForm {
  import opened Common
  import opened Evidence

  // ---------- values ----------

  /** What a value is after it was written as JSON and read back: every tuple is a list. */
  function JsonForm(v: Value): Value {
    match v
    case Group(_, items) => Group(false, seq(|items|, i requires 0 <= i < |items| => JsonForm(items[i])))
    case _ => v
  }

  function JsonMap(m: map<string, Value>): map<string, Value> {
    map k | k in m :: JsonForm(m[k])
  }

  function JsonResult(r: TaskResult): TaskResult {
    r.(payload := JsonMap(r.payload), provenance := JsonMap(r.provenance))
  }

  /** The entries after writing and reading. */
  function ReadBack(c: Completed): Completed {
    if c == [] then [] else ReadBack(c[..|c| - 1]) + [(c[|c| - 1].0, JsonResult(c[|c| - 1].1))]
  }

  lemma {:induction false} JsonIdempotent(v: Value)
    ensures JsonForm(JsonForm(v)) == JsonForm(v)
  {
    if v.Group? {
      forall i | 0 <= i < |v.items|
        ensures JsonForm(JsonForm(v.items[i])) == JsonForm(v.items[i])
      {
        JsonIdempotent(v.items[i]);
      }
    }
  }

  /** Equal values have equal JSON forms. */
  lemma {:induction false} JsonRespectsEqual(a: Value, b: Value)
    requires PyEqual(a, b)
    ensures PyEqual(JsonForm(a), JsonForm(b))
  {
    if a.Group? {
      assert b.Group? && |Canon(a).items| == |a.items| == |b.items|;
      forall i | 0 <= i < |a.items|
        ensures Canon(JsonForm(a.items[i])) == Canon(JsonForm(b.items[i]))
      {
        assert Canon(a).items[i] == Canon(b).items[i];
        JsonRespectsEqual(a.items[i], b.items[i]);
      }
      assert Canon(JsonForm(a)).items == Canon(JsonForm(b)).items;
    }
  }

  lemma JsonResultIdempotent(r: TaskResult)
    ensures JsonResult(JsonResult(r)) == JsonResult(r)
  {
    forall v
      ensures JsonForm(JsonForm(v)) == JsonForm(v)
    {
      JsonIdempotent(v);
    }
    assert JsonMap(JsonMap(r.payload)) == JsonMap(r.payload);
    assert JsonMap(JsonMap(r.provenance)) == JsonMap(r.provenance);
  }

  /** Reading back keeps the ids and turns every result into its JSON form. */
  lemma {:induction false} ReadBackEntries(c: Completed)
    ensures |ReadBack(c)| == |c| && forall i :: 0 <= i < |c| ==> ReadBack(c)[i] == (c[i].0, JsonResult(c[i].1))
    ensures CompletedIds(ReadBack(c)) == CompletedIds(c)
  {
    if c != [] {
      ReadBackEntries(c[..|c| - 1]);
    }
    ReadBackIds(c, ReadBack(c));
  }

  lemma ReadBackIds(c: Completed, d: Completed)
    requires |d| == |c| && forall i :: 0 <= i < |c| ==> d[i].0 == c[i].0
    ensures CompletedIds(d) == CompletedIds(c)
  {
    forall id
      ensures id in CompletedIds(d) <==> id in CompletedIds(c)
    {
      if e :| e in c && e.0 == id {
        var i :| 0 <= i < |c| && c[i] == e;
        assert d[i] in d;
      }
      if e :| e in d && e.0 == id {
        var i :| 0 <= i < |d| && d[i] == e;
        assert c[i] in c;
      }
    }
  }

  /** Every value under an evidence key equals its JSON form: none of them holds a tuple. */
  predicate StablePayload(payload: map<string, Value>) {
    forall k :: k in payload && IsEvidence(k) ==> PyEqual(payload[k], JsonForm(payload[k]))
  }

  ghost predicate StableEvidence(c: Completed) {
    forall e :: e in c ==> StablePayload(e.1.payload)
  }

  lemma JsonMapStable(payload: map<string, Value>)
    ensures StablePayload(JsonMap(payload))
  {
    forall k | k in payload
      ensures JsonForm(JsonForm(payload[k])) == JsonForm(payload[k])
    {
      JsonIdempotent(payload[k]);
    }
  }

  /** Stable payloads clash with the same payloads before and after. */
  lemma StableClash(payload: map<string, Value>, other: map<string, Value>)
    requires StablePayload(payload)
    ensures Clash(JsonMap(payload), other) <==> Clash(payload, other)
  {
    if Clash(payload, other) {
      var k :| k in payload.Keys * other.Keys && IsEvidence(k) && !PyEqual(payload[k], other[k]);
      assert k in JsonMap(payload).Keys * other.Keys;
    }
    if Clash(JsonMap(payload), other) {
      var k :| k in JsonMap(payload).Keys * other.Keys && IsEvidence(k) && !PyEqual(JsonMap(payload)[k], other[k]);
      assert k in payload.Keys * other.Keys;
    }
  }

  /** Reading back can lose a clash, but it makes none. */
  lemma JsonClash(a: map<string, Value>, b: map<string, Value>)
    ensures Clash(JsonMap(a), JsonMap(b)) ==> Clash(a, b)
  {
    if Clash(JsonMap(a), JsonMap(b)) {
      var k :| k in JsonMap(a).Keys * JsonMap(b).Keys && IsEvidence(k) && !PyEqual(JsonMap(a)[k], JsonMap(b)[k]);
      if PyEqual(a[k], b[k]) {
        JsonRespectsEqual(a[k], b[k]);
      }
      assert k in a.Keys * b.Keys;
    }
  }

  lemma ReadBackEntry(c: Completed, e: (string, TaskResult))
    requires e in ReadBack(c)
    ensures exists f :: f in c && e == (f.0, JsonResult(f.1))
  {
    ReadBackEntries(c);
    var i :| 0 <= i < |ReadBack(c)| && ReadBack(c)[i] == e;
    assert c[i] in c;
  }

  lemma EntryReadBack(c: Completed, f: (string, TaskResult))
    requires f in c
    ensures (f.0, JsonResult(f.1)) in ReadBack(c)
  {
    ReadBackEntries(c);
    var i :| 0 <= i < |c| && c[i] == f;
    assert ReadBack(c)[i] in ReadBack(c);
  }

  /** Stable evidence: the verdict is the same after reading back. */
  lemma StableVerdict(c: Completed)
    requires StableEvidence(c)
    ensures Conflicted(ReadBack(c)) <==> Conflicted(c)
    ensures StableEvidence(ReadBack(c))
  {
    hide Clash, StablePayload, JsonMap;
    if Conflicted(c) {
      var e, f :| e in c && f in c && Clash(e.1.payload, f.1.payload);
      EntryReadBack(c, e);
      EntryReadBack(c, f);
      StableClash(e.1.payload, f.1.payload);
      ClashSymmetric(JsonMap(e.1.payload), f.1.payload);
      StableClash(f.1.payload, JsonMap(e.1.payload));
      ClashSymmetric(JsonMap(f.1.payload), JsonMap(e.1.payload));
    }
    ReadBackMakesNoConflict(c);
    forall e | e in ReadBack(c)
      ensures StablePayload(e.1.payload)
    {
      ReadBackEntry(c, e);
      var f :| f in c && e == (f.0, JsonResult(f.1));
      JsonMapStable(f.1.payload);
    }
  }

  lemma ReadBackMakesNoConflict(c: Completed)
    ensures Conflicted(ReadBack(c)) ==> Conflicted(c)
  {
    hide Clash, JsonMap;
    if Conflicted(ReadBack(c)) {
      var e, f :| e in ReadBack(c) && f in ReadBack(c) && Clash(e.1.payload, f.1.payload);
      ReadBackEntry(c, e);
      ReadBackEntry(c, f);
      var e0 :| e0 in c && e == (e0.0, JsonResult(e0.1));
      var f0 :| f0 in c && f == (f0.0, JsonResult(f0.1));
      JsonClash(e0.1.payload, f0.1.payload);
    }
  }

  ghost predicate ClashesWith(c: Completed, payload: map<string, Value>) {
    exists e :: e in c && Clash(e.1.payload, payload)
  }

  lemma NoSelfClash(payload: map<string, Value>)
    ensures !Clash(payload, payload)
  {
  }

  /** One more result is in conflict when the others already are, or when it clashes with one of them. */
  lemma ConflictAppend(c: Completed, r: (string, TaskResult))
    ensures Conflicted(c + [r]) <==> Conflicted(c) || ClashesWith(c, r.1.payload)
  {
    hide Clash;
    var grown := c + [r];
    assert forall e :: e in grown <==> e in c || e == r;
    if Conflicted(grown) && !Conflicted(c) {
      var e, f :| e in grown && f in grown && Clash(e.1.payload, f.1.payload);
      NoSelfClash(r.1.payload);
      ClashSymmetric(e.1.payload, f.1.payload);
    }
  }

  lemma StableClashesWith(c: Completed, payload: map<string, Value>)
    requires StableEvidence(c)
    ensures ClashesWith(ReadBack(c), payload) <==> ClashesWith(c, payload)
  {
    hide Clash, StablePayload, JsonMap;
    if ClashesWith(c, payload) {
      var f :| f in c && Clash(f.1.payload, payload);
      EntryReadBack(c, f);
      StableClash(f.1.payload, payload);
    }
    if ClashesWith(ReadBack(c), payload) {
      var e :| e in ReadBack(c) && Clash(e.1.payload, payload);
      ReadBackEntry(c, e);
      var f :| f in c && e == (f.0, JsonResult(f.1));
      StableClash(f.1.payload, payload);
    }
  }

  /** The verdict on every further result is the same with the results in memory and with those read back. */
  ghost predicate VerdictsAgree(c: Completed) {
    forall r :: Conflicted(ReadBack(c) + [r]) <==> Conflicted(c + [r])
  }

  function Probe(key: string, v: Value): (string, TaskResult) {
    ("", TaskResult("", "", "", "", map[key := v], map[], false))
  }

  lemma ProbeClash(a: map<string, Value>, b: map<string, Value>, k: string)
    requires k in b && Clash(a, map[k := b[k]])
    ensures Clash(a, b)
  {
    assert k in a.Keys * b.Keys;
  }

  /** An evidence value that JSON changes makes the same value from another task a conflict. */
  lemma UnstableProbe(c: Completed, e: (string, TaskResult), k: string)
    requires !Conflicted(c) && e in c && k in e.1.payload && IsEvidence(k) && !PyEqual(e.1.payload[k], JsonForm(e.1.payload[k]))
    ensures var r := Probe(k, e.1.payload[k]); !Conflicted(c + [r]) && Conflicted(ReadBack(c) + [r])
  {
    var r := Probe(k, e.1.payload[k]);
    ConflictAppend(c, r);
    if f :| f in c && Clash(f.1.payload, r.1.payload) {
      ProbeClash(f.1.payload, e.1.payload, k);
    }
    ConflictAppend(ReadBack(c), r);
    EntryReadBack(c, e);
    assert k in JsonMap(e.1.payload).Keys * r.1.payload.Keys;
    assert Clash(JsonMap(e.1.payload), r.1.payload);
    assert ClashesWith(ReadBack(c), r.1.payload);
  }

  /**
   * The exact condition.  On conflict-free results the verdict survives if and only if every evidence
   * value equals its JSON form; an open conflict survives if and only if it is still one when read back.
   */
  lemma VerdictsAgreeExactly(c: Completed)
    ensures VerdictsAgree(c) <==> if Conflicted(c) then Conflicted(ReadBack(c)) else StableEvidence(c)
  {
    hide Clash;
    if Conflicted(c) {
      var r := ("", TaskResult("", "", "", "", map[], map[], false));
      ConflictAppend(c, r);
      ConflictAppend(ReadBack(c), r);
      EmptyClashesWithNothing(ReadBack(c), r.1.payload);
      forall s
        ensures Conflicted(c + [s]) && (Conflicted(ReadBack(c)) ==> Conflicted(ReadBack(c) + [s]))
      {
        ConflictAppend(c, s);
        ConflictAppend(ReadBack(c), s);
      }
    } else if StableEvidence(c) {
      StableVerdict(c);
      forall r
        ensures Conflicted(ReadBack(c) + [r]) <==> Conflicted(c + [r])
      {
        ConflictAppend(c, r);
        ConflictAppend(ReadBack(c), r);
        StableClashesWith(c, r.1.payload);
      }
    } else {
      var e :| e in c && !StablePayload(e.1.payload);
      var k :| k in e.1.payload && IsEvidence(k) && !PyEqual(e.1.payload[k], JsonForm(e.1.payload[k]));
      UnstableProbe(c, e, k);
    }
  }

  lemma EmptyClashesWithNothing(c: Completed, payload: map<string, Value>)
    requires payload == map[]
    ensures !ClashesWith(c, payload)
  {
  }

  // ---------- keys, sorted ----------

  predicate LexLess(a: string, b: string) {
    b != [] && (a == [] || a[0] < b[0] || (a[0] == b[0] && LexLess(a[1..], b[1..])))
  }

  function InsertByKey(e: (string, TaskResult), c: Completed): Completed {
    if c == [] || LexLess(e.0, c[0].0) then [e] + c else [c[0]] + InsertByKey(e, c[1..])
  }

  /** The order in which a dictionary comes back from `canonical_json`. */
  function SortByKey(c: Completed): Completed {
    if c == [] then [] else InsertByKey(c[|c| - 1], SortByKey(c[..|c| - 1]))
  }

  lemma {:induction false} InsertElements(e: (string, TaskResult), c: Completed)
    ensures Elements(InsertByKey(e, c)) == Elements(c) + {e}
  {
    if c == [] || LexLess(e.0, c[0].0) {
      ElementsConcat([e], c);
    } else {
      InsertElements(e, c[1..]);
      ElementsConcat([c[0]], c[1..]);
      ElementsConcat([c[0]], InsertByKey(e, c[1..]));
      assert c == [c[0]] + c[1..];
    }
  }

  lemma {:induction false} SortElements(c: Completed)
    ensures Elements(SortByKey(c)) == Elements(c) && CompletedIds(SortByKey(c)) == CompletedIds(c)
  {
    if c != [] {
      var front, last := c[..|c| - 1], c[|c| - 1];
      SortElements(front);
      InsertElements(last, SortByKey(front));
      ElementsConcat(front, [last]);
      assert c == front + [last];
    }
    assert forall e :: e in c <==> e in Elements(c);
    assert forall e :: e in SortByKey(c) <==> e in Elements(SortByKey(c));
  }

  lemma {:induction false} LexTotal(a: string, b: string)
    ensures a == b || LexLess(a, b) || LexLess(b, a)
  {
    if a != [] && b != [] && a[0] == b[0] {
      LexTotal(a[1..], b[1..]);
      assert a == [a[0]] + a[1..] && b == [b[0]] + b[1..];
    }
  }

  lemma {:induction false} LexTransitive(a: string, b: string, c: string)
    requires LexLess(a, b) && LexLess(b, c)
    ensures LexLess(a, c)
  {
    if a != [] && a[0] == b[0] && b[0] == c[0] {
      LexTransitive(a[1..], b[1..], c[1..]);
    }
  }

  lemma {:induction false} LexIrreflexive(a: string)
    ensures !LexLess(a, a)
  {
    if a != [] {
      LexIrreflexive(a[1..]);
    }
  }

  /** The key comes before every key of the dictionary. */
  ghost predicate BeforeAll(id: string, c: Completed) {
    forall e :: e in c ==> LexLess(id, e.0)
  }

  /** The keys strictly increase. */
  ghost predicate KeySorted(c: Completed) {
    c == [] || (BeforeAll(c[0].0, c[1..]) && KeySorted(c[1..]))
  }

  /** A dictionary holds each key once. */
  ghost predicate DistinctKeys(c: Completed) {
    c == [] || (DistinctKeys(c[..|c| - 1]) && c[|c| - 1].0 !in CompletedIds(c[..|c| - 1]))
  }

  lemma BeforeAllInsert(id: string, e: (string, TaskResult), c: Completed)
    requires BeforeAll(id, c) && LexLess(id, e.0)
    ensures BeforeAll(id, InsertByKey(e, c))
  {
    InsertElements(e, c);
    assert forall f :: f in InsertByKey(e, c) <==> f in Elements(InsertByKey(e, c));
  }

  lemma BeforeHead(id: string, c: Completed)
    requires c != [] && KeySorted(c) && LexLess(id, c[0].0)
    ensures BeforeAll(id, c)
  {
    forall f | f in c
      ensures LexLess(id, f.0)
    {
      if f != c[0] {
        LexTransitive(id, c[0].0, f.0);
      }
    }
  }

  lemma {:induction false} InsertSorted(e: (string, TaskResult), c: Completed)
    requires KeySorted(c) && e.0 !in CompletedIds(c)
    ensures KeySorted(InsertByKey(e, c))
  {
    hide LexLess, BeforeAll;
    if c != [] {
      assert c[0] in c;
      if LexLess(e.0, c[0].0) {
        BeforeHead(e.0, c);
        assert ([e] + c)[1..] == c;
      } else {
        LexTotal(e.0, c[0].0);
        InsertSorted(e, c[1..]);
        BeforeAllInsert(c[0].0, e, c[1..]);
        assert ([c[0]] + InsertByKey(e, c[1..]))[1..] == InsertByKey(e, c[1..]);
      }
    } else {
      assert [e][1..] == [];
      BeforeNone(e.0);
    }
  }

  lemma BeforeNone(id: string)
    ensures BeforeAll(id, [])
  {
  }

  /** A dictionary is written with its keys in strictly increasing order. */
  lemma {:induction false} SortSorted(c: Completed)
    requires DistinctKeys(c)
    ensures KeySorted(SortByKey(c))
  {
    if c != [] {
      SortSorted(c[..|c| - 1]);
      SortElements(c[..|c| - 1]);
      InsertSorted(c[|c| - 1], SortByKey(c[..|c| - 1]));
    }
  }

  /** The entries determine the sorted sequence. */
  lemma {:induction false} SortedUnique(a: Completed, b: Completed)
    requires KeySorted(a) && KeySorted(b) && Elements(a) == Elements(b)
    ensures a == b
  {
    ElementsEmpty(a);
    ElementsEmpty(b);
    if a != [] {
      HeadIsLeast(a, b);
      LexIrreflexive(a[0].0);
      ElementsConcat([a[0]], a[1..]);
      ElementsConcat([b[0]], b[1..]);
      assert a == [a[0]] + a[1..] && b == [b[0]] + b[1..];
      assert a[0] !in a[1..] && b[0] !in b[1..];
      assert Elements(a[1..]) == Elements(a) - {a[0]};
      assert Elements(b[1..]) == Elements(b) - {b[0]};
      SortedUnique(a[1..], b[1..]);
    }
  }

  lemma ElementsEmpty(c: Completed)
    ensures Elements(c) == {} <==> c == []
  {
    if c != [] {
      assert c[0] in Elements(c);
    }
  }

  lemma HeadIsLeast(a: Completed, b: Completed)
    requires a != [] && b != [] && KeySorted(a) && KeySorted(b) && Elements(a) == Elements(b)
    ensures a[0] == b[0]
  {
    assert a[0] in Elements(b) && b[0] in Elements(a);
    if a[0] != b[0] {
      assert a[0] in b[1..] && b[0] in a[1..];
      LexTransitive(a[0].0, b[0].0, a[0].0);
      LexIrreflexive(a[0].0);
    }
  }

  lemma {:induction false} SortedDistinct(c: Completed)
    requires KeySorted(c)
    ensures DistinctKeys(c)
  {
    if c != [] {
      var front, last := c[..|c| - 1], c[|c| - 1];
      SortedFront(c);
      SortedDistinct(front);
      if e :| e in front && e.0 == last.0 {
        SortedLast(c, e);
        LexIrreflexive(last.0);
      }
    }
  }

  lemma {:induction false} SortedFront(c: Completed)
    requires KeySorted(c) && c != []
    ensures KeySorted(c[..|c| - 1])
  {
    if |c| > 1 {
      SortedFront(c[1..]);
      assert c[1..][..|c| - 2] == c[..|c| - 1][1..];
      assert forall e :: e in c[1..][..|c| - 2] ==> e in c[1..];
    }
  }

  lemma {:induction false} SortedLast(c: Completed, e: (string, TaskResult))
    requires KeySorted(c) && c != [] && e in c[..|c| - 1]
    ensures LexLess(e.0, c[|c| - 1].0)
  {
    if e == c[0] {
      assert c[|c| - 1] in c[1..];
    } else {
      assert e in c[1..][..|c| - 2];
      SortedLast(c[1..], e);
    }
  }

  /** Keys are compared character by character, and a proper prefix comes first. */
  lemma {:induction false} LexMeans(a: string, b: string)
    ensures LexLess(a, b) <==> exists n: nat :: FirstDifference(a, b, n)
  {
    if a != [] && b != [] && a[0] == b[0] {
      LexMeans(a[1..], b[1..]);
      if n: nat :| FirstDifference(a[1..], b[1..], n) {
        assert a[..n + 1] == [a[0]] + a[1..][..n] && b[..n + 1] == [b[0]] + b[1..][..n];
        assert FirstDifference(a, b, n + 1);
      }
      if n: nat :| FirstDifference(a, b, n) {
        assert n > 0;
        assert a[1..][..n - 1] == a[..n][1..] && b[1..][..n - 1] == b[..n][1..];
        assert FirstDifference(a[1..], b[1..], n - 1);
      }
    } else {
      if n: nat :| FirstDifference(a, b, n) {
        if n > 0 {
          SameHead(a, b, n);
        }
      }
      assert LexLess(a, b) ==> FirstDifference(a, b, 0);
    }
  }

  lemma SameHead(a: string, b: string, n: nat)
    requires 0 < n <= |a| && n <= |b| && a[..n] == b[..n]
    ensures a[0] == b[0]
  {
    assert a[..n][0] == b[..n][0];
  }

  ghost predicate FirstDifference(a: string, b: string, n: nat) {
    n <= |a| && n < |b| && a[..n] == b[..n] && (n == |a| || a[n] < b[n])
  }
}
