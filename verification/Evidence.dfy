/** Task results, their completed-task dictionary, and conflict detection. */
module Evidence {
  import opened Common

  /** Payload values, with lists and tuples of them. */
  datatype Value =
    | Flag(b: bool)
    | Number(n: int)
    | Text(s: string)
    | Group(isTuple: bool, items: seq<Value>)

  /** Python compares `True` and `1` as equal, also inside a list, and a tuple with no list. */
  function Canon(v: Value): Value {
    match v
    case Flag(b) => Number(if b then 1 else 0)
    case Group(t, items) => Group(t, seq(|items|, i requires 0 <= i < |items| => Canon(items[i])))
    case _ => v
  }

  predicate PyEqual(a: Value, b: Value) {
    Canon(a) == Canon(b)
  }

  datatype TaskResult = TaskResult(
    taskId: string, agentId: string, status: string, evidenceReference: string,
    payload: map<string, Value>, provenance: map<string, Value>, retryable: bool)

  /** A Python dict from task id to result, in iteration order. */
  type Completed = seq<(string, TaskResult)>

  function CompletedIds(c: Completed): set<string> {
    set e | e in c :: e.0
  }

  // ---------- conflicts ----------

  const EVIDENCE_PREFIX := "evidence."

  predicate IsEvidence(key: string) {
    EVIDENCE_PREFIX <= key
  }

  /** Some `evidence.` key is present in both dictionaries with different values. */
  predicate Clash(a: map<string, Value>, b: map<string, Value>) {
    exists k :: k in a.Keys * b.Keys && IsEvidence(k) && !PyEqual(a[k], b[k])
  }

  /** Two completed results disagree. */
  ghost predicate Conflicted(c: Completed) {
    exists e, f :: e in c && f in c && Clash(e.1.payload, f.1.payload)
  }

  /** The ids reported by the scan over `c`, given the values seen before. */
  function ConflictIds(c: Completed, values: map<string, Value>): set<string> {
    if c == [] then {}
    else
      (if Clash(c[0].1.payload, values) then {c[0].0} else {}) + ConflictIds(c[1..], values + c[0].1.payload)
  }

  /** The evidence keys on which the payload clashes with an earlier value. */
  function ClashKeys(payload: map<string, Value>, values: map<string, Value>): (keys: set<string>)
    ensures keys <= payload.Keys
  {
    set k | k in payload.Keys * values.Keys && IsEvidence(k) && !PyEqual(payload[k], values[k])
  }

  function Repeat(id: string, n: nat): seq<string> {
    seq(n, _ => id)
  }

  /** The tuple of the source: a task id comes once for every key on which it clashes. */
  function ConflictList(c: Completed, values: map<string, Value>): seq<string> {
    if c == [] then []
    else Repeat(c[0].0, |ClashKeys(c[0].1.payload, values)|) + ConflictList(c[1..], values + c[0].1.payload)
  }

  lemma ClashHasKeys(payload: map<string, Value>, values: map<string, Value>)
    ensures Clash(payload, values) <==> ClashKeys(payload, values) != {}
  {
    if Clash(payload, values) {
      var k :| k in payload.Keys * values.Keys && IsEvidence(k) && !PyEqual(payload[k], values[k]);
      assert k in ClashKeys(payload, values);
    }
  }

  lemma RepeatElements(id: string, n: nat)
    ensures Elements(Repeat(id, n)) == if n > 0 then {id} else {}
    ensures Repeat(id, n) + [id] == Repeat(id, n + 1)
  {
    if n > 0 {
      assert Repeat(id, n)[0] == id;
    }
  }

  lemma {:induction false} ConflictListIds(c: Completed, values: map<string, Value>)
    ensures Elements(ConflictList(c, values)) == ConflictIds(c, values)
  {
    if c != [] {
      hide Clash, ClashKeys, Repeat, Elements;
      var keys := ClashKeys(c[0].1.payload, values);
      ConflictListIds(c[1..], values + c[0].1.payload);
      ElementsConcat(Repeat(c[0].0, |keys|), ConflictList(c[1..], values + c[0].1.payload));
      RepeatElements(c[0].0, |keys|);
      ClashHasKeys(c[0].1.payload, values);
    } else {
      assert Elements<string>([]) == {};
    }
  }

  /** `_detect_conflicts`: a running dictionary of the values seen so far. */
  method DetectConflicts(completed: Completed) returns (conflicts: seq<string>)
    ensures conflicts == ConflictList(completed, map[])
    ensures Elements(conflicts) == ConflictIds(completed, map[])
    ensures conflicts == [] <==> !Conflicted(completed)
  {
    var values: map<string, Value> := map[];
    conflicts := [];
    for i := 0 to |completed|
      invariant conflicts + ConflictList(completed[i..], values) == ConflictList(completed, map[])
    {
      assert completed[i..][0] == completed[i] && completed[i..][1..] == completed[i + 1..];
      var hits := ScanPayload(completed[i].0, completed[i].1.payload, values);
      conflicts := conflicts + hits;
      values := values + completed[i].1.payload;
    }
    ConflictListIds(completed, map[]);
    ConflictIdsEmpty(completed);
    assert conflicts != [] ==> conflicts[0] in Elements(conflicts);
  }

  /** The inner loop: one report for each key of the payload that clashes with an earlier value. */
  method ScanPayload(taskId: string, payload: map<string, Value>, values: map<string, Value>) returns (hits: seq<string>)
    ensures hits == Repeat(taskId, |ClashKeys(payload, values)|)
  {
    hide Repeat, ClashKeys, PyEqual, IsEvidence;
    hits := [];
    var keys := payload.Keys;
    ghost var all := ClashKeys(payload, values);
    assert Repeat(taskId, 0) == [] by {
      RepeatNone(taskId);
    }
    assert all - keys == {};
    while keys != {}
      invariant keys <= payload.Keys && hits == Repeat(taskId, |all - keys|)
    {
      var key :| key in keys;
      KeyScanned(payload, values, keys, key);
      RepeatElements(taskId, |all - keys|);
      if IsEvidence(key) && key in values && !PyEqual(values[key], payload[key]) {
        hits := hits + [taskId];
      }
      keys := keys - {key};
    }
    assert all - keys == all;
  }

  lemma RepeatNone(id: string)
    ensures Repeat(id, 0) == []
  {
  }

  /** Scanning one more key reports it exactly when it clashes. */
  lemma KeyScanned(payload: map<string, Value>, values: map<string, Value>, keys: set<string>, key: string)
    requires key in keys && key in payload
    ensures var all := ClashKeys(payload, values);
            |all - (keys - {key})| == |all - keys| + if IsEvidence(key) && key in values && !PyEqual(values[key], payload[key]) then 1 else 0
  {
    var all := ClashKeys(payload, values);
    assert all - (keys - {key}) == if key in all then all - keys + {key} else all - keys;
  }

  /** The scan stays silent exactly when no entry clashes with the seen values or a later entry. */
  lemma {:induction false} ScanSilent(c: Completed, values: map<string, Value>)
    ensures ConflictIds(c, values) == {} <==>
            (forall e :: e in c ==> !Clash(e.1.payload, values)) &&
            (forall e, f :: e in c && f in c ==> !Clash(e.1.payload, f.1.payload))
  {
    if c != [] {
      var head, rest := c[0].1.payload, c[1..];
      assert forall e :: e in c <==> e == c[0] || e in rest;
      ScanSilent(rest, values + head);
      if !Clash(head, values) {
        forall e | e in rest
          ensures Clash(e.1.payload, values + head) <==> Clash(e.1.payload, values) || Clash(e.1.payload, head)
        {
          MergedClash(e.1.payload, values, head);
        }
      }
      forall e | e in c
        ensures Clash(head, e.1.payload) <==> Clash(e.1.payload, head)
      {
        ClashSymmetric(head, e.1.payload);
      }
    }
  }

  lemma MergedClash(a: map<string, Value>, values: map<string, Value>, head: map<string, Value>)
    requires !Clash(head, values)
    ensures Clash(a, values + head) <==> Clash(a, values) || Clash(a, head)
  {
    if Clash(a, values) {
      var k :| k in a.Keys * values.Keys && IsEvidence(k) && !PyEqual(a[k], values[k]);
      assert k in head.Keys ==> k in head.Keys * values.Keys;
      assert k in a.Keys * (values + head).Keys && !PyEqual(a[k], (values + head)[k]);
    }
    if Clash(a, head) {
      var k :| k in a.Keys * head.Keys && IsEvidence(k) && !PyEqual(a[k], head[k]);
      assert k in a.Keys * (values + head).Keys && !PyEqual(a[k], (values + head)[k]);
    }
    if Clash(a, values + head) {
      var k :| k in a.Keys * (values + head).Keys && IsEvidence(k) && !PyEqual(a[k], (values + head)[k]);
      assert if k in head then k in a.Keys * head.Keys else k in a.Keys * values.Keys;
    }
  }

  lemma ClashSymmetric(a: map<string, Value>, b: map<string, Value>)
    ensures Clash(a, b) <==> Clash(b, a)
  {
    if Clash(a, b) {
      var k :| k in a.Keys * b.Keys && IsEvidence(k) && !PyEqual(a[k], b[k]);
      assert k in b.Keys * a.Keys;
    }
    if Clash(b, a) {
      var k :| k in b.Keys * a.Keys && IsEvidence(k) && !PyEqual(b[k], a[k]);
      assert k in a.Keys * b.Keys;
    }
  }

  /** Conflict detection reports something exactly when two completed results disagree. */
  lemma ConflictIdsEmpty(c: Completed)
    ensures ConflictIds(c, map[]) == {} <==> !Conflicted(c)
  {
    ScanSilent(c, map[]);
  }

  /** Hence the verdict does not depend on the iteration order of the dictionary. */
  lemma ConflictOrderIndependent(c: Completed, d: Completed)
    requires Elements(c) == Elements(d)
    ensures ConflictIds(c, map[]) == {} <==> ConflictIds(d, map[]) == {}
  {
    ConflictIdsEmpty(c);
    ConflictIdsEmpty(d);
    assert forall e :: e in c <==> e in Elements(c);
    assert forall e :: e in d <==> e in Elements(d);
  }

  lemma {:induction false} ConflictIdsAreCompleted(c: Completed, values: map<string, Value>)
    ensures ConflictIds(c, values) <= CompletedIds(c)
  {
    if c != [] {
      ConflictIdsAreCompleted(c[1..], values + c[0].1.payload);
      assert c[0] in c && forall e :: e in c[1..] ==> e in c;
    }
  }

  // ---------- what equality and clashes mean ----------

  /** Python's equality on the modelled values: booleans are the numbers 0 and 1, and lists never equal tuples. */
  lemma PyEqualLaws(a: Value, b: Value)
    ensures PyEqual(a, a) && (PyEqual(a, b) <==> PyEqual(b, a))
    ensures a.Text? && b.Text? ==> (PyEqual(a, b) <==> a.s == b.s)
    ensures a.Number? && b.Number? ==> (PyEqual(a, b) <==> a.n == b.n)
    ensures a.Flag? && b.Flag? ==> (PyEqual(a, b) <==> a.b == b.b)
    ensures a.Flag? && b.Number? ==> (PyEqual(a, b) <==> b.n == if a.b then 1 else 0)
    ensures a.Text? && !b.Text? ==> !PyEqual(a, b)
    ensures a.Group? && !b.Group? ==> !PyEqual(a, b)
    ensures a.Group? && b.Group? ==>
              (PyEqual(a, b) <==> a.isTuple == b.isTuple && |a.items| == |b.items| && forall i :: 0 <= i < |a.items| ==> PyEqual(a.items[i], b.items[i]))
  {
    if a.Group? && b.Group? {
      var ca, cb := Canon(a), Canon(b);
      assert |ca.items| == |a.items| && |cb.items| == |b.items|;
      if ca == cb {
        forall i | 0 <= i < |a.items|
          ensures PyEqual(a.items[i], b.items[i])
        {
          assert ca.items[i] == cb.items[i];
        }
      }
      if |a.items| == |b.items| && forall i :: 0 <= i < |a.items| ==> PyEqual(a.items[i], b.items[i]) {
        assert ca.items == cb.items;
      }
    }
  }

  /** Only keys that begin with "evidence." can clash, and they do when both sides have different values. */
  lemma ClashMeans(a: map<string, Value>, b: map<string, Value>)
    ensures Clash(a, b) <==> exists k :: k in a && k in b && |k| >= 9 && k[..9] == "evidence." && !PyEqual(a[k], b[k])
  {
    forall k
      ensures IsEvidence(k) <==> |k| >= 9 && k[..9] == "evidence."
    {
      assert |EVIDENCE_PREFIX| == 9;
    }
    if Clash(a, b) {
      var k :| k in a.Keys * b.Keys && IsEvidence(k) && !PyEqual(a[k], b[k]);
      assert k in a && k in b;
    }
    if k :| k in a && k in b && |k| >= 9 && k[..9] == "evidence." && !PyEqual(a[k], b[k]) {
      assert k in a.Keys * b.Keys;
    }
  }
}
