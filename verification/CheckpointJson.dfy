/**
 * The checkpoint file: `to_dict`, canonical JSON and `from_dict`.
 *
 * Canonical JSON writes every object with its keys sorted, so an object is a map and reading it back
 * yields its items in key order.
 */
module CheckpointJson {
  import opened Common
  import opened Evidence
  import opened StoredForm
  import opened Runtime
  import opened RuntimeSafety

  datatype Json =
    | JBool(b: bool)
    | JNumber(n: int)
    | JString(s: string)
    | JStrings(strings: set<string>)  // a sorted array of distinct strings
    | JArray(items: seq<Json>)
    | JObject(members: map<string, Json>)

  // ---------- items of an object, in key order ----------

  ghost function SomeKey(m: map<string, TaskResult>): (k: string)
    requires m != map[]
    ensures k in m
  {
    assert m.Keys != {};
    var k :| k in m;
    k
  }

  /** The items in some order. */
  ghost function Listing(m: map<string, TaskResult>): Completed
    decreases m.Keys
  {
    if m == map[] then []
    else
      var k := SomeKey(m);
      Listing(m - {k}) + [(k, m[k])]
  }

  /** The items in the order in which the file has them. */
  ghost function Items(m: map<string, TaskResult>): Completed {
    SortByKey(Listing(m))
  }

  ghost function ItemSet(m: map<string, TaskResult>): set<(string, TaskResult)> {
    set k | k in m :: (k, m[k])
  }

  lemma ItemSetUpdate(m: map<string, TaskResult>, k: string, v: TaskResult)
    requires k !in m
    ensures ItemSet(m[k := v]) == ItemSet(m) + {(k, v)}
  {
    var n := m[k := v];
    forall e
      ensures e in ItemSet(n) <==> e in ItemSet(m) + {(k, v)}
    {
      if e in ItemSet(m) {
        assert e.0 in n && n[e.0] == e.1;
      }
      if e == (k, v) {
        assert k in n && n[k] == v;
      }
    }
  }

  /** Listing the items loses nothing and repeats nothing. */
  lemma {:induction false} ListingComplete(m: map<string, TaskResult>)
    ensures Elements(Listing(m)) == ItemSet(m) && CompletedIds(Listing(m)) == m.Keys && DistinctKeys(Listing(m))
    decreases m.Keys
  {
    if m != map[] {
      var k := SomeKey(m);
      ListingComplete(m - {k});
      ElementsConcat(Listing(m - {k}), [(k, m[k])]);
      AppendCompleted(Listing(m - {k}), k, m[k]);
      ItemSetUpdate(m - {k}, k, m[k]);
      assert (m - {k})[k := m[k]] == m;
      assert Listing(m)[..|Listing(m)| - 1] == Listing(m - {k});
    }
  }

  lemma ItemsComplete(m: map<string, TaskResult>)
    ensures Elements(Items(m)) == ItemSet(m) && KeySorted(Items(m))
  {
    ListingComplete(m);
    SortElements(Listing(m));
    SortSorted(Listing(m));
  }

  // ---------- to_dict ----------

  function DictOf(c: Completed): map<string, TaskResult> {
    if c == [] then map[] else DictOf(c[..|c| - 1])[c[|c| - 1].0 := c[|c| - 1].1]
  }

  lemma {:induction false} DictOfItems(c: Completed)
    requires DistinctKeys(c)
    ensures Elements(c) == ItemSet(DictOf(c)) && DictOf(c).Keys == CompletedIds(c)
  {
    if c != [] {
      var front, last := c[..|c| - 1], c[|c| - 1];
      assert c == front + [last];
      DictOfItems(front);
      ElementsConcat(front, [last]);
      AppendCompleted(front, last.0, last.1);
      ItemSetUpdate(DictOf(front), last.0, last.1);
    }
  }

  /** The items of the written object are the sorted dictionary. */
  lemma ItemsAreSorted(c: Completed)
    requires DistinctKeys(c)
    ensures Items(DictOf(c)) == SortByKey(c)
  {
    DictOfItems(c);
    ItemsComplete(DictOf(c));
    SortElements(c);
    SortSorted(c);
    SortedUnique(Items(DictOf(c)), SortByKey(c));
  }

  function StatusName(s: Status): string {
    match s
    case RUNNING => "RUNNING"
    case PAUSED => "PAUSED"
    case STOPPED => "STOPPED"
    case TIMEOUT => "TIMEOUT"
    case FAILED => "FAILED"
    case CONFLICT => "CONFLICT"
    case COMPLETED => "COMPLETED"
  }

  function ValueJson(v: Value): Json {
    match v
    case Flag(b) => JBool(b)
    case Number(n) => JNumber(n)
    case Text(s) => JString(s)
    case Group(_, items) => JArray(seq(|items|, i requires 0 <= i < |items| => ValueJson(items[i])))
  }

  function ValuesJson(m: map<string, Value>): Json {
    JObject(map k | k in m :: ValueJson(m[k]))
  }

  function ResultJson(r: TaskResult): Json {
    JObject(map["task_id" := JString(r.taskId), "agent_id" := JString(r.agentId), "status" := JString(r.status),
                "evidence_reference" := JString(r.evidenceReference), "payload" := ValuesJson(r.payload),
                "provenance" := ValuesJson(r.provenance), "retryable" := JBool(r.retryable)])
  }

  function ToDict(key: RequestKey, c: Checkpoint): map<string, Json> {
    var results := DictOf(c.completed);
    map["request_id" := JString(key.requestId), "idempotency_key" := JString(key.idempotencyKey),
        "status" := JString(StatusName(c.status)),
        "completed" := JObject(map id | id in results :: ResultJson(results[id])),
        "failed" := JObject(map id | id in c.failed :: JString(c.failed[id])),
        "dispatched_idempotency_keys" := JStrings(c.dispatched),
        "paused" := JBool(c.paused), "stopped" := JBool(c.stopped)]
  }

  // ---------- from_dict ----------

  function StatusOf(s: string): Option<Status> {
    if s == "RUNNING" then Some(RUNNING) else if s == "PAUSED" then Some(PAUSED) else if s == "STOPPED" then Some(STOPPED)
    else if s == "TIMEOUT" then Some(TIMEOUT) else if s == "FAILED" then Some(FAILED) else if s == "CONFLICT" then Some(CONFLICT)
    else if s == "COMPLETED" then Some(COMPLETED) else None
  }

  function StringAt(m: map<string, Json>, key: string): Option<string> {
    if key in m && m[key].JString? then Some(m[key].s) else None
  }

  /** `bool(payload.get(key, False))`. */
  function FlagAt(m: map<string, Json>, key: string): bool {
    key in m && m[key].JBool? && m[key].b
  }

  function ObjectAt(m: map<string, Json>, key: string): map<string, Json> {
    if key in m && m[key].JObject? then m[key].members else map[]
  }

  function ValueOf(j: Json): Option<Value> {
    match j
    case JBool(b) => Some(Flag(b))
    case JNumber(n) => Some(Number(n))
    case JString(s) => Some(Text(s))
    case JArray(items) =>
      if forall i :: 0 <= i < |items| ==> ValueOf(items[i]).Some? then
        Some(Group(false, seq(|items|, i requires 0 <= i < |items| => ValueOf(items[i]).value)))
      else None
    case _ => None
  }

  function ValuesOf(m: map<string, Json>): map<string, Value> {
    map k | k in m && ValueOf(m[k]).Some? :: ValueOf(m[k]).value
  }

  /** One entry of `completed`; None is the KeyError for a missing field. */
  function ResultOf(j: Json): Option<TaskResult> {
    if !j.JObject? then None
    else
      var m := j.members;
      var task, agent, status, evidence := StringAt(m, "task_id"), StringAt(m, "agent_id"), StringAt(m, "status"), StringAt(m, "evidence_reference");
      if task.None? || agent.None? || status.None? || evidence.None? || "payload" !in m || "provenance" !in m then None
      else Some(TaskResult(task.value, agent.value, status.value, evidence.value,
                           ValuesOf(ObjectAt(m, "payload")), ValuesOf(ObjectAt(m, "provenance")), FlagAt(m, "retryable")))
  }

  function ResultsOf(completed: map<string, Json>): map<string, TaskResult> {
    map id | id in completed && ResultOf(completed[id]).Some? :: ResultOf(completed[id]).value
  }

  ghost function FromDict(m: map<string, Json>): Option<(RequestKey, Checkpoint)> {
    var request, idem, status := StringAt(m, "request_id"), StringAt(m, "idempotency_key"), StringAt(m, "status");
    var completed, failed := ObjectAt(m, "completed"), ObjectAt(m, "failed");
    if request.None? || idem.None? || status.None? || StatusOf(status.value).None? then None
    else if exists id :: id in completed && ResultOf(completed[id]).None? then None
    else
      Some((RequestKey(request.value, idem.value),
            Checkpoint(StatusOf(status.value).value,
                       Items(ResultsOf(completed)),
                       map id | id in failed && failed[id].JString? :: failed[id].s,
                       if "dispatched_idempotency_keys" in m && m["dispatched_idempotency_keys"].JStrings? then m["dispatched_idempotency_keys"].strings else {},
                       FlagAt(m, "paused"), FlagAt(m, "stopped"))))
  }

  // ---------- the round trip ----------

  /** Reading a written value gives its JSON form. */
  lemma {:induction false} ValueRoundTrip(v: Value)
    ensures ValueOf(ValueJson(v)) == Some(JsonForm(v))
  {
    if v.Group? {
      var written := ValueJson(v).items;
      forall i | 0 <= i < |v.items|
        ensures ValueOf(written[i]) == Some(JsonForm(v.items[i]))
      {
        ValueRoundTrip(v.items[i]);
      }
      assert ValueOf(ValueJson(v)).value.items == JsonForm(v).items;
    }
  }

  lemma ValuesRoundTrip(m: map<string, Value>)
    ensures ValuesOf(ValuesJson(m).members) == JsonMap(m)
  {
    forall k | k in m
      ensures ValueOf(ValueJson(m[k])) == Some(JsonForm(m[k]))
    {
      ValueRoundTrip(m[k]);
    }
  }

  /** The fields of a written result. */
  lemma ResultFields(r: TaskResult)
    ensures ResultJson(r).JObject?
    ensures var m := ResultJson(r).members;
            && StringAt(m, "task_id") == Some(r.taskId) && StringAt(m, "agent_id") == Some(r.agentId) && StringAt(m, "status") == Some(r.status)
            && StringAt(m, "evidence_reference") == Some(r.evidenceReference) && FlagAt(m, "retryable") == r.retryable
            && "payload" in m && m["payload"] == ValuesJson(r.payload) && "provenance" in m && m["provenance"] == ValuesJson(r.provenance)
  {
    hide ValuesJson;
  }

  lemma ResultRoundTrip(r: TaskResult)
    ensures ResultOf(ResultJson(r)) == Some(JsonResult(r))
  {
    hide ValuesOf, ValuesJson, JsonMap;
    ValuesRoundTrip(r.payload);
    ValuesRoundTrip(r.provenance);
    assert ValuesJson(r.payload).JObject? && ValuesJson(r.provenance).JObject? by {
      ValuesAreObject(r.payload);
      ValuesAreObject(r.provenance);
    }
  }

  lemma ValuesAreObject(m: map<string, Value>)
    ensures ValuesJson(m).JObject?
  {
  }

  lemma StatusRoundTrip(s: Status)
    ensures StatusOf(StatusName(s)) == Some(s)
  {
    assert |"RUNNING"| == 7 && |"STOPPED"| == 7 && |"TIMEOUT"| == 7;
    assert "RUNNING"[0] == 'R' && "STOPPED"[0] == 'S' && "TIMEOUT"[0] == 'T' && "PAUSED"[0] == 'P' && "FAILED"[0] == 'F';
    assert |"PAUSED"| == 6 && |"FAILED"| == 6 && |"CONFLICT"| == 8 && |"COMPLETED"| == 9;
  }

  /** A file without its ids or its status is refused; absent dictionaries and flags read as empty and false. */
  lemma MissingFields(m: map<string, Json>)
    ensures "request_id" !in m || "idempotency_key" !in m || "status" !in m ==> FromDict(m) == None
    ensures FromDict(m).Some? ==>
              var c := FromDict(m).value.1;
              && ("failed" !in m ==> c.failed == map[]) && ("completed" !in m ==> c.completed == [])
              && ("dispatched_idempotency_keys" !in m ==> c.dispatched == {}) && ("paused" !in m ==> !c.paused) && ("stopped" !in m ==> !c.stopped)
  {
    hide StatusOf, ResultOf;
    NoItems();
  }

  lemma NoItems()
    ensures Items(ResultsOf(map[])) == []
  {
    assert ResultsOf(map[]) == map[];
  }

  function JsonResults(m: map<string, TaskResult>): map<string, TaskResult> {
    map id | id in m :: JsonResult(m[id])
  }

  lemma {:induction false} DictOfReadBack(c: Completed)
    ensures DictOf(ReadBack(c)) == JsonResults(DictOf(c))
  {
    if c != [] {
      DictOfReadBack(c[..|c| - 1]);
      var last := (c[|c| - 1].0, JsonResult(c[|c| - 1].1));
      assert (ReadBack(c[..|c| - 1]) + [last])[..|ReadBack(c[..|c| - 1])|] == ReadBack(c[..|c| - 1]);
    }
  }

  lemma WrittenAndRead(key: RequestKey, c: Checkpoint)
    ensures FromDict(ToDict(key, c)) == Some((key, c.(completed := Items(JsonResults(DictOf(c.completed))))))
  {
    hide ToDict, StatusOf, StatusName, ResultOf, ResultJson, JsonResult, DictOf, Items, ObjectAt, StringAt, FlagAt;
    var m, results := ToDict(key, c), DictOf(c.completed);
    Fields(key, c);
    StatusRoundTrip(c.status);
    var completed, failed := ObjectAt(m, "completed"), ObjectAt(m, "failed");
    forall id | id in results
      ensures ResultOf(completed[id]) == Some(JsonResult(results[id]))
    {
      ResultRoundTrip(results[id]);
    }
    assert ResultsOf(completed) == JsonResults(results);
    assert (map id | id in failed && failed[id].JString? :: failed[id].s) == c.failed;
  }

  /** Every field of the written object, as `from_dict` looks it up. */
  lemma Fields(key: RequestKey, c: Checkpoint)
    ensures var m, results := ToDict(key, c), DictOf(c.completed);
            && StringAt(m, "request_id") == Some(key.requestId) && StringAt(m, "idempotency_key") == Some(key.idempotencyKey)
            && StringAt(m, "status") == Some(StatusName(c.status))
            && ObjectAt(m, "completed") == (map id | id in results :: ResultJson(results[id]))
            && ObjectAt(m, "failed") == (map id | id in c.failed :: JString(c.failed[id]))
            && "dispatched_idempotency_keys" in m && m["dispatched_idempotency_keys"] == JStrings(c.dispatched)
            && FlagAt(m, "paused") == c.paused && FlagAt(m, "stopped") == c.stopped
  {
    hide ResultJson, DictOf;
  }

  /**
   * Reading a written checkpoint gives exactly what the model keeps on its disk: the same key, status,
   * flags, failures and dispatch keys, and the completed dictionary in key order with every result in its
   * JSON form.  The entries are the same if and only if JSON changes none of their values.
   */
  lemma CheckpointRoundTrip(key: RequestKey, c: Checkpoint)
    requires DistinctKeys(c.completed)
    ensures FromDict(ToDict(key, c)) == Some((key, Stored(c))) && Stored(c) == c.(completed := Stored(c).completed)
    ensures Elements(Stored(c).completed) == Elements(ReadBack(c.completed))
    ensures Elements(Stored(c).completed) == Elements(c.completed) <==> Readable(c.completed)
  {
    hide ToDict, FromDict, DictOf, Items, Readable, JsonResults;
    WrittenAndRead(key, c);
    DictOfReadBack(c.completed);
    ReadBackDistinct(c.completed);
    ItemsAreSorted(ReadBack(c.completed));
    StoredSettled(c);
    SameEntries(c.completed);
  }

  lemma SameEntries(c: Completed)
    ensures Elements(ReadBack(c)) == Elements(c) <==> Readable(c)
  {
    hide JsonResult;
    if Elements(ReadBack(c)) == Elements(c) {
      forall e | e in c
        ensures JsonResult(e.1) == e.1
      {
        assert e in Elements(ReadBack(c));
        ReadBackEntry(c, e);
        var f :| f in c && e == (f.0, JsonResult(f.1));
        JsonResultIdempotent(f.1);
      }
    }
    if Readable(c) {
      ReadableUnchanged(c);
    }
  }

  lemma ReadableUnchanged(c: Completed)
    requires Readable(c)
    ensures ReadBack(c) == c
  {
    hide JsonResult;
    ReadBackEntries(c);
    forall i | 0 <= i < |c|
      ensures ReadBack(c)[i] == c[i]
    {
      assert c[i] in c;
    }
  }

  /**
   * In every run, each checkpoint file reads back as the checkpoint on the model's disk, with no entry
   * lost to a repeated key.
   */
  lemma DiskIsReadBack(env: Environment, cmds: seq<(Command, Request)>, w: World, key: RequestKey)
    requires AllSound(env, w.disk, w.audit) && key in Run(env, cmds, w).disk
    ensures var c := Run(env, cmds, w).disk[key];
            DistinctKeys(c.completed) && FromDict(ToDict(key, c)) == Some((key, c))
  {
    hide ToDict, FromDict, Run, Accounted, Audited, Readable, Consistent, StableDispatcher;
    RunSound(env, cmds, w);
    var c := Run(env, cmds, w).disk[key];
    CheckpointRoundTrip(key, c);
    ReadableUnchanged(c.completed);
    SortElements(c.completed);
    SortSorted(c.completed);
    SortedUnique(SortByKey(c.completed), c.completed);
  }

  /**
   * What becomes of the conflict verdict.  With the checkpoint read back, the verdict on every further
   * result is the one in memory if and only if every evidence value equals its JSON form, or, when there
   * is a conflict already, if and only if it is still one.
   */
  lemma VerdictSurvives(key: RequestKey, c: Checkpoint)
    requires DistinctKeys(c.completed)
    ensures FromDict(ToDict(key, c)).Some?
    ensures var d := FromDict(ToDict(key, c)).value.1.completed;
            (forall r :: Conflicted(d + [r]) <==> Conflicted(c.completed + [r])) <==>
            if Conflicted(c.completed) then Conflicted(d) else StableEvidence(c.completed)
  {
    hide ToDict, FromDict, Conflicted, StableEvidence, Stored, Readable;
    CheckpointRoundTrip(key, c);
    var d, memory := Stored(c).completed, c.completed;
    SameElementsSameConflict(d, ReadBack(memory));
    forall r
      ensures Conflicted(d + [r]) <==> Conflicted(ReadBack(memory) + [r])
    {
      ElementsConcat(d, [r]);
      ElementsConcat(ReadBack(memory), [r]);
      SameElementsSameConflict(d + [r], ReadBack(memory) + [r]);
    }
    VerdictsAgreeExactly(memory);
    assert VerdictsAgree(memory) <==> forall r :: Conflicted(d + [r]) <==> Conflicted(memory + [r]);
  }

  lemma SameElementsSameConflict(c: Completed, d: Completed)
    requires Elements(c) == Elements(d)
    ensures Conflicted(c) <==> Conflicted(d)
  {
    ConflictIdsEmpty(c);
    ConflictIdsEmpty(d);
    ConflictOrderIndependent(c, d);
  }
}
