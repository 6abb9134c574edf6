/** Runs of small plans that show what the conditions of the other modules rule out. */
module RuntimeWitnesses {
  import opened Common
  import opened PlanOrder
  import opened Evidence
  import opened StoredForm
  import opened Runtime
  import opened RuntimeSafety
  import opened RuntimeFailures

  // ---------- two runs of a two-task plan ----------

  const FIRST := AgentTask("a", "agent", "skill", [])
  const SECOND := AgentTask("b", "agent", "skill", ["a"])

  function PairRequest(key: RequestKey): Request {
    Request(key, [FIRST, SECOND], "analyse", 10, 2, false)
  }

  /** A dispatcher that answers by the task, on a clock that stands still. */
  function Dying(answer: AgentTask -> Reply, dies: nat -> bool): Environment {
    Environment(map["agent" := Capability(["skill"], true)], true, 0, (t: AgentTask, n: nat) => answer(t), n => 0, dies)
  }

  /** The same without a crash. */
  function Scripted(answer: AgentTask -> Reply): Environment {
    Dying(answer, n => false)
  }

  lemma PairRunnable(answer: AgentTask -> Reply, dies: nat -> bool, key: RequestKey)
    ensures Orderable([FIRST, SECOND]) && OrderOf([FIRST, SECOND]) == Some([FIRST, SECOND])
    ensures Runnable(Dying(answer, dies), PairRequest(key))
  {
    var xs := [FIRST, SECOND];
    assert xs[..1] == [FIRST] && [FIRST][..0] == [];
    assert IdSet([FIRST]) == IdSet([]) + {"a"} && IdSet(xs) == IdSet([FIRST]) + {"b"};
    assert Elements(FIRST.dependsOn) == {} && Elements(SECOND.dependsOn) == {"a"};
    assert DistinctIds([FIRST]) && DependenciesFirst([FIRST]);
    assert Closed(xs, IdSet(xs));
    OrderOfOrdered(xs);
  }

  /** A dispatch with a scripted answer that settles at once. */
  lemma ScriptedDispatch(
      answer: AgentTask -> Reply, dies: nat -> bool, key: RequestKey, t: AgentTask, result: TaskResult, c: Checkpoint, w: World)
    requires !Transient(answer(t)) && Settle(t, answer(t)) == Ok(result)
    ensures var (w2, c1, verdict) := Dispatch(Dying(answer, dies), key, t, c, w);
            && (c1, verdict) == (Record(key, c, t, result).0, if Record(key, c, t, result).1 then Halt else Continue)
            && w2.disk == w.disk && w2.saves == w.saves
            && w2.episodes == w.episodes + [Episode(key, t, CompletedIds(c.completed), c.failed.Keys, 1)]
  {
    hide Record, AuditOf, CompletedIds, Transient, Settle;
    assert Retry(Dying(answer, dies), t, w.calls, 0, UNKNOWN_FAILURE) == (Ok(result), 1);
  }

  /** The loop reaches the dispatch of a task that is not settled. */
  lemma PendingDispatch(
      answer: AgentTask -> Reply, dies: nat -> bool, key: RequestKey, xs: seq<AgentTask>, i: nat, c: Checkpoint, deadline: nat, w: World)
    requires i < |xs| && xs[i].taskId !in CompletedIds(c.completed) && DispatchKey(key, xs[i].taskId) !in c.dispatched
    ensures RunTasks(Dying(answer, dies), key, xs, i, c, deadline, w)
         == AfterDispatch(Dying(answer, dies), key, xs, i, c, deadline, w.(ticks := w.ticks + 1))
  {
    hide AfterDispatch, DispatchKey, CompletedIds;
  }

  /** What follows a dispatch when the save succeeds. */
  lemma ScriptedAfter(answer: AgentTask -> Reply, dies: nat -> bool, key: RequestKey, xs: seq<AgentTask>, i: nat,
                      result: TaskResult, c: Checkpoint, deadline: nat, w: World)
      returns (w2: World)
    requires i < |xs| && !Transient(answer(xs[i])) && Settle(xs[i], answer(xs[i])) == Ok(result) && !dies(w.saves)
    ensures var (c1, stop) := Record(key, c, xs[i], result);
            && w2.disk == w.disk[key := Stored(c1)] && w2.saves == w.saves + 1
            && w2.episodes == w.episodes + [Episode(key, xs[i], CompletedIds(c.completed), c.failed.Keys, 1)]
            && var after := AfterDispatch(Dying(answer, dies), key, xs, i, c, deadline, w);
               if stop then after == (w2, Reported(MakeReport(c1, c1.status)))
               else after == RunTasks(Dying(answer, dies), key, xs, i + 1, c1, deadline, w2)
  {
    hide Record, Dispatch, RunTasks, Transient, Settle, CompletedIds, Stored, MakeReport;
    ScriptedDispatch(answer, dies, key, xs[i], result, c, w);
    var (w1, c1, _) := Dispatch(Dying(answer, dies), key, xs[i], c, w);
    w2 := Save(Dying(answer, dies), key, c1, w1).0;
  }

  /** What follows a dispatch when the process dies in the save. */
  lemma ScriptedCrash(answer: AgentTask -> Reply, dies: nat -> bool, key: RequestKey, xs: seq<AgentTask>, i: nat,
                      result: TaskResult, c: Checkpoint, deadline: nat, w: World)
    requires i < |xs| && !Transient(answer(xs[i])) && Settle(xs[i], answer(xs[i])) == Ok(result) && dies(w.saves)
    ensures var w2 := AfterDispatch(Dying(answer, dies), key, xs, i, c, deadline, w).0;
            w2.disk == w.disk && w2.saves == w.saves + 1
  {
    hide Record, Dispatch, RunTasks, Transient, Settle, CompletedIds, Stored, MakeReport;
    ScriptedDispatch(answer, dies, key, xs[i], result, c, w);
  }

  /** What a rejected first result leaves in the checkpoint. */
  function FirstFailed(key: RequestKey): Checkpoint {
    Checkpoint(FAILED, [], map["a" := "unsupported result status"], {DispatchKey(key, "a")}, false, false)
  }

  lemma FirstRejected(key: RequestKey, detail: string)
    ensures Record(key, FRESH, FIRST, FailedResult(FIRST, detail)) == (FirstFailed(key), true)
    ensures Stored(FirstFailed(key)) == FirstFailed(key)
  {
    hide DispatchKey;
    assert ValidateResult(FIRST, FailedResult(FIRST, detail)) == "unsupported result status";
    assert |"unsupported result status"| == 25;
    assert FRESH.dispatched + {DispatchKey(key, "a")} == FirstFailed(key).dispatched;
    assert FRESH.failed["a" := "unsupported result status"] == FirstFailed(key).failed;
  }

  /** The first call, when its result for the first task is rejected. */
  lemma FirstCallFails(answer: AgentTask -> Reply, key: RequestKey, detail: string)
    requires answer(FIRST) == Malformed(detail)
    ensures var w' := Step(Scripted(answer), Execute, PairRequest(key), START);
            |w'.episodes| == 1 && w'.disk == map[key := FirstFailed(key)]
  {
    hide Runnable, DispatchKey, Record, Stored, RunTasks, AfterDispatch, FirstFailed;
    var dies: nat -> bool := n => false;
    PairRunnable(answer, dies, key);
    FirstRejected(key, detail);
    var w1 := START.(ticks := 1);
    PendingDispatch(answer, dies, key, [FIRST, SECOND], 0, FRESH, 10, w1);
    var w2 := ScriptedAfter(answer, dies, key, [FIRST, SECOND], 0, FailedResult(FIRST, detail), FRESH, 10, w1.(ticks := 2));
    assert map[][key := FirstFailed(key)] == map[key := FirstFailed(key)];
  }

  /**
   * A plan in which a failed dependency is skipped: the first call ends with task "a" failed, and the
   * second call dispatches task "b", which depends on "a", although "a" has not completed.
   */
  lemma FailedDependencyIsSkipped(answer: AgentTask -> Reply, key: RequestKey, detail: string)
    requires answer(FIRST) == Malformed(detail)
    ensures var req := PairRequest(key);
            var w' := Run(Scripted(answer), [(Execute, req), (Execute, req)], START);
            && |w'.episodes| == 2 && w'.episodes[1].task == SECOND
            && w'.episodes[1].completed == {} && w'.episodes[1].failed == {"a"}
  {
    hide Runnable, Step;
    var env, req := Scripted(answer), PairRequest(key);
    var w1 := Step(env, Execute, req, START);
    FirstCallFails(answer, key, detail);
    SecondCallDispatches(answer, key, w1);
    var calls := [(Execute, req), (Execute, req)];
    assert calls[1..] == [(Execute, req)] && calls[1..][1..] == [];
    assert Run(env, calls[1..], w1) == Step(env, Execute, req, w1);
  }

  lemma SecondCallDispatches(answer: AgentTask -> Reply, key: RequestKey, w: World)
    requires |w.episodes| == 1 && w.disk == map[key := FirstFailed(key)]
    ensures var w' := Step(Scripted(answer), Execute, PairRequest(key), w);
            |w'.episodes| == 2 && w'.episodes[1].task == SECOND && w'.episodes[1].completed == {} && w'.episodes[1].failed == {"a"}
  {
    hide Runnable, DispatchKey, Record, Retry, AfterDispatch;
    var env, xs, c := Scripted(answer), [FIRST, SECOND], FirstFailed(key);
    var dies: nat -> bool := n => false;
    PairRunnable(answer, dies, key);
    SecondPending(key);
    var w2 := w.(ticks := w.ticks + 2);
    assert RunTasks(env, key, xs, 0, c, 10, w.(ticks := w.ticks + 1)) == RunTasks(env, key, xs, 1, c, 10, w2);
    PendingDispatch(answer, dies, key, xs, 1, c, 10, w2);
    SecondIsLast(answer, key, c, w2.(ticks := w.ticks + 3));
  }

  lemma SecondIsLast(answer: AgentTask -> Reply, key: RequestKey, c: Checkpoint, w: World)
    ensures var after := AfterDispatch(Scripted(answer), key, [FIRST, SECOND], 1, c, 10, w).0.episodes;
            |after| == |w.episodes| + 1 && after[|w.episodes|].task == SECOND
            && after[|w.episodes|].completed == CompletedIds(c.completed) && after[|w.episodes|].failed == c.failed.Keys
  {
    hide Record, Retry, AuditOf, CompletedIds, Stored, MakeReport;
  }

  lemma SecondPending(key: RequestKey)
    ensures DispatchKey(key, "b") !in {DispatchKey(key, "a")}
  {
    if DispatchKey(key, "b") == DispatchKey(key, "a") {
      DispatchKeyInjective(key, "b", "a");
    }
  }

  /** What the conflict of two valid results leaves in the checkpoint. */
  function Conflicting(key: RequestKey, ra: TaskResult, rb: TaskResult): Checkpoint {
    Checkpoint(CONFLICT, [("a", ra), ("b", rb)], map["b" := CONFLICT_MARK], {DispatchKey(key, "a"), DispatchKey(key, "b")}, false, false)
  }

  function FirstDone(key: RequestKey, ra: TaskResult): Checkpoint {
    FRESH.(completed := [("a", ra)], dispatched := {DispatchKey(key, "a")})
  }

  ghost predicate ClashingAnswers(answer: AgentTask -> Reply, ra: TaskResult, rb: TaskResult) {
    && answer(FIRST) == Answer(ra) && ValidateResult(FIRST, ra) == ""
    && answer(SECOND) == Answer(rb) && ValidateResult(SECOND, rb) == ""
    && Clash(rb.payload, ra.payload)
  }

  lemma FirstRecorded(key: RequestKey, ra: TaskResult)
    requires ValidateResult(FIRST, ra) == ""
    ensures Record(key, FRESH, FIRST, ra) == (FirstDone(key, ra), false)
  {
    hide ValidateResult, DispatchKey;
    assert FRESH.dispatched + {DispatchKey(key, "a")} == {DispatchKey(key, "a")};
    assert FRESH.completed + [("a", ra)] == [("a", ra)];
    assert ConflictIds([("a", ra)], map[]) == {} by {
      assert [("a", ra)][1..] == [];
    }
  }

  lemma SecondRecorded(key: RequestKey, ra: TaskResult, rb: TaskResult)
    requires ValidateResult(SECOND, rb) == "" && Clash(rb.payload, ra.payload)
    ensures Record(key, FirstDone(key, ra), SECOND, rb) == (Conflicting(key, ra, rb), true)
  {
    hide ValidateResult, DispatchKey, Clash, ConflictIds, Marked;
    ConflictOfBoth(ra, rb);
    MarkNone(map[]);
    MarkOne(map[], {}, "b");
    assert {} + {"b"} == {"b"};
    var c := FirstDone(key, ra);
    assert c.completed + [("b", rb)] == [("a", ra), ("b", rb)];
    assert c.dispatched + {DispatchKey(key, "b")} == Conflicting(key, ra, rb).dispatched;
  }

  lemma ConflictOfBoth(ra: TaskResult, rb: TaskResult)
    requires Clash(rb.payload, ra.payload)
    ensures ConflictIds([("a", ra), ("b", rb)], map[]) == {"b"}
  {
    hide Clash;
    var both := [("a", ra), ("b", rb)];
    assert both[1..] == [("b", rb)] && both[1..][1..] == [];
    assert map[] + ra.payload == ra.payload;
    assert !Clash(ra.payload, map[]) by {
      NothingClashes(ra.payload);
    }
    assert ConflictIds(both[1..], map[] + ra.payload) == {"b"};
  }

  lemma NothingClashes(payload: map<string, Value>)
    ensures !Clash(payload, map[])
  {
  }

  lemma ValidSettles(t: AgentTask, result: TaskResult)
    requires ValidateResult(t, result) == ""
    ensures !Transient(Answer(result)) && Settle(t, Answer(result)) == Ok(result)
  {
    assert result.status == "RETRYABLE_FAILURE" ==> |result.status| == 17;
  }

  /** The first call, when both results are valid and clash. */
  lemma FirstCallConflicts(answer: AgentTask -> Reply, key: RequestKey, ra: TaskResult, rb: TaskResult)
    requires ClashingAnswers(answer, ra, rb)
    ensures Load(Step(Scripted(answer), Execute, PairRequest(key), START).disk, key) == Stored(Conflicting(key, ra, rb))
  {
    hide Runnable, DispatchKey, Record, Stored, RunTasks, AfterDispatch, Clash, Conflicting, ValidateResult, Transient, Settle;
    var xs := [FIRST, SECOND];
    var dies: nat -> bool := n => false;
    PairRunnable(answer, dies, key);
    ValidSettles(FIRST, ra);
    ValidSettles(SECOND, rb);
    FirstRecorded(key, ra);
    SecondRecorded(key, ra, rb);
    SecondPending(key);
    var w1 := START.(ticks := 1);
    PendingDispatch(answer, dies, key, xs, 0, FRESH, 10, w1);
    var w2 := ScriptedAfter(answer, dies, key, xs, 0, ra, FRESH, 10, w1.(ticks := 2));
    PendingDispatch(answer, dies, key, xs, 1, FirstDone(key, ra), 10, w2);
    var w3 := ScriptedAfter(answer, dies, key, xs, 1, rb, FirstDone(key, ra), 10, w2.(ticks := w2.ticks + 1));
  }

  /**
   * A COMPLETED report over an open conflict: the first call ends with CONFLICT, and recovering from it
   * reports COMPLETED with the conflict still listed.
   */
  lemma ConflictReportedCompleted(answer: AgentTask -> Reply, key: RequestKey, ra: TaskResult, rb: TaskResult)
    requires ClashingAnswers(answer, ra, rb)
    ensures var env, req := Scripted(answer), PairRequest(key);
            var w := Step(env, Execute, req, START);
            && Load(w.disk, key).status == CONFLICT
            && Runnable(env, req)
            && var outcome := ExecuteOrdered(env, req, OrderOf(req.tasks).value, w).1;
               && outcome.Reported? && outcome.report.status == COMPLETED
               && outcome.report.completed == {"a", "b"} && outcome.report.conflicts == {"b"}
  {
    hide Runnable, Step, RunTasks, ClashingAnswers, Stored, Conflicting, MakeReport;
    var env, req := Scripted(answer), PairRequest(key);
    var w := Step(env, Execute, req, START);
    PairRunnable(answer, n => false, key);
    FirstCallConflicts(answer, key, ra, rb);
    StoredConflict(key, ra, rb);
    var c := Stored(Conflicting(key, ra, rb));
    AllCompletedReportsCompleted(env, key, req.tasks, 0, c, env.clock(w.ticks) + 10, w.(ticks := w.ticks + 1));
  }

  /** The conflicting checkpoint as it is read back, and the report that the next call makes from it. */
  lemma StoredConflict(key: RequestKey, ra: TaskResult, rb: TaskResult)
    ensures var c := Stored(Conflicting(key, ra, rb));
            && c.status == CONFLICT && !c.paused && !c.stopped && IdSet([FIRST, SECOND]) <= CompletedIds(c.completed)
            && MakeReport(c.(status := COMPLETED), COMPLETED).status == COMPLETED
            && MakeReport(c.(status := COMPLETED), COMPLETED).completed == {"a", "b"}
            && MakeReport(c.(status := COMPLETED), COMPLETED).conflicts == {"b"}
  {
    hide DispatchKey, SortByKey, ReadBack;
    StoredSettled(Conflicting(key, ra, rb));
    BothCompleted(ra, rb);
  }

  lemma BothCompleted(ra: TaskResult, rb: TaskResult)
    ensures CompletedIds([("a", ra), ("b", rb)]) == {"a", "b"} && IdSet([FIRST, SECOND]) == {"a", "b"}
  {
    var both := [("a", ra), ("b", rb)];
    assert both[0] in both && both[1] in both;
    assert IdSet([FIRST]) == IdSet([]) + {"a"} && [FIRST, SECOND][..1] == [FIRST];
  }

  // ---------- a crash that changes the verdict ----------

  /** Two valid results that agree in memory, while the second disagrees with the first one read back. */
  ghost predicate DivergingAnswers(answer: AgentTask -> Reply, ra: TaskResult, rb: TaskResult) {
    && answer(FIRST) == Answer(ra) && ValidateResult(FIRST, ra) == ""
    && answer(SECOND) == Answer(rb) && ValidateResult(SECOND, rb) == ""
    && !Clash(rb.payload, ra.payload) && Clash(rb.payload, JsonMap(ra.payload))
  }

  /** Both tasks report the same tuple. */
  function TupleResult(t: AgentTask): TaskResult {
    TaskResult(t.taskId, t.agentId, "COMPLETED", "evidence", map["evidence.ids" := Group(true, [Text("e1")])], map["source" := Text("model")], false)
  }

  lemma TuplesDiverge(answer: AgentTask -> Reply)
    requires forall t :: answer(t) == Answer(TupleResult(t))
    ensures DivergingAnswers(answer, TupleResult(FIRST), TupleResult(SECOND))
  {
    TupleValid(FIRST);
    TupleValid(SECOND);
    var payload := TupleResult(FIRST).payload;
    NoSelfClash(payload);
    assert !Canon(JsonForm(payload["evidence.ids"])).isTuple && Canon(payload["evidence.ids"]).isTuple;
    assert "evidence.ids" in payload.Keys * JsonMap(payload).Keys;
    assert EVIDENCE_PREFIX <= "evidence.ids";
  }

  lemma TupleValid(t: AgentTask)
    ensures ValidateResult(t, TupleResult(t)) == ""
  {
    hide JsonForm, Canon;
    var r := TupleResult(t);
    assert "source" in r.provenance && |"evidence"| > 0 && |"evidence.ids"| == 12 && |"fabricated_numeric_evidence"| == 27;
  }

  function BothDone(key: RequestKey, ra: TaskResult, rb: TaskResult): Checkpoint {
    FRESH.(completed := [("a", ra), ("b", rb)], dispatched := {DispatchKey(key, "a"), DispatchKey(key, "b")})
  }

  lemma SecondRecordedInMemory(key: RequestKey, ra: TaskResult, rb: TaskResult)
    requires ValidateResult(SECOND, rb) == "" && !Clash(rb.payload, ra.payload)
    ensures Record(key, FirstDone(key, ra), SECOND, rb) == (BothDone(key, ra, rb), false)
  {
    hide ValidateResult, DispatchKey, Clash, ConflictIds;
    assert ConflictIds([("a", ra), ("b", rb)], map[]) == {} by {
      NoConflictOfBoth(ra, rb);
    }
    var c := FirstDone(key, ra);
    assert c.completed + [("b", rb)] == [("a", ra), ("b", rb)];
    assert c.dispatched + {DispatchKey(key, "b")} == BothDone(key, ra, rb).dispatched;
  }

  lemma NoConflictOfBoth(ra: TaskResult, rb: TaskResult)
    requires !Clash(rb.payload, ra.payload)
    ensures ConflictIds([("a", ra), ("b", rb)], map[]) == {}
  {
    hide Clash;
    var both := [("a", ra), ("b", rb)];
    assert both[1..] == [("b", rb)] && both[1..][1..] == [];
    assert map[] + ra.payload == ra.payload;
    NothingClashes(ra.payload);
    assert ConflictIds(both[1..], map[] + ra.payload) == {};
  }

  /** The call that is not interrupted completes. */
  lemma UninterruptedCompletes(answer: AgentTask -> Reply, key: RequestKey, ra: TaskResult, rb: TaskResult)
    requires DivergingAnswers(answer, ra, rb)
    ensures var c := Load(Step(Scripted(answer), Execute, PairRequest(key), START).disk, key);
            c.status == COMPLETED && c.failed == map[]
  {
    hide Runnable, DispatchKey, Record, RunTasks, AfterDispatch, Clash, ValidateResult, Transient, Settle, SortByKey, ReadBack, JsonMap;
    var xs := [FIRST, SECOND];
    var dies: nat -> bool := n => false;
    PairRunnable(answer, dies, key);
    ValidSettles(FIRST, ra);
    ValidSettles(SECOND, rb);
    FirstRecorded(key, ra);
    SecondRecordedInMemory(key, ra, rb);
    SecondPending(key);
    var w1 := START.(ticks := 1);
    PendingDispatch(answer, dies, key, xs, 0, FRESH, 10, w1);
    var w2 := ScriptedAfter(answer, dies, key, xs, 0, ra, FRESH, 10, w1.(ticks := 2));
    PendingDispatch(answer, dies, key, xs, 1, FirstDone(key, ra), 10, w2);
    var w3 := ScriptedAfter(answer, dies, key, xs, 1, rb, FirstDone(key, ra), 10, w2.(ticks := w2.ticks + 1));
    LoopEnds(Scripted(answer), key, xs, BothDone(key, ra, rb), 10, w3);
  }

  lemma LoopEnds(env: Environment, key: RequestKey, xs: seq<AgentTask>, c: Checkpoint, deadline: int, w: World)
    ensures RunTasks(env, key, xs, |xs|, c, deadline, w) == SaveAndReport(env, key, c.(status := COMPLETED), w)
  {
  }

  /** The process dies in the second save: the first result is on the disk. */
  lemma InterruptedInSecondSave(answer: AgentTask -> Reply, key: RequestKey, ra: TaskResult, rb: TaskResult)
    requires DivergingAnswers(answer, ra, rb)
    ensures var w := Step(Dying(answer, n => n == 1), Execute, PairRequest(key), START);
            w.disk == map[key := Stored(FirstDone(key, ra))] && w.saves == 2
  {
    hide Runnable, DispatchKey, Record, RunTasks, AfterDispatch, Clash, ValidateResult, Transient, Settle, Stored, JsonMap;
    var xs := [FIRST, SECOND];
    var dies: nat -> bool := n => n == 1;
    PairRunnable(answer, dies, key);
    ValidSettles(FIRST, ra);
    ValidSettles(SECOND, rb);
    FirstRecorded(key, ra);
    SecondRecordedInMemory(key, ra, rb);
    SecondPending(key);
    var w1 := START.(ticks := 1);
    PendingDispatch(answer, dies, key, xs, 0, FRESH, 10, w1);
    var w2 := ScriptedAfter(answer, dies, key, xs, 0, ra, FRESH, 10, w1.(ticks := 2));
    PendingDispatch(answer, dies, key, xs, 1, FirstDone(key, ra), 10, w2);
    ScriptedCrash(answer, dies, key, xs, 1, rb, FirstDone(key, ra), 10, w2.(ticks := w2.ticks + 1));
    assert map[][key := Stored(FirstDone(key, ra))] == map[key := Stored(FirstDone(key, ra))];
  }

  lemma StoredFirstDone(key: RequestKey, ra: TaskResult)
    ensures Stored(FirstDone(key, ra)) == FirstDone(key, JsonResult(ra))
  {
    hide JsonResult, DispatchKey;
    var one := [("a", ra)];
    assert one[..0] == [] && ReadBack(one) == [("a", JsonResult(ra))];
    var x := ("a", JsonResult(ra));
    assert [x][..0] == [] && SortByKey([]) == [] && InsertByKey(x, []) == [x];
    assert SortByKey([x]) == [x];
  }

  /** The next call reads the first result back and finds a conflict. */
  lemma RecoveryConflicts(answer: AgentTask -> Reply, key: RequestKey, ra: TaskResult, rb: TaskResult, w: World)
    requires DivergingAnswers(answer, ra, rb)
    requires w.disk == map[key := Stored(FirstDone(key, ra))] && w.saves == 2
    ensures Load(Step(Dying(answer, n => n == 1), Recover, PairRequest(key), w).disk, key).status == CONFLICT
  {
    hide Runnable, DispatchKey, Record, AfterDispatch, Clash, ValidateResult, Transient, Settle, SortByKey, ReadBack, JsonResult;
    var xs, c := [FIRST, SECOND], FirstDone(key, JsonResult(ra));
    var dies: nat -> bool := n => n == 1;
    var env := Dying(answer, dies);
    PairRunnable(answer, dies, key);
    StoredFirstDone(key, ra);
    ValidSettles(SECOND, rb);
    JsonPayload(ra);
    SecondRecorded(key, JsonResult(ra), rb);
    SecondPending(key);
    var w1 := w.(ticks := w.ticks + 1);
    assert ("a", JsonResult(ra)) in c.completed && "a" in CompletedIds(c.completed);
    assert RunTasks(env, key, xs, 0, c, 10, w1) == RunTasks(env, key, xs, 1, c, 10, w1);
    PendingDispatch(answer, dies, key, xs, 1, c, 10, w1);
    var w2 := ScriptedAfter(answer, dies, key, xs, 1, rb, c, 10, w1.(ticks := w1.ticks + 1));
  }

  lemma JsonPayload(r: TaskResult)
    ensures JsonResult(r).payload == JsonMap(r.payload)
  {
  }

  /**
   * The same plan and the same dispatcher, two outcomes: a call that is not interrupted completes, and
   * one that dies in its second save and is recovered ends with CONFLICT.
   */
  lemma CrashInventsConflict(answer: AgentTask -> Reply, key: RequestKey, ra: TaskResult, rb: TaskResult)
    requires DivergingAnswers(answer, ra, rb)
    ensures var req := PairRequest(key);
            && Load(Run(Dying(answer, n => false), [(Execute, req)], START).disk, key).status == COMPLETED
            && Load(Run(Dying(answer, n => n == 1), [(Execute, req), (Recover, req)], START).disk, key).status == CONFLICT
  {
    hide Step, DivergingAnswers, Stored;
    var req := PairRequest(key);
    UninterruptedCompletes(answer, key, ra, rb);
    assert [(Execute, req)][1..] == [];
    InterruptedInSecondSave(answer, key, ra, rb);
    var env := Dying(answer, n => n == 1);
    var w := Step(env, Execute, req, START);
    RecoveryConflicts(answer, key, ra, rb, w);
    var calls := [(Execute, req), (Recover, req)];
    assert calls[1..] == [(Recover, req)] && calls[1..][1..] == [];
    assert Run(env, calls[1..], w) == Step(env, Recover, req, w);
  }

  /** Conversely, a tuple and an equal list clash in memory and no longer when both are read back. */
  lemma ReadBackLosesConflict()
    ensures var items := [Text("e1")];
            var c := [Probe("evidence.ids", Group(true, items)), Probe("evidence.ids", Group(false, items))];
            Conflicted(c) && !Conflicted(ReadBack(c))
  {
    var k, items := "evidence.ids", [Text("e1")];
    var tuple, list := Group(true, items), Group(false, items);
    var c := [Probe(k, tuple), Probe(k, list)];
    assert EVIDENCE_PREFIX <= k;
    assert Canon(tuple).isTuple && !Canon(list).isTuple;
    assert k in c[0].1.payload.Keys * c[1].1.payload.Keys;
    assert c[0] in c && c[1] in c && Clash(c[0].1.payload, c[1].1.payload);
    ReadBackEntries(c);
    assert JsonForm(tuple).items == JsonForm(list).items;
    assert JsonMap(c[0].1.payload) == JsonMap(c[1].1.payload);
    forall e, f | e in ReadBack(c) && f in ReadBack(c)
      ensures !Clash(e.1.payload, f.1.payload)
    {
      assert e.1.payload == f.1.payload;
      NoSelfClash(e.1.payload);
    }
  }
}
