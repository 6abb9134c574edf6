/** What every run of the checkpointed executor keeps, with or without failed tasks. */
module RuntimeSafety {
  import opened Common
  import opened PlanOrder
  import opened Evidence
  import opened StoredForm
  import opened Runtime

  /** The tasks that a checkpoint will not dispatch again. */
  ghost function Settled(c: Checkpoint): set<string> {
    CompletedIds(c.completed) + c.failed.Keys
  }

  /** The accounting invariant: dispatched = completed + failed. */
  ghost predicate Accounted(key: RequestKey, c: Checkpoint) {
    c.dispatched == set id | id in Settled(c) :: DispatchKey(key, id)
  }

  lemma DispatchKeyInjective(key: RequestKey, a: string, b: string)
    requires DispatchKey(key, a) == DispatchKey(key, b)
    ensures a == b
  {
    var prefix := key.idempotencyKey + ":";
    assert DispatchKey(key, a)[|prefix|..] == a && DispatchKey(key, b)[|prefix|..] == b;
  }

  lemma AccountedMembership(key: RequestKey, c: Checkpoint, id: string)
    requires Accounted(key, c)
    ensures DispatchKey(key, id) in c.dispatched <==> id in Settled(c)
  {
    if DispatchKey(key, id) in c.dispatched {
      var other :| other in Settled(c) && DispatchKey(key, other) == DispatchKey(key, id);
      DispatchKeyInjective(key, id, other);
    }
  }

  /** The reported dispatch count is the number of settled tasks. */
  lemma DispatchCount(key: RequestKey, c: Checkpoint, status: Status)
    requires Accounted(key, c)
    ensures MakeReport(c, status).dispatchCount == |Settled(c)|
  {
    KeyImageSize(key, Settled(c));
  }

  lemma {:induction false} KeyImageSize(key: RequestKey, ids: set<string>)
    ensures |set id | id in ids :: DispatchKey(key, id)| == |ids|
  {
    if ids != {} {
      var id :| id in ids;
      var rest := ids - {id};
      KeyImageSize(key, rest);
      DispatchKeysGrow(key, rest, id);
      assert rest + {id} == ids;
      if other :| other in rest && DispatchKey(key, other) == DispatchKey(key, id) {
        DispatchKeyInjective(key, other, id);
      }
    }
  }

  lemma StoredSettled(c: Checkpoint)
    ensures CompletedIds(Stored(c).completed) == CompletedIds(c.completed) && Settled(Stored(c)) == Settled(c)
    ensures Elements(Stored(c).completed) == Elements(ReadBack(c.completed))
  {
    ReadBackEntries(c.completed);
    SortElements(ReadBack(c.completed));
  }

  /** Every stored entry is the JSON form of an entry in memory. */
  lemma StoredEntry(c: Checkpoint, e: (string, TaskResult)) returns (f: (string, TaskResult))
    requires e in Stored(c).completed
    ensures f in c.completed && e == (f.0, JsonResult(f.1))
  {
    StoredSettled(c);
    assert e in Elements(Stored(c).completed);
    ReadBackEntry(c.completed, e);
    f :| f in c.completed && e == (f.0, JsonResult(f.1));
  }

  // ---------- one dispatch ----------

  lemma AppendCompleted(c: Completed, id: string, result: TaskResult)
    ensures CompletedIds(c + [(id, result)]) == CompletedIds(c) + {id}
  {
    var grown := c + [(id, result)];
    assert forall e :: e in grown <==> e in c || e == (id, result);
    assert (id, result) in grown;
  }

  /** Either the task failed, or it was completed and some completed tasks may be marked as conflicting. */
  lemma RecordShape(key: RequestKey, c: Checkpoint, task: AgentTask, result: TaskResult)
    ensures var (c1, stop) := Record(key, c, task, result);
            var grown := c.completed + [(task.taskId, result)];
            && c1.dispatched == c.dispatched + {DispatchKey(key, task.taskId)}
            && ((stop && c1.completed == c.completed && c1.failed.Keys == c.failed.Keys + {task.taskId})
                || (c1.completed == grown && c.failed.Keys <= c1.failed.Keys <= c.failed.Keys + CompletedIds(grown)))
            && (!stop ==> c1.failed == c.failed)
  {
    hide ConflictIds, ValidateResult, DispatchKey, CompletedIds;
    ConflictIdsAreCompleted(c.completed + [(task.taskId, result)], map[]);
  }

  /** A recorded result settles its task and no other; unless the run stops, it was completed. */
  lemma RecordSettles(key: RequestKey, c: Checkpoint, task: AgentTask, result: TaskResult)
    ensures var (c1, stop) := Record(key, c, task, result);
            && Settled(c1) == Settled(c) + {task.taskId}
            && c1.dispatched == c.dispatched + {DispatchKey(key, task.taskId)}
            && (c1.completed == c.completed || c1.completed == c.completed + [(task.taskId, result)])
            && (!stop ==> c1.failed == c.failed && c1.completed != c.completed)
  {
    hide Record, DispatchKey, CompletedIds;
    RecordShape(key, c, task, result);
    AppendCompleted(c.completed, task.taskId, result);
  }

  lemma RecordAccounted(key: RequestKey, c: Checkpoint, task: AgentTask, result: TaskResult)
    requires Accounted(key, c)
    ensures Accounted(key, Record(key, c, task, result).0)
  {
    RecordSettles(key, c, task, result);
    DispatchKeysGrow(key, Settled(c), task.taskId);
  }

  lemma DispatchKeysGrow(key: RequestKey, ids: set<string>, id: string)
    ensures (set x | x in ids + {id} :: DispatchKey(key, x)) == (set x | x in ids :: DispatchKey(key, x)) + {DispatchKey(key, id)}
  {
  }

  // ---------- the dispatcher as a function of the task ----------

  ghost predicate FunctionalDispatcher(env: Environment) {
    forall t, m, n :: env.dispatcher(t, m) == env.dispatcher(t, n)
  }

  function AnswerOf(env: Environment, task: AgentTask): Result<TaskResult, string> {
    Retry(env, task, 0, 0, UNKNOWN_FAILURE).0
  }

  lemma {:induction false} RetryStable(env: Environment, task: AgentTask, from: nat, other: nat, attempts: nat, lastError: string)
    requires FunctionalDispatcher(env)
    ensures Retry(env, task, from, attempts, lastError) == Retry(env, task, other, attempts, lastError)
    decreases env.maxRetries + 1 - attempts
  {
    if attempts <= env.maxRetries {
      assert env.dispatcher(task, from) == env.dispatcher(task, other);
      RetryStable(env, task, from + 1, other + 1, attempts + 1, FailureText(env.dispatcher(task, from)));
    }
  }

  /** The entry is the dispatcher's answer for the task, up to what JSON changes. */
  ghost predicate IsAnswer(env: Environment, t: AgentTask, e: (string, TaskResult)) {
    e.0 == t.taskId && AnswerOf(env, t).Ok? && JsonResult(e.1) == JsonResult(AnswerOf(env, t).value)
  }

  /** Every completed entry is the dispatcher's answer for a task of the plan. */
  ghost predicate AnswersOnly(env: Environment, xs: seq<AgentTask>, completed: Completed) {
    forall e :: e in completed ==> exists t :: t in xs && IsAnswer(env, t, e)
  }

  /** Reading the entries back changes none of them. */
  ghost predicate Readable(completed: Completed) {
    forall e :: e in completed ==> JsonResult(e.1) == e.1
  }

  lemma StoredAnswers(env: Environment, xs: seq<AgentTask>, c: Checkpoint)
    ensures AnswersOnly(env, xs, c.completed) ==> AnswersOnly(env, xs, Stored(c).completed)
    ensures Readable(Stored(c).completed)
  {
    hide AnswerOf, Stored;
    forall e | e in Stored(c).completed
      ensures JsonResult(e.1) == e.1
      ensures AnswersOnly(env, xs, c.completed) ==> exists t :: t in xs && IsAnswer(env, t, e)
    {
      var f := StoredEntry(c, e);
      JsonResultIdempotent(f.1);
      if AnswersOnly(env, xs, c.completed) {
        var t :| t in xs && IsAnswer(env, t, f);
        assert IsAnswer(env, t, e);
      }
    }
  }

  // ---------- the invariant of a run over one plan ----------

  /** `c` has settled exactly the first `k` tasks of the order. */
  ghost predicate Position(key: RequestKey, xs: seq<AgentTask>, c: Checkpoint, k: nat) {
    k <= |xs| && Settled(c) == IdSet(xs[..k]) && Accounted(key, c)
  }

  ghost predicate CheckpointAt(env: Environment, key: RequestKey, xs: seq<AgentTask>, c: Checkpoint, k: nat) {
    && Position(key, xs, c, k)
    && (FunctionalDispatcher(env) ==> AnswersOnly(env, xs, c.completed))
  }

  function MaxCalls(env: Environment): nat {
    if env.maxRetries >= 0 then env.maxRetries + 1 else 0
  }

  /** A dispatch happened when exactly the tasks ordered before it were settled. */
  ghost predicate EpisodeInOrder(env: Environment, xs: seq<AgentTask>, e: Episode) {
    && e.calls <= MaxCalls(env)
    && exists j :: 0 <= j < |xs| && e.task == xs[j] && e.completed + e.failed == IdSet(xs[..j])
  }

  ghost predicate InOrder(env: Environment, xs: seq<AgentTask>, episodes: seq<Episode>) {
    forall e :: e in episodes ==> EpisodeInOrder(env, xs, e)
  }

  /** A task that had failed when something was dispatched is still on record as failed. */
  ghost predicate FailuresKept(episodes: seq<Episode>, failed: set<string>) {
    forall e :: e in episodes ==> e.failed <= failed
  }

  /** The dispatches made for one request key. */
  ghost function Mine(key: RequestKey, episodes: seq<Episode>): seq<Episode> {
    if episodes == [] then []
    else
      Mine(key, episodes[..|episodes| - 1]) + if episodes[|episodes| - 1].key == key then [episodes[|episodes| - 1]] else []
  }

  lemma MineAppend(key: RequestKey, episodes: seq<Episode>, e: Episode)
    ensures Mine(key, episodes + [e]) == Mine(key, episodes) + if e.key == key then [e] else []
  {
    assert (episodes + [e])[..|episodes|] == episodes;
  }

  /** The state between two public calls. */
  ghost predicate Progress(env: Environment, key: RequestKey, xs: seq<AgentTask>, w: World, k: nat) {
    && k <= |xs| && CheckpointAt(env, key, xs, Load(w.disk, key), k)
    && Readable(Load(w.disk, key).completed)
    && History(env, key, xs, w, k)
  }

  /** The dispatches so far, when `k` tasks are settled. */
  ghost predicate History(env: Environment, key: RequestKey, xs: seq<AgentTask>, w: World, k: nat) {
    && |Mine(key, w.episodes)| <= k + w.crashes
    && InOrder(env, xs, Mine(key, w.episodes))
    && FailuresKept(Mine(key, w.episodes), Load(w.disk, key).failed.Keys)
  }

  /** The checkpoint in memory has failed the same tasks as the one on the disk. */
  ghost predicate InStep(key: RequestKey, c: Checkpoint, w: World) {
    c.failed.Keys == Load(w.disk, key).failed.Keys
  }

  ghost predicate Ordering(xs: seq<AgentTask>) {
    DependenciesFirst(xs) && DistinctIds(xs)
  }

  /** Saving keeps the state, whether or not the process survives the save. */
  lemma SaveProgress(env: Environment, key: RequestKey, xs: seq<AgentTask>, c: Checkpoint, w: World, before: nat, k: nat)
    requires CheckpointAt(env, key, xs, Load(w.disk, key), before) && CheckpointAt(env, key, xs, c, k) && before <= k <= before + 1
    requires Readable(Load(w.disk, key).completed)
    requires History(env, key, xs, w, k) && Load(w.disk, key).failed.Keys <= c.failed.Keys
    ensures var (w', saved) := Save(env, key, c, w);
            && Progress(env, key, xs, w', if saved then k else before)
            && (saved ==> InStep(key, c, w'))
  {
    hide FunctionalDispatcher, AnswersOnly, Readable, DispatchKey, InOrder, IdSet;
    StoredSettled(c);
    StoredAnswers(env, xs, c);
    FailuresGrow(Mine(key, w.episodes), Load(w.disk, key).failed.Keys, c.failed.Keys);
    hide FailuresKept, Mine;
  }

  lemma FailuresGrow(episodes: seq<Episode>, before: set<string>, after: set<string>)
    requires FailuresKept(episodes, before) && before <= after
    ensures FailuresKept(episodes, after)
  {
  }

  /** A save that changes only the status and the flags. */
  lemma FlagProgress(env: Environment, key: RequestKey, xs: seq<AgentTask>, c: Checkpoint, flagged: Checkpoint, w: World, k: nat)
    requires CheckpointAt(env, key, xs, c, k) && Progress(env, key, xs, w, k) && InStep(key, c, w)
    requires flagged == c.(status := flagged.status, paused := flagged.paused, stopped := flagged.stopped)
    ensures Progress(env, key, xs, Save(env, key, flagged, w).0, k)
  {
    hide InOrder, AnswersOnly, DispatchKey, FunctionalDispatcher, FailuresKept, Mine, Readable;
    SaveProgress(env, key, xs, flagged, w, k, k);
  }

  /** Recording an answer of the dispatcher adds nothing but answers. */
  lemma RecordAnswers(env: Environment, key: RequestKey, xs: seq<AgentTask>, c: Checkpoint, k: nat, result: TaskResult)
    requires k < |xs| && AnswersOnly(env, xs, c.completed) && AnswerOf(env, xs[k]) == Ok(result)
    ensures AnswersOnly(env, xs, Record(key, c, xs[k], result).0.completed)
  {
    hide Record, AnswerOf;
    RecordSettles(key, c, xs[k], result);
    assert xs[k] in xs && IsAnswer(env, xs[k], (xs[k].taskId, result));
  }

  lemma RecordProgress(env: Environment, key: RequestKey, xs: seq<AgentTask>, c: Checkpoint, from: nat, k: nat)
    requires Ordering(xs) && k < |xs| && CheckpointAt(env, key, xs, c, k)
    requires Retry(env, xs[k], from, 0, UNKNOWN_FAILURE).0.Ok?
    ensures CheckpointAt(env, key, xs, Record(key, c, xs[k], Retry(env, xs[k], from, 0, UNKNOWN_FAILURE).0.value).0, k + 1)
  {
    hide Record, Retry, AnswersOnly, Accounted, FunctionalDispatcher, CompletedIds;
    var result := Retry(env, xs[k], from, 0, UNKNOWN_FAILURE).0.value;
    RecordSettles(key, c, xs[k], result);
    RecordAccounted(key, c, xs[k], result);
    assert xs[..k + 1][..k] == xs[..k];
    if FunctionalDispatcher(env) {
      RetryStable(env, xs[k], from, 0, 0, UNKNOWN_FAILURE);
      RecordAnswers(env, key, xs, c, k, result);
    }
  }

  /** One dispatch and its save: one more settled task, or a crash and a checkpoint as before. */
  lemma DispatchProgress(env: Environment, key: RequestKey, xs: seq<AgentTask>, c: Checkpoint, w: World, k: nat)
    requires Ordering(xs) && k < |xs| && CheckpointAt(env, key, xs, c, k) && Progress(env, key, xs, w, k) && InStep(key, c, w)
    ensures var (w2, c1, verdict) := Dispatch(env, key, xs[k], c, w);
            if verdict.Abort? then Progress(env, key, xs, w2, k)
            else
              var (w3, saved) := Save(env, key, c1, w2);
              && CheckpointAt(env, key, xs, c1, k + 1) && Progress(env, key, xs, w3, if saved then k + 1 else k)
              && (saved ==> InStep(key, c1, w3))
  {
    hide Record, Retry, CheckpointAt, Ordering, ValidateResult, History, Readable;
    EpisodeProgress(env, key, xs, c, w, k);
    var (w2, c1, verdict) := Dispatch(env, key, xs[k], c, w);
    if !verdict.Abort? {
      RecordProgress(env, key, xs, c, w.calls, k);
      RecordShape(key, c, xs[k], Retry(env, xs[k], w.calls, 0, UNKNOWN_FAILURE).0.value);
      SaveProgress(env, key, xs, c1, w2, k, k + 1);
    }
  }

  /** The history stays in order when the next task is dispatched. */
  lemma EpisodeProgress(env: Environment, key: RequestKey, xs: seq<AgentTask>, c: Checkpoint, w: World, k: nat)
    requires k < |xs| && CheckpointAt(env, key, xs, c, k) && Progress(env, key, xs, w, k) && InStep(key, c, w)
    ensures var (w2, _, verdict) := Dispatch(env, key, xs[k], c, w);
            w2.disk == w.disk && History(env, key, xs, w2, if verdict.Abort? then k else k + 1)
  {
    hide Record, Retry, Accounted, AnswersOnly, ValidateResult, FunctionalDispatcher, Mine, Readable, AuditOf;
    RetryMeaning(env, xs[k], w.calls, 0, UNKNOWN_FAILURE);
    var w2 := Dispatch(env, key, xs[k], c, w).0;
    var e := w2.episodes[|w.episodes|];
    MineAppend(key, w.episodes, e);
    assert EpisodeInOrder(env, xs, e);
    assert forall f :: f in Mine(key, w2.episodes) <==> f in Mine(key, w.episodes) || f == e;
  }

  /** The task loop keeps the invariant for every dispatcher, timing and crash. */
  lemma {:induction false} RunTasksProgress(
      env: Environment, key: RequestKey, xs: seq<AgentTask>, i: nat, c: Checkpoint, deadline: int, w: World, k: nat)
      returns (after: nat)
    requires Ordering(xs) && i <= k && CheckpointAt(env, key, xs, c, k) && Progress(env, key, xs, w, k) && InStep(key, c, w)
    ensures k <= after && Progress(env, key, xs, RunTasks(env, key, xs, i, c, deadline, w).0, after)
    decreases |xs| - i
  {
    hide History, Readable, Position, AnswersOnly, FunctionalDispatcher, Ordering, Save, AfterDispatch, DispatchKey;
    HistoryFrame(env, key, xs, w, k);
    var w1 := w.(ticks := w.ticks + 1);
    after := k;
    if i == |xs| {
      FlagProgress(env, key, xs, c, c.(status := COMPLETED), w, k);
      return;
    }
    SettledIndex(key, xs, c, k, i);
    if xs[i].taskId in CompletedIds(c.completed) {
      after := RunTasksProgress(env, key, xs, i + 1, c, deadline, w, k);
    } else if env.clock(w.ticks) > deadline {
      FlagProgress(env, key, xs, c, c.(status := TIMEOUT), w1, k);
    } else if i < k {
      after := RunTasksProgress(env, key, xs, i + 1, c, deadline, w1, k);
    } else {
      after := DispatchAndContinue(env, key, xs, c, deadline, w1, k);
    }
  }

  lemma {:induction false} DispatchAndContinue(
      env: Environment, key: RequestKey, xs: seq<AgentTask>, c: Checkpoint, deadline: int, w: World, k: nat) returns (after: nat)
    requires Ordering(xs) && k < |xs| && CheckpointAt(env, key, xs, c, k) && Progress(env, key, xs, w, k) && InStep(key, c, w)
    ensures k <= after && Progress(env, key, xs, AfterDispatch(env, key, xs, k, c, deadline, w).0, after)
    decreases |xs| - k, 0
  {
    hide Dispatch, CheckpointAt, History, Readable, InStep, Ordering;
    DispatchProgress(env, key, xs, c, w, k);
    var (w2, c1, verdict) := Dispatch(env, key, xs[k], c, w);
    after := k;
    if !verdict.Abort? {
      var (w3, saved) := Save(env, key, c1, w2);
      after := if saved then k + 1 else k;
      if verdict.Continue? && saved {
        after := RunTasksProgress(env, key, xs, k + 1, c1, deadline, w3, k + 1);
      }
    }
  }

  /** A task is skipped exactly when it lies before position `k`. */
  lemma SettledIndex(key: RequestKey, xs: seq<AgentTask>, c: Checkpoint, k: nat, i: nat)
    requires Ordering(xs) && i <= k && i < |xs| && Position(key, xs, c, k)
    ensures xs[i].taskId in Settled(c) <==> i < k
    ensures DispatchKey(key, xs[i].taskId) in c.dispatched <==> i < k
  {
    AccountedMembership(key, c, xs[i].taskId);
    if i < k {
      IdSetMember(xs[..k], i);
    } else {
      DistinctEntry(xs, i);
    }
  }

  /** Reading the clock changes nothing. */
  lemma HistoryFrame(env: Environment, key: RequestKey, xs: seq<AgentTask>, w: World, k: nat)
    requires History(env, key, xs, w, k)
    ensures forall ticks :: History(env, key, xs, w.(ticks := ticks), k)
  {
  }

  lemma ExecuteProgress(env: Environment, req: Request, xs: seq<AgentTask>, w: World, k: nat) returns (after: nat)
    requires Ordering(xs) && Progress(env, req.key, xs, w, k)
    ensures k <= after && Progress(env, req.key, xs, ExecuteOrdered(env, req, xs, w).0, after)
  {
    hide CheckpointAt, History, Readable, Ordering, RunTasks;
    HistoryFrame(env, req.key, xs, w, k);
    var c := Load(w.disk, req.key);
    after := k;
    if !c.paused && !c.stopped {
      after := RunTasksProgress(env, req.key, xs, 0, c, env.clock(w.ticks) + req.timeout, w.(ticks := w.ticks + 1), k);
    }
  }

  lemma StepProgress(env: Environment, cmd: Command, req: Request, xs: seq<AgentTask>, w: World, k: nat) returns (after: nat)
    requires Ordering(xs) && Progress(env, req.key, xs, w, k)
    requires Runnable(env, req) ==> OrderOf(req.tasks) == Some(xs)
    ensures k <= after && Progress(env, req.key, xs, Step(env, cmd, req, w), after)
  {
    hide CheckpointAt, History, Readable, Ordering, Save, ExecuteOrdered, Runnable;
    var c := Load(w.disk, req.key);
    after := k;
    match cmd {
      case Pause =>
        FlagProgress(env, req.key, xs, c, c.(paused := true, status := PAUSED), w, k);
      case Stop =>
        FlagProgress(env, req.key, xs, c, c.(stopped := true, status := STOPPED), w, k);
      case Resume =>
        var c1 := c.(paused := false, status := RUNNING);
        FlagProgress(env, req.key, xs, c, c1, w, k);
        var (w1, saved) := Save(env, req.key, c1, w);
        if saved && Runnable(env, req) {
          after := ExecuteProgress(env, req, xs, w1, k);
        }
      case _ =>
        if Runnable(env, req) {
          after := ExecuteProgress(env, req, xs, w, k);
        }
    }
  }

  // ---------- calls for other requests ----------

  /** Nothing that belongs to the request key has changed. */
  ghost predicate LeavesAlone(key: RequestKey, w: World, w': World) {
    && Load(w'.disk, key) == Load(w.disk, key) && (key in w'.disk <==> key in w.disk)
    && Mine(key, w'.episodes) == Mine(key, w.episodes)
    && w.crashes <= w'.crashes
  }

  lemma DispatchFrame(env: Environment, other: RequestKey, task: AgentTask, c: Checkpoint, w: World, key: RequestKey)
    requires other != key
    ensures LeavesAlone(key, w, Dispatch(env, other, task, c, w).0)
  {
    hide Record, Retry, AuditOf, Mine;
    var n := Retry(env, task, w.calls, 0, UNKNOWN_FAILURE).1;
    MineAppend(key, w.episodes, Episode(other, task, CompletedIds(c.completed), c.failed.Keys, n));
  }

  lemma SaveFrame(env: Environment, other: RequestKey, c: Checkpoint, w: World, key: RequestKey)
    requires other != key
    ensures LeavesAlone(key, w, Save(env, other, c, w).0)
  {
    hide Stored, Mine;
  }

  lemma {:induction false} RunTasksFrame(
      env: Environment, other: RequestKey, xs: seq<AgentTask>, i: nat, c: Checkpoint, deadline: int, w: World, key: RequestKey)
    requires i <= |xs| && other != key
    ensures LeavesAlone(key, w, RunTasks(env, other, xs, i, c, deadline, w).0)
    decreases |xs| - i
  {
    hide Dispatch, Save, DispatchKey, CompletedIds, Mine;
    var w1 := w.(ticks := w.ticks + 1);
    SaveFrame(env, other, c.(status := COMPLETED), w, key);
    SaveFrame(env, other, c.(status := TIMEOUT), w1, key);
    if i < |xs| {
      RunTasksFrame(env, other, xs, i + 1, c, deadline, w, key);
      RunTasksFrame(env, other, xs, i + 1, c, deadline, w1, key);
      var (w2, c1, _) := Dispatch(env, other, xs[i], c, w1);
      DispatchFrame(env, other, xs[i], c, w1, key);
      SaveFrame(env, other, c1, w2, key);
      RunTasksFrame(env, other, xs, i + 1, c1, deadline, Save(env, other, c1, w2).0, key);
    }
  }

  /** A call leaves the checkpoint and the dispatches of every other request alone. */
  lemma StepFrame(env: Environment, cmd: Command, req: Request, w: World, key: RequestKey)
    requires req.key != key
    ensures LeavesAlone(key, w, Step(env, cmd, req, w))
  {
    hide RunTasks, Save, Runnable, Mine;
    var c := Load(w.disk, req.key);
    SaveFrame(env, req.key, c.(paused := true, status := PAUSED), w, key);
    SaveFrame(env, req.key, c.(stopped := true, status := STOPPED), w, key);
    SaveFrame(env, req.key, c.(paused := false, status := RUNNING), w, key);
    if Runnable(env, req) {
      AdmissibleOrderable(env, req);
      var xs := OrderOf(req.tasks).value;
      ExecuteFrame(env, req, xs, w, key);
      ExecuteFrame(env, req, xs, Save(env, req.key, c.(paused := false, status := RUNNING), w).0, key);
    }
  }

  lemma ExecuteFrame(env: Environment, req: Request, xs: seq<AgentTask>, w: World, key: RequestKey)
    requires req.key != key
    ensures LeavesAlone(key, w, ExecuteOrdered(env, req, xs, w).0)
  {
    hide RunTasks, Mine;
    var c := Load(w.disk, req.key);
    RunTasksFrame(env, req.key, xs, 0, c, env.clock(w.ticks) + req.timeout, w.(ticks := w.ticks + 1), key);
  }

  lemma ProgressFrame(env: Environment, key: RequestKey, xs: seq<AgentTask>, w: World, w': World, k: nat)
    requires Progress(env, key, xs, w, k) && LeavesAlone(key, w, w')
    ensures Progress(env, key, xs, w', k)
  {
    hide CheckpointAt, Readable, InOrder, FailuresKept, Mine;
  }

  /** All commands for this request key carry the same plan; there may be others for other keys. */
  ghost predicate SamePlan(cmds: seq<(Command, Request)>, key: RequestKey, tasks: seq<AgentTask>) {
    forall x :: x in cmds && x.1.key == key ==> x.1.tasks == tasks
  }

  lemma {:induction false} RunProgress(
      env: Environment, cmds: seq<(Command, Request)>, key: RequestKey, tasks: seq<AgentTask>, xs: seq<AgentTask>, w: World, k: nat)
      returns (after: nat)
    requires Ordering(xs) && SamePlan(cmds, key, tasks) && Progress(env, key, xs, w, k)
    requires forall x :: x in cmds && x.1.key == key && Runnable(env, x.1) ==> OrderOf(tasks) == Some(xs)
    ensures k <= after && Progress(env, key, xs, Run(env, cmds, w), after)
    decreases |cmds|
  {
    hide Progress, Step, Ordering, Runnable;
    after := k;
    if cmds != [] {
      assert cmds[0] in cmds;
      var w' := Step(env, cmds[0].0, cmds[0].1, w);
      if cmds[0].1.key == key {
        after := StepProgress(env, cmds[0].0, cmds[0].1, xs, w, k);
      } else {
        StepFrame(env, cmds[0].0, cmds[0].1, w, key);
        ProgressFrame(env, key, xs, w, w', k);
      }
      assert forall x :: x in cmds[1..] ==> x in cmds;
      after := RunProgress(env, cmds[1..], key, tasks, xs, w', after);
    }
  }

  // ---------- the theorems ----------

  /** Nothing has been recorded for the request yet. */
  ghost predicate Untouched(w: World, key: RequestKey) {
    key !in w.disk && Mine(key, w.episodes) == [] && w.crashes == 0
  }

  ghost predicate Orderable(tasks: seq<AgentTask>) {
    DistinctIds(tasks) && Closed(tasks, IdSet(tasks)) && OrderOf(tasks).Some?
  }

  /**
   * Any run of execute, recover, pause, resume and stop, under any dispatcher, timing and crashes, seen
   * from one request that keeps its plan while calls for other requests interleave: its settled tasks
   * are a prefix of the order, no task of it is dispatched before its dependencies are settled, and every
   * crash costs at most one extra dispatch.  As long as no task failed, the completed tasks are that
   * prefix and every dispatched task found its dependencies completed.
   */
  lemma RunsFollowTheOrder(env: Environment, cmds: seq<(Command, Request)>, key: RequestKey, tasks: seq<AgentTask>, w: World)
      returns (k: nat)
    requires Orderable(tasks) && SamePlan(cmds, key, tasks) && Untouched(w, key)
    ensures var xs, w', c := OrderOf(tasks).value, Run(env, cmds, w), Load(Run(env, cmds, w).disk, key);
            && k <= |xs| && Settled(c) == IdSet(xs[..k]) && Accounted(key, c)
            && |Mine(key, w'.episodes)| <= |tasks| + w'.crashes
            && (forall e :: e in Mine(key, w'.episodes) ==> Elements(e.task.dependsOn) <= e.completed + e.failed && e.calls <= MaxCalls(env))
            && (c.failed == map[] ==>
                  && CompletedIds(c.completed) == IdSet(xs[..k])
                  && forall e :: e in Mine(key, w'.episodes) ==> Elements(e.task.dependsOn) <= e.completed)
  {
    var xs := OrderOf(tasks).value;
    OrderOfSound(tasks);
    assert |xs| == |multiset(xs)| == |multiset(tasks)| == |tasks|;
    StartProgress(env, key, xs, w);
    k := RunProgress(env, cmds, key, tasks, xs, w, 0);
    hide Run, Mine, OrderOf, DistinctIds, Closed, AnswersOnly, Readable;
    var w' := Run(env, cmds, w);
    forall e | e in Mine(key, w'.episodes)
      ensures Elements(e.task.dependsOn) <= e.completed + e.failed && e.calls <= MaxCalls(env)
    {
      EpisodeDependencies(env, xs, e);
    }
  }

  lemma EpisodeDependencies(env: Environment, xs: seq<AgentTask>, e: Episode)
    requires Ordering(xs) && EpisodeInOrder(env, xs, e)
    ensures Elements(e.task.dependsOn) <= e.completed + e.failed
  {
    var j :| 0 <= j < |xs| && e.task == xs[j] && e.completed + e.failed == IdSet(xs[..j]);
    DependenciesFirstEntry(xs, j);
  }

  lemma StartProgress(env: Environment, key: RequestKey, xs: seq<AgentTask>, w: World)
    requires Untouched(w, key)
    ensures Progress(env, key, xs, w, 0)
  {
    hide Mine;
    assert Settled(FRESH) == IdSet(xs[..0]);
    assert Accounted(key, FRESH);
  }

  lemma {:induction false} RetrySameDispatcher(a: Environment, b: Environment, task: AgentTask, from: nat, attempts: nat, lastError: string)
    requires a.dispatcher == b.dispatcher && a.maxRetries == b.maxRetries
    ensures Retry(a, task, from, attempts, lastError) == Retry(b, task, from, attempts, lastError)
    decreases a.maxRetries + 1 - attempts
  {
    if attempts <= a.maxRetries {
      RetrySameDispatcher(a, b, task, from + 1, attempts + 1, FailureText(a.dispatcher(task, from)));
    }
  }

  /**
   * With a dispatcher that is a function of the task, two runs that complete the plan agree on
   * every result, however often either of them was interrupted.
   */
  lemma {:induction false} RunsAgree(a: Environment, b: Environment, cmdsA: seq<(Command, Request)>, cmdsB: seq<(Command, Request)>,
                  key: RequestKey, tasks: seq<AgentTask>, wa: World, wb: World)
    requires a.dispatcher == b.dispatcher && a.maxRetries == b.maxRetries && FunctionalDispatcher(a)
    requires Orderable(tasks) && SamePlan(cmdsA, key, tasks) && SamePlan(cmdsB, key, tasks)
    requires Untouched(wa, key) && Untouched(wb, key)
    requires CompletedIds(Load(Run(a, cmdsA, wa).disk, key).completed) == IdSet(tasks)
    requires CompletedIds(Load(Run(b, cmdsB, wb).disk, key).completed) == IdSet(tasks)
    ensures Elements(Load(Run(a, cmdsA, wa).disk, key).completed) == Elements(Load(Run(b, cmdsB, wb).disk, key).completed)
  {
    hide Run, SamePlan, AnswersOnly, Readable, Untouched;
    FinalAnswers(a, cmdsA, key, tasks, wa);
    assert FunctionalDispatcher(b);
    FinalAnswers(b, cmdsB, key, tasks, wb);
    var xs := OrderOf(tasks).value;
    OrderOfSound(tasks);
    var ca, cb := Load(Run(a, cmdsA, wa).disk, key).completed, Load(Run(b, cmdsB, wb).disk, key).completed;
    SameAnswers(a, b, xs, ca, cb);
    SameAnswers(b, a, xs, cb, ca);
    assert forall e :: e in ca <==> e in cb;
  }

  lemma FinalAnswers(env: Environment, cmds: seq<(Command, Request)>, key: RequestKey, tasks: seq<AgentTask>, w: World)
    requires FunctionalDispatcher(env) && Orderable(tasks) && SamePlan(cmds, key, tasks) && Untouched(w, key)
    ensures AnswersOnly(env, OrderOf(tasks).value, Load(Run(env, cmds, w).disk, key).completed)
    ensures Readable(Load(Run(env, cmds, w).disk, key).completed)
  {
    hide Run, AnswersOnly, History, Position, Readable;
    var xs := OrderOf(tasks).value;
    OrderOfSound(tasks);
    StartProgress(env, key, xs, w);
    var _ := RunProgress(env, cmds, key, tasks, xs, w, 0);
  }

  lemma SameAnswers(a: Environment, b: Environment, xs: seq<AgentTask>, ca: Completed, cb: Completed)
    requires a.dispatcher == b.dispatcher && a.maxRetries == b.maxRetries && DistinctIds(xs)
    requires AnswersOnly(a, xs, ca) && AnswersOnly(b, xs, cb) && Readable(ca) && Readable(cb) && CompletedIds(ca) <= CompletedIds(cb)
    ensures forall e :: e in ca ==> e in cb
  {
    hide JsonResult;
    forall e | e in ca
      ensures e in cb
    {
      var t :| t in xs && IsAnswer(a, t, e);
      assert e.0 in CompletedIds(cb);
      var f :| f in cb && f.0 == e.0;
      var u :| u in xs && IsAnswer(b, u, f);
      SameIdSameTask(xs, t, u);
      RetrySameDispatcher(a, b, t, 0, 0, UNKNOWN_FAILURE);
    }
  }

  lemma {:induction false} SameIdSameTask(xs: seq<AgentTask>, t: AgentTask, u: AgentTask)
    requires DistinctIds(xs) && t in xs && u in xs && t.taskId == u.taskId
    ensures t == u
  {
    var i :| 0 <= i < |xs| && xs[i] == t;
    var j :| 0 <= j < |xs| && xs[j] == u;
    DistinctLookup(xs, i);
    DistinctLookup(xs, j);
  }

  // ---------- every checkpoint on the disk ----------

  /** The audit log, which is written before the checkpoint, has a line for every settled task. */
  ghost predicate Audited(audit: seq<AuditEvent>, c: Checkpoint) {
    && (forall e :: e in c.completed ==> AuditEvent("task_completed", e.0, e.1.evidenceReference) in audit)
    && (forall id :: id in c.failed && c.failed[id] != CONFLICT_MARK ==> AuditEvent("task_failed", id, c.failed[id]) in audit)
  }

  /** The dispatcher's evidence survives being written as JSON. */
  ghost predicate StableDispatcher(env: Environment) {
    forall t, n: nat :: env.dispatcher(t, n).Answer? ==> StablePayload(env.dispatcher(t, n).result.payload)
  }

  /** Some task is marked exactly when two completed results disagree. */
  ghost predicate Consistent(c: Checkpoint) {
    StableEvidence(c.completed) && (Marks(c.failed) != {} <==> Conflicted(c.completed))
  }

  /** What holds of a checkpoint in memory. */
  ghost predicate Sound(env: Environment, key: RequestKey, c: Checkpoint, audit: seq<AuditEvent>) {
    && Accounted(key, c) && DistinctKeys(c.completed) && Audited(audit, c)
    && (StableDispatcher(env) ==> Consistent(c))
  }

  /** On the disk its completed tasks are also in key order and in JSON form. */
  ghost predicate AllSound(env: Environment, disk: map<RequestKey, Checkpoint>, audit: seq<AuditEvent>) {
    forall key :: key in disk ==> Sound(env, key, disk[key], audit) && KeySorted(disk[key].completed) && Readable(disk[key].completed)
  }

  lemma {:induction false} ReadBackDistinct(c: Completed)
    requires DistinctKeys(c)
    ensures DistinctKeys(ReadBack(c))
  {
    if c != [] {
      ReadBackDistinct(c[..|c| - 1]);
      ReadBackEntries(c[..|c| - 1]);
    }
  }

  lemma StoredConsistent(c: Checkpoint)
    requires Consistent(c)
    ensures Consistent(Stored(c))
  {
    hide StablePayload, Clash, SortByKey;
    StableVerdict(c.completed);
    StoredSettled(c);
    assert forall e :: e in Stored(c).completed <==> e in Elements(Stored(c).completed);
    assert forall e :: e in ReadBack(c.completed) <==> e in Elements(ReadBack(c.completed));
  }

  lemma StoredAudited(c: Checkpoint, audit: seq<AuditEvent>)
    requires Audited(audit, c)
    ensures Audited(audit, Stored(c))
  {
    forall e | e in Stored(c).completed
      ensures AuditEvent("task_completed", e.0, e.1.evidenceReference) in audit
    {
      var f := StoredEntry(c, e);
    }
  }

  lemma StoredSound(env: Environment, key: RequestKey, c: Checkpoint, audit: seq<AuditEvent>)
    requires Sound(env, key, c, audit)
    ensures Sound(env, key, Stored(c), audit) && KeySorted(Stored(c).completed) && Readable(Stored(c).completed)
  {
    hide DispatchKey, SortByKey, Audited, Consistent, StableDispatcher, Readable;
    StoredSettled(c);
    ReadBackDistinct(c.completed);
    SortSorted(ReadBack(c.completed));
    SortedDistinct(Stored(c).completed);
    StoredAudited(c, audit);
    StoredAnswers(env, [], c);
    if StableDispatcher(env) {
      StoredConsistent(c);
    }
  }

  lemma SaveSound(env: Environment, key: RequestKey, c: Checkpoint, w: World)
    requires AllSound(env, w.disk, w.audit) && Sound(env, key, c, w.audit)
    ensures var w' := Save(env, key, c, w).0;
            AllSound(env, w'.disk, w'.audit) && w'.audit == w.audit
  {
    hide Sound, KeySorted, Readable, Stored;
    StoredSound(env, key, c, w.audit);
  }

  lemma AuditGrows(env: Environment, disk: map<RequestKey, Checkpoint>, audit: seq<AuditEvent>, event: AuditEvent)
    requires AllSound(env, disk, audit)
    ensures AllSound(env, disk, audit + [event])
  {
    hide KeySorted, Readable, DistinctKeys, Accounted, StableDispatcher, Consistent;
  }

  lemma {:induction false} RunTasksSound(
      env: Environment, key: RequestKey, xs: seq<AgentTask>, i: nat, c: Checkpoint, deadline: int, w: World)
    requires i <= |xs| && AllSound(env, w.disk, w.audit) && Sound(env, key, c, w.audit)
    ensures var w' := RunTasks(env, key, xs, i, c, deadline, w).0;
            AllSound(env, w'.disk, w'.audit)
    decreases |xs| - i
  {
    hide Sound, AllSound, Save, Dispatch, DispatchKey;
    if i == |xs| {
      SameSound(env, key, c, c.(status := COMPLETED), w.audit);
      SaveSound(env, key, c.(status := COMPLETED), w);
    } else if xs[i].taskId in CompletedIds(c.completed) {
      RunTasksSound(env, key, xs, i + 1, c, deadline, w);
    } else {
      var w1 := w.(ticks := w.ticks + 1);
      if env.clock(w.ticks) > deadline {
        SameSound(env, key, c, c.(status := TIMEOUT), w.audit);
        SaveSound(env, key, c.(status := TIMEOUT), w1);
      } else if DispatchKey(key, xs[i].taskId) in c.dispatched {
        RunTasksSound(env, key, xs, i + 1, c, deadline, w1);
      } else {
        var (w2, c1, verdict) := Dispatch(env, key, xs[i], c, w1);
        DispatchSound(env, key, xs[i], c, w1);
        if !verdict.Abort? {
          SaveSound(env, key, c1, w2);
          var (w3, saved) := Save(env, key, c1, w2);
          if verdict.Continue? && saved {
            RunTasksSound(env, key, xs, i + 1, c1, deadline, w3);
          }
        }
      }
    }
  }

  lemma SameSound(env: Environment, key: RequestKey, c: Checkpoint, flagged: Checkpoint, audit: seq<AuditEvent>)
    requires flagged.completed == c.completed && flagged.failed == c.failed && flagged.dispatched == c.dispatched
    ensures Sound(env, key, c, audit) <==> Sound(env, key, flagged, audit)
  {
    hide DistinctKeys, StableDispatcher, Conflicted, StableEvidence;
  }

  /** A dispatch keeps the checkpoint sound and writes the audit line before anything is saved. */
  lemma DispatchSound(env: Environment, key: RequestKey, task: AgentTask, c: Checkpoint, w: World)
    requires Sound(env, key, c, w.audit) && AllSound(env, w.disk, w.audit)
    requires task.taskId !in CompletedIds(c.completed) && DispatchKey(key, task.taskId) !in c.dispatched
    ensures var (w2, c1, verdict) := Dispatch(env, key, task, c, w);
            w2.disk == w.disk && AllSound(env, w2.disk, w2.audit) && Sound(env, key, c1, w2.audit)
  {
    hide Record, Retry, AuditOf, AllSound, Accounted, DistinctKeys, Audited, StableDispatcher, Consistent, DispatchKey;
    var result := Retry(env, task, w.calls, 0, UNKNOWN_FAILURE).0;
    if result.Ok? {
      RecordAccounted(key, c, task, result.value);
      RecordDistinct(key, c, task, result.value);
      RecordAudited(key, c, task, result.value, w.audit);
      AuditGrows(env, w.disk, w.audit, AuditOf(task, result.value));
      if StableDispatcher(env) {
        RetryStablePayload(env, task, w.calls, 0, UNKNOWN_FAILURE);
        AccountedMembership(key, c, task.taskId);
        RecordConsistent(key, c, task, result.value);
      }
    }
  }

  lemma {:induction false} RetryStablePayload(env: Environment, task: AgentTask, from: nat, attempts: nat, lastError: string)
    requires StableDispatcher(env)
    ensures var result := Retry(env, task, from, attempts, lastError).0; result.Ok? ==> StablePayload(result.value.payload)
    decreases env.maxRetries + 1 - attempts
  {
    FailedResultStable(task, lastError);
    if attempts <= env.maxRetries {
      var reply := env.dispatcher(task, from);
      FailedResultStable(task, FailureText(reply));
      if Transient(reply) {
        RetryStablePayload(env, task, from + 1, attempts + 1, FailureText(reply));
      }
    }
  }

  lemma FailedResultStable(task: AgentTask, detail: string)
    ensures StablePayload(FailedResult(task, detail).payload)
  {
  }

  /** A dispatch of a task that is not settled keeps marks and conflicts in agreement. */
  lemma RecordConsistent(key: RequestKey, c: Checkpoint, task: AgentTask, result: TaskResult)
    requires Consistent(c) && task.taskId !in Settled(c) && StablePayload(result.payload)
    ensures Consistent(Record(key, c, task, result).0)
  {
    hide DispatchKey, StablePayload, Conflicted, ConflictIds;
    var error, grown := ValidateResult(task, result), c.completed + [(task.taskId, result)];
    if error != "" {
      ErrorIsNoMark(task, result);
      MarksOfError(c.failed, task.taskId, error);
    } else {
      var conflicts := ConflictIds(grown, map[]);
      ConflictIdsEmpty(grown);
      ConflictGrows(c.completed, grown);
      MarksOfConflicts(c.failed, conflicts);
      assert forall e :: e in grown <==> e in c.completed || e == (task.taskId, result);
    }
  }

  lemma ConflictGrows(c: Completed, d: Completed)
    requires c <= d
    ensures Conflicted(c) ==> Conflicted(d)
  {
    if Conflicted(c) {
      var e, f :| e in c && f in c && Clash(e.1.payload, f.1.payload);
      assert e in d && f in d;
    }
  }

  lemma ErrorIsNoMark(task: AgentTask, result: TaskResult)
    ensures ValidateResult(task, result) != CONFLICT_MARK
  {
    assert |CONFLICT_MARK| == 17;
    assert "result task_id mismatch"[0] == 'r' && "result agent_id mismatch"[0] == 'r' && "unsupported result status"[0] == 'u';
    assert "missing evidence_reference"[0] == 'm' && "missing provenance"[0] == 'm' && "fabricated numeric evidence rejected"[0] == 'f';
  }

  lemma MarksOfError(failed: map<string, string>, id: string, error: string)
    requires id !in failed && error != CONFLICT_MARK
    ensures Marks(failed[id := error]) == Marks(failed)
  {
  }

  lemma MarksOfConflicts(failed: map<string, string>, conflicts: set<string>)
    ensures Marks(Marked(failed, conflicts)) == Marks(failed) + conflicts
  {
  }

  lemma RecordDistinct(key: RequestKey, c: Checkpoint, task: AgentTask, result: TaskResult)
    requires DistinctKeys(c.completed) && task.taskId !in CompletedIds(c.completed)
    ensures DistinctKeys(Record(key, c, task, result).0.completed)
  {
    hide Record;
    RecordSettles(key, c, task, result);
    assert (c.completed + [(task.taskId, result)])[..|c.completed|] == c.completed;
  }

  lemma RecordAudited(key: RequestKey, c: Checkpoint, task: AgentTask, result: TaskResult, audit: seq<AuditEvent>)
    requires Audited(audit, c)
    ensures Audited(audit + [AuditOf(task, result)], Record(key, c, task, result).0)
  {
    hide ConflictIds, DispatchKey, ValidateResult;
    var c1, grown := Record(key, c, task, result).0, audit + [AuditOf(task, result)];
    assert grown[|audit|] in grown;
    forall e | e in c1.completed
      ensures AuditEvent("task_completed", e.0, e.1.evidenceReference) in grown
    {
      assert e in c.completed || (e == (task.taskId, result) && ValidateResult(task, result) == "");
    }
    forall id | id in c1.failed && c1.failed[id] != CONFLICT_MARK
      ensures AuditEvent("task_failed", id, c1.failed[id]) in grown
    {
      if !(id in c.failed && c1.failed[id] == c.failed[id]) {
        assert id == task.taskId && c1.failed[id] == ValidateResult(task, result);
      }
    }
  }

  /** One call keeps every checkpoint sound. */
  lemma StepSound(env: Environment, cmd: Command, req: Request, w: World)
    requires AllSound(env, w.disk, w.audit)
    ensures var w' := Step(env, cmd, req, w);
            AllSound(env, w'.disk, w'.audit)
  {
    hide Sound, AllSound, Save, RunTasks, Runnable, ExecuteOrdered;
    var c := Load(w.disk, req.key);
    LoadSound(env, w, req.key);
    forall flagged: Checkpoint | flagged == c.(status := flagged.status, paused := flagged.paused, stopped := flagged.stopped)
      ensures var w' := Save(env, req.key, flagged, w).0;
              AllSound(env, w'.disk, w'.audit)
    {
      SameSound(env, req.key, c, flagged, w.audit);
      SaveSound(env, req.key, flagged, w);
    }
    if Runnable(env, req) {
      AdmissibleOrderable(env, req);
      var xs := OrderOf(req.tasks).value;
      var resumed := Save(env, req.key, c.(paused := false, status := RUNNING), w).0;
      ExecuteSound(env, req, xs, w);
      ExecuteSound(env, req, xs, resumed);
    }
  }

  lemma AdmissibleOrderable(env: Environment, req: Request)
    requires Runnable(env, req)
    ensures Orderable(req.tasks)
  {
  }

  lemma FreshSound(env: Environment, key: RequestKey, audit: seq<AuditEvent>)
    ensures Accounted(key, FRESH) && Sound(env, key, FRESH, audit)
  {
    hide StableDispatcher;
    assert Marks(FRESH.failed) == {};
  }

  lemma {:induction false} LoadSound(env: Environment, w: World, key: RequestKey)
    requires AllSound(env, w.disk, w.audit)
    ensures Sound(env, key, Load(w.disk, key), w.audit)
  {
    FreshSound(env, key, w.audit);
    hide Sound;
  }

  lemma {:induction false} ExecuteSound(env: Environment, req: Request, xs: seq<AgentTask>, w: World)
    requires AllSound(env, w.disk, w.audit)
    ensures var w' := ExecuteOrdered(env, req, xs, w).0;
            AllSound(env, w'.disk, w'.audit)
  {
    hide Sound, AllSound, RunTasks;
    var c := Load(w.disk, req.key);
    LoadSound(env, w, req.key);
    RunTasksSound(env, req.key, xs, 0, c, env.clock(w.ticks) + req.timeout, w.(ticks := w.ticks + 1));
  }

  /**
   * In every checkpoint that any mix of requests can leave on the disk, dispatched = completed + failed,
   * no task is listed twice, the audit log has a line for every settled task, and, if the dispatcher's
   * evidence survives JSON, some task is marked as conflicting exactly when two results disagree.
   */
  lemma {:induction false} RunSound(env: Environment, cmds: seq<(Command, Request)>, w: World)
    requires AllSound(env, w.disk, w.audit)
    ensures AllSound(env, Run(env, cmds, w).disk, Run(env, cmds, w).audit)
    decreases |cmds|
  {
    if cmds != [] {
      StepSound(env, cmds[0].0, cmds[0].1, w);
      RunSound(env, cmds[1..], Step(env, cmds[0].0, cmds[0].1, w));
    }
  }

  /** Under such a dispatcher, two runs that complete the plan also agree on whether there is a conflict. */
  lemma {:induction false} RunsAgreeOnConflicts(a: Environment, b: Environment, cmdsA: seq<(Command, Request)>, cmdsB: seq<(Command, Request)>,
                             key: RequestKey, tasks: seq<AgentTask>, wa: World, wb: World)
    requires a.dispatcher == b.dispatcher && a.maxRetries == b.maxRetries && FunctionalDispatcher(a) && StableDispatcher(a)
    requires Orderable(tasks) && SamePlan(cmdsA, key, tasks) && SamePlan(cmdsB, key, tasks)
    requires Untouched(wa, key) && Untouched(wb, key) && AllSound(a, wa.disk, wa.audit) && AllSound(b, wb.disk, wb.audit)
    requires CompletedIds(Load(Run(a, cmdsA, wa).disk, key).completed) == IdSet(tasks)
    requires CompletedIds(Load(Run(b, cmdsB, wb).disk, key).completed) == IdSet(tasks)
    ensures Marks(Load(Run(a, cmdsA, wa).disk, key).failed) == {} <==> Marks(Load(Run(b, cmdsB, wb).disk, key).failed) == {}
  {
    hide Run, SamePlan, Untouched, AllSound, Accounted, Audited, DistinctKeys, Conflicted, StableEvidence, Marks;
    assert StableDispatcher(b);
    RunsAgree(a, b, cmdsA, cmdsB, key, tasks, wa, wb);
    RunSound(a, cmdsA, wa);
    RunSound(b, cmdsB, wb);
    LoadSound(a, Run(a, cmdsA, wa), key);
    LoadSound(b, Run(b, cmdsB, wb), key);
    var ca, cb := Load(Run(a, cmdsA, wa).disk, key).completed, Load(Run(b, cmdsB, wb).disk, key).completed;
    ConflictIdsEmpty(ca);
    ConflictIdsEmpty(cb);
    ConflictOrderIndependent(ca, cb);
  }
}
