/**
 * Re-executing a checkpoint that holds a failed task skips that task and carries on.  This module
 * says exactly when that is harmless: when a COMPLETED report means that everything completed, when
 * it means that no conflict is open, and when a call of `execute` dispatches no task ahead of a
 * dependency.  The checkpoint may be any accounted one, also one that a different plan has left under
 * the same key.
 */
module RuntimeFailures {
  import opened Common
  import opened PlanOrder
  import opened Evidence
  import opened Runtime
  import opened RuntimeSafety

  /** Failed and never completed: skipped by every later call. */
  ghost function Stuck(c: Checkpoint): set<string> {
    c.failed.Keys - CompletedIds(c.completed)
  }

  /** The loop stands at task `i`: the tasks before it are settled. */
  ghost predicate Reached(key: RequestKey, xs: seq<AgentTask>, i: nat, c: Checkpoint) {
    i <= |xs| && Accounted(key, c) && IdSet(xs[..i]) <= Settled(c)
  }

  lemma ReachNext(key: RequestKey, xs: seq<AgentTask>, i: nat, c: Checkpoint)
    requires i < |xs| && Reached(key, xs, i, c)
    ensures DispatchKey(key, xs[i].taskId) in c.dispatched <==> xs[i].taskId in Settled(c)
    ensures xs[i].taskId in CompletedIds(c.completed) ==> xs[i].taskId in Settled(c)
    ensures xs[i].taskId in Settled(c) ==> Reached(key, xs, i + 1, c)
  {
    AccountedMembership(key, c, xs[i].taskId);
    hide Accounted;
    assert xs[..i + 1][..i] == xs[..i];
  }

  /** What recording a result for a task that is not settled changes. */
  lemma {:induction false} RecordStuck(key: RequestKey, c: Checkpoint, t: AgentTask, result: TaskResult)
    requires Accounted(key, c) && t.taskId !in Settled(c)
    ensures var (c1, stop) := Record(key, c, t, result);
            && Accounted(key, c1) && Settled(c1) == Settled(c) + {t.taskId}
            && (!stop ==> Stuck(c1) == Stuck(c) && c1.failed == c.failed && !Conflicted(c1.completed) && !Conflicted(c.completed))
  {
    hide Accounted, Conflicted, ValidateResult, Clash;
    RecordSettles(key, c, t, result);
    RecordAccounted(key, c, t, result);
    AppendCompleted(c.completed, t.taskId, result);
    ConflictIdsEmpty(c.completed + [(t.taskId, result)]);
    ConflictGrows(c.completed, c.completed + [(t.taskId, result)]);
  }

  /** What one dispatch does, whatever the dispatcher answers. */
  lemma DispatchFacts(env: Environment, key: RequestKey, t: AgentTask, c: Checkpoint, w: World)
    requires Accounted(key, c) && t.taskId !in Settled(c)
    ensures var (w2, c1, verdict) := Dispatch(env, key, t, c, w);
            && (!verdict.Abort? ==> Accounted(key, c1) && Settled(c1) == Settled(c) + {t.taskId})
            && (verdict.Continue? ==>
                  Stuck(c1) == Stuck(c) && c1.failed == c.failed && !Conflicted(c1.completed) && !Conflicted(c.completed))
            && (verdict.Halt? ==> c1.status in {FAILED, CONFLICT})
            && |w2.episodes| == |w.episodes| + 1 && w.episodes <= w2.episodes
            && w2.episodes[|w.episodes|].task == t && w2.episodes[|w.episodes|].completed == CompletedIds(c.completed)
  {
    hide Accounted, Settled, Stuck, Conflicted, Retry, Record, AuditOf;
    var result := Retry(env, t, w.calls, 0, UNKNOWN_FAILURE).0;
    if result.Ok? {
      RecordStuck(key, c, t, result.value);
      StopStatus(key, c, t, result.value);
    }
  }

  lemma StopStatus(key: RequestKey, c: Checkpoint, task: AgentTask, result: TaskResult)
    ensures Record(key, c, task, result).1 ==> Record(key, c, task, result).0.status in {FAILED, CONFLICT}
  {
  }

  /** The dispatch of task `i` takes the loop on to the next one. */
  lemma DispatchReaches(env: Environment, key: RequestKey, xs: seq<AgentTask>, i: nat, c: Checkpoint, w: World)
    requires i < |xs| && Reached(key, xs, i, c) && xs[i].taskId !in Settled(c)
    ensures var (_, c1, verdict) := Dispatch(env, key, xs[i], c, w);
            !verdict.Abort? ==> Reached(key, xs, i + 1, c1)
  {
    hide Accounted, Settled, Dispatch;
    DispatchFacts(env, key, xs[i], c, w);
    assert xs[..i + 1][..i] == xs[..i];
  }

  // ---------- what a COMPLETED report means ----------

  /** A COMPLETED report accounts for the plan and carries the failures of the start of the call. */
  ghost predicate CoversPlan(outcome: Outcome, xs: seq<AgentTask>, failed: map<string, string>, stuck: set<string>) {
    outcome.Reported? && outcome.report.status == COMPLETED ==>
      && IdSet(xs) <= outcome.report.completed + outcome.report.failed
      && outcome.report.failed - outcome.report.completed == stuck
      && outcome.report.failed == failed.Keys
      && outcome.report.conflicts == Marks(failed)
  }

  lemma {:induction false} CompletedReport(
      env: Environment, key: RequestKey, xs: seq<AgentTask>, i: nat, c: Checkpoint, deadline: int, w: World)
    requires Reached(key, xs, i, c)
    ensures CoversPlan(RunTasks(env, key, xs, i, c, deadline, w).1, xs, c.failed, Stuck(c))
    decreases |xs| - i
  {
    hide Accounted, DispatchKey, AfterDispatch;
    if i == |xs| {
      assert xs[..|xs|] == xs;
      return;
    }
    ReachNext(key, xs, i, c);
    var w1 := w.(ticks := w.ticks + 1);
    if xs[i].taskId in CompletedIds(c.completed) {
      CompletedReport(env, key, xs, i + 1, c, deadline, w);
    } else if env.clock(w.ticks) > deadline {
    } else if xs[i].taskId in Settled(c) {
      CompletedReport(env, key, xs, i + 1, c, deadline, w1);
    } else {
      CompletedReportAfter(env, key, xs, i, c, deadline, w1);
    }
  }

  lemma {:induction false} CompletedReportAfter(
      env: Environment, key: RequestKey, xs: seq<AgentTask>, i: nat, c: Checkpoint, deadline: int, w: World)
    requires i < |xs| && Reached(key, xs, i, c) && xs[i].taskId !in Settled(c)
    ensures CoversPlan(AfterDispatch(env, key, xs, i, c, deadline, w).1, xs, c.failed, Stuck(c))
    decreases |xs| - i, 0
  {
    DispatchReaches(env, key, xs, i, c, w);
    hide Accounted, Settled, Dispatch, Stuck, Conflicted, Marks;
    DispatchFacts(env, key, xs[i], c, w);
    var (w2, c1, verdict) := Dispatch(env, key, xs[i], c, w);
    var (w3, saved) := Save(env, key, c1, w2);
    if verdict.Continue? && saved {
      CompletedReport(env, key, xs, i + 1, c1, deadline, w3);
    }
  }

  lemma OrderOfOrdering(tasks: seq<AgentTask>)
    requires Orderable(tasks)
    ensures Ordering(OrderOf(tasks).value) && IdSet(OrderOf(tasks).value) == IdSet(tasks)
  {
    OrderOfSound(tasks);
  }

  /**
   * A COMPLETED report names every task of the plan as completed or failed, and its failures and
   * conflict marks are those that the checkpoint held at the start of the call.  So it means that all
   * tasks of the plan completed if and only if the call started without one that had failed and never
   * completed, and that no conflict is open if and only if the call started without a conflict mark.
   */
  lemma CompletedCoversPlan(env: Environment, req: Request, w: World)
    requires Orderable(req.tasks) && Accounted(req.key, Load(w.disk, req.key))
    ensures var outcome, c := ExecuteOrdered(env, req, OrderOf(req.tasks).value, w).1, Load(w.disk, req.key);
            outcome.Reported? && outcome.report.status == COMPLETED ==>
              && IdSet(req.tasks) <= outcome.report.completed + outcome.report.failed
              && (IdSet(req.tasks) <= outcome.report.completed <==> IdSet(req.tasks) !! Stuck(c))
              && outcome.report.failed == c.failed.Keys
              && (outcome.report.conflicts == {} <==> forall id :: id in c.failed ==> c.failed[id] != CONFLICT_MARK)
  {
    hide Accounted, RunTasks, Ordering;
    var xs, c := OrderOf(req.tasks).value, Load(w.disk, req.key);
    OrderOfOrdering(req.tasks);
    MarksEmpty(c.failed);
    if !c.paused && !c.stopped {
      assert xs[..0] == [] && IdSet([]) == {};
      CompletedReport(env, req.key, xs, 0, c, env.clock(w.ticks) + req.timeout, w.(ticks := w.ticks + 1));
    }
  }

  lemma MarksEmpty(failed: map<string, string>)
    ensures Marks(failed) == {} <==> forall id :: id in failed ==> failed[id] != CONFLICT_MARK
  {
    if id :| id in failed && failed[id] == CONFLICT_MARK {
      assert id in Marks(failed);
    }
  }

  /** When every task has completed, a call only rewrites the status: it reports COMPLETED, whatever is marked. */
  lemma {:induction false} AllCompletedReportsCompleted(
      env: Environment, key: RequestKey, xs: seq<AgentTask>, i: nat, c: Checkpoint, deadline: int, w: World)
    requires i <= |xs| && IdSet(xs) <= CompletedIds(c.completed)
    ensures RunTasks(env, key, xs, i, c, deadline, w) == SaveAndReport(env, key, c.(status := COMPLETED), w)
    decreases |xs| - i
  {
    if i < |xs| {
      IdSetMember(xs, i);
      AllCompletedReportsCompleted(env, key, xs, i + 1, c, deadline, w);
    }
  }

  // ---------- when a call dispatches no task ahead of a dependency ----------

  /**
   * Some task that this call can still reach depends on a stuck one.  A checkpoint that already holds
   * a conflict lets only its next task be dispatched, because the call stops right after it.
   */
  ghost predicate Blocked(xs: seq<AgentTask>, c: Checkpoint) {
    exists j: nat :: BlockedAt(xs, c, j)
  }

  ghost predicate BlockedAt(xs: seq<AgentTask>, c: Checkpoint, j: nat) {
    && j < |xs| && xs[j].taskId !in Settled(c) && Elements(xs[j].dependsOn) * Stuck(c) != {}
    && (!Conflicted(c.completed) || IdSet(xs[..j]) <= Settled(c))
  }

  ghost predicate EpisodeSafe(e: Episode) {
    Elements(e.task.dependsOn) <= e.completed
  }

  /** Every dispatch of this call finds the dependencies of its task completed. */
  ghost predicate CallSafe(env: Environment, key: RequestKey, xs: seq<AgentTask>, i: nat, c: Checkpoint, deadline: int, w: World)
    requires i <= |xs|
  {
    SafeFrom(RunTasks(env, key, xs, i, c, deadline, w).0.episodes, |w.episodes|)
  }

  ghost predicate SafeFrom(episodes: seq<Episode>, from: nat) {
    forall m :: from <= m < |episodes| ==> EpisodeSafe(episodes[m])
  }

  lemma {:induction false} UnblockedIsSafe(
      env: Environment, key: RequestKey, xs: seq<AgentTask>, i: nat, c: Checkpoint, deadline: int, w: World)
    requires DependenciesFirst(xs) && Reached(key, xs, i, c) && !Blocked(xs, c)
    ensures CallSafe(env, key, xs, i, c, deadline, w)
    ensures w.episodes <= RunTasks(env, key, xs, i, c, deadline, w).0.episodes
    decreases |xs| - i
  {
    hide Accounted, DependenciesFirst, DispatchKey, Blocked, EpisodeSafe, AfterDispatch;
    if i == |xs| {
      return;
    }
    ReachNext(key, xs, i, c);
    var w1 := w.(ticks := w.ticks + 1);
    if xs[i].taskId in CompletedIds(c.completed) {
      UnblockedIsSafe(env, key, xs, i + 1, c, deadline, w);
    } else if env.clock(w.ticks) > deadline {
    } else if xs[i].taskId in Settled(c) {
      UnblockedIsSafe(env, key, xs, i + 1, c, deadline, w1);
    } else {
      UnblockedAfter(env, key, xs, i, c, deadline, w1);
    }
  }

  lemma {:induction false} UnblockedAfter(
      env: Environment, key: RequestKey, xs: seq<AgentTask>, i: nat, c: Checkpoint, deadline: int, w: World)
    requires DependenciesFirst(xs) && i < |xs| && Reached(key, xs, i, c) && xs[i].taskId !in Settled(c) && !Blocked(xs, c)
    ensures var after := AfterDispatch(env, key, xs, i, c, deadline, w).0.episodes;
            w.episodes <= after && SafeFrom(after, |w.episodes|)
    decreases |xs| - i, 0
  {
    DispatchReaches(env, key, xs, i, c, w);
    hide Accounted, Settled, DependenciesFirst, Dispatch, Stuck, Conflicted, Blocked, EpisodeSafe, SafeFrom, Stored, MakeReport, IdSet;
    DispatchFacts(env, key, xs[i], c, w);
    NextIsSafe(env, key, xs, i, c, w);
    var (w2, c1, verdict) := Dispatch(env, key, xs[i], c, w);
    var (w3, saved) := Save(env, key, c1, w2);
    SafeJoin(|w.episodes|, w2.episodes, w2.episodes);
    if verdict.Continue? && saved {
      UnblockedIsSafe(env, key, xs, i + 1, c1, deadline, w3);
      SafeJoin(|w.episodes|, w2.episodes, RunTasks(env, key, xs, i + 1, c1, deadline, w3).0.episodes);
    }
  }

  /** One safe episode after `start`, followed by safe ones. */
  lemma SafeJoin(start: nat, middle: seq<Episode>, after: seq<Episode>)
    requires |middle| == start + 1 && EpisodeSafe(middle[start]) && middle <= after
    requires middle == after || SafeFrom(after, start + 1)
    ensures SafeFrom(after, start)
  {
    hide EpisodeSafe;
    assert after[start] == middle[start];
  }

  lemma NextIsSafe(env: Environment, key: RequestKey, xs: seq<AgentTask>, i: nat, c: Checkpoint, w: World)
    requires DependenciesFirst(xs) && i < |xs| && Reached(key, xs, i, c) && xs[i].taskId !in Settled(c) && !Blocked(xs, c)
    ensures var (w2, c1, verdict) := Dispatch(env, key, xs[i], c, w);
            && (verdict.Continue? ==> !Blocked(xs, c1))
            && |w2.episodes| == |w.episodes| + 1 && EpisodeSafe(w2.episodes[|w.episodes|])
  {
    hide Conflicted, Accounted, Dispatch;
    DispatchFacts(env, key, xs[i], c, w);
    DependenciesFirstEntry(xs, i);
    assert !BlockedAt(xs, c, i);
    forall d | d in Elements(xs[i].dependsOn)
      ensures d in CompletedIds(c.completed)
    {
      assert d in Settled(c) && d !in Elements(xs[i].dependsOn) * Stuck(c);
    }
    var (_, c1, verdict) := Dispatch(env, key, xs[i], c, w);
    if verdict.Continue? && Blocked(xs, c1) {
      BlockedBefore(xs, c, c1);
    }
  }

  lemma BlockedBefore(xs: seq<AgentTask>, c: Checkpoint, c1: Checkpoint)
    requires Blocked(xs, c1) && Stuck(c1) == Stuck(c) && Settled(c) <= Settled(c1) && !Conflicted(c.completed)
    ensures Blocked(xs, c)
  {
    var j: nat :| BlockedAt(xs, c1, j);
    assert BlockedAt(xs, c, j);
  }

  /** An environment in which everything goes well. */
  function Cooperative(capabilities: map<string, Capability>): Environment {
    Environment(capabilities, true, 0, (t: AgentTask, n: nat) => Answer(CooperativeResult(t)), n => 0, n => false)
  }

  function CooperativeResult(t: AgentTask): TaskResult {
    TaskResult(t.taskId, t.agentId, "COMPLETED", "evidence", map[], map["source" := Text("model")], false)
  }

  lemma CooperativeValid(t: AgentTask)
    ensures ValidateResult(t, CooperativeResult(t)) == ""
  {
    assert "source" in CooperativeResult(t).provenance;
    assert |"evidence"| > 0;
  }

  lemma CooperativeRecord(key: RequestKey, c: Checkpoint, t: AgentTask)
    requires !Conflicted(c.completed)
    ensures !Record(key, c, t, CooperativeResult(t)).1
  {
    hide ValidateResult, DispatchKey, ConflictIds;
    var entry := (t.taskId, CooperativeResult(t));
    CooperativeValid(t);
    ConflictIdsEmpty(c.completed + [entry]);
    assert entry.1.payload.Keys == {};
    assert forall e :: e in c.completed + [entry] <==> e in c.completed || e == entry;
  }

  lemma {:induction false} EpisodesGrow(
      env: Environment, key: RequestKey, xs: seq<AgentTask>, i: nat, c: Checkpoint, deadline: int, w: World)
    requires i <= |xs|
    ensures w.episodes <= RunTasks(env, key, xs, i, c, deadline, w).0.episodes
    decreases |xs| - i
  {
    hide Record, Retry, DispatchKey, AuditOf, CompletedIds, Stored, MakeReport;
    if i < |xs| {
      var w1 := w.(ticks := w.ticks + 1);
      var (w2, c1, _) := Dispatch(env, key, xs[i], c, w1);
      var w3 := Save(env, key, c1, w2).0;
      EpisodesGrow(env, key, xs, i + 1, c, deadline, w);
      EpisodesGrow(env, key, xs, i + 1, c, deadline, w1);
      EpisodesGrow(env, key, xs, i + 1, c1, deadline, w3);
    }
  }

  /** When everything else goes well, the task at `j` is dispatched although it has a stuck dependency. */
  lemma {:induction false} CooperativeDispatches(
      caps: map<string, Capability>, key: RequestKey, xs: seq<AgentTask>, i: nat, c: Checkpoint, deadline: nat, w: World, j: nat)
    requires DistinctIds(xs) && Reached(key, xs, i, c) && BlockedAt(xs, c, j)
    ensures !CallSafe(Cooperative(caps), key, xs, i, c, deadline, w)
    decreases |xs| - i
  {
    BlockedAhead(key, xs, i, c, j);
    ReachNext(key, xs, i, c);
    hide Accounted, DistinctIds, DispatchKey, Conflicted, AfterDispatch, EpisodeSafe, Stuck, BlockedAt, Settled;
    var w1 := w.(ticks := w.ticks + 1);
    if xs[i].taskId in CompletedIds(c.completed) {
      CooperativeDispatches(caps, key, xs, i + 1, c, deadline, w, j);
    } else if xs[i].taskId in Settled(c) {
      CooperativeDispatches(caps, key, xs, i + 1, c, deadline, w1, j);
    } else {
      CooperativeAfter(caps, key, xs, i, c, deadline, w1, j);
    }
  }

  /** The blocked task is not behind the loop, and a conflict stops the loop only behind it. */
  lemma BlockedAhead(key: RequestKey, xs: seq<AgentTask>, i: nat, c: Checkpoint, j: nat)
    requires Reached(key, xs, i, c) && BlockedAt(xs, c, j)
    ensures i <= j < |xs|
    ensures i < j && xs[i].taskId !in Settled(c) ==> !Conflicted(c.completed)
  {
    hide Accounted, Stuck, Conflicted;
    if j < i {
      IdSetMember(xs[..i], j);
    } else if i < j && Conflicted(c.completed) {
      IdSetMember(xs[..j], i);
    }
  }

  lemma StillBlocked(xs: seq<AgentTask>, i: nat, c: Checkpoint, c1: Checkpoint, j: nat)
    requires DistinctIds(xs) && i < j && BlockedAt(xs, c, j)
    requires Settled(c1) == Settled(c) + {xs[i].taskId} && Stuck(c1) == Stuck(c) && !Conflicted(c1.completed)
    ensures BlockedAt(xs, c1, j)
  {
    hide Settled, Stuck, Conflicted, DistinctIds;
    DistinctLookup(xs, i);
    DistinctEntry(xs, j);
    IdSetMember(xs[..j], i);
  }

  lemma {:induction false} CooperativeAfter(
      caps: map<string, Capability>, key: RequestKey, xs: seq<AgentTask>, i: nat, c: Checkpoint, deadline: nat, w: World, j: nat)
    requires DistinctIds(xs) && i < |xs| && Reached(key, xs, i, c) && xs[i].taskId !in Settled(c) && BlockedAt(xs, c, j)
    ensures !SafeFrom(AfterDispatch(Cooperative(caps), key, xs, i, c, deadline, w).0.episodes, |w.episodes|)
    decreases |xs| - i, 0
  {
    var env := Cooperative(caps);
    BlockedAhead(key, xs, i, c, j);
    DispatchReaches(env, key, xs, i, c, w);
    hide Accounted, Settled, DistinctIds, Dispatch, Conflicted;
    DispatchFacts(env, key, xs[i], c, w);
    var (w2, c1, _) := Dispatch(env, key, xs[i], c, w);
    var w3 := Save(env, key, c1, w2).0;
    var after := AfterDispatch(env, key, xs, i, c, deadline, w).0.episodes;
    EpisodesGrow(env, key, xs, i + 1, c1, deadline, w3);
    if j == i {
      var d :| d in Elements(xs[i].dependsOn) * Stuck(c);
      assert after[|w.episodes|] == w2.episodes[|w.episodes|];
      assert !EpisodeSafe(after[|w.episodes|]);
    } else {
      CooperativeContinues(caps, key, c, w, xs[i]);
      StillBlocked(xs, i, c, c1, j);
      CooperativeDispatches(caps, key, xs, i + 1, c1, deadline, w3, j);
    }
  }

  lemma CooperativeContinues(caps: map<string, Capability>, key: RequestKey, c: Checkpoint, w: World, t: AgentTask)
    requires !Conflicted(c.completed)
    ensures Dispatch(Cooperative(caps), key, t, c, w).2.Continue?
  {
    hide Conflicted, Record;
    assert Retry(Cooperative(caps), t, w.calls, 0, UNKNOWN_FAILURE).0 == Ok(CooperativeResult(t));
    CooperativeRecord(key, c, t);
  }

  // ---------- the exact condition for a call of `execute` ----------

  /** `time.monotonic()` never runs backwards. */
  ghost predicate Monotonic(env: Environment) {
    forall m: nat, n: nat :: m <= n ==> env.clock(m) <= env.clock(n)
  }

  /** The request and the checkpoint let `execute` get as far as a dispatch. */
  predicate CanDispatch(req: Request, c: Checkpoint) {
    |req.tasks| <= req.maxHops && !NeedsGate(req) && req.timeout >= 0 && !c.paused && !c.stopped
  }

  /** No dispatch of this call of `execute` comes ahead of a dependency. */
  ghost predicate ExecuteSafe(env: Environment, req: Request, w: World) {
    SafeFrom(Step(env, Execute, req, w).episodes, |w.episodes|)
  }

  /** Capabilities under which every task of the plan can be dispatched. */
  function CapabilitiesFor(tasks: seq<AgentTask>): map<string, Capability> {
    map a | a in Agents(tasks) :: Capability(seq(|tasks|, i requires 0 <= i < |tasks| => tasks[i].skill), true)
  }

  function Agents(tasks: seq<AgentTask>): set<string> {
    set t | t in tasks :: t.agentId
  }

  lemma CapabilitiesSuffice(tasks: seq<AgentTask>, i: nat)
    requires i < |tasks|
    ensures TaskError(tasks[i], CapabilitiesFor(tasks)) == None
  {
    assert tasks[i] in tasks;
    var skills := CapabilitiesFor(tasks)[tasks[i].agentId].skills;
    assert skills[i] == tasks[i].skill;
  }

  /** After the deadline nothing is dispatched. */
  lemma {:induction false} ExpiredDispatchesNothing(
      env: Environment, key: RequestKey, xs: seq<AgentTask>, i: nat, c: Checkpoint, deadline: int, w: World)
    requires i <= |xs| && env.clock(w.ticks) > deadline
    ensures RunTasks(env, key, xs, i, c, deadline, w).0.episodes == w.episodes
    decreases |xs| - i
  {
    hide AfterDispatch, DispatchKey;
    if i < |xs| && xs[i].taskId in CompletedIds(c.completed) {
      ExpiredDispatchesNothing(env, key, xs, i + 1, c, deadline, w);
    }
  }

  /** A call that cannot dispatch, or whose checkpoint is not blocked, is safe in every environment. */
  lemma SafeUnlessBlocked(env: Environment, req: Request, w: World)
    requires Orderable(req.tasks) && Monotonic(env) && Accounted(req.key, Load(w.disk, req.key))
    requires !CanDispatch(req, Load(w.disk, req.key)) || !Blocked(OrderOf(req.tasks).value, Load(w.disk, req.key))
    ensures ExecuteSafe(env, req, w)
  {
    hide RunTasks, Accounted, DependenciesFirst, DistinctIds, Closed, Blocked;
    var xs, c := OrderOf(req.tasks).value, Load(w.disk, req.key);
    OrderOfOrdering(req.tasks);
    if Runnable(env, req) && !c.paused && !c.stopped {
      var deadline, w1 := env.clock(w.ticks) + req.timeout, w.(ticks := w.ticks + 1);
      if CanDispatch(req, c) {
        assert xs[..0] == [] && IdSet([]) == {};
        UnblockedIsSafe(env, req.key, xs, 0, c, deadline, w1);
      } else {
        assert env.clock(w.ticks) <= env.clock(w.ticks + 1);
        ExpiredDispatchesNothing(env, req.key, xs, 0, c, deadline, w1);
      }
    }
  }

  lemma CooperativeRunnable(req: Request)
    requires Orderable(req.tasks) && |req.tasks| <= req.maxHops && !NeedsGate(req)
    ensures Runnable(Cooperative(CapabilitiesFor(req.tasks)), req)
  {
    hide CapabilitiesFor, TaskError, DistinctIds, Closed;
    var caps := CapabilitiesFor(req.tasks);
    forall i | 0 <= i < |req.tasks|
      ensures TaskError(req.tasks[i], caps) == None
    {
      CapabilitiesSuffice(req.tasks, i);
    }
  }

  /** A blocked checkpoint makes the call unsafe when everything else goes well. */
  lemma BlockedIsUnsafe(req: Request, c: Checkpoint) returns (env: Environment, w: World)
    requires Orderable(req.tasks) && Accounted(req.key, c) && CanDispatch(req, c) && Blocked(OrderOf(req.tasks).value, c)
    ensures Monotonic(env) && Runnable(env, req) && Load(w.disk, req.key) == c && !ExecuteSafe(env, req, w)
  {
    hide RunTasks, Accounted, DependenciesFirst, BlockedAt, SafeFrom, CapabilitiesFor, Runnable, DistinctIds, Closed;
    var caps, xs := CapabilitiesFor(req.tasks), OrderOf(req.tasks).value;
    env, w := Cooperative(caps), START.(disk := map[req.key := c]);
    CooperativeRunnable(req);
    OrderOfOrdering(req.tasks);
    var j: nat :| BlockedAt(xs, c, j);
    assert xs[..0] == [] && IdSet([]) == {};
    CooperativeDispatches(caps, req.key, xs, 0, c, req.timeout, w.(ticks := 1), j);
  }

  /**
   * The exact condition: whatever the dispatcher, the timing and the crashes, a call of `execute` on a
   * checkpoint dispatches no task ahead of a dependency if and only if the call cannot dispatch at all or
   * the checkpoint is not blocked.
   */
  lemma SafeExactlyWhenUnblocked(req: Request, c: Checkpoint)
    requires Orderable(req.tasks) && Accounted(req.key, c)
    ensures (forall env, w: World :: Monotonic(env) && Runnable(env, req) && Load(w.disk, req.key) == c ==> ExecuteSafe(env, req, w))
            <==> !(CanDispatch(req, c) && Blocked(OrderOf(req.tasks).value, c))
  {
    hide DistinctIds, Closed, Accounted, Blocked, CanDispatch, ExecuteSafe, Runnable, Monotonic;
    if CanDispatch(req, c) && Blocked(OrderOf(req.tasks).value, c) {
      var env, w := BlockedIsUnsafe(req, c);
    } else {
      forall env, w: World | Monotonic(env) && Runnable(env, req) && Load(w.disk, req.key) == c
        ensures ExecuteSafe(env, req, w)
      {
        SafeUnlessBlocked(env, req, w);
      }
    }
  }

  /** A call that starts from a failure-free checkpoint is safe in every environment. */
  lemma FailureFreeIsSafe(env: Environment, req: Request, w: World)
    requires Orderable(req.tasks) && Monotonic(env)
    requires Accounted(req.key, Load(w.disk, req.key)) && Load(w.disk, req.key).failed == map[]
    ensures ExecuteSafe(env, req, w)
  {
    hide DistinctIds, Closed, Accounted, ExecuteSafe, CanDispatch;
    FailureFreeIsUnblocked(OrderOf(req.tasks).value, Load(w.disk, req.key));
    SafeUnlessBlocked(env, req, w);
  }

  lemma FailureFreeIsUnblocked(xs: seq<AgentTask>, c: Checkpoint)
    requires c.failed == map[]
    ensures !Blocked(xs, c)
  {
  }
}
