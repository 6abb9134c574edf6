/**
 * What the executor lets through: which answers count as completed, what retries and the release gate
 * do, how long a pause and a stop last, what a report says, and that a healthy call completes its plan.
 */
module RuntimeResults {
  import opened Common
  import opened PlanOrder
  import opened Evidence
  import opened StoredForm
  import opened Runtime
  import opened RuntimeSafety

  // ---------- which answers count as completed ----------

  /** The rules that an answer has to meet, one by one. */
  ghost predicate Admits(t: AgentTask, r: TaskResult) {
    && r.taskId == t.taskId && r.agentId == t.agentId
    && (r.status == "COMPLETED" || r.status == "WATCH" || r.status == "LOW_SCORE" || r.status == "NOT_READY" || r.status == "CONFLICT")
    && r.evidenceReference != "" && r.provenance != map[]
    && !("fabricated_numeric_evidence" in r.payload && r.payload["fabricated_numeric_evidence"] == Flag(true))
  }

  /** Validation passes exactly the admitted answers. */
  lemma ValidExactly(t: AgentTask, r: TaskResult)
    ensures ValidateResult(t, r) == "" <==> Admits(t, r)
  {
    assert |"result task_id mismatch"| == 23 && |"result agent_id mismatch"| == 24 && |"unsupported result status"| == 25;
    assert |"missing evidence_reference"| == 26 && |"missing provenance"| == 18 && |"fabricated numeric evidence rejected"| == 36;
  }

  /** A rejected answer is recorded with the first rule that it breaks. */
  lemma RejectionReason(t: AgentTask, r: TaskResult)
    ensures r.taskId != t.taskId ==> ValidateResult(t, r) == "result task_id mismatch"
    ensures r.taskId == t.taskId && r.agentId != t.agentId ==> ValidateResult(t, r) == "result agent_id mismatch"
    ensures r.taskId == t.taskId && r.agentId == t.agentId && r.status == "FAILED" ==> ValidateResult(t, r) == "unsupported result status"
    ensures Admits(t, r.(evidenceReference := "x")) && r.evidenceReference == "" ==> ValidateResult(t, r) == "missing evidence_reference"
    ensures Admits(t, r.(provenance := map["x" := Text("x")])) && r.provenance == map[] ==> ValidateResult(t, r) == "missing provenance"
    ensures Admits(t, r.(payload := map[])) && r.payload == map["fabricated_numeric_evidence" := Flag(true)] ==>
              ValidateResult(t, r) == "fabricated numeric evidence rejected"
  {
    assert |"x"| == 1;
    assert |"FAILED"| == 6 && |"COMPLETED"| == 9 && |"WATCH"| == 5 && |"LOW_SCORE"| == 9 && |"NOT_READY"| == 9 && |"CONFLICT"| == 8;
  }

  lemma AdmitsReadBack(t: AgentTask, r: TaskResult)
    requires Admits(t, r)
    ensures Admits(t, JsonResult(r))
  {
    var k :| k in r.provenance;
    assert k in JsonMap(r.provenance);
  }

  /** Every completed entry is an admitted answer for one of the tasks. */
  ghost predicate AdmittedOnly(tasks: set<AgentTask>, completed: Completed) {
    forall e :: e in completed ==> exists t :: AdmittedFor(tasks, t, e)
  }

  ghost predicate AdmittedFor(tasks: set<AgentTask>, t: AgentTask, e: (string, TaskResult)) {
    t in tasks && t.taskId == e.0 && Admits(t, e.1)
  }

  lemma StoredAdmitted(tasks: set<AgentTask>, c: Checkpoint)
    requires AdmittedOnly(tasks, c.completed)
    ensures AdmittedOnly(tasks, Stored(c).completed)
  {
    hide Admits, JsonResult;
    forall e | e in Stored(c).completed
      ensures exists t :: AdmittedFor(tasks, t, e)
    {
      var f := StoredEntry(c, e);
      var t :| AdmittedFor(tasks, t, f);
      AdmitsReadBack(t, f.1);
      assert AdmittedFor(tasks, t, e);
    }
  }

  /** An answer completes its task exactly when it is admitted; otherwise the task fails and the call stops. */
  lemma RecordDecides(key: RequestKey, c: Checkpoint, t: AgentTask, r: TaskResult)
    ensures var (c1, stop) := Record(key, c, t, r);
            if Admits(t, r) then c1.completed == c.completed + [(t.taskId, r)]
            else
              && c1.completed == c.completed && stop && c1.status == FAILED
              && t.taskId in c1.failed && c1.failed[t.taskId] == ValidateResult(t, r) != ""
  {
    hide ValidateResult, ConflictIds, DispatchKey;
    ValidExactly(t, r);
  }

  lemma RecordAdmitted(key: RequestKey, c: Checkpoint, t: AgentTask, r: TaskResult, tasks: set<AgentTask>)
    requires AdmittedOnly(tasks, c.completed) && t in tasks
    ensures AdmittedOnly(tasks, Record(key, c, t, r).0.completed)
  {
    hide Record, Admits;
    RecordDecides(key, c, t, r);
    if Admits(t, r) {
      assert AdmittedFor(tasks, t, (t.taskId, r));
    }
  }

  lemma DispatchAdmitted(env: Environment, key: RequestKey, t: AgentTask, c: Checkpoint, w: World, tasks: set<AgentTask>)
    requires AdmittedOnly(tasks, c.completed) && t in tasks
    ensures var (w2, c1, _) := Dispatch(env, key, t, c, w);
            w2.disk == w.disk && AdmittedOnly(tasks, c1.completed)
  {
    hide Record, Retry, AuditOf, AdmittedOnly;
    var result := Retry(env, t, w.calls, 0, UNKNOWN_FAILURE).0;
    if result.Ok? {
      RecordAdmitted(key, c, t, result.value, tasks);
    }
  }

  lemma SaveAdmitted(env: Environment, key: RequestKey, c: Checkpoint, w: World, tasks: set<AgentTask>)
    requires AdmittedOnly(tasks, c.completed) && AdmittedOnly(tasks, Load(w.disk, key).completed)
    ensures AdmittedOnly(tasks, Load(Save(env, key, c, w).0.disk, key).completed)
  {
    hide AdmittedOnly, Stored;
    StoredAdmitted(tasks, c);
  }

  lemma {:induction false} RunTasksAdmitted(
      env: Environment, key: RequestKey, xs: seq<AgentTask>, i: nat, c: Checkpoint, deadline: int, w: World, tasks: set<AgentTask>)
    requires i <= |xs| && (forall t :: t in xs ==> t in tasks)
    requires AdmittedOnly(tasks, c.completed) && AdmittedOnly(tasks, Load(w.disk, key).completed)
    ensures AdmittedOnly(tasks, Load(RunTasks(env, key, xs, i, c, deadline, w).0.disk, key).completed)
    decreases |xs| - i
  {
    hide AdmittedOnly, Dispatch, Save, DispatchKey, CompletedIds;
    var w1 := w.(ticks := w.ticks + 1);
    SaveAdmitted(env, key, c.(status := COMPLETED), w, tasks);
    SaveAdmitted(env, key, c.(status := TIMEOUT), w1, tasks);
    if i < |xs| {
      RunTasksAdmitted(env, key, xs, i + 1, c, deadline, w, tasks);
      RunTasksAdmitted(env, key, xs, i + 1, c, deadline, w1, tasks);
      var (w2, c1, _) := Dispatch(env, key, xs[i], c, w1);
      DispatchAdmitted(env, key, xs[i], c, w1, tasks);
      SaveAdmitted(env, key, c1, w2, tasks);
      RunTasksAdmitted(env, key, xs, i + 1, c1, deadline, Save(env, key, c1, w2).0, tasks);
    }
  }

  lemma ExecuteAdmitted(env: Environment, req: Request, xs: seq<AgentTask>, w: World, tasks: set<AgentTask>)
    requires forall t :: t in xs ==> t in tasks
    requires AdmittedOnly(tasks, Load(w.disk, req.key).completed)
    ensures AdmittedOnly(tasks, Load(ExecuteOrdered(env, req, xs, w).0.disk, req.key).completed)
  {
    hide AdmittedOnly, RunTasks;
    var c := Load(w.disk, req.key);
    RunTasksAdmitted(env, req.key, xs, 0, c, env.clock(w.ticks) + req.timeout, w.(ticks := w.ticks + 1), tasks);
  }

  lemma StepAdmitted(env: Environment, cmd: Command, req: Request, w: World, tasks: set<AgentTask>)
    requires Elements(req.tasks) <= tasks && AdmittedOnly(tasks, Load(w.disk, req.key).completed)
    ensures AdmittedOnly(tasks, Load(Step(env, cmd, req, w).disk, req.key).completed)
  {
    hide AdmittedOnly, Save, ExecuteOrdered, Runnable;
    var c := Load(w.disk, req.key);
    SaveAdmitted(env, req.key, c.(paused := true, status := PAUSED), w, tasks);
    SaveAdmitted(env, req.key, c.(stopped := true, status := STOPPED), w, tasks);
    SaveAdmitted(env, req.key, c.(paused := false, status := RUNNING), w, tasks);
    if Runnable(env, req) {
      AdmissibleOrderable(env, req);
      var xs := OrderOf(req.tasks).value;
      OrderDrawn(req.tasks);
      ExecuteAdmitted(env, req, xs, w, tasks);
      ExecuteAdmitted(env, req, xs, Save(env, req.key, c.(paused := false, status := RUNNING), w).0, tasks);
    }
  }

  lemma OrderDrawn(tasks: seq<AgentTask>)
    requires Orderable(tasks)
    ensures forall t :: t in OrderOf(tasks).value ==> t in Elements(tasks)
  {
    OrderOfSound(tasks);
    var xs := OrderOf(tasks).value;
    forall t | t in xs
      ensures t in Elements(tasks)
    {
      assert t in multiset(xs) && multiset(xs) == multiset(tasks);
    }
  }

  /** The tasks of all commands for the request key. */
  ghost function Issued(cmds: seq<(Command, Request)>, key: RequestKey): set<AgentTask>
    decreases |cmds|
  {
    if cmds == [] then {}
    else Issued(cmds[1..], key) + if cmds[0].1.key == key then Elements(cmds[0].1.tasks) else {}
  }

  lemma {:induction false} RunAdmitted(env: Environment, cmds: seq<(Command, Request)>, key: RequestKey, w: World, tasks: set<AgentTask>)
    requires Issued(cmds, key) <= tasks && AdmittedOnly(tasks, Load(w.disk, key).completed)
    ensures AdmittedOnly(tasks, Load(Run(env, cmds, w).disk, key).completed)
    decreases |cmds|
  {
    hide AdmittedOnly, Step;
    if cmds != [] {
      if cmds[0].1.key == key {
        StepAdmitted(env, cmds[0].0, cmds[0].1, w, tasks);
      } else {
        StepFrame(env, cmds[0].0, cmds[0].1, w, key);
      }
      RunAdmitted(env, cmds[1..], key, Step(env, cmds[0].0, cmds[0].1, w), tasks);
    }
  }

  /**
   * Over any mix of requests, every completed entry of a checkpoint answers a task that was requested
   * under its key: it carries that task's id and agent, one of the five accepted statuses, evidence and
   * provenance, and no admission of fabricated numbers.
   */
  lemma CompletedWereAdmitted(env: Environment, cmds: seq<(Command, Request)>, key: RequestKey, w: World)
    requires key !in w.disk
    ensures forall e :: e in Load(Run(env, cmds, w).disk, key).completed ==>
              exists t :: t in Issued(cmds, key) && t.taskId == e.0 == e.1.taskId && t.agentId == e.1.agentId && Admits(t, e.1)
  {
    hide Run, Admits;
    RunAdmitted(env, cmds, key, w, Issued(cmds, key));
    forall e | e in Load(Run(env, cmds, w).disk, key).completed
      ensures exists t :: t in Issued(cmds, key) && t.taskId == e.0 == e.1.taskId && t.agentId == e.1.agentId && Admits(t, e.1)
    {
      var t :| AdmittedFor(Issued(cmds, key), t, e);
      AdmitsIds(t, e.1);
    }
  }

  lemma AdmitsIds(t: AgentTask, r: TaskResult)
    requires Admits(t, r)
    ensures r.taskId == t.taskId && r.agentId == t.agentId
  {
  }

  /**
   * The converse: an answer that breaks a rule leaves its task failed, the completed tasks as they were,
   * and the call FAILED.
   */
  lemma RejectedAnswerFails(env: Environment, key: RequestKey, xs: seq<AgentTask>, i: nat, c: Checkpoint, deadline: int, w: World, r: TaskResult)
    requires i < |xs| && Retry(env, xs[i], w.calls, 0, UNKNOWN_FAILURE).0 == Ok(r) && !Admits(xs[i], r) && !env.dies(w.saves)
    ensures var (w', outcome) := AfterDispatch(env, key, xs, i, c, deadline, w);
            && outcome.Reported? && outcome.report.status == FAILED
            && xs[i].taskId in outcome.report.failed && outcome.report.completed == CompletedIds(c.completed)
            && Load(w'.disk, key).status == FAILED && CompletedIds(Load(w'.disk, key).completed) == CompletedIds(c.completed)
            && xs[i].taskId in Load(w'.disk, key).failed
  {
    hide Record, Retry, Admits, CompletedIds, Stored, AuditOf;
    RecordDecides(key, c, xs[i], r);
    var c1 := Record(key, c, xs[i], r).0;
    StoredSettled(c1);
    StoredFields(c1);
  }

  lemma StoredFields(c: Checkpoint)
    ensures Stored(c) == c.(completed := Stored(c).completed)
  {
  }

  // ---------- retries ----------

  /** A RuntimeError and a result that asks for it are tried again, up to `max_retries` times. */
  ghost predicate TriedAgain(reply: Reply) {
    reply.Fault? || (reply.Answer? && reply.result.status == "RETRYABLE_FAILURE" && reply.result.retryable)
  }

  /** The failed result that stands for a reply without one: no evidence, and the reason as payload. */
  ghost predicate GivesReason(task: AgentTask, r: TaskResult, reason: string) {
    && r.taskId == task.taskId && r.agentId == task.agentId && r.status == "FAILED" && r.evidenceReference == ""
    && r.payload == map["error" := Text(reason)] && r.provenance == map[] && !r.retryable
  }

  ghost function Reason(reply: Reply): string {
    if reply.Fault? then reply.detail else "retryable failure result"
  }

  lemma {:induction false} RetriesReachAnswer(env: Environment, task: AgentTask, from: nat, attempts: nat, k: nat, lastError: string)
    requires attempts + k <= env.maxRetries
    requires forall n: nat :: from <= n < from + k ==> TriedAgain(env.dispatcher(task, n))
    requires !TriedAgain(env.dispatcher(task, from + k))
    ensures var (result, n) := Retry(env, task, from, attempts, lastError);
            var reply := env.dispatcher(task, from + k);
            && n == k + 1
            && (reply.Answer? ==> result == Ok(reply.result))
            && (reply.Malformed? ==> result.Ok? && GivesReason(task, result.value, reply.detail))
            && (reply.Escape? ==> result == Err(reply.detail))
    decreases k
  {
    if k > 0 {
      assert TriedAgain(env.dispatcher(task, from));
      RetriesReachAnswer(env, task, from + 1, attempts + 1, k - 1, FailureText(env.dispatcher(task, from)));
    }
  }

  /** When every allowed call asks for another one, the task fails after `max_retries + 1` calls. */
  lemma {:induction false} RetriesRunOut(env: Environment, task: AgentTask, from: nat, attempts: nat, lastError: string)
    requires attempts <= env.maxRetries + 1
    requires forall n: nat :: from <= n < from + (env.maxRetries + 1 - attempts) ==> TriedAgain(env.dispatcher(task, n))
    ensures var (result, n) := Retry(env, task, from, attempts, lastError);
            && n == env.maxRetries + 1 - attempts && result.Ok?
            && GivesReason(task, result.value, if n == 0 then lastError else Reason(env.dispatcher(task, from + n - 1)))
    decreases env.maxRetries + 1 - attempts
  {
    if attempts <= env.maxRetries {
      assert TriedAgain(env.dispatcher(task, from));
      RetriesRunOut(env, task, from + 1, attempts + 1, FailureText(env.dispatcher(task, from)));
    }
  }

  // ---------- the release gate ----------

  /** With the gate closed, a release or a deployment is refused and nothing else is. */
  lemma ClosedGateRefuses(env: Environment, req: Request, w: World, outcome: Outcome)
    requires env.registryReady && Answers(env, req, w, outcome)
    ensures outcome == GateClosed <==> (req.action == "release" || req.action == "deploy") && !req.gateOpen
    ensures outcome == GateClosed ==> Step(env, Execute, req, w) == w && Step(env, Recover, req, w) == w
  {
    hide RunTasks, Admissible, Explains;
    if Runnable(env, req) {
      AdmissibleOrderable(env, req);
      ExecuteOutcome(env, req, OrderOf(req.tasks).value, w);
    }
  }

  lemma ExecuteOutcome(env: Environment, req: Request, xs: seq<AgentTask>, w: World)
    ensures var outcome := ExecuteOrdered(env, req, xs, w).1;
            outcome.Reported? || outcome.Died? || outcome.Escaped?
  {
    hide RunTasks;
    var c := Load(w.disk, req.key);
    if !c.paused && !c.stopped {
      RunTasksOutcome(env, req.key, xs, 0, c, env.clock(w.ticks) + req.timeout, w.(ticks := w.ticks + 1));
    }
  }

  lemma {:induction false} RunTasksOutcome(env: Environment, key: RequestKey, xs: seq<AgentTask>, i: nat, c: Checkpoint, deadline: int, w: World)
    requires i <= |xs|
    ensures var outcome := RunTasks(env, key, xs, i, c, deadline, w).1;
            outcome.Reported? || outcome.Died? || outcome.Escaped?
    decreases |xs| - i
  {
    hide Dispatch, DispatchKey, CompletedIds, Stored, MakeReport;
    if i < |xs| {
      var w1 := w.(ticks := w.ticks + 1);
      RunTasksOutcome(env, key, xs, i + 1, c, deadline, w);
      RunTasksOutcome(env, key, xs, i + 1, c, deadline, w1);
      var (w2, c1, _) := Dispatch(env, key, xs[i], c, w1);
      RunTasksOutcome(env, key, xs, i + 1, c1, deadline, Save(env, key, c1, w2).0);
    }
  }

  // ---------- pause, resume and stop ----------

  /** The checkpoint of the key is paused, or stopped, and nothing more has been dispatched for it. */
  ghost predicate Halted(key: RequestKey, before: World, w: World, stopped: bool) {
    && (if stopped then Load(w.disk, key).stopped else Load(w.disk, key).paused)
    && Mine(key, w.episodes) == Mine(key, before.episodes)
  }

  function HaltStatus(c: Checkpoint): Status {
    if c.paused then PAUSED else STOPPED
  }

  /** A halted request is not executed: nothing changes, and the report says PAUSED, or else STOPPED. */
  lemma HaltedNotExecuted(env: Environment, req: Request, xs: seq<AgentTask>, w: World)
    requires Load(w.disk, req.key).paused || Load(w.disk, req.key).stopped
    ensures var (w', outcome) := ExecuteOrdered(env, req, xs, w);
            && w' == w && outcome.Reported?
            && outcome.report.status == HaltStatus(Load(w.disk, req.key))
            && outcome.report.completed == CompletedIds(Load(w.disk, req.key).completed)
  {
  }

  lemma FlagSave(env: Environment, key: RequestKey, c: Checkpoint, w: World)
    ensures var (w', saved) := Save(env, key, c, w);
            && saved == !env.dies(w.saves) && w'.episodes == w.episodes
            && Load(w'.disk, key).paused == (if saved then c.paused else Load(w.disk, key).paused)
            && Load(w'.disk, key).stopped == (if saved then c.stopped else Load(w.disk, key).stopped)
            && (saved ==> Load(w'.disk, key).status == c.status)
  {
    StoredFields(c);
    hide Stored;
  }

  lemma StepHalted(env: Environment, cmd: Command, req: Request, before: World, w: World, key: RequestKey, stopped: bool)
    requires Halted(key, before, w, stopped) && (req.key == key && !stopped ==> !cmd.Resume?)
    ensures Halted(key, before, Step(env, cmd, req, w), stopped)
  {
    if req.key != key {
      StepFrame(env, cmd, req, w, key);
    } else {
      hide Save, ExecuteOrdered, Runnable, Mine, OrderOf, DistinctIds, Closed;
      var c := Load(w.disk, key);
      FlagSave(env, key, c.(paused := true, status := PAUSED), w);
      FlagSave(env, key, c.(stopped := true, status := STOPPED), w);
      FlagSave(env, key, c.(paused := false, status := RUNNING), w);
      if Runnable(env, req) {
        AdmissibleOrderable(env, req);
        var xs := OrderOf(req.tasks).value;
        var resumed := Save(env, key, c.(paused := false, status := RUNNING), w).0;
        HaltedNotExecuted(env, req, xs, w);
        if stopped {
          HaltedNotExecuted(env, req, xs, resumed);
        }
      }
    }
  }

  lemma {:induction false} RunHalted(env: Environment, cmds: seq<(Command, Request)>, before: World, w: World, key: RequestKey, stopped: bool)
    requires Halted(key, before, w, stopped) && (stopped || NoResume(cmds, key))
    ensures Halted(key, before, Run(env, cmds, w), stopped)
    decreases |cmds|
  {
    hide Halted, Step;
    if cmds != [] {
      assert cmds[0] in cmds;
      StepHalted(env, cmds[0].0, cmds[0].1, before, w, key, stopped);
      assert forall x :: x in cmds[1..] ==> x in cmds;
      RunHalted(env, cmds[1..], before, Step(env, cmds[0].0, cmds[0].1, w), key, stopped);
    }
  }

  ghost predicate NoResume(cmds: seq<(Command, Request)>, key: RequestKey) {
    forall x :: x in cmds && x.1.key == key ==> !x.0.Resume?
  }

  /**
   * A pause lasts: after one whose save succeeded, whatever is called, short of a resume of this request,
   * dispatches nothing for it, and an admitted `execute` or `recover` changes nothing and reports PAUSED.
   */
  lemma PauseLasts(env: Environment, req: Request, cmds: seq<(Command, Request)>, w: World, again: Request)
    requires !env.dies(w.saves) && NoResume(cmds, req.key) && again.key == req.key
    ensures var w' := Run(env, cmds, Step(env, Pause, req, w));
            && Mine(req.key, w'.episodes) == Mine(req.key, w.episodes) && Load(w'.disk, req.key).paused
            && Step(env, Execute, again, w') == w' && Step(env, Recover, again, w') == w'
            && (Runnable(env, again) ==>
                  var outcome := ExecuteOrdered(env, again, OrderOf(again.tasks).value, w').1;
                  outcome.Reported? && outcome.report.status == PAUSED)
  {
    var w1 := Step(env, Pause, req, w);
    FlagSave(env, req.key, Load(w.disk, req.key).(paused := true, status := PAUSED), w);
    RunHalted(env, cmds, w, w1, req.key, false);
    hide Run, Save, ExecuteOrdered, Mine, NoResume;
    var w' := Run(env, cmds, w1);
    if Runnable(env, again) {
      AdmissibleOrderable(env, again);
      HaltedNotExecuted(env, again, OrderOf(again.tasks).value, w');
    }
  }

  /** A stop lasts for ever: no later command, not even a resume, dispatches anything for the request. */
  lemma StopLasts(env: Environment, req: Request, cmds: seq<(Command, Request)>, w: World, again: Request)
    requires !env.dies(w.saves) && again.key == req.key
    ensures var w' := Run(env, cmds, Step(env, Stop, req, w));
            && Mine(req.key, w'.episodes) == Mine(req.key, w.episodes) && Load(w'.disk, req.key).stopped
            && Step(env, Execute, again, w') == w' && Step(env, Recover, again, w') == w'
            && (Runnable(env, again) ==>
                  var outcome := ExecuteOrdered(env, again, OrderOf(again.tasks).value, w').1;
                  outcome.Reported? && (outcome.report.status == STOPPED || (outcome.report.status == PAUSED && Load(w'.disk, req.key).paused)))
  {
    var w1 := Step(env, Stop, req, w);
    FlagSave(env, req.key, Load(w.disk, req.key).(stopped := true, status := STOPPED), w);
    RunHalted(env, cmds, w, w1, req.key, true);
    hide Run, Save, ExecuteOrdered, Mine;
    var w' := Run(env, cmds, w1);
    if Runnable(env, again) {
      AdmissibleOrderable(env, again);
      HaltedNotExecuted(env, again, OrderOf(again.tasks).value, w');
    }
  }

  /** A resume undoes a pause: it goes on as `execute` does on the same checkpoint without the pause. */
  lemma ResumeContinues(env: Environment, req: Request, w: World)
    requires Runnable(env, req) && !env.dies(w.saves)
    ensures var c := Load(w.disk, req.key);
            var w1 := w.(saves := w.saves + 1, disk := w.disk[req.key := Stored(c.(paused := false, status := RUNNING))]);
            && !Load(w1.disk, req.key).paused && Load(w1.disk, req.key).stopped == c.stopped && Load(w1.disk, req.key).failed == c.failed
            && Step(env, Resume, req, w) == Step(env, Execute, req, w1)
  {
    hide RunTasks, Admissible;
    StoredFields(Load(w.disk, req.key).(paused := false, status := RUNNING));
  }

  // ---------- what a report says ----------

  /** The report and the checkpoint on the disk say the same. */
  ghost predicate ReportsDisk(r: Report, c: Checkpoint) {
    && r.status == c.status && r.completed == CompletedIds(c.completed) && r.failed == c.failed.Keys
    && (forall id :: id in r.conflicts <==> id in c.failed && c.failed[id] == "conflict_detected")
    && r.dispatchCount == |c.dispatched|
  }

  /** A timeout comes from a clock reading after the deadline, while a task of the plan had not completed. */
  ghost predicate TimedOut(env: Environment, xs: seq<AgentTask>, deadline: int, before: nat, after: nat, r: Report) {
    && (exists n: nat :: before <= n < after && env.clock(n) > deadline)
    && (exists t :: t in xs && t.taskId !in r.completed)
  }

  ghost predicate ReportExplained(env: Environment, xs: seq<AgentTask>, deadline: int, before: nat, after: nat, r: Report) {
    && (r.status == COMPLETED || r.status == TIMEOUT || r.status == FAILED || r.status == CONFLICT)
    && (r.status == TIMEOUT ==> TimedOut(env, xs, deadline, before, after, r))
    && (r.status == CONFLICT ==> r.conflicts != {})
    && (r.status == FAILED ==> exists t :: t in xs && t.taskId in r.failed)
  }

  lemma SaveReports(env: Environment, key: RequestKey, c: Checkpoint, w: World)
    ensures var (w', outcome) := SaveAndReport(env, key, c, w);
            && w'.ticks == w.ticks && (outcome.Died? <==> env.dies(w.saves)) && (outcome.Died? || outcome.Reported?)
            && (outcome.Reported? ==>
                  && ReportsDisk(outcome.report, Load(w'.disk, key)) && outcome.report.status == c.status
                  && outcome.report.completed == CompletedIds(c.completed) && outcome.report.failed == c.failed.Keys
                  && outcome.report.conflicts == Marks(c.failed))
  {
    StoredSettled(c);
    StoredFields(c);
    hide Stored, CompletedIds;
  }

  lemma HaltReason(key: RequestKey, c: Checkpoint, t: AgentTask, r: TaskResult)
    ensures var (c1, stop) := Record(key, c, t, r);
            stop ==>
              && (c1.status == FAILED || c1.status == CONFLICT)
              && (c1.status == FAILED ==> t.taskId in c1.failed)
              && (c1.status == CONFLICT ==> Marks(c1.failed) != {})
  {
    hide ValidateResult, ConflictIds, DispatchKey;
    var conflicts := ConflictIds(c.completed + [(t.taskId, r)], map[]);
    MarksOfConflicts(c.failed, conflicts);
  }

  /** Every report of the task loop is explained, and says what is on the disk. */
  lemma {:induction false} ReportMeans(env: Environment, key: RequestKey, xs: seq<AgentTask>, i: nat, c: Checkpoint, deadline: int, w: World)
    requires i <= |xs|
    ensures var (w', outcome) := RunTasks(env, key, xs, i, c, deadline, w);
            && w.ticks <= w'.ticks
            && (outcome.Reported? ==>
                  ReportsDisk(outcome.report, Load(w'.disk, key)) && ReportExplained(env, xs, deadline, w.ticks, w'.ticks, outcome.report))
    decreases |xs| - i
  {
    hide ReportsDisk, DispatchKey, CompletedIds, SaveAndReport, AfterDispatch, Marks;
    var w1 := w.(ticks := w.ticks + 1);
    SaveReports(env, key, c.(status := COMPLETED), w);
    SaveReports(env, key, c.(status := TIMEOUT), w1);
    if i < |xs| {
      assert xs[i] in xs;
      if xs[i].taskId in CompletedIds(c.completed) {
        ReportMeans(env, key, xs, i + 1, c, deadline, w);
      } else if env.clock(w.ticks) > deadline {
      } else if DispatchKey(key, xs[i].taskId) in c.dispatched {
        ReportMeans(env, key, xs, i + 1, c, deadline, w1);
      } else {
        ReportAfter(env, key, xs, i, c, deadline, w1);
      }
    }
  }

  lemma {:induction false} ReportAfter(env: Environment, key: RequestKey, xs: seq<AgentTask>, i: nat, c: Checkpoint, deadline: int, w: World)
    requires i < |xs|
    ensures var (w', outcome) := AfterDispatch(env, key, xs, i, c, deadline, w);
            && w.ticks <= w'.ticks
            && (outcome.Reported? ==>
                  ReportsDisk(outcome.report, Load(w'.disk, key)) && ReportExplained(env, xs, deadline, w.ticks, w'.ticks, outcome.report))
    decreases |xs| - i, 0
  {
    hide Record, Retry, AuditOf, ReportsDisk, CompletedIds, Stored, MakeReport, Marks, SaveAndReport;
    var result := Retry(env, xs[i], w.calls, 0, UNKNOWN_FAILURE).0;
    assert xs[i] in xs;
    if result.Ok? {
      HaltReason(key, c, xs[i], result.value);
      var (w2, c1, verdict) := Dispatch(env, key, xs[i], c, w);
      SaveReports(env, key, c1, w2);
      var (w3, saved) := Save(env, key, c1, w2);
      if verdict.Continue? && saved {
        ReportMeans(env, key, xs, i + 1, c1, deadline, w3);
      }
    }
  }

  /** The dispatched keys on the disk are those of the completed and failed tasks: idempotency key, colon, task id. */
  lemma DispatchedMeans(key: RequestKey, c: Checkpoint)
    ensures Accounted(key, c) <==> c.dispatched == set id | id in CompletedIds(c.completed) + c.failed.Keys :: key.idempotencyKey + ":" + id
  {
    var left, right := set id | id in Settled(c) :: DispatchKey(key, id), set id | id in CompletedIds(c.completed) + c.failed.Keys :: key.idempotencyKey + ":" + id;
    assert forall id :: id in Settled(c) <==> id in CompletedIds(c.completed) + c.failed.Keys;
    forall x
      ensures x in left <==> x in right
    {
      if x in left {
        var id :| id in Settled(c) && DispatchKey(key, id) == x;
        assert x == key.idempotencyKey + ":" + id;
      }
      if x in right {
        var id :| id in CompletedIds(c.completed) + c.failed.Keys && key.idempotencyKey + ":" + id == x;
        assert x == DispatchKey(key, id);
      }
    }
  }

  /** After the deadline, the first task of the plan that has not completed times the call out. */
  lemma {:induction false} LateCallTimesOut(
      env: Environment, key: RequestKey, xs: seq<AgentTask>, i: nat, c: Checkpoint, deadline: int, w: World, t: AgentTask)
    requires i <= |xs| && t in xs[i..] && t.taskId !in CompletedIds(c.completed) && env.clock(w.ticks) > deadline && !env.dies(w.saves)
    ensures var (w', outcome) := RunTasks(env, key, xs, i, c, deadline, w);
            outcome.Reported? && outcome.report.status == TIMEOUT && w'.episodes == w.episodes
    decreases |xs| - i
  {
    hide AfterDispatch, DispatchKey, CompletedIds, Stored;
    assert xs[i..] == [xs[i]] + xs[i + 1..];
    if xs[i].taskId in CompletedIds(c.completed) {
      LateCallTimesOut(env, key, xs, i + 1, c, deadline, w, t);
    }
  }

  /** A call whose next clock reading is more than `timeout_seconds` after its start reports TIMEOUT. */
  lemma LateExecuteTimesOut(env: Environment, req: Request, w: World, t: AgentTask)
    requires Runnable(env, req) && !env.dies(w.saves) && env.clock(w.ticks + 1) > env.clock(w.ticks) + req.timeout
    requires var c := Load(w.disk, req.key); !c.paused && !c.stopped && t in req.tasks && t.taskId !in CompletedIds(c.completed)
    ensures var (w', outcome) := ExecuteOrdered(env, req, OrderOf(req.tasks).value, w);
            outcome.Reported? && outcome.report.status == TIMEOUT && w'.episodes == w.episodes
  {
    hide RunTasks, Admissible, CompletedIds;
    AdmissibleOrderable(env, req);
    var xs := OrderOf(req.tasks).value;
    OrderMember(req.tasks, t);
    assert xs[0..] == xs;
    LateCallTimesOut(env, req.key, xs, 0, Load(w.disk, req.key), env.clock(w.ticks) + req.timeout, w.(ticks := w.ticks + 1), t);
  }

  // ---------- a healthy call completes ----------

  /** No crash, no late reading, and an admitted answer without evidence keys for every task. */
  ghost predicate Healthy(env: Environment, xs: seq<AgentTask>, deadline: int) {
    && (forall n: nat :: !env.dies(n)) && (forall n: nat :: env.clock(n) <= deadline)
    && forall t, n: nat :: t in xs ==> HealthyAnswer(t, Retry(env, t, n, 0, UNKNOWN_FAILURE).0)
  }

  ghost predicate HealthyAnswer(t: AgentTask, answer: Result<TaskResult, string>) {
    answer.Ok? && Admits(t, answer.value) && forall k :: k in answer.value.payload ==> !(EVIDENCE_PREFIX <= k)
  }

  lemma HealthyRecord(key: RequestKey, c: Checkpoint, t: AgentTask, answer: Result<TaskResult, string>)
    requires HealthyAnswer(t, answer) && !Conflicted(c.completed)
    ensures var (c1, stop) := Record(key, c, t, answer.value);
            !stop && c1.completed == c.completed + [(t.taskId, answer.value)] && c1.failed == c.failed && !Conflicted(c1.completed)
  {
    hide ValidateResult, DispatchKey, ConflictIds;
    var entry := (t.taskId, answer.value);
    ValidExactly(t, answer.value);
    ConflictIdsEmpty(c.completed + [entry]);
    assert forall e :: e in c.completed + [entry] <==> e in c.completed || e == entry;
  }

  /**
   * Progress: a call on a conflict-free checkpoint that meets no trouble reports COMPLETED, and every task
   * of the plan that had not failed before has completed.
   */
  lemma {:induction false} HealthyCallCompletes(
      env: Environment, key: RequestKey, xs: seq<AgentTask>, i: nat, c: Checkpoint, deadline: int, w: World, t: AgentTask)
    requires i <= |xs| && Healthy(env, xs, deadline) && Accounted(key, c) && !Conflicted(c.completed)
    requires t in xs && t.taskId !in c.failed && (t in xs[..i] ==> t.taskId in CompletedIds(c.completed))
    ensures var outcome := RunTasks(env, key, xs, i, c, deadline, w).1;
            outcome.Reported? && outcome.report.status == COMPLETED && t.taskId in outcome.report.completed
    decreases |xs| - i
  {
    hide Accounted, Conflicted, CompletedIds, DispatchKey, AfterDispatch;
    var w1 := w.(ticks := w.ticks + 1);
    if i < |xs| {
      assert xs[..i + 1] == xs[..i] + [xs[i]];
      AccountedMembership(key, c, xs[i].taskId);
      if xs[i].taskId in CompletedIds(c.completed) {
        HealthyCallCompletes(env, key, xs, i + 1, c, deadline, w, t);
      } else if DispatchKey(key, xs[i].taskId) in c.dispatched {
        HealthyCallCompletes(env, key, xs, i + 1, c, deadline, w1, t);
      } else {
        HealthyAfter(env, key, xs, i, c, deadline, w1, t);
      }
    } else {
      assert xs[..i] == xs;
    }
  }

  lemma {:induction false} HealthyAfter(
      env: Environment, key: RequestKey, xs: seq<AgentTask>, i: nat, c: Checkpoint, deadline: int, w: World, t: AgentTask)
    requires i < |xs| && Healthy(env, xs, deadline) && Accounted(key, c) && !Conflicted(c.completed)
    requires t in xs && t.taskId !in c.failed && (t in xs[..i] ==> t.taskId in CompletedIds(c.completed))
    ensures var outcome := AfterDispatch(env, key, xs, i, c, deadline, w).1;
            outcome.Reported? && outcome.report.status == COMPLETED && t.taskId in outcome.report.completed
    decreases |xs| - i, 0
  {
    hide Accounted, Conflicted, CompletedIds, DispatchKey, Record, Retry, HealthyAnswer, AuditOf;
    var answer := Retry(env, xs[i], w.calls, 0, UNKNOWN_FAILURE).0;
    assert xs[i] in xs && HealthyAnswer(xs[i], answer);
    HealthyIsOk(xs[i], answer);
    HealthyRecord(key, c, xs[i], answer);
    RecordAccounted(key, c, xs[i], answer.value);
    AppendCompleted(c.completed, xs[i].taskId, answer.value);
    assert xs[..i + 1] == xs[..i] + [xs[i]];
    var (w2, c1, _) := Dispatch(env, key, xs[i], c, w);
    HealthyCallCompletes(env, key, xs, i + 1, c1, deadline, Save(env, key, c1, w2).0, t);
  }

  lemma HealthyIsOk(t: AgentTask, answer: Result<TaskResult, string>)
    requires HealthyAnswer(t, answer)
    ensures answer.Ok?
  {
  }

  /** The same for a whole call of `execute`. */
  lemma HealthyExecuteCompletes(env: Environment, req: Request, w: World, t: AgentTask)
    requires Runnable(env, req) && Healthy(env, req.tasks, env.clock(w.ticks) + req.timeout)
    requires var c := Load(w.disk, req.key);
             Accounted(req.key, c) && !Conflicted(c.completed) && !c.paused && !c.stopped && t in req.tasks && t.taskId !in c.failed
    ensures var outcome := ExecuteOrdered(env, req, OrderOf(req.tasks).value, w).1;
            outcome.Reported? && outcome.report.status == COMPLETED && t.taskId in outcome.report.completed
  {
    hide Accounted, Conflicted, RunTasks, HealthyAnswer, Admissible;
    AdmissibleOrderable(env, req);
    var xs := OrderOf(req.tasks).value;
    OrderDrawn(req.tasks);
    OrderMember(req.tasks, t);
    assert forall x :: x in Elements(req.tasks) ==> x in req.tasks;
    HealthyCallCompletes(env, req.key, xs, 0, Load(w.disk, req.key), env.clock(w.ticks) + req.timeout, w.(ticks := w.ticks + 1), t);
  }

  lemma OrderMember(tasks: seq<AgentTask>, t: AgentTask)
    requires Orderable(tasks) && t in tasks
    ensures t in OrderOf(tasks).value
  {
    OrderOfSound(tasks);
    assert t in multiset(tasks) && multiset(OrderOf(tasks).value) == multiset(tasks);
  }
}
