/**
 * The checkpointed executor of the main runtime.
 *
 * Everything the process cannot decide is in `Environment`: the n-th answer of the dispatcher, the
 * n-th reading of the clock, and whether the process dies at the n-th save, after its work but
 * before the temporary file replaces the checkpoint.  A dispatcher may also escape: it raises an
 * exception that the retry loop does not catch, or the process dies inside it.  Quantifying over
 * environments therefore quantifies over every dispatcher, every timing and every crash.
 */
module Runtime {
  import opened Common
  import opened PlanOrder
  import opened Evidence
  import opened StoredForm

  datatype Status = RUNNING | PAUSED | STOPPED | TIMEOUT | FAILED | CONFLICT | COMPLETED

  datatype Checkpoint = Checkpoint(
    status: Status, completed: Completed, failed: map<string, string>, dispatched: set<string>,
    paused: bool, stopped: bool)

  datatype RequestKey = RequestKey(requestId: string, idempotencyKey: string)

  datatype Request = Request(
    key: RequestKey, tasks: seq<AgentTask>, action: string, timeout: int, maxHops: int, gateOpen: bool)

  /** What one call of the dispatcher can do. */
  datatype Reply =
    | Answer(result: TaskResult)
    | Malformed(detail: string)  // KeyError, TypeError or ValueError
    | Fault(detail: string)      // RuntimeError
    | Escape(detail: string)     // any other exception: it leaves `execute`

  datatype Environment = Environment(
    capabilities: map<string, Capability>, registryReady: bool, maxRetries: int,
    dispatcher: (AgentTask, nat) -> Reply, clock: nat -> int, dies: nat -> bool)

  datatype Report = Report(
    status: Status, completed: set<string>, failed: set<string>, conflicts: set<string>, dispatchCount: nat)

  datatype Outcome =
    | NotReady
    | GateClosed
    | Rejected(error: PlanError)
    | Died
    | Escaped(exception: string)
    | Reported(report: Report)

  /** History: one dispatch of a task, with what the checkpoint held at that moment. */
  datatype Episode = Episode(key: RequestKey, task: AgentTask, completed: set<string>, failed: set<string>, calls: nat)

  /** One line of the audit log. */
  datatype AuditEvent = AuditEvent(eventType: string, taskId: string, detail: string)

  /** `crashes` counts the process deaths and the escaped exceptions. */
  datatype World = World(
    disk: map<RequestKey, Checkpoint>, audit: seq<AuditEvent>, calls: nat, ticks: nat, saves: nat,
    episodes: seq<Episode>, crashes: nat)

  const START := World(map[], [], 0, 0, 0, [], 0)

  // ---------- one dispatch ----------

  const UNKNOWN_FAILURE := "unknown dispatch failure"
  const RETRYABLE_FAILURE := "retryable failure result"
  const CONFLICT_MARK := "conflict_detected"

  function FailedResult(task: AgentTask, detail: string): TaskResult {
    TaskResult(task.taskId, task.agentId, "FAILED", "", map["error" := Text(detail)], map[], false)
  }

  predicate Transient(reply: Reply) {
    match reply
    case Answer(r) => r.status == "RETRYABLE_FAILURE" && r.retryable
    case Fault(_) => true
    case _ => false
  }

  function FailureText(reply: Reply): string {
    match reply
    case Answer(_) => RETRYABLE_FAILURE
    case Malformed(d) => d
    case Fault(d) => d
    case Escape(d) => d
  }

  /** What a non-transient reply settles on: a result, or the exception that leaves the loop. */
  function Settle(task: AgentTask, reply: Reply): Result<TaskResult, string> {
    match reply
    case Answer(r) => Ok(r)
    case Escape(d) => Err(d)
    case _ => Ok(FailedResult(task, FailureText(reply)))
  }

  /** The outcome of dispatching from the `from`-th call on, and the number of calls made. */
  function Retry(env: Environment, task: AgentTask, from: nat, attempts: nat, lastError: string)
    : (r: (Result<TaskResult, string>, nat))
    decreases env.maxRetries + 1 - attempts
  {
    if attempts > env.maxRetries then (Ok(FailedResult(task, lastError)), 0)
    else
      var reply := env.dispatcher(task, from);
      if Transient(reply) then
        var (result, n) := Retry(env, task, from + 1, attempts + 1, FailureText(reply));
        (result, n + 1)
      else (Settle(task, reply), 1)
  }

  /** Every call but the last met a transient failure; the last one settled the task or was the last allowed. */
  lemma {:induction false} RetryMeaning(env: Environment, task: AgentTask, from: nat, attempts: nat, lastError: string)
    ensures var (result, n) := Retry(env, task, from, attempts, lastError);
            && n <= (if attempts <= env.maxRetries then env.maxRetries + 1 - attempts else 0)
            && (forall k: nat :: from <= k < from + n - 1 ==> Transient(env.dispatcher(task, k)))
            && (n > 0 && !Transient(env.dispatcher(task, from + n - 1)) ==> result == Settle(task, env.dispatcher(task, from + n - 1)))
            && (n > 0 && Transient(env.dispatcher(task, from + n - 1)) ==>
                  attempts + n == env.maxRetries + 1 && result == Ok(FailedResult(task, FailureText(env.dispatcher(task, from + n - 1)))))
            && (n == 0 ==> attempts > env.maxRetries && result == Ok(FailedResult(task, lastError)))
    decreases env.maxRetries + 1 - attempts
  {
    if attempts <= env.maxRetries {
      var reply := env.dispatcher(task, from);
      if Transient(reply) {
        RetryMeaning(env, task, from + 1, attempts + 1, FailureText(reply));
      }
    }
  }

  function ValidateResult(task: AgentTask, r: TaskResult): string {
    if r.taskId != task.taskId then "result task_id mismatch"
    else if r.agentId != task.agentId then "result agent_id mismatch"
    else if r.status !in {"COMPLETED", "WATCH", "LOW_SCORE", "NOT_READY", "CONFLICT"} then "unsupported result status"
    else if r.evidenceReference == "" then "missing evidence_reference"
    else if r.provenance == map[] then "missing provenance"
    else if "fabricated_numeric_evidence" in r.payload && r.payload["fabricated_numeric_evidence"] == Flag(true) then
      "fabricated numeric evidence rejected"
    else ""
  }

  // ---------- checkpoints ----------

  const FRESH := Checkpoint(RUNNING, [], map[], {}, false, false)

  function DispatchKey(key: RequestKey, taskId: string): string {
    key.idempotencyKey + ":" + taskId
  }

  function Load(disk: map<RequestKey, Checkpoint>, key: RequestKey): Checkpoint {
    if key in disk then disk[key] else FRESH
  }

  /** The checkpoint as it is read back: JSON knows no tuples, and objects are written with sorted keys. */
  function Stored(c: Checkpoint): Checkpoint {
    c.(completed := SortByKey(ReadBack(c.completed)))
  }

  /** `_save_checkpoint`: write a temporary file and replace; a crash before the replace changes nothing. */
  function Save(env: Environment, key: RequestKey, c: Checkpoint, w: World): (r: (World, bool)) {
    if env.dies(w.saves) then (w.(saves := w.saves + 1, crashes := w.crashes + 1), false)
    else (w.(disk := w.disk[key := Stored(c)], saves := w.saves + 1), true)
  }

  /** The tasks that are marked as conflicting. */
  function Marks(failed: map<string, string>): set<string> {
    set id | id in failed && failed[id] == CONFLICT_MARK
  }

  function MakeReport(c: Checkpoint, status: Status): Report {
    Report(status, CompletedIds(c.completed), c.failed.Keys,
           Marks(c.failed), |c.dispatched|)
  }

  function SaveAndReport(env: Environment, key: RequestKey, c: Checkpoint, w: World): (r: (World, Outcome)) {
    var (w', saved) := Save(env, key, c, w);
    (w', if saved then Reported(MakeReport(c, c.status)) else Died)
  }

  /** Every conflicting task is marked as failed. */
  function Marked(failed: map<string, string>, conflicts: set<string>): map<string, string> {
    failed + map id | id in conflicts :: CONFLICT_MARK
  }

  lemma MarkNone(failed: map<string, string>)
    ensures Marked(failed, {}) == failed
  {
  }

  lemma MarkOne(failed: map<string, string>, conflicts: set<string>, id: string)
    ensures Marked(failed, conflicts + {id}) == Marked(failed, conflicts)[id := CONFLICT_MARK]
  {
  }

  /** What a settled dispatch does to the checkpoint; the flag says that the run stops here. */
  function Record(key: RequestKey, c: Checkpoint, task: AgentTask, result: TaskResult): (r: (Checkpoint, bool)) {
    var c1 := c.(dispatched := c.dispatched + {DispatchKey(key, task.taskId)});
    var error := ValidateResult(task, result);
    if error != "" then (c1.(failed := c1.failed[task.taskId := error], status := FAILED), true)
    else
      var c2 := c1.(completed := c1.completed + [(task.taskId, result)]);
      var conflicts := ConflictIds(c2.completed, map[]);
      if conflicts == {} then (c2, false)
      else (c2.(failed := Marked(c2.failed, conflicts), status := CONFLICT), true)
  }

  /** The audit line that is written before the save. */
  function AuditOf(task: AgentTask, result: TaskResult): AuditEvent {
    var error := ValidateResult(task, result);
    if error != "" then AuditEvent("task_failed", task.taskId, error)
    else AuditEvent("task_completed", task.taskId, result.evidenceReference)
  }

  /** How the loop goes on after a dispatch. */
  datatype Verdict = Continue | Halt | Abort(error: string)

  /** One dispatch with its bookkeeping, up to but not including the save. */
  function Dispatch(env: Environment, key: RequestKey, task: AgentTask, c: Checkpoint, w: World): (r: (World, Checkpoint, Verdict)) {
    var (result, n) := Retry(env, task, w.calls, 0, UNKNOWN_FAILURE);
    var w1 := w.(calls := w.calls + n,
                 episodes := w.episodes + [Episode(key, task, CompletedIds(c.completed), c.failed.Keys, n)]);
    if result.Err? then (w1.(crashes := w1.crashes + 1), c, Abort(result.error))
    else
      var (c1, stop) := Record(key, c, task, result.value);
      (w1.(audit := w1.audit + [AuditOf(task, result.value)]), c1, if stop then Halt else Continue)
  }

  /** The task loop of `execute`, from task `i` on. */
  function RunTasks(env: Environment, key: RequestKey, xs: seq<AgentTask>, i: nat, c: Checkpoint, deadline: int, w: World)
    : (r: (World, Outcome))
    requires i <= |xs|
    decreases |xs| - i
  {
    if i == |xs| then SaveAndReport(env, key, c.(status := COMPLETED), w)
    else if xs[i].taskId in CompletedIds(c.completed) then RunTasks(env, key, xs, i + 1, c, deadline, w)
    else
      var w1 := w.(ticks := w.ticks + 1);
      if env.clock(w.ticks) > deadline then SaveAndReport(env, key, c.(status := TIMEOUT), w1)
      else if DispatchKey(key, xs[i].taskId) in c.dispatched then RunTasks(env, key, xs, i + 1, c, deadline, w1)
      else AfterDispatch(env, key, xs, i, c, deadline, w1)
  }

  /** The rest of the loop from the dispatch of task `i` on. */
  function AfterDispatch(env: Environment, key: RequestKey, xs: seq<AgentTask>, i: nat, c: Checkpoint, deadline: int, w: World)
    : (r: (World, Outcome))
    requires i < |xs|
    decreases |xs| - i, 0
  {
    var (w2, c1, verdict) := Dispatch(env, key, xs[i], c, w);
    if verdict.Abort? then (w2, Escaped(verdict.error))
    else if verdict.Halt? then SaveAndReport(env, key, c1, w2)
    else
      var (w3, saved) := Save(env, key, c1, w2);
      if saved then RunTasks(env, key, xs, i + 1, c1, deadline, w3) else (w3, Died)
  }

  predicate NeedsGate(req: Request) {
    req.action in {"release", "deploy"} && !req.gateOpen
  }

  ghost predicate Runnable(env: Environment, req: Request) {
    env.registryReady && !NeedsGate(req) && Admissible(req.tasks, env.capabilities, req.maxHops) && OrderOf(req.tasks).Some?
  }

  /** `execute` once the request has passed the gates. */
  function ExecuteOrdered(env: Environment, req: Request, xs: seq<AgentTask>, w: World): (r: (World, Outcome)) {
    var c := Load(w.disk, req.key);
    if c.paused then (w, Reported(MakeReport(c, PAUSED)))
    else if c.stopped then (w, Reported(MakeReport(c, STOPPED)))
    else RunTasks(env, req.key, xs, 0, c, env.clock(w.ticks) + req.timeout, w.(ticks := w.ticks + 1))
  }

  /**
   * What `execute` answers on world `w`.  `NotReady`, `GateClosed` and `Rejected` are its validation
   * exceptions, in the order of its checks.
   */
  ghost predicate Answers(env: Environment, req: Request, w: World, outcome: Outcome) {
    match outcome
    case NotReady => !env.registryReady
    case GateClosed => env.registryReady && NeedsGate(req)
    case Rejected(e) =>
      env.registryReady && !NeedsGate(req) && !Runnable(env, req) && Explains(e, req.tasks, env.capabilities, req.maxHops)
    case _ => Runnable(env, req) && outcome == ExecuteOrdered(env, req, OrderOf(req.tasks).value, w).1
  }

  // ---------- runs ----------

  datatype Command = Execute | Recover | Pause | Resume | Stop

  /** The effect of one public call on the world. */
  ghost function Step(env: Environment, cmd: Command, req: Request, w: World): World {
    var c := Load(w.disk, req.key);
    match cmd
    case Pause => Save(env, req.key, c.(paused := true, status := PAUSED), w).0
    case Stop => Save(env, req.key, c.(stopped := true, status := STOPPED), w).0
    case Resume =>
      var (w1, saved) := Save(env, req.key, c.(paused := false, status := RUNNING), w);
      if saved && Runnable(env, req) then ExecuteOrdered(env, req, OrderOf(req.tasks).value, w1).0 else w1
    case _ =>
      if Runnable(env, req) then ExecuteOrdered(env, req, OrderOf(req.tasks).value, w).0 else w
  }

  ghost function Run(env: Environment, cmds: seq<(Command, Request)>, w: World): World
    decreases |cmds|
  {
    if cmds == [] then w else Run(env, cmds[1..], Step(env, cmds[0].0, cmds[0].1, w))
  }

  // ---------- the runtime object ----------

  class MainRuntime {
    const env: Environment
    var disk: map<RequestKey, Checkpoint>
    var audit: seq<AuditEvent>
    var calls: nat
    var ticks: nat
    var saves: nat
    ghost var episodes: seq<Episode>
    ghost var crashes: nat

    ghost function Now(): World
      reads this
    {
      World(disk, audit, calls, ticks, saves, episodes, crashes)
    }

    constructor (env: Environment)
      ensures this.env == env && Now() == START
    {
      this.env := env;
      disk, audit, calls, ticks, saves := map[], [], 0, 0, 0;
      episodes, crashes := [], 0;
    }

    method SaveCheckpoint(key: RequestKey, c: Checkpoint) returns (saved: bool)
      modifies this
      ensures (Now(), saved) == Save(env, key, c, old(Now()))
    {
      saved := !env.dies(saves);
      saves := saves + 1;
      if saved {
        disk := disk[key := Stored(c)];
      } else {
        crashes := crashes + 1;
      }
    }

    method FinishWith(key: RequestKey, c: Checkpoint) returns (outcome: Outcome)
      modifies this
      ensures (Now(), outcome) == SaveAndReport(env, key, c, old(Now()))
    {
      var saved := SaveCheckpoint(key, c);
      outcome := if saved then Reported(MakeReport(c, c.status)) else Died;
    }

    /** `_dispatch_with_retry`. */
    method DispatchWithRetry(task: AgentTask) returns (result: Result<TaskResult, string>)
      modifies this`calls
      ensures (result, calls - old(calls)) == Retry(env, task, old(calls), 0, UNKNOWN_FAILURE)
    {
      var attempts, lastError := 0, UNKNOWN_FAILURE;
      ghost var whole := Retry(env, task, calls, 0, UNKNOWN_FAILURE);
      while attempts <= env.maxRetries
        invariant calls == old(calls) + attempts
        invariant var rest := Retry(env, task, calls, attempts, lastError); whole == (rest.0, rest.1 + attempts)
        decreases env.maxRetries + 1 - attempts
      {
        attempts := attempts + 1;
        var reply := env.dispatcher(task, calls);
        calls := calls + 1;
        if !Transient(reply) {
          return Settle(task, reply);
        }
        lastError := FailureText(reply);
      }
      result := Ok(FailedResult(task, lastError));
    }

    /** The checks that `execute` makes before it touches the checkpoint. */
    method Admit(req: Request) returns (r: Result<seq<AgentTask>, Outcome>)
      ensures r.Ok? <==> Runnable(env, req)
      ensures r.Ok? ==> OrderOf(req.tasks) == Some(r.value)
      ensures r.Err? ==> r.error.NotReady? || r.error.GateClosed? || r.error.Rejected?
      ensures r.Err? ==> forall w :: Answers(env, req, w, r.error)
    {
      if !env.registryReady {
        return Err(NotReady);
      }
      if NeedsGate(req) {
        return Err(GateClosed);
      }
      var order := ValidateAndOrder(req.tasks, env.capabilities, req.maxHops);
      if order.Ok? {
        return Ok(order.value);
      }
      if Admissible(req.tasks, env.capabilities, req.maxHops) {
        OrderOfSound(req.tasks);
      }
      return Err(Rejected(order.error));
    }

    /** `execute`; its validation exceptions leave everything unchanged. */
    method ExecuteRequest(req: Request) returns (outcome: Outcome)
      modifies this
      ensures Now() == Step(env, Execute, req, old(Now()))
      ensures Answers(env, req, old(Now()), outcome)
    {
      hide Admissible, Explains, MakeReport, RunTasks, Runnable, NeedsGate, DistinctIds, Closed;
      var order := Admit(req);
      if order.Err? {
        return order.error;
      }
      var checkpoint := Load(disk, req.key);
      if checkpoint.paused {
        return Reported(MakeReport(checkpoint, PAUSED));
      }
      if checkpoint.stopped {
        return Reported(MakeReport(checkpoint, STOPPED));
      }
      var deadline := env.clock(ticks) + req.timeout;
      ticks := ticks + 1;
      outcome := RunLoop(req.key, order.value, checkpoint, deadline);
    }

    /** The task loop of `execute`. */
    method RunLoop(key: RequestKey, ordered: seq<AgentTask>, start: Checkpoint, deadline: int) returns (outcome: Outcome)
      modifies this
      ensures (Now(), outcome) == RunTasks(env, key, ordered, 0, start, deadline, old(Now()))
      ensures !outcome.NotReady? && !outcome.GateClosed? && !outcome.Rejected?
    {
      var checkpoint := start;
      for i := 0 to |ordered|
        invariant RunTasks(env, key, ordered, i, checkpoint, deadline, Now())
               == RunTasks(env, key, ordered, 0, start, deadline, old(Now()))
      {
        var task := ordered[i];
        if task.taskId in CompletedIds(checkpoint.completed) {
          continue;
        }
        var now := env.clock(ticks);
        ticks := ticks + 1;
        if now > deadline {
          outcome := FinishWith(key, checkpoint.(status := TIMEOUT));
          return;
        }
        if DispatchKey(key, task.taskId) in checkpoint.dispatched {
          continue;
        }
        var verdict: Verdict;
        checkpoint, verdict := DispatchTask(key, task, checkpoint);
        if verdict.Abort? {
          return Escaped(verdict.error);
        }
        if verdict.Halt? {
          outcome := FinishWith(key, checkpoint);
          return;
        }
        var saved := SaveCheckpoint(key, checkpoint);
        if !saved {
          return Died;
        }
      }
      outcome := FinishWith(key, checkpoint.(status := COMPLETED));
    }

    /** One turn of the loop between the dispatch and the save. */
    method DispatchTask(key: RequestKey, task: AgentTask, c: Checkpoint) returns (checkpoint: Checkpoint, verdict: Verdict)
      modifies this
      ensures (Now(), checkpoint, verdict) == Dispatch(env, key, task, c, old(Now()))
    {
      hide DispatchKey, ValidateResult, ConflictIds, ConflictList, Clash, Retry, Conflicted;
      var reply := DispatchWithRetry(task);
      episodes := episodes + [Episode(key, task, CompletedIds(c.completed), c.failed.Keys, calls - old(calls))];
      if reply.Err? {
        crashes := crashes + 1;
        return c, Abort(reply.error);
      }
      var result := reply.value;
      checkpoint := c.(dispatched := c.dispatched + {DispatchKey(key, task.taskId)});
      var error := ValidateResult(task, result);
      if error != "" {
        audit := audit + [AuditEvent("task_failed", task.taskId, error)];
        return checkpoint.(failed := checkpoint.failed[task.taskId := error], status := FAILED), Halt;
      }
      checkpoint := checkpoint.(completed := checkpoint.completed + [(task.taskId, result)]);
      audit := audit + [AuditEvent("task_completed", task.taskId, result.evidenceReference)];
      var conflicts := DetectConflicts(checkpoint.completed);
      verdict := Continue;
      if conflicts != [] {
        assert conflicts[0] in Elements(conflicts);
        var failed := MarkConflicts(checkpoint.failed, conflicts);
        checkpoint := checkpoint.(failed := failed, status := CONFLICT);
        verdict := Halt;
      }
    }

    method MarkConflicts(before: map<string, string>, conflicts: seq<string>) returns (failed: map<string, string>)
      ensures failed == Marked(before, Elements(conflicts))
    {
      hide Marked;
      failed := before;
      MarkNone(before);
      assert Elements(conflicts[..0]) == {};
      for i := 0 to |conflicts|
        invariant failed == Marked(before, Elements(conflicts[..i]))
      {
        ElementsConcat(conflicts[..i], [conflicts[i]]);
        assert conflicts[..i + 1] == conflicts[..i] + [conflicts[i]];
        assert Elements(conflicts[..i + 1]) == Elements(conflicts[..i]) + {conflicts[i]};
        MarkOne(before, Elements(conflicts[..i]), conflicts[i]);
        failed := failed[conflicts[i] := CONFLICT_MARK];
      }
      assert conflicts[..|conflicts|] == conflicts;
    }

    method PauseRequest(req: Request)
      modifies this
      ensures Now() == Step(env, Pause, req, old(Now()))
    {
      var checkpoint := Load(disk, req.key).(paused := true, status := PAUSED);
      var _ := SaveCheckpoint(req.key, checkpoint);
    }

    method ResumeRequest(req: Request) returns (outcome: Outcome)
      modifies this
      ensures Now() == Step(env, Resume, req, old(Now()))
      ensures var (w, saved) := Save(env, req.key, Load(old(disk), req.key).(paused := false, status := RUNNING), old(Now()));
              if saved then Answers(env, req, w, outcome) else outcome == Died
    {
      var checkpoint := Load(disk, req.key).(paused := false, status := RUNNING);
      var saved := SaveCheckpoint(req.key, checkpoint);
      if !saved {
        return Died;
      }
      outcome := ExecuteRequest(req);
    }

    method StopRequest(req: Request)
      modifies this
      ensures Now() == Step(env, Stop, req, old(Now()))
    {
      var checkpoint := Load(disk, req.key).(stopped := true, status := STOPPED);
      var _ := SaveCheckpoint(req.key, checkpoint);
    }

    method RecoverRequest(req: Request) returns (outcome: Outcome)
      modifies this
      ensures Now() == Step(env, Recover, req, old(Now()))
      ensures Answers(env, req, old(Now()), outcome)
    {
      outcome := ExecuteRequest(req);
    }
  }
}
