# Verified models of the OpenClaw advisor runtime and market-data pipeline

A Dafny project that models the parts of the advisor whose correctness spans many calls: the
checkpointed task executor, the persistent job queue, the resumable backfill, batch quality control,
the numeric features, the import-graph scan, and the histories and gates in front of publication.

Each part that changes state step by step is a class or a loop with the fields and the control flow of
the source. Its methods are proved equal to a function on values (`RunTasks`, `Apply`, `Loop`, ...), and
the properties are lemmas about that function over all runs. What a process cannot decide is an
argument that is quantified over: the n-th answer of the dispatcher, the n-th clock reading, the save at
which the process dies, the way an append is interrupted, the clock of every queue call. Hashes and
canonical texts are functions, injective only where a lemma says so. Times are integers (seconds), prices are real numbers.

| file | models |
|---|---|
| `Common.dfy` | results, options, facts about sequences and sets |
| `PlanOrder.dfy` | plan checks and the depth-first dependency order |
| `Evidence.dfy` | task results and conflict detection |
| `StoredForm.dfy` | what JSON does to values and key order, and when a conflict verdict survives it |
| `Runtime.dfy` | retry loop, checkpoint updates, `execute`, `pause`, `resume`, `stop`, `recover` |
| `RuntimeSafety.dfy` | what every run of the executor keeps |
| `RuntimeFailures.dfy` | exactly when a failed task does harm |
| `RuntimeResults.dfy` | which answers count, what a report says, and how long a pause and a stop last |
| `RuntimeWitnesses.dfy` | runs of small plans that show what the conditions rule out |
| `CheckpointJson.dfy` | `to_dict`, canonical JSON, `from_dict` |
| `JobQueue.dfy`, `JobQueueSafety.dfy` | leases, retries, dead letters, circuit breaker, and their trace properties |
| `JobQueueEffects.dfy` | which job is leased, and what a row remembers |
| `Backfill.dfy` | window loop and stored cursor |
| `BatchQuality.dfy`, `MissingBars.dfy` | batch normalization and missing-bar counting |
| `MovingAverage.dfy`, `Indicators.dfy` | EMA and MACD; ADX and rolling correlation |
| `WilderLaws.dfy`, `CorrelationLaws.dfy` | what the Wilder sums and the correlation measure |
| `ImportGraph.dfy` | reachability of flagged modules |
| `Archive.dfy` | hash-chained archive on top of atomic replacement |
| `Experiments.dfy` | experiment lifecycle |
| `Envelope.dfy`, `Publication.dfy` | event validation, signal scoring, consumer gates, market publisher |

## Where the code does less than its documentation

- A call of `execute` on a checkpoint with a failed task skips that task and carries on.
  `RuntimeFailures.SafeExactlyWhenUnblocked` gives the exact condition under which no call dispatches a
  task ahead of a dependency, also on a checkpoint that another plan left under the same key, and
  `RuntimeWitnesses.FailedDependencyIsSkipped` is a run of two calls that does.
- A COMPLETED report repeats the failures and conflict marks of the start of the call.
  `RuntimeFailures.CompletedCoversPlan` gives the exact conditions under which it means that every task
  completed and that no conflict is open; `RuntimeWitnesses.ConflictReportedCompleted` is a run that ends
  with CONFLICT and is recovered to COMPLETED with the conflict still listed.
- A checkpoint is not read back as it was: JSON turns a tuple into a list, which Python does not find
  equal. `CheckpointJson.VerdictSurvives` proves that conflict verdicts survive the round trip if and only
  if every evidence value equals its JSON form. `RuntimeWitnesses.CrashInventsConflict` is one plan and one
  dispatcher for which an uninterrupted call completes and an interrupted one ends with CONFLICT;
  `RuntimeWitnesses.ReadBackLosesConflict` is the converse.
- The header of `job_queue.py` draws COMPLETED as a final state, but `fail` has no state guard.
  `JobQueueSafety.TerminalStaysExactly` says exactly when a job keeps its terminal state,
  `CompletedJobResurrected` is a trace in which it does not, and `TerminalAbsorbs` holds for workers that
  never fail a job in a terminal state. `DeadLettersBijective` proves that dead-letter rows match the
  dead-lettered jobs if and only if no `fail` meets a job that is dead-lettered already;
  `DeadLetterTwice` is a job with two rows.
- The archive hashes the event in memory and later the event that it reads back.
  `Archive.VerifiesExactly` proves that the file verifies if and only if these hashes agree for every event
  that reached it. `IntegerKeysBreakArchive` is an event for which they do not; it reaches the file, and from
  then on nothing verifies and every append is refused.
- The archive's record hash covers the event but not the previous hash. `Archive.TamperEvidentExactly`
  proves that the chain detects every re-arrangement if and only if no two records share a hash;
  `RepeatedEventSplices` is an archive that holds one event twice.
- "No agent may approve its own experiment" is enforced on the `reviewer` argument only.
  `Experiments.GateRefusalExact` shows that a gate step without any reviewer passes, and `SoloRelease` is an
  experiment that its proposer releases alone.
- The import-graph scan starts at modules that nothing imports and that are not test modules.
  `ImportGraph.UnreportedExactly` proves that an imported flagged module is missed if and only if it
  belongs to a part of the project that is imported only from within and whose only entries, if any, are
  test modules. `CycleHidesFlagged` and `TestEntryHidesFlagged` are such parts.
- `_circuit_failures` lives in memory: the `Restart` event of the queue model empties it.

## Model

| member | source | states |
|---|---|---|
| PlanOrder.ValidateAndOrder | engine/src/openclaw_super_advisor/main_agent/runtime.py:459-499 | accepts exactly the admissible acyclic plans, returns a dependencies-first permutation (the plan itself if already ordered), reports a cycle exactly when the graph of an admissible plan has one, and the first defect of any other plan |
| PlanOrder.CheckPlan | engine/src/openclaw_super_advisor/main_agent/runtime.py:462-479 | the checks before ordering let through only admissible plans and report the first defect otherwise |
| PlanOrder.ExplainsUnique | engine/src/openclaw_super_advisor/main_agent/runtime.py:462-499 | the conditions fix the reported error: a plan has one at most |
| PlanOrder.ExplainedNotAdmissible | engine/src/openclaw_super_advisor/main_agent/runtime.py:462-479 | every defect reported before ordering rules the plan out |
| PlanOrder.DependencySort.Visit | engine/src/openclaw_super_advisor/main_agent/runtime.py:484-495 | the mutating visit, which terminates on cyclic graphs too, computes the functional search |
| PlanOrder.VisitTaskSound | engine/src/openclaw_super_advisor/main_agent/runtime.py:484-495 | a refused visit exhibits a dependency cycle; an accepted one keeps the list duplicate-free and dependencies-first |
| PlanOrder.OrderTasks | engine/src/openclaw_super_advisor/main_agent/runtime.py:480-499 | the loop over the plan computes the order function |
| PlanOrder.OrderOfSound | engine/src/openclaw_super_advisor/main_agent/runtime.py:480-499 | an order exists exactly for acyclic plans and is a dependencies-first permutation |
| PlanOrder.OrderOfOrdered | engine/src/openclaw_super_advisor/main_agent/runtime.py:497-499 | an already ordered plan is returned unchanged |
| PlanOrder.OrderedIsAcyclic | engine/src/openclaw_super_advisor/main_agent/runtime.py:480-499 | a complete dependencies-first list certifies that there is no cycle |
| PlanOrder.AdmissibleExactly | engine/src/openclaw_super_advisor/main_agent/runtime.py:462-479 | the plans that reach the ordering step, rule by rule: few enough hops, distinct ids, an available agent with the skill for every task, and every dependency in the plan |
| PlanOrder.DependenciesAsListed | engine/src/openclaw_super_advisor/main_agent/runtime.py:484-499 | two independent dependencies run in the order in which their task lists them, not in that of the plan |
| Evidence.DetectConflicts | engine/src/openclaw_super_advisor/main_agent/runtime.py:501-509 | returns each task id once for every key on which it clashes with an earlier value, and something exactly when two completed results disagree on an evidence key |
| Evidence.ConflictIdsEmpty | engine/src/openclaw_super_advisor/main_agent/runtime.py:501-509 | the scan with a running dictionary is silent exactly when no two results disagree |
| Evidence.ConflictOrderIndependent | engine/src/openclaw_super_advisor/main_agent/runtime.py:501-509 | the verdict does not depend on iteration order |
| Evidence.ClashMeans | engine/src/openclaw_super_advisor/main_agent/runtime.py:501-509 | two payloads clash exactly when a key that begins with "evidence." is in both with unequal values |
| Evidence.PyEqualLaws | engine/src/openclaw_super_advisor/main_agent/runtime.py:506-508 | unequal in Python's sense: True equals 1, and a list never equals a tuple |
| StoredForm.VerdictsAgreeExactly | engine/src/openclaw_super_advisor/main_agent/runtime.py:501-529 | on conflict-free results, reading back leaves the verdict on every further result unchanged if and only if every evidence value equals its JSON form; an open conflict survives if and only if it is still one when read back |
| StoredForm.StableVerdict | engine/src/openclaw_super_advisor/main_agent/runtime.py:501-529 | with such values the verdict itself and this property survive |
| StoredForm.LexMeans | engine/src/openclaw_super_advisor/main_agent/runtime.py:525-529 | keys are sorted by their first different character, a proper prefix first |
| Runtime.RetryMeaning | engine/src/openclaw_super_advisor/main_agent/runtime.py:408-442 | at most max_retries + 1 calls; all but the last met transient failures; the last one settles the task, escapes, or was the last allowed |
| RuntimeResults.RetriesReachAnswer | engine/src/openclaw_super_advisor/main_agent/runtime.py:408-442 | after k RuntimeErrors or retryable failure results, at most max_retries, call k + 1 decides: its result, a failed result with the reason of a malformed answer, or the exception that escapes |
| RuntimeResults.RetriesRunOut | engine/src/openclaw_super_advisor/main_agent/runtime.py:408-442 | when every allowed call asks for another one, the task fails after max_retries + 1 calls with the reason of the last one |
| Runtime.MainRuntime.DispatchWithRetry | engine/src/openclaw_super_advisor/main_agent/runtime.py:408-442 | the retry loop returns the result or the uncaught exception of the specification, and makes its calls |
| Runtime.MainRuntime.DispatchTask | engine/src/openclaw_super_advisor/main_agent/runtime.py:363-379 | one dispatch with its checkpoint updates and its audit line for success, rejection and conflict |
| RuntimeResults.ValidExactly | engine/src/openclaw_super_advisor/main_agent/runtime.py:444-457 | validation passes exactly the results with the task's id and agent, one of the five statuses, evidence reference and provenance, and without a true fabricated_numeric_evidence flag |
| RuntimeResults.RejectionReason | engine/src/openclaw_super_advisor/main_agent/runtime.py:444-457 | a rejected result is recorded with the text of the first rule that it breaks |
| RuntimeResults.CompletedWereAdmitted | engine/src/openclaw_super_advisor/main_agent/runtime.py:363-379 | over any mix of requests, every completed entry on the disk is filed under the id of a task that was requested with its key, carries that task's id and agent, and keeps every rule of the validation |
| RuntimeResults.RecordDecides | engine/src/openclaw_super_advisor/main_agent/runtime.py:364-379 | a result that keeps the rules is appended to the completed ones; any other leaves them, and fails its task with the reason |
| RuntimeResults.RejectedAnswerFails | engine/src/openclaw_super_advisor/main_agent/runtime.py:364-371 | the converse in a call: a result that breaks a rule ends the call FAILED, in the report and on the disk, with its task among the failed ones and nothing newly completed |
| Runtime.MainRuntime.RunLoop | engine/src/openclaw_super_advisor/main_agent/runtime.py:353-384 | the task loop with skip, timeout, stop and a crash at any save computes the specified world and report |
| Runtime.MainRuntime.ExecuteRequest | engine/src/openclaw_super_advisor/main_agent/runtime.py:341-384 | refused requests change nothing and name the first failing check, down to the first defect of the plan; the others behave as the specified loop |
| RuntimeResults.ClosedGateRefuses | engine/src/openclaw_super_advisor/main_agent/runtime.py:341-347 | a release or a deployment with the human gate closed is refused, nothing else is refused for that, and the refusal changes nothing |
| RuntimeResults.ReportMeans | engine/src/openclaw_super_advisor/main_agent/runtime.py:353-384 | every report of the loop says what is on the disk; TIMEOUT means a clock reading after the deadline and a task that has not completed, CONFLICT a marked task, FAILED a failed task of the plan |
| RuntimeResults.LateExecuteTimesOut | engine/src/openclaw_super_advisor/main_agent/runtime.py:352-360 | when the reading after the first one is more than timeout_seconds later and a task has not completed, the call dispatches nothing and reports TIMEOUT |
| RuntimeResults.HealthyExecuteCompletes | engine/src/openclaw_super_advisor/main_agent/runtime.py:341-384 | progress: without crash, late reading, rejected answer or evidence keys, a call on a conflict-free checkpoint reports COMPLETED with every task that had not failed before |
| Runtime.MainRuntime.SaveCheckpoint | engine/src/openclaw_super_advisor/main_agent/runtime.py:525-529 | the checkpoint of the key is replaced as a whole or not at all |
| Runtime.MainRuntime.PauseRequest | engine/src/openclaw_super_advisor/main_agent/runtime.py:386-390 | the pause step |
| RuntimeResults.PauseLasts | engine/src/openclaw_super_advisor/main_agent/runtime.py:386-397 | after a pause that was saved, any commands but a resume of the same request dispatch nothing for it, and an admitted execute or recover changes nothing and reports PAUSED |
| Runtime.MainRuntime.ResumeRequest | engine/src/openclaw_super_advisor/main_agent/runtime.py:392-397 | clears the pause, then answers as `execute` does on the saved checkpoint, unless the process died |
| RuntimeResults.ResumeContinues | engine/src/openclaw_super_advisor/main_agent/runtime.py:392-397 | a resume goes on as `execute` does on the same checkpoint without the pause; a stop is kept |
| Runtime.MainRuntime.StopRequest | engine/src/openclaw_super_advisor/main_agent/runtime.py:399-403 | the stop step |
| RuntimeResults.StopLasts | engine/src/openclaw_super_advisor/main_agent/runtime.py:399-406 | after a stop that was saved, no commands at all, not even a resume, dispatch anything for the request, and an admitted execute or recover changes nothing and reports STOPPED, or PAUSED when a pause is set too |
| Runtime.MainRuntime.RecoverRequest | engine/src/openclaw_super_advisor/main_agent/runtime.py:405-406 | recovery is execution from the stored checkpoint, with its answer |
| RuntimeSafety.RunsFollowTheOrder | engine/src/openclaw_super_advisor/main_agent/runtime.py:341-406 | over every run with any dispatcher, timing and crashes, for a request that keeps its plan while any others interleave: settled tasks are a prefix of the order, dependencies are settled before a dispatch, dispatched = completed + failed, at most one extra dispatch per crash, at most max_retries + 1 calls each; while nothing failed, the completed tasks are that prefix and every dispatched task found its dependencies completed |
| RuntimeSafety.RunsAgree | engine/src/openclaw_super_advisor/main_agent/runtime.py:353-384 | with a dispatcher that is a function of the task, two runs that complete the plan hold the same results, however they were interrupted |
| RuntimeSafety.RunsAgreeOnConflicts | engine/src/openclaw_super_advisor/main_agent/runtime.py:373-384 | if its evidence also survives JSON, the two runs agree on whether a conflict is marked |
| RuntimeSafety.RunSound | engine/src/openclaw_super_advisor/main_agent/runtime.py:363-381 | in every checkpoint that any mix of requests leaves on the disk, dispatched = completed + failed, no task is listed twice, the audit log has a line for every settled task, and, if the evidence survives JSON, some task is marked exactly when two results disagree |
| RuntimeSafety.StepSound | engine/src/openclaw_super_advisor/main_agent/runtime.py:511-529 | one call keeps that invariant |
| RuntimeSafety.StepFrame | engine/src/openclaw_super_advisor/main_agent/runtime.py:511-529 | one call leaves the checkpoint and the dispatches of every other request alone |
| RuntimeSafety.RecordAudited | engine/src/openclaw_super_advisor/main_agent/runtime.py:531-551 | the line written for a dispatch covers what it adds to the checkpoint |
| RuntimeSafety.RecordSettles | engine/src/openclaw_super_advisor/main_agent/runtime.py:364-379 | recording a result settles its task and no other |
| RuntimeSafety.DispatchCount | engine/src/openclaw_super_advisor/main_agent/runtime.py:553-574 | the reported dispatch count is the number of settled tasks |
| RuntimeResults.DispatchedMeans | engine/src/openclaw_super_advisor/main_agent/runtime.py:360-364 | a checkpoint is accounted for exactly when its dispatched keys are the idempotency key, a colon and the id of each completed or failed task |
| RuntimeFailures.CompletedCoversPlan | engine/src/openclaw_super_advisor/main_agent/runtime.py:353-384 | on any accounted checkpoint, a COMPLETED report accounts for every task of the plan and carries the failures of the start of the call: all tasks completed if and only if none of them had failed without ever completing, and no conflict is listed if and only if none was marked |
| RuntimeFailures.AllCompletedReportsCompleted | engine/src/openclaw_super_advisor/main_agent/runtime.py:353-384 | once every task has completed, a call only rewrites the status to COMPLETED, whatever is marked |
| RuntimeWitnesses.ConflictReportedCompleted | engine/src/openclaw_super_advisor/main_agent/runtime.py:373-384 | two valid clashing results: the first call ends with CONFLICT, the next one reports COMPLETED and lists the conflict |
| RuntimeFailures.SafeExactlyWhenUnblocked | engine/src/openclaw_super_advisor/main_agent/runtime.py:341-381 | every call of `execute` on an accounted checkpoint, in every environment with a monotonic clock, dispatches no task ahead of a dependency if and only if the call cannot dispatch at all or no task it can reach depends on a failed one |
| RuntimeFailures.FailureFreeIsSafe | engine/src/openclaw_super_advisor/main_agent/runtime.py:353-381 | a call that starts without a failed task is safe in every environment |
| RuntimeFailures.UnblockedIsSafe | engine/src/openclaw_super_advisor/main_agent/runtime.py:353-381 | the sufficient half, from any point of the loop |
| RuntimeFailures.CooperativeDispatches | engine/src/openclaw_super_advisor/main_agent/runtime.py:353-381 | the necessary half: when everything else goes well the blocked task is dispatched |
| RuntimeWitnesses.FailedDependencyIsSkipped | engine/src/openclaw_super_advisor/main_agent/runtime.py:361-371 | a run of two calls whose second call dispatches a task although its dependency failed and never completed |
| CheckpointJson.CheckpointRoundTrip | engine/src/openclaw_super_advisor/main_agent/runtime.py:76-115 | reading a written checkpoint gives back every field and the completed dictionary in key order with every value in its JSON form, hence the same entries if and only if JSON changes no value |
| CheckpointJson.ResultFields | engine/src/openclaw_super_advisor/main_agent/runtime.py:76-86 | the names and values of the fields of a written result |
| CheckpointJson.MissingFields | engine/src/openclaw_super_advisor/main_agent/runtime.py:88-115 | a file without request id, idempotency key or status is refused; absent dictionaries and flags read as empty and false |
| CheckpointJson.DiskIsReadBack | engine/src/openclaw_super_advisor/main_agent/runtime.py:511-529 | in every run each stored checkpoint holds every task once and reads back as itself |
| CheckpointJson.VerdictSurvives | engine/src/openclaw_super_advisor/main_agent/runtime.py:501-529 | exactly when the conflict verdicts on a checkpoint are the same before and after it is written and read |
| RuntimeWitnesses.CrashInventsConflict | engine/src/openclaw_super_advisor/main_agent/runtime.py:341-384 | the same plan and dispatcher: the uninterrupted call completes, the one that dies in its second save is recovered to CONFLICT |
| RuntimeWitnesses.TuplesDiverge | engine/src/openclaw_super_advisor/main_agent/runtime.py:411-424 | two tasks that report the same tuple are such a dispatcher |
| RuntimeWitnesses.ReadBackLosesConflict | engine/src/openclaw_super_advisor/main_agent/runtime.py:501-509 | a tuple and an equal list clash in memory and not when both are read back |
| JobQueue.PersistentJobQueue.EnqueueJob | engine/src/openclaw_super_advisor/scheduler/job_queue.py:150-185 | deduplicates by key, refuses primary-key and unique-key collisions (also for the empty key), otherwise queues the job |
| JobQueueEffects.EnqueueExactly | engine/src/openclaw_super_advisor/scheduler/job_queue.py:150-185 | a job is accepted exactly when its id and its key, if it has one, are new; it is deduplicated exactly when a key that is not empty is known |
| JobQueueEffects.EnqueuedRow | engine/src/openclaw_super_advisor/scheduler/job_queue.py:150-185 | an accepted job waits with no attempt spent, and no other row changes; a refused one changes nothing |
| JobQueueEffects.JobKeepsEnqueued | engine/src/openclaw_super_advisor/scheduler/job_queue.py:150-336 | over every trace, a job carries the key, type, priority, payload, attempt limit and time of the enqueue that made it |
| JobQueue.PersistentJobQueue.Lease | engine/src/openclaw_super_advisor/scheduler/job_queue.py:187-231 | expired leases are requeued, then a first eligible job in query order is leased, or none is eligible |
| JobQueueEffects.NothingLeasedExactly | engine/src/openclaw_super_advisor/scheduler/job_queue.py:187-221 | nothing is leased exactly when no job of the requested type is queued or holds a lease whose expiry has passed |
| JobQueueEffects.LeasesFirstWaiting | engine/src/openclaw_super_advisor/scheduler/job_queue.py:187-231 | a job can be leased exactly when it is among those and no other of them has a smaller priority, or the same and an earlier creation |
| JobQueueEffects.LeasedRow | engine/src/openclaw_super_advisor/scheduler/job_queue.py:222-231 | the leased job expires one lease time from now, with one more attempt and its checkpoint and error kept |
| JobQueueEffects.NoLapsedLease | engine/src/openclaw_super_advisor/scheduler/job_queue.py:190-200 | lease and resume leave no lease whose expiry has passed, requeue those jobs with checkpoint and attempt kept, and change no other row but the leased one |
| JobQueueEffects.DeadWorkerReleased | engine/src/openclaw_super_advisor/scheduler/job_queue.py:187-231 | a job leased at 1 for 300 seconds must be leased again at 400, with attempt 2 |
| JobQueue.PersistentJobQueue.Renew | engine/src/openclaw_super_advisor/scheduler/job_queue.py:233-245 | renews exactly leased jobs |
| JobQueueEffects.RenewedRow | engine/src/openclaw_super_advisor/scheduler/job_queue.py:233-245 | a renewed lease expires one lease time from now; a job that is not leased stays as it is |
| JobQueue.PersistentJobQueue.Checkpoint | engine/src/openclaw_super_advisor/scheduler/job_queue.py:247-259 | stores data for exactly leased jobs |
| JobQueueEffects.JobRemembers | engine/src/openclaw_super_advisor/scheduler/job_queue.py:247-322 | over every trace, a job's checkpoint is the last one stored while it was leased, and its error that of its last failure |
| JobQueue.PersistentJobQueue.CompleteJob | engine/src/openclaw_super_advisor/scheduler/job_queue.py:261-279 | completes exactly leased jobs and clears the counter of their type |
| JobQueue.PersistentJobQueue.FailJob | engine/src/openclaw_super_advisor/scheduler/job_queue.py:281-322 | counts the failure, then dead-letters or requeues whatever the state was |
| JobQueue.PersistentJobQueue.CancelJob | engine/src/openclaw_super_advisor/scheduler/job_queue.py:324-336 | cancels exactly queued and leased jobs |
| JobQueueEffects.StateAfter | engine/src/openclaw_super_advisor/scheduler/job_queue.py:261-336 | cancel ends in CANCELLED, complete in COMPLETED, fail in QUEUED or DEAD_LETTER, each from its own states, and nothing else but lease and resume changes a state |
| JobQueueEffects.LeaseEnds | engine/src/openclaw_super_advisor/scheduler/job_queue.py:261-336 | complete, cancel and fail end the lease |
| JobQueueEffects.ChangesAreStamped | engine/src/openclaw_super_advisor/scheduler/job_queue.py:187-336 | a row that a step changes carries the time of the step |
| JobQueue.PersistentJobQueue.Resume | engine/src/openclaw_super_advisor/scheduler/job_queue.py:345-360 | requeues expired leases and returns the resumable jobs, each once, by priority |
| JobQueueEffects.ResumableMeans | engine/src/openclaw_super_advisor/scheduler/job_queue.py:353-360 | the jobs returned are the queued and the leased ones |
| JobQueueSafety.LeaseExclusive | engine/src/openclaw_super_advisor/scheduler/job_queue.py:187-245 | a job is leased again only after it was failed or the clock passed its latest granted or renewed expiry |
| JobQueueSafety.LeasesBounded | engine/src/openclaw_super_advisor/scheduler/job_queue.py:190-231 | attempt counts the leases, which never exceed max_attempts plus the lease expiries |
| JobQueueSafety.CircuitCounts | engine/src/openclaw_super_advisor/scheduler/job_queue.py:273-294 | the counter of a type is the number of its failures since the last completion, reset or restart |
| JobQueueSafety.FailOutcome | engine/src/openclaw_super_advisor/scheduler/job_queue.py:294-321 | a failure dead-letters exactly when attempts are exhausted or it is at least the fifth of its type |
| JobQueueSafety.TerminalLeftExactlyByFail | engine/src/openclaw_super_advisor/scheduler/job_queue.py:281-322 | a step leaves a terminal state exactly when it is a `fail` that does not re-dead-letter the job |
| JobQueueSafety.TerminalStaysExactly | engine/src/openclaw_super_advisor/scheduler/job_queue.py:261-336 | over every continuation, a job stays in its terminal state throughout if and only if no such `fail` comes |
| JobQueueSafety.CompletedJobResurrected | engine/src/openclaw_super_advisor/scheduler/job_queue.py:312-321 | a completed job is queued again by a late `fail` |
| JobQueueSafety.TerminalAbsorbs | engine/src/openclaw_super_advisor/scheduler/job_queue.py:261-336 | with workers that never fail a job in a terminal state, terminal states are absorbing over every continuation |
| JobQueueSafety.DeadLettersBijective | engine/src/openclaw_super_advisor/scheduler/job_queue.py:295-311 | every dead-letter row carries the type and payload of its job, and rows and dead-lettered jobs match one to one if and only if no `fail` ever met a dead-lettered job |
| JobQueueSafety.DeadLetterTwice | engine/src/openclaw_super_advisor/scheduler/job_queue.py:281-322 | a job that is failed again after it was dead-lettered has two rows |
| JobQueueSafety.StateCountsSum | engine/src/openclaw_super_advisor/scheduler/job_queue.py:368-380 | the counts per state sum to the accepted enqueues |
| JobQueueSafety.RowsWellFormed | engine/src/openclaw_super_advisor/scheduler/job_queue.py:33-49 | only leased rows carry an expiry, and non-null idempotency keys stay unique |
| JobQueueSafety.DrainIsSorted | engine/src/openclaw_super_advisor/scheduler/job_queue.py:201-231 | leases in a row without an expiry hand out jobs by (priority, created_at) |
| Backfill.BackfillService.RunBackfill | engine/src/openclaw_super_advisor/market_data/collector.py:352-427 | the window loop, its two writes, its stored progress, its failure path and dry runs compute the specified world |
| Backfill.HealthyCallFinishes | engine/src/openclaw_super_advisor/market_data/collector.py:374-427 | progress: when as many attempts succeed as windows remain, the call makes exactly these, finishes, has the whole range recorded and leaves the cursor at its end |
| Backfill.CallEnds | engine/src/openclaw_super_advisor/market_data/collector.py:374-427 | a call finishes exactly when as many attempts succeed as windows remain; otherwise the first other attempt is its last one and decides between the raised error and death |
| Backfill.CallStores | engine/src/openclaw_super_advisor/market_data/collector.py:394-425 | what a recording call stores: COMPLETE at the end; after a raised error the cursor of the failed window, FAILED and the error; after death what the last success stored |
| Backfill.CallRecords | engine/src/openclaw_super_advisor/market_data/collector.py:374-408 | a call records the windows of the attempts that succeed before the first other one, a dry run none |
| Backfill.EmptyRangeRefused | engine/src/openclaw_super_advisor/market_data/collector.py:352-373 | a range that is empty or inverted, and no other, is refused before anything happens |
| Backfill.DryRunRecordsNothing | engine/src/openclaw_super_advisor/market_data/collector.py:371-408 | a dry run loads the remaining windows from the first on and changes neither state nor any other history |
| Backfill.RunOnTrack | engine/src/openclaw_super_advisor/market_data/collector.py:367-427 | under every schedule of failures, deaths and restarts the recorded windows are a prefix of the failure-free list, progress never decreases, each failure costs at most one fetch, the committed windows are the recorded ones in order with one repetition per failure between the two writes, and status is complete exactly at the end |
| Backfill.FinishedRecordsEverything | engine/src/openclaw_super_advisor/market_data/collector.py:371-427 | a finished call has recorded and committed exactly the failure-free list, apart from those repetitions, and a later call fetches nothing |
| Backfill.LoopOnTrack | engine/src/openclaw_super_advisor/storage/sqlite_state.py:289-350 | one call keeps the stored cursor on track and leaves other run keys alone |
| Backfill.WindowsTile | engine/src/openclaw_super_advisor/market_data/cursors.py:30-36 | the windows are contiguous, non-overlapping and cover the range |
| Backfill.WindowsCount | engine/src/openclaw_super_advisor/market_data/cursors.py:30-36 | there are ceil((end - start) / step) windows |
| BatchQuality.NormalizeBatch | engine/src/openclaw_super_advisor/market_data/quality.py:86-119 | the dedup loop computes the specified batch, flag and duplicate count |
| BatchQuality.NormalizeTickBatch | engine/src/openclaw_super_advisor/market_data/quality.py:30-83 | the same batch, and incidents that say exactly whether the ticks were unsorted, how many times carry several ids and which comes first, and how many ticks were dropped |
| BatchQuality.NormalizeCorrect | engine/src/openclaw_super_advisor/market_data/quality.py:30-119 | sorted, distinct ids, same id set, kept + duplicates = input, out-of-order flagged exactly for unsorted input |
| BatchQuality.NormalizeIdempotent | engine/src/openclaw_super_advisor/market_data/quality.py:86-119 | a normalized batch is left unchanged and reports nothing |
| BatchQuality.KeptIsFirstArrived | engine/src/openclaw_super_advisor/market_data/quality.py:64-72 | when ids determine times, the record kept for an id is the first that arrived |
| BatchQuality.CollisionsUnchanged | engine/src/openclaw_super_advisor/market_data/quality.py:46-53 | deduplication neither hides nor creates a timestamp collision |
| BatchQuality.StableSortUnique | engine/src/openclaw_super_advisor/market_data/quality.py:103 | being sorted and stable determines the sorted batch |
| MissingBars.DetectMissingBars | engine/src/openclaw_super_advisor/market_data/quality.py:137-162 | one incident for each gap that misses weekday slots, with their number; the counting loop terminates |
| MissingBars.IncidentsMean | engine/src/openclaw_super_advisor/market_data/quality.py:137-162 | an incident is reported exactly for each bar before which the gap skips weekday slots; it names that bar and the number of these slots |
| MissingBars.SlotsAreCounted | engine/src/openclaw_super_advisor/market_data/quality.py:147-151 | the counting loop counts the set of skipped weekday slots |
| MissingBars.WeekendReportsNothing | engine/src/openclaw_super_advisor/market_data/quality.py:137-162 | daily bars from Friday to Monday report nothing, from Monday to Wednesday one missing bar |
| MissingBars.WeekendHasNoSlots | engine/src/openclaw_super_advisor/market_data/quality.py:149 | slots on the second and third day after the epoch's Thursday, Saturday and Sunday, are not counted, all others are |
| MissingBars.MissingBarsConserved | engine/src/openclaw_super_advisor/market_data/quality.py:137-162 | counted missing slots plus present weekday bars are the weekday slots after the first bar |
| MissingBars.WeekdayAdvances | engine/src/openclaw_super_advisor/market_data/quality.py:149 | the weekday function is the calendar's |
| MovingAverage.Ema | engine/src/openclaw_super_advisor/market_data/features.py:45-53 | n - period + 1 averages, each ending at its own input |
| MovingAverage.EmaClosedForm | engine/src/openclaw_super_advisor/market_data/features.py:49-52 | each average is a weighted sum of the inputs with weights that add to one |
| MovingAverage.NewestWeight | engine/src/openclaw_super_advisor/market_data/features.py:49-52 | the newest input after the first average has weight 2 / (period + 1) |
| MovingAverage.FirstIsMean | engine/src/openclaw_super_advisor/market_data/features.py:45-53 | the first average is the mean of the first inputs |
| MovingAverage.EmaWithinRange | engine/src/openclaw_super_advisor/market_data/features.py:45-53 | each average lies between the smallest and largest input |
| MovingAverage.ComputeMacd | engine/src/openclaw_super_advisor/market_data/features.py:124-159 | pairs averages that end at the same close; gives values exactly when enough closes exist, so the second insufficient-data test never fires |
| MovingAverage.RisingLine | engine/src/openclaw_super_advisor/market_data/features.py:124-159 | on rising closes with fast <= slow the line is not negative |
| Indicators.ComputeAdx | engine/src/openclaw_super_advisor/market_data/features.py:162-195 | the smoothing loops compute the Wilder sums and every division is guarded |
| WilderLaws.MovementMeans | engine/src/openclaw_super_advisor/market_data/features.py:172-175 | only the larger of the two movements counts, and only when it is positive |
| WilderLaws.TrueRangeMeans | engine/src/openclaw_super_advisor/market_data/features.py:176-178 | the true range is the largest of the bar's range and its two distances from the previous close |
| WilderLaws.WilderClosedForm | engine/src/openclaw_super_advisor/market_data/features.py:179-185 | each smoothed sum is a weighted sum of its movements: weight one over the first period, times 1 - 1/period for every later bar |
| Indicators.SumsBalanced | engine/src/openclaw_super_advisor/market_data/features.py:170-185 | 0 <= plus + minus <= true range after every bar |
| Indicators.AdxBounds | engine/src/openclaw_super_advisor/market_data/features.py:186-195 | plus_di + minus_di <= 100 and the value is in [0, 100] |
| WilderLaws.OneSidedIsFull | engine/src/openclaw_super_advisor/market_data/features.py:162-195 | bars that all move up, or all down, give 100 |
| WilderLaws.BalancedIsZero | engine/src/openclaw_super_advisor/market_data/features.py:186-195 | equal directional sums give 0 |
| WilderLaws.SharesMean | engine/src/openclaw_super_advisor/market_data/features.py:190-191 | the two indicators are the shares of the true range sum in per cent |
| Indicators.CauchySchwarz | engine/src/openclaw_super_advisor/market_data/features.py:353-355 | the squared product sum is at most the product of the square sums, for any length |
| Indicators.CorrelationBounded | engine/src/openclaw_super_advisor/market_data/features.py:343-365 | every reported correlation lies in [-1, 1] |
| Indicators.CorrelationWithSelf | engine/src/openclaw_super_advisor/market_data/features.py:343-365 | a series with nonzero variance correlates fully with itself |
| CorrelationLaws.CorrelationShifted | engine/src/openclaw_super_advisor/market_data/features.py:343-365 | adding a constant to a series changes no correlation |
| CorrelationLaws.CovarianceShifted | engine/src/openclaw_super_advisor/market_data/features.py:351-354 | nor any covariance, on either side or on both |
| CorrelationLaws.ZeroVarianceExactly | engine/src/openclaw_super_advisor/market_data/features.py:351-359 | the variance vanishes exactly for constant windows |
| CorrelationLaws.OutcomeExactly | engine/src/openclaw_super_advisor/market_data/features.py:343-365 | too little data exactly when a series is shorter than the window; otherwise zero variance exactly when a window is constant |
| CorrelationLaws.CorrelationWithNegation | engine/src/openclaw_super_advisor/market_data/features.py:343-365 | a series with nonzero variance correlates with its negation at -1 |
| CorrelationLaws.OnlyWindowMatters | engine/src/openclaw_super_advisor/market_data/features.py:349-350 | entries before the window do not matter |
| CorrelationLaws.CorrelationSymmetric | engine/src/openclaw_super_advisor/market_data/features.py:343-365 | the order of the series does not matter |
| ImportGraph.ScanImportGraph | engine/src/openclaw_super_advisor/scanning.py:339-385 | reports (module, root) exactly once if and only if the module is flagged, differs from the root and is reachable from that root |
| ImportGraph.SearchFrom | engine/src/openclaw_super_advisor/scanning.py:364-384 | the stack search of one root agrees with reachability and terminates on cycles |
| ImportGraph.CountImports | engine/src/openclaw_super_advisor/scanning.py:358-361 | the in-degree table counts importers |
| ImportGraph.TestNameMeans | engine/src/openclaw_super_advisor/scanning.py:362 | a test module is one whose name contains "tests." |
| ImportGraph.AcyclicFlaggedReported | engine/src/openclaw_super_advisor/scanning.py:362-384 | on an acyclic graph without test names every flagged module that something imports is reported |
| ImportGraph.UnreportedExactly | engine/src/openclaw_super_advisor/scanning.py:362-384 | a flagged module is not reported if and only if nothing imports it or it belongs to a part that is imported only from within and whose modules without importers are test modules |
| ImportGraph.CycleHidesFlagged | engine/src/openclaw_super_advisor/scanning.py:362-384 | such a part: flagged modules that import only each other |
| ImportGraph.TestEntryHidesFlagged | engine/src/openclaw_super_advisor/scanning.py:362-384 | another one, without a cycle: a module that only a test module imports |
| Archive.EvidenceArchive.Verify | engine/src/openclaw_super_advisor/persistence/__init__.py:48-70 | the scan with a running hash accepts exactly the verifying files |
| Archive.EvidenceArchive.AtomicWrite | engine/src/openclaw_super_advisor/storage/atomic.py:8-17 | the target changes at the replace or not at all |
| Archive.EvidenceArchive.Append | engine/src/openclaw_super_advisor/persistence/__init__.py:72-101 | whatever interrupts it, the file holds exactly the events that reached the replace, in order; appends are refused from the first event on whose hash does not survive reading, and only then |
| Archive.VerifiesExactly | engine/src/openclaw_super_advisor/persistence/__init__.py:48-70 | the archive verifies if and only if the hash of every event that reached it survives writing and reading |
| Archive.AppendVerifiesExactly | engine/src/openclaw_super_advisor/persistence/__init__.py:83-101 | after an append to a verifying file, this depends on the appended event alone |
| Archive.PreservedText | engine/src/openclaw_super_advisor/persistence/__init__.py:64-67 | with an injective fingerprint, survival means an unchanged canonical text |
| Archive.IntegerKeysBreakArchive | engine/src/openclaw_super_advisor/persistence/__init__.py:83-101 | a nested object with the integer keys 9 and 10 does not survive |
| Archive.TamperEvidentExactly | engine/src/openclaw_super_advisor/persistence/__init__.py:64-67 | every verifying list drawn from the records is a prefix of the archive if and only if no two records share a hash |
| Archive.RepeatedEventSplices | engine/src/openclaw_super_advisor/persistence/__init__.py:64-67 | an archive that holds one event twice verifies with its last record repeated |
| Archive.DistinctEventsTamperEvident | engine/src/openclaw_super_advisor/persistence/__init__.py:64-67 | with an injective fingerprint this means distinct canonical texts |
| Experiments.ExperimentStore.MakeTransition | engine/src/openclaw_super_advisor/research/experiment.py:210-264 | the first failing check is reported and changes nothing; otherwise exactly one step is appended, given findings replace stored ones, and the history stays sound |
| Experiments.ExperimentStore.Create | engine/src/openclaw_super_advisor/research/experiment.py:147-181 | a new record starts at OBSERVATION with no history |
| Experiments.PathCounts | engine/src/openclaw_super_advisor/research/experiment.py:37-57 | the last state and the number of data requests determine the length of the history |
| Experiments.ReleasedHistory | engine/src/openclaw_super_advisor/research/experiment.py:225-240 | a released history has 12 + 4k steps and one human gate, no gate step names the proposer as reviewer, ROLLED_BACK is never reached |
| Experiments.GateRefusalExact | engine/src/openclaw_super_advisor/research/experiment.py:236-240 | a gate step passes exactly from its predecessor state with a reviewer other than the proposer, or none |
| Experiments.RefusalMeans | engine/src/openclaw_super_advisor/research/experiment.py:225-240 | final states are REJECTED, RELEASED and ROLLED_BACK; a step outside the table is refused before the reviewer is looked at |
| Experiments.OpenCanBeRejected | engine/src/openclaw_super_advisor/research/experiment.py:37-57 | every open experiment can be rejected without a reviewer, and nothing leaves a final state |
| Experiments.RoundsArePossible | engine/src/openclaw_super_advisor/research/experiment.py:37-57 | a review may ask for more data any number of times |
| Experiments.SoloRelease | engine/src/openclaw_super_advisor/research/experiment.py:225-240 | an experiment that its proposer takes through both gates alone, without a reviewer |
| Envelope.ValidateEnvelope | engine/src/openclaw_super_advisor/events.py:181-223 | no issue exactly when every rule holds |
| Envelope.NumericIssues | engine/src/openclaw_super_advisor/events.py:80-143 | no issue exactly when every numeric field has complete provenance that is not an agent's |
| Envelope.EntryMeans | engine/src/openclaw_super_advisor/events.py:80-143 | the fields and the five classes that the provenance of a number needs, and the three systems that it may not name |
| Envelope.AgentInAnyCase | engine/src/openclaw_super_advisor/events.py:80-143 | an agent is recognized in any capitalization |
| Envelope.SourcedMeans | engine/src/openclaw_super_advisor/events.py:80-143 | every payload field that is a number needs its own valid entry |
| Envelope.ValidMeans | engine/src/openclaw_super_advisor/events.py:181-223 | schema version, the six event types, and what a valid event may not lack |
| Envelope.BuiltValid | engine/src/openclaw_super_advisor/events.py:146-178 | a built envelope validates exactly when its type is allowed and its numbers are sourced |
| Envelope.BuiltCarries | engine/src/openclaw_super_advisor/events.py:146-178 | a built envelope carries what it was given and the hash of itself without the hash |
| Envelope.HashDetectsChange | engine/src/openclaw_super_advisor/events.py:210-218 | with an injective digest a changed event does not validate under the old hash |
| Publication.EvaluateSignal | engine/src/openclaw_super_advisor/signal_engine.py:71-131 | which gates are listed as failed, which state results from gates and score, and what the decision carries |
| Publication.GatesMean | engine/src/openclaw_super_advisor/signal_engine.py:81-92 | each of the six gates is listed exactly when its own condition fails, and no other name is |
| Publication.SignalEventValid | engine/src/openclaw_super_advisor/signal_engine.py:134-173 | a built signal event validates if and only if threshold version and fetch time are not empty |
| Publication.SignalEventCarries | engine/src/openclaw_super_advisor/signal_engine.py:134-173 | a built signal event carries the market, score, state, rules, times and provenance of its decision; a NO_SETUP decision builds none |
| Publication.SignalPipeline | engine/src/openclaw_super_advisor/event_consumer.py:125-183 | an unseen signal event before its expiry is published when CONFIRMED or INVALIDATED and held when CANDIDATE_INTERNAL |
| Publication.EventConsumer.Consume | engine/src/openclaw_super_advisor/event_consumer.py:92-183 | the gates in order, and the shared set grows exactly on publication |
| Publication.VerdictMeans | engine/src/openclaw_super_advisor/event_consumer.py:125-183 | exactly which events are published and held, by name of the type, and which verdict a repeated id and an agent's number get |
| Publication.ExpiryMeans | engine/src/openclaw_super_advisor/event_consumer.py:62-77 | an expiry that does not parse has passed, one that is missing or not text never does, any other at its time |
| Publication.PublishesOnce | engine/src/openclaw_super_advisor/event_consumer.py:153-178 | over any stream each id is published at most once and the set grows by exactly the published ids |
| Publication.TelegramPublisher.FormatMarket | engine/src/openclaw_super_advisor/telegram.py:150-191 | delivers exactly acceptable, unseen, fitting payloads and then marks their key |
| Publication.DeliveredExactly | engine/src/openclaw_super_advisor/telegram.py:150-215 | delivered are exactly the payloads of the five kinds that have not expired, have evidence, provenance and their own key, fit, and whose key is not marked beyond now |
| Publication.CooldownRespected | engine/src/openclaw_super_advisor/telegram.py:127-181 | two accepted calls with the same key are at least one cooldown apart on the store's clock |
| Publication.DeliveredAgain | engine/src/openclaw_super_advisor/telegram.py:127-181 | one cooldown after an accepted call, with no other accepted call of its key in between, the same key is accepted again, and not earlier |
| Publication.SignalKeyAccepted | engine/src/openclaw_super_advisor/telegram.py:210-215 | the dedup key of a signal decision is the one the publisher expects |

## Left out

- Foreign calls and I/O: MT5, FRED and Telegram HTTP, Parquet, SQL text, signals and threads; tables and files are maps and sequences.
- JSON text, SHA-256, ISO date parsing and UUIDs: objects are maps, hashes and canonical texts are functions, times are integers, ids are given.
- Floating-point rounding, `round` and NaN: features are real arithmetic before rounding, and the score of a signal is given already summed.
- RuntimeSafety.RecordAudited: the hash chain of the audit log is not modelled; it is chained like the archive.
- Payload values of task results are flags, integers, text, and lists and tuples of them; floats and None come back from JSON unchanged and are not modelled, nor are nested dictionaries, which change like a tuple when a key is not text.
- CheckpointJson.CheckpointRoundTrip: the coercions that `from_dict` applies to values `to_dict` never writes are not modelled.
- JobQueue.PersistentJobQueue.EnqueueJob: correlation and parent ids are passed through by the source and carry no rule.
- Backfill.RunOnTrack: the number of bars per window is fixed over the runs, as the configuration is; the bars and incidents inside a window are not modelled.
- Backfill.BackfillService.RunBackfill: committing the bars of a window is one write; in the source it is a Parquet write followed by a database write.
- BatchQuality.NormalizeTickBatch: incident texts are not modelled, only what they report.
- ImportGraph.ScanImportGraph: the order of the findings is not fixed; parsing, flagging and path classification are inputs.
- Archive.EvidenceArchive.Append: envelope validation is an input, and of the manifest only its count is kept; the outcome ledger repeats the same chain over other fields.
- Publication.TelegramPublisher.FormatMarket: the message text is not modelled, only whether it fits the limit.
- RSI, ATR, swing points, candle patterns, regime and freshness labels: comprehensions with easy bounds.
- Planner, router, registry, configuration, topology and skill validators, CLI and reports: long lists of equality checks.
- Concurrent `execute` calls on one checkpoint: the code does not reload during a run, so one executor at a time is modelled.
