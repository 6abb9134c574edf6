/** What the queue operations do to the jobs: which job is leased, what a row remembers, and who may enqueue. */
module JobQueueEffects {
  import opened Common
  import opened JobQueue
  import opened JobQueueSafety

  // ---------- which job is leased ----------

  /** Waiting for a worker: queued, or leased with an expiry that has passed. */
  predicate Waiting(j: Job, now: int) {
    j.state == QUEUED || (j.state == LEASED && j.leaseExpires.Some? && j.leaseExpires.value < now)
  }

  /** An absent or empty job type asks for any job. */
  predicate Requested(j: Job, filter: Option<string>) {
    filter == None || filter == Some("") || filter == Some(j.jobType)
  }

  lemma EligibleIsWaiting(q: Queue, filter: Option<string>, now: int, id: string)
    requires id in q.jobs
    ensures Eligible(ExpireLeases(q.jobs, now)[id], filter) <==> Waiting(q.jobs[id], now) && Requested(q.jobs[id], filter)
  {
  }

  /** `lease_next` finds nothing exactly when no requested job is waiting: an expired lease comes back. */
  lemma NothingLeasedExactly(q: Queue, filter: Option<string>, now: int)
    ensures Legal(q, LeaseNext(filter, None), now) <==>
            forall id :: id in q.jobs ==> !(Waiting(q.jobs[id], now) && Requested(q.jobs[id], filter))
  {
    forall id | id in q.jobs
      ensures Eligible(ExpireLeases(q.jobs, now)[id], filter) <==> Waiting(q.jobs[id], now) && Requested(q.jobs[id], filter)
    {
      EligibleIsWaiting(q, filter, now, id);
    }
    hide Waiting, Requested, Eligible;
    assert ExpireLeases(q.jobs, now).Keys == q.jobs.Keys;
  }

  /** The leased job was waiting, is of the requested type, and comes first by priority and creation time. */
  lemma LeasesFirstWaiting(q: Queue, filter: Option<string>, g: string, now: int)
    ensures Legal(q, LeaseNext(filter, Some(g)), now) <==>
            && g in q.jobs && Waiting(q.jobs[g], now) && Requested(q.jobs[g], filter)
            && forall id :: id in q.jobs && Waiting(q.jobs[id], now) && Requested(q.jobs[id], filter) ==>
                 q.jobs[g].priority < q.jobs[id].priority
                 || (q.jobs[g].priority == q.jobs[id].priority && q.jobs[g].createdAt <= q.jobs[id].createdAt)
  {
    var jobs := ExpireLeases(q.jobs, now);
    forall id | id in q.jobs
      ensures Eligible(jobs[id], filter) <==> Waiting(q.jobs[id], now) && Requested(q.jobs[id], filter)
      ensures jobs[id].priority == q.jobs[id].priority && jobs[id].createdAt == q.jobs[id].createdAt
    {
      EligibleIsWaiting(q, filter, now, id);
    }
    hide Waiting, Requested, Eligible, ExpireLeases;
  }

  /** The row of a job after it was leased. */
  lemma LeasedRow(lease: int, q: Queue, filter: Option<string>, g: string, now: int)
    requires Legal(q, LeaseNext(filter, Some(g)), now)
    ensures var q' := Apply(lease, q, LeaseNext(filter, Some(g)), now);
            && g in q.jobs && g in q'.jobs
            && q'.jobs[g].state == LEASED && q'.jobs[g].leaseExpires == Some(now + lease)
            && q'.jobs[g].attempt == q.jobs[g].attempt + 1
            && q'.jobs[g].checkpoint == q.jobs[g].checkpoint && q'.jobs[g].error == q.jobs[g].error
  {
  }

  /** `resume_in_progress` and `lease_next` leave no lease that has expired, and touch no other row but the leased one. */
  lemma NoLapsedLease(lease: int, q: Queue, e: Event, now: int, id: string)
    requires (e.ResumeInProgress? || e.LeaseNext?) && Legal(q, e, now) && id in q.jobs && e != LeaseNext(if e.LeaseNext? then e.filter else None, Some(id))
    ensures id in Apply(lease, q, e, now).jobs
    ensures var j, j' := q.jobs[id], Apply(lease, q, e, now).jobs[id];
            && !(j'.state == LEASED && j'.leaseExpires.Some? && j'.leaseExpires.value < now)
            && (j.state == LEASED && j.leaseExpires.Some? && j.leaseExpires.value < now ==>
                  j'.state == QUEUED && j'.leaseExpires == None && j'.checkpoint == j.checkpoint && j'.attempt == j.attempt)
            && (!(j.state == LEASED && j.leaseExpires.Some? && j.leaseExpires.value < now) ==> j' == j)
  {
  }

  /** The only job, leased at 1 for 300 seconds. */
  lemma LeasedAtOne() returns (t: Trace)
    ensures t == [(Enqueue("j", None, "type", 100, "{}", 3), 0), (LeaseNext(None, Some("j")), 1)]
    ensures Valid(300, t) && Run(300, t).jobs.Keys == {"j"}
    ensures var j := Run(300, t).jobs["j"]; j.state == LEASED && j.leaseExpires == Some(301) && j.attempt == 1
  {
    var e, l := Enqueue("j", None, "type", 100, "{}", 3), LeaseNext(None, Some("j"));
    var t1: Trace := [(e, 0)];
    Extend(300, [], e, 0);
    assert [] + t1 == t1;
    Extend(300, t1, l, 1);
    t := t1 + [(l, 1)];
  }

  /** A dead worker's job: leased at 1 for 300 seconds, at 400 it is the one that is leased. */
  lemma DeadWorkerReleased() returns (t: Trace)
    ensures t == [(Enqueue("j", None, "type", 100, "{}", 3), 0), (LeaseNext(None, Some("j")), 1)]
    ensures Valid(300, t + [(LeaseNext(None, Some("j")), 400)]) && !Valid(300, t + [(LeaseNext(None, None), 400)])
    ensures "j" in Run(300, t + [(LeaseNext(None, Some("j")), 400)]).jobs
    ensures var j := Run(300, t + [(LeaseNext(None, Some("j")), 400)]).jobs["j"]; j.state == LEASED && j.attempt == 2
  {
    t := LeasedAtOne();
    hide Valid, Run, Legal, Apply;
    LeasesFirstWaiting(Run(300, t), None, "j", 400);
    NothingLeasedExactly(Run(300, t), None, 400);
    Extend(300, t, LeaseNext(None, Some("j")), 400);
    LeasedRow(300, Run(300, t), None, "j", 400);
    ValidLast(300, t, LeaseNext(None, None), 400);
  }

  lemma ValidLast(lease: int, t: Trace, e: Event, now: int)
    ensures Valid(lease, t + [(e, now)]) ==> Legal(Run(lease, t), e, now)
  {
    assert Front(t + [(e, now)]) == t;
  }

  /** The jobs that `resume_in_progress` returns. */
  lemma ResumableMeans(jobs: map<string, Job>, id: string)
    ensures id in Resumable(jobs) <==> id in jobs && (jobs[id].state == QUEUED || jobs[id].state == LEASED)
  {
  }

  // ---------- who may enqueue ----------

  /** A job is accepted exactly when its id and its key, if it has one, are new; a key that is not empty is deduplicated. */
  lemma EnqueueExactly(q: Queue, id: string, key: Option<string>)
    ensures EnqueueResult(q, id, key) == Accepted <==>
            id !in q.jobs && (key == None || forall other :: other in q.jobs ==> q.jobs[other].idempotencyKey != key)
    ensures EnqueueResult(q, id, key) == Deduplicated <==>
            key != None && key != Some("") && exists other :: other in q.jobs && q.jobs[other].idempotencyKey == key
  {
  }

  /** Only an accepted enqueue changes anything, and the new job waits with no attempt spent. */
  lemma EnqueuedRow(lease: int, q: Queue, e: Event, now: int)
    requires e.Enqueue?
    ensures var q' := Apply(lease, q, e, now);
            if EnqueueResult(q, e.id, e.key) != Accepted then q' == q
            else
              && q'.jobs.Keys == q.jobs.Keys + {e.id} && q'.jobs[e.id].state == QUEUED && q'.jobs[e.id].attempt == 0
              && q'.jobs[e.id].checkpoint == "{}" && q'.jobs[e.id].leaseExpires == None && q'.jobs[e.id].error == None
              && (forall id :: id in q.jobs ==> q'.jobs[id] == q.jobs[id]) && q'.deadLetters == q.deadLetters && q'.circuit == q.circuit
  {
    hide KeyTaken;
  }

  // ---------- what a row remembers ----------

  /** The accepted enqueue that made the row. */
  ghost function Origin(lease: int, t: Trace, id: string): Option<(Event, int)> {
    if t == [] then None
    else if id in Run(lease, Front(t)).jobs then Origin(lease, Front(t), id)
    else if Last(t).0.Enqueue? && Last(t).0.id == id then Some(Last(t))
    else None
  }

  /** No step changes what a job was enqueued with. */
  lemma IdentityKept(lease: int, q: Queue, e: Event, now: int, id: string)
    requires id in q.jobs
    ensures id in Apply(lease, q, e, now).jobs
    ensures var j, j' := q.jobs[id], Apply(lease, q, e, now).jobs[id];
            && j'.jobId == j.jobId && j'.idempotencyKey == j.idempotencyKey && j'.jobType == j.jobType && j'.priority == j.priority
            && j'.payload == j.payload && j'.maxAttempts == j.maxAttempts && j'.createdAt == j.createdAt
  {
    hide GivesUp, Failures, KeyTaken;
  }

  /** Over every trace, a job carries the key, type, priority, payload, limit and time of its accepted enqueue. */
  lemma {:induction false} JobKeepsEnqueued(lease: int, t: Trace, id: string)
    requires Valid(lease, t) && id in Run(lease, t).jobs
    ensures Origin(lease, t, id).Some? && Origin(lease, t, id).value.0.Enqueue?
    ensures var j, (e, at) := Run(lease, t).jobs[id], Origin(lease, t, id).value;
            && j.jobId == e.id == id && j.idempotencyKey == e.key && j.jobType == e.jobType && j.priority == e.priority
            && j.payload == e.payload && j.maxAttempts == e.maxAttempts && j.createdAt == at
  {
    if id in Run(lease, Front(t)).jobs {
      hide Apply;
      JobKeepsEnqueued(lease, Front(t), id);
      IdentityKept(lease, Run(lease, Front(t)), Last(t).0, Last(t).1, id);
    } else {
      ApplyKeys(lease, Run(lease, Front(t)), Last(t).0, Last(t).1);
    }
  }

  /** The data of the last checkpoint that was stored while the job was leased. */
  ghost function SavedData(lease: int, t: Trace, id: string): string {
    if t == [] then "{}"
    else
      match Last(t).0
      case SaveCheckpoint(s, data) => if s == id && Is(Run(lease, Front(t)), id, LEASED) then data else SavedData(lease, Front(t), id)
      case _ => SavedData(lease, Front(t), id)
  }

  /** The error of the last failure of the job. */
  ghost function LastError(lease: int, t: Trace, id: string): Option<string> {
    if t == [] then None
    else
      match Last(t).0
      case Fail(f, error) => if f == id && id in Run(lease, Front(t)).jobs then Some(error) else LastError(lease, Front(t), id)
      case _ => LastError(lease, Front(t), id)
  }

  lemma {:induction false} UnknownRemembersNothing(lease: int, t: Trace, id: string)
    requires Valid(lease, t) && id !in Run(lease, t).jobs
    ensures SavedData(lease, t, id) == "{}" && LastError(lease, t, id) == None
  {
    if t != [] {
      ApplyKeys(lease, Run(lease, Front(t)), Last(t).0, Last(t).1);
      hide Apply;
      UnknownRemembersNothing(lease, Front(t), id);
    }
  }

  lemma MemoryStep(lease: int, q: Queue, e: Event, now: int, id: string)
    requires id in q.jobs
    ensures id in Apply(lease, q, e, now).jobs
    ensures var j, j' := q.jobs[id], Apply(lease, q, e, now).jobs[id];
            && j'.checkpoint == (if e.SaveCheckpoint? && e.id == id && j.state == LEASED then e.data else j.checkpoint)
            && j'.error == (if e.Fail? && e.id == id then Some(e.error) else j.error)
  {
    hide GivesUp, Failures, KeyTaken;
  }

  /** Over every trace, a job's checkpoint is the last one stored under a lease, and its error that of its last failure. */
  lemma {:induction false} JobRemembers(lease: int, t: Trace, id: string)
    requires Valid(lease, t) && id in Run(lease, t).jobs
    ensures Run(lease, t).jobs[id].checkpoint == SavedData(lease, t, id)
    ensures Run(lease, t).jobs[id].error == LastError(lease, t, id)
  {
    var q, e, now := Run(lease, Front(t)), Last(t).0, Last(t).1;
    if id in q.jobs {
      MemoryStep(lease, q, e, now, id);
      hide Apply;
      JobRemembers(lease, Front(t), id);
    } else {
      ApplyKeys(lease, q, e, now);
      UnknownRemembersNothing(lease, Front(t), id);
    }
  }

  // ---------- states and stamps ----------

  /** Where the operations that workers and operators call take a job. */
  lemma StateAfter(lease: int, q: Queue, e: Event, now: int, id: string)
    requires id in q.jobs
    ensures id in Apply(lease, q, e, now).jobs
    ensures var s, s' := q.jobs[id].state, Apply(lease, q, e, now).jobs[id].state;
            && (e == Cancel(id) ==> s' == if s == QUEUED || s == LEASED then CANCELLED else s)
            && (e == Complete(id) ==> s' == if s == LEASED then COMPLETED else s)
            && (e.Fail? && e.id == id ==> s' == QUEUED || s' == DEAD_LETTER)
            && (s' != s ==> e == Cancel(id) || e == Complete(id) || (e.Fail? && e.id == id) || e.LeaseNext? || e.ResumeInProgress?)
            && (s' != s && (e.LeaseNext? || e.ResumeInProgress?) ==> s' == QUEUED || s' == LEASED)
  {
    hide GivesUp, Failures, KeyTaken;
  }

  /** A renewed lease runs from now; only a leased job is renewed. */
  lemma RenewedRow(lease: int, q: Queue, id: string, now: int)
    requires id in q.jobs
    ensures var j' := Apply(lease, q, RenewLease(id), now).jobs[id];
            if q.jobs[id].state == LEASED then j' == q.jobs[id].(leaseExpires := Some(now + lease), updatedAt := now) else j' == q.jobs[id]
  {
  }

  /** A row that a step changes is stamped with the time of the step. */
  lemma ChangesAreStamped(lease: int, q: Queue, e: Event, now: int, id: string)
    requires id in q.jobs
    ensures id in Apply(lease, q, e, now).jobs
    ensures Apply(lease, q, e, now).jobs[id] != q.jobs[id] ==> Apply(lease, q, e, now).jobs[id].updatedAt == now
  {
    hide GivesUp, Failures, KeyTaken;
  }

  /** A completion, a cancellation and a failure end the lease. */
  lemma LeaseEnds(lease: int, q: Queue, e: Event, now: int, id: string)
    requires id in q.jobs && q.jobs[id].state == LEASED && (e == Complete(id) || e == Cancel(id) || (e.Fail? && e.id == id))
    ensures Apply(lease, q, e, now).jobs[id].leaseExpires == None
  {
    hide GivesUp, Failures;
  }
}
