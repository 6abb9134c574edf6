/**
 * The persistent job queue: leases, retries, dead letters and the circuit breaker.
 *
 * Each public method runs in one database transaction, so it is one step on the tables.  `Apply` is
 * that step; `PersistentJobQueue` performs it by updating its tables in place.
 */
module JobQueue {
  import opened Common

  datatype JobState = QUEUED | LEASED | COMPLETED | DEAD_LETTER | CANCELLED

  datatype Job = Job(
    jobId: string, idempotencyKey: Option<string>, jobType: string, state: JobState, priority: int,
    payload: string, checkpoint: string, attempt: nat, maxAttempts: int, createdAt: int, updatedAt: int,
    leaseExpires: Option<int>, error: Option<string>)

  datatype DeadLetter = DeadLetter(jobId: string, jobType: string, payload: string, finalError: string, archivedAt: int)

  /** The two tables and the in-memory failure counters. */
  datatype Queue = Queue(jobs: map<string, Job>, deadLetters: seq<DeadLetter>, circuit: map<string, nat>)

  datatype Event =
    | Enqueue(id: string, key: Option<string>, jobType: string, priority: int, payload: string, maxAttempts: int)
    | LeaseNext(filter: Option<string>, got: Option<string>)
    | RenewLease(id: string)
    | SaveCheckpoint(id: string, data: string)
    | Complete(id: string)
    | Fail(id: string, error: string)
    | Cancel(id: string)
    | ResumeInProgress
    | ResetCircuit(jobType: string)
    | Restart

  datatype EnqueueOutcome = Accepted | Deduplicated | IntegrityError

  const CIRCUIT_THRESHOLD: nat := 5

  const EMPTY := Queue(map[], [], map[])

  // ---------- one step ----------

  predicate KeyTaken(jobs: map<string, Job>, key: Option<string>) {
    key.Some? && exists id :: id in jobs && jobs[id].idempotencyKey == key
  }

  /** The empty key skips the duplicate query but not the UNIQUE constraint. */
  function EnqueueResult(q: Queue, id: string, key: Option<string>): EnqueueOutcome {
    if KeyTaken(q.jobs, key) && key != Some("") then Deduplicated
    else if id in q.jobs || KeyTaken(q.jobs, key) then IntegrityError
    else Accepted
  }

  predicate Lapsed(j: Job, now: int) {
    j.state == LEASED && j.leaseExpires.Some? && j.leaseExpires.value < now
  }

  function Requeued(j: Job, now: int): Job {
    j.(state := QUEUED, leaseExpires := None, updatedAt := now)
  }

  /** `UPDATE jobs SET state = 'QUEUED' ... WHERE state = 'LEASED' AND lease_expires < now`. */
  function ExpireLeases(jobs: map<string, Job>, now: int): (r: map<string, Job>)
    ensures r.Keys == jobs.Keys
  {
    map id | id in jobs :: if Lapsed(jobs[id], now) then Requeued(jobs[id], now) else jobs[id]
  }

  predicate Eligible(j: Job, filter: Option<string>) {
    j.state == QUEUED && (filter.None? || filter.value == "" || j.jobType == filter.value)
  }

  /** `ORDER BY priority ASC, created_at ASC`; ties may come out in any order. */
  predicate NotAfter(a: Job, b: Job) {
    a.priority < b.priority || (a.priority == b.priority && a.createdAt <= b.createdAt)
  }

  predicate IsNext(jobs: map<string, Job>, filter: Option<string>, got: Option<string>) {
    match got
    case None => forall id :: id in jobs ==> !Eligible(jobs[id], filter)
    case Some(g) => g in jobs && Eligible(jobs[g], filter) && forall id :: id in jobs && Eligible(jobs[id], filter) ==> NotAfter(jobs[g], jobs[id])
  }

  function Failures(q: Queue, jobType: string): nat {
    if jobType in q.circuit then q.circuit[jobType] else 0
  }

  predicate Is(q: Queue, id: string, state: JobState) {
    id in q.jobs && q.jobs[id].state == state
  }

  /** Whether `fail` sends this job to the dead letters. */
  predicate GivesUp(q: Queue, id: string)
    requires id in q.jobs
  {
    q.jobs[id].attempt >= q.jobs[id].maxAttempts || Failures(q, q.jobs[id].jobType) + 1 >= CIRCUIT_THRESHOLD
  }

  function Apply(lease: int, q: Queue, e: Event, now: int): Queue {
    match e
    case Enqueue(id, key, jobType, priority, payload, maxAttempts) =>
      if EnqueueResult(q, id, key) != Accepted then q
      else q.(jobs := q.jobs[id := Job(id, key, jobType, QUEUED, priority, payload, "{}", 0, maxAttempts, now, now, None, None)])
    case LeaseNext(_, got) =>
      var jobs := ExpireLeases(q.jobs, now);
      if got.None? || got.value !in jobs then q.(jobs := jobs)
      else
        var j := jobs[got.value];
        q.(jobs := jobs[got.value := j.(state := LEASED, leaseExpires := Some(now + lease), updatedAt := now, attempt := j.attempt + 1)])
    case RenewLease(id) =>
      if Is(q, id, LEASED) then q.(jobs := q.jobs[id := q.jobs[id].(leaseExpires := Some(now + lease), updatedAt := now)]) else q
    case SaveCheckpoint(id, data) =>
      if Is(q, id, LEASED) then q.(jobs := q.jobs[id := q.jobs[id].(checkpoint := data, updatedAt := now)]) else q
    case Complete(id) =>
      if Is(q, id, LEASED) then
        q.(jobs := q.jobs[id := q.jobs[id].(state := COMPLETED, leaseExpires := None, updatedAt := now)],
           circuit := q.circuit - {q.jobs[id].jobType})
      else q
    case Fail(id, error) =>
      if id !in q.jobs then q
      else
        var j := q.jobs[id].(leaseExpires := None, updatedAt := now, error := Some(error));
        var q' := q.(circuit := q.circuit[j.jobType := Failures(q, j.jobType) + 1]);
        if GivesUp(q, id) then
          q'.(jobs := q.jobs[id := j.(state := DEAD_LETTER)],
              deadLetters := q.deadLetters + [DeadLetter(id, j.jobType, j.payload, error, now)])
        else q'.(jobs := q.jobs[id := j.(state := QUEUED)])
    case Cancel(id) =>
      if Is(q, id, QUEUED) || Is(q, id, LEASED) then
        q.(jobs := q.jobs[id := q.jobs[id].(state := CANCELLED, leaseExpires := None, updatedAt := now)])
      else q
    case ResumeInProgress => q.(jobs := ExpireLeases(q.jobs, now))
    case ResetCircuit(jobType) => q.(circuit := q.circuit - {jobType})
    case Restart => q.(circuit := map[])
  }

  /** `lease_next` returns a first job in the order of the query, or nothing when none is eligible. */
  predicate Legal(q: Queue, e: Event, now: int) {
    e.LeaseNext? ==> IsNext(ExpireLeases(q.jobs, now), e.filter, e.got)
  }

  // ---------- the queue object ----------

  lemma {:induction false} FirstExists(jobs: map<string, Job>, ids: set<string>) returns (g: string)
    requires ids != {} && ids <= jobs.Keys
    ensures g in ids && forall id :: id in ids ==> NotAfter(jobs[g], jobs[id])
  {
    var x :| x in ids;
    g := x;
    if ids != {x} {
      assert ids - {x} != {};
      var y := FirstExists(jobs, ids - {x});
      g := if NotAfter(jobs[x], jobs[y]) then x else y;
    }
  }

  function Resumable(jobs: map<string, Job>): (ids: set<string>)
    ensures ids <= jobs.Keys
  {
    set id | id in jobs && jobs[id].state in {QUEUED, LEASED}
  }

  ghost predicate ByPriority(jobs: map<string, Job>, ids: seq<string>) {
    && (forall id :: id in ids ==> id in jobs)
    && forall i, j :: 0 <= i < j < |ids| ==> jobs[ids[i]].priority <= jobs[ids[j]].priority
  }

  ghost predicate NoneBefore(jobs: map<string, Job>, rows: seq<string>, rest: set<string>) {
    forall r, id :: r in rows && id in rest ==> r in jobs && id in jobs && r != id && jobs[r].priority <= jobs[id].priority
  }

  /** `rows` lists some jobs by priority, none of them after a job in `rest`. */
  ghost predicate Listing(jobs: map<string, Job>, rows: seq<string>, rest: set<string>) {
    Distinct(rows) && ByPriority(jobs, rows) && NoneBefore(jobs, rows, rest)
  }

  lemma ListNone(jobs: map<string, Job>, rest: set<string>)
    ensures Listing(jobs, [], rest)
  {
  }

  lemma ListDone(jobs: map<string, Job>, rows: seq<string>, rest: set<string>)
    requires Listing(jobs, rows, rest)
    ensures Distinct(rows) && ByPriority(jobs, rows)
  {
  }

  lemma FirstPriority(jobs: map<string, Job>, ids: set<string>)
    requires ids != {} && ids <= jobs.Keys
    ensures exists id :: id in ids && forall other :: other in ids ==> jobs[id].priority <= jobs[other].priority
  {
    var first := FirstExists(jobs, ids);
  }

  lemma ListNext(jobs: map<string, Job>, rows: seq<string>, rest: set<string>, id: string)
    requires Listing(jobs, rows, rest) && id in rest && rest <= jobs.Keys
    requires forall other :: other in rest ==> jobs[id].priority <= jobs[other].priority
    ensures Listing(jobs, rows + [id], rest - {id}) && Elements(rows + [id]) == Elements(rows) + {id}
  {
    ElementsConcat(rows, [id]);
    assert forall r :: r in rows + [id] <==> r in rows || r == id;
  }

  class PersistentJobQueue {
    const leaseSeconds: int
    var jobs: map<string, Job>
    var deadLetters: seq<DeadLetter>
    var circuitFailures: map<string, nat>

    ghost function Contents(): Queue
      reads this
    {
      Queue(jobs, deadLetters, circuitFailures)
    }

    constructor (leaseSeconds: int)
      ensures this.leaseSeconds == leaseSeconds && Contents() == EMPTY
    {
      this.leaseSeconds := leaseSeconds;
      jobs, deadLetters, circuitFailures := map[], [], map[];
    }

    method EnqueueJob(id: string, key: Option<string>, jobType: string, priority: int, payload: string, maxAttempts: int, now: int)
      returns (r: EnqueueOutcome)
      modifies this
      ensures r == EnqueueResult(old(Contents()), id, key)
      ensures Contents() == Apply(leaseSeconds, old(Contents()), Enqueue(id, key, jobType, priority, payload, maxAttempts), now)
    {
      if key.Some? && key.value != "" && KeyTaken(jobs, key) {
        return Deduplicated;
      }
      if id in jobs || KeyTaken(jobs, key) {
        return IntegrityError;
      }
      jobs := jobs[id := Job(id, key, jobType, QUEUED, priority, payload, "{}", 0, maxAttempts, now, now, None, None)];
      return Accepted;
    }

    method Lease(filter: Option<string>, now: int) returns (got: Option<string>)
      modifies this`jobs
      ensures Legal(old(Contents()), LeaseNext(filter, got), now)
      ensures Contents() == Apply(leaseSeconds, old(Contents()), LeaseNext(filter, got), now)
    {
      jobs := ExpireLeases(jobs, now);
      got := FirstEligible(filter);
      if got.Some? {
        var id := got.value;
        jobs := jobs[id := jobs[id].(state := LEASED, leaseExpires := Some(now + leaseSeconds), updatedAt := now,
                                     attempt := jobs[id].attempt + 1)];
      }
    }

    /** `SELECT * ... WHERE state = 'QUEUED' ORDER BY priority ASC, created_at ASC LIMIT 1`. */
    method FirstEligible(filter: Option<string>) returns (got: Option<string>)
      ensures IsNext(jobs, filter, got)
    {
      var candidates := set id | id in jobs && Eligible(jobs[id], filter);
      if candidates == {} {
        assert forall id :: id in jobs && Eligible(jobs[id], filter) ==> id in candidates;
        return None;
      }
      ghost var first := FirstExists(jobs, candidates);
      var id :| id in candidates && forall other :: other in candidates ==> NotAfter(jobs[id], jobs[other]);
      return Some(id);
    }

    method Renew(id: string, now: int) returns (ok: bool)
      modifies this`jobs
      ensures ok == Is(old(Contents()), id, LEASED)
      ensures Contents() == Apply(leaseSeconds, old(Contents()), RenewLease(id), now)
    {
      ok := id in jobs && jobs[id].state == LEASED;
      if ok {
        jobs := jobs[id := jobs[id].(leaseExpires := Some(now + leaseSeconds), updatedAt := now)];
      }
    }

    method Checkpoint(id: string, data: string, now: int) returns (ok: bool)
      modifies this`jobs
      ensures ok == Is(old(Contents()), id, LEASED)
      ensures Contents() == Apply(leaseSeconds, old(Contents()), SaveCheckpoint(id, data), now)
    {
      ok := id in jobs && jobs[id].state == LEASED;
      if ok {
        jobs := jobs[id := jobs[id].(checkpoint := data, updatedAt := now)];
      }
    }

    method CompleteJob(id: string, now: int) returns (ok: bool)
      modifies this`jobs, this`circuitFailures
      ensures ok == Is(old(Contents()), id, LEASED)
      ensures Contents() == Apply(leaseSeconds, old(Contents()), Complete(id), now)
    {
      ok := id in jobs && jobs[id].state == LEASED;
      if ok {
        jobs := jobs[id := jobs[id].(state := COMPLETED, leaseExpires := None, updatedAt := now)];
        circuitFailures := circuitFailures - {jobs[id].jobType};
      }
    }

    method FailJob(id: string, error: string, now: int) returns (job: Option<Job>)
      modifies this
      ensures Contents() == Apply(leaseSeconds, old(Contents()), Fail(id, error), now)
      ensures job == if id in jobs then Some(jobs[id]) else None
    {
      if id !in jobs {
        return None;
      }
      var j := jobs[id];
      var count := (if j.jobType in circuitFailures then circuitFailures[j.jobType] else 0) + 1;
      circuitFailures := circuitFailures[j.jobType := count];
      var circuitOpen := count >= CIRCUIT_THRESHOLD;
      if j.attempt >= j.maxAttempts || circuitOpen {
        jobs := jobs[id := j.(state := DEAD_LETTER, leaseExpires := None, updatedAt := now, error := Some(error))];
        deadLetters := deadLetters + [DeadLetter(id, j.jobType, j.payload, error, now)];
      } else {
        jobs := jobs[id := j.(state := QUEUED, leaseExpires := None, updatedAt := now, error := Some(error))];
      }
      return Some(jobs[id]);
    }

    method CancelJob(id: string, now: int) returns (ok: bool)
      modifies this`jobs
      ensures ok == (Is(old(Contents()), id, QUEUED) || Is(old(Contents()), id, LEASED))
      ensures Contents() == Apply(leaseSeconds, old(Contents()), Cancel(id), now)
    {
      ok := id in jobs && jobs[id].state in {QUEUED, LEASED};
      if ok {
        jobs := jobs[id := jobs[id].(state := CANCELLED, leaseExpires := None, updatedAt := now)];
      }
    }

    /** The queued and leased jobs after the reset of expired leases, by priority. */
    method Resume(now: int) returns (resumable: seq<string>)
      modifies this`jobs
      ensures Contents() == Apply(leaseSeconds, old(Contents()), ResumeInProgress, now)
      ensures Elements(resumable) == Resumable(jobs) && Distinct(resumable) && ByPriority(jobs, resumable)
    {
      jobs := ExpireLeases(jobs, now);
      resumable := SelectResumable();
    }

    /** `SELECT * ... WHERE state IN ('QUEUED', 'LEASED') ORDER BY priority ASC`. */
    method SelectResumable() returns (rows: seq<string>)
      ensures Elements(rows) == Resumable(jobs) && Distinct(rows) && ByPriority(jobs, rows)
    {
      hide Listing, NotAfter, Resumable;
      rows := [];
      var rest := Resumable(jobs);
      ListNone(jobs, rest);
      while rest != {}
        invariant rest <= Resumable(jobs) && Elements(rows) == Resumable(jobs) - rest && Listing(jobs, rows, rest)
      {
        FirstPriority(jobs, rest);
        var id :| id in rest && forall other :: other in rest ==> jobs[id].priority <= jobs[other].priority;
        ListNext(jobs, rows, rest, id);
        rows := rows + [id];
        rest := rest - {id};
      }
      ListDone(jobs, rows, rest);
    }

    method Reset(jobType: string)
      modifies this`circuitFailures
      ensures forall now :: Contents() == Apply(leaseSeconds, old(Contents()), ResetCircuit(jobType), now)
    {
      circuitFailures := circuitFailures - {jobType};
    }
  }
}
