/** Properties of every sequence of queue operations on a clock that never runs backwards. */
module JobQueueSafety {
  import opened Common
  import opened JobQueue

  type Trace = seq<(Event, int)>

  ghost function Front(t: Trace): Trace
    requires t != []
  {
    t[..|t| - 1]
  }

  ghost function Last(t: Trace): (Event, int)
    requires t != []
  {
    t[|t| - 1]
  }

  ghost function Run(lease: int, t: Trace): Queue {
    if t == [] then EMPTY else Apply(lease, Run(lease, Front(t)), Last(t).0, Last(t).1)
  }

  /** Leases follow the query order and the clock does not run backwards. */
  ghost predicate Valid(lease: int, t: Trace) {
    t == [] ||
    (Valid(lease, Front(t)) && Legal(Run(lease, Front(t)), Last(t).0, Last(t).1)
     && (Front(t) != [] ==> Last(Front(t)).1 <= Last(t).1))
  }

  // ---------- shape of the rows ----------

  ghost predicate RowOk(id: string, j: Job) {
    j.jobId == id && (j.state == LEASED <==> j.leaseExpires.Some?)
  }

  ghost predicate WellFormed(q: Queue) {
    forall id :: id in q.jobs ==> RowOk(id, q.jobs[id])
  }

  ghost predicate UniqueKeys(jobs: map<string, Job>) {
    forall a, b :: a in jobs && b in jobs && a != b && jobs[a].idempotencyKey.Some? ==>
      jobs[a].idempotencyKey != jobs[b].idempotencyKey
  }

  lemma StepRowOk(lease: int, q: Queue, e: Event, now: int, id: string)
    requires (id in q.jobs ==> RowOk(id, q.jobs[id])) && id in Apply(lease, q, e, now).jobs
    ensures RowOk(id, Apply(lease, q, e, now).jobs[id])
  {
    hide GivesUp, Failures, KeyTaken;
  }

  lemma ApplyWellFormed(lease: int, q: Queue, e: Event, now: int)
    requires WellFormed(q)
    ensures WellFormed(Apply(lease, q, e, now))
  {
    hide Apply, RowOk;
    forall id | id in Apply(lease, q, e, now).jobs
      ensures RowOk(id, Apply(lease, q, e, now).jobs[id])
    {
      StepRowOk(lease, q, e, now, id);
    }
  }

  /** No step changes the idempotency key of a row, and a new row brings a key that no row has. */
  lemma KeysKept(lease: int, q: Queue, e: Event, now: int, id: string)
    requires id in Apply(lease, q, e, now).jobs
    ensures var j := Apply(lease, q, e, now).jobs[id];
            if id in q.jobs then j.idempotencyKey == q.jobs[id].idempotencyKey
            else !KeyTaken(q.jobs, j.idempotencyKey) && e.Enqueue? && e.id == id
  {
    hide GivesUp, Failures, KeyTaken;
  }

  lemma ApplyUniqueKeys(lease: int, q: Queue, e: Event, now: int)
    requires UniqueKeys(q.jobs)
    ensures UniqueKeys(Apply(lease, q, e, now).jobs)
  {
    hide Apply;
    var jobs := Apply(lease, q, e, now).jobs;
    forall a, b | a in jobs && b in jobs && a != b && jobs[a].idempotencyKey.Some?
      ensures jobs[a].idempotencyKey != jobs[b].idempotencyKey
    {
      KeysKept(lease, q, e, now, a);
      KeysKept(lease, q, e, now, b);
    }
  }

  /** Rows are keyed by job id, only leased rows carry an expiry, and non-null idempotency keys are unique. */
  lemma {:induction false} RowsWellFormed(lease: int, t: Trace)
    ensures WellFormed(Run(lease, t)) && UniqueKeys(Run(lease, t).jobs)
  {
    hide Apply, WellFormed, UniqueKeys;
    if t == [] {
      EmptyWellFormed();
    } else {
      RowsWellFormed(lease, Front(t));
      ApplyWellFormed(lease, Run(lease, Front(t)), Last(t).0, Last(t).1);
      ApplyUniqueKeys(lease, Run(lease, Front(t)), Last(t).0, Last(t).1);
    }
  }

  lemma EmptyWellFormed()
    ensures WellFormed(EMPTY) && UniqueKeys(EMPTY.jobs)
  {
  }

  // ---------- lease exclusivity ----------

  /** The latest expiry that was granted or renewed for the job. */
  ghost function LastGrant(lease: int, t: Trace, id: string): Option<int> {
    if t == [] then None
    else
      var (e, now) := Last(t);
      if e == LeaseNext(if e.LeaseNext? then e.filter else None, Some(id)) || (e == RenewLease(id) && Is(Run(lease, Front(t)), id, LEASED))
      then Some(now + lease)
      else LastGrant(lease, Front(t), id)
  }

  /** `fail` was called on the job after its latest lease. */
  ghost predicate FailedSinceLease(t: Trace, id: string) {
    t != [] && match Last(t).0
      case Fail(f, _) => f == id || FailedSinceLease(Front(t), id)
      case LeaseNext(_, got) => got != Some(id) && FailedSinceLease(Front(t), id)
      case _ => FailedSinceLease(Front(t), id)
  }

  /** The row of a granted job that was not failed: held until the expiry, waiting after it, or finished. */
  ghost predicate HeldUntil(q: Queue, id: string, expiry: int, now: int) {
    && id in q.jobs
    && match q.jobs[id].state
       case LEASED => q.jobs[id].leaseExpires == Some(expiry)
       case QUEUED => expiry < now
       case _ => true
  }

  ghost predicate IsLeaseOf(e: Event, id: string) {
    e.LeaseNext? && e.got == Some(id)
  }

  lemma HeldStep(lease: int, q: Queue, e: Event, id: string, expiry: int, before: int, now: int)
    requires HeldUntil(q, id, expiry, before) && before <= now && WellFormed(q) && Legal(q, e, now)
    requires !e.Fail? || e.id != id
    ensures !IsLeaseOf(e, id) && !(e == RenewLease(id) && Is(q, id, LEASED)) ==> HeldUntil(Apply(lease, q, e, now), id, expiry, now)
    ensures IsLeaseOf(e, id) ==> expiry < now
  {
    hide GivesUp, Failures, WellFormed;
  }

  lemma GrantStep(lease: int, q: Queue, e: Event, id: string, now: int)
    requires Legal(q, e, now)
    requires IsLeaseOf(e, id) || (e == RenewLease(id) && Is(q, id, LEASED))
    ensures HeldUntil(Apply(lease, q, e, now), id, now + lease, now)
  {
  }

  lemma {:induction false} HeldInvariant(lease: int, t: Trace, id: string)
    requires Valid(lease, t) && LastGrant(lease, t, id).Some? && !FailedSinceLease(t, id)
    ensures HeldUntil(Run(lease, t), id, LastGrant(lease, t, id).value, Last(t).1)
  {
    var (e, now) := Last(t);
    var front := Front(t);
    var q := Run(lease, front);
    if IsLeaseOf(e, id) || (e == RenewLease(id) && Is(q, id, LEASED)) {
      GrantStep(lease, q, e, id, now);
    } else {
      HeldInvariant(lease, front, id);
      RowsWellFormed(lease, front);
      HeldStep(lease, q, e, id, LastGrant(lease, front, id).value, Last(front).1, now);
    }
  }

  /**
   * Lease exclusivity: a job is leased again only after `fail` was called on it or after the clock
   * passed the latest expiry that was granted or renewed for it.
   */
  lemma LeaseExclusive(lease: int, t: Trace, filter: Option<string>, id: string, now: int)
    requires Valid(lease, t + [(LeaseNext(filter, Some(id)), now)])
    requires LastGrant(lease, t, id).Some? && !FailedSinceLease(t, id)
    ensures LastGrant(lease, t, id).value < now
  {
    var t' := t + [(LeaseNext(filter, Some(id)), now)];
    assert Front(t') == t;
    HeldInvariant(lease, t, id);
    RowsWellFormed(lease, t);
    HeldStep(lease, Run(lease, t), Last(t').0, id, LastGrant(lease, t, id).value, Last(t).1, now);
  }

  // ---------- attempt accounting ----------

  ghost function Leases(t: Trace, id: string): nat {
    if t == [] then 0 else Leases(Front(t), id) + if IsLeaseOf(Last(t).0, id) then 1 else 0
  }

  /** The step resets the expired lease of the job. */
  ghost predicate ExpiresLease(q: Queue, e: Event, now: int, id: string) {
    (e.LeaseNext? || e.ResumeInProgress?) && id in q.jobs && Lapsed(q.jobs[id], now)
  }

  ghost function Expiries(lease: int, t: Trace, id: string): nat {
    if t == [] then 0
    else Expiries(lease, Front(t), id) + if ExpiresLease(Run(lease, Front(t)), Last(t).0, Last(t).1, id) then 1 else 0
  }

  function Allowance(j: Job): int {
    if j.maxAttempts > 1 then j.maxAttempts else 1
  }

  /** A waiting job still has an attempt to spend. */
  ghost predicate AttemptsBounded(j: Job, expiries: nat) {
    j.attempt <= Allowance(j) + expiries && (j.state == QUEUED ==> j.attempt < Allowance(j) + expiries)
  }

  lemma AttemptStep(lease: int, q: Queue, e: Event, now: int, id: string, leases: nat, expiries: nat)
    requires Legal(q, e, now)
    requires if id in q.jobs then q.jobs[id].attempt == leases && AttemptsBounded(q.jobs[id], expiries) else leases == 0
    ensures var q' := Apply(lease, q, e, now);
            var leases' := leases + if IsLeaseOf(e, id) then 1 else 0;
            var expiries' := expiries + if ExpiresLease(q, e, now, id) then 1 else 0;
            if id in q'.jobs then q'.jobs[id].attempt == leases' && AttemptsBounded(q'.jobs[id], expiries') else leases' == 0
  {
  }

  lemma {:induction false} AttemptInvariant(lease: int, t: Trace, id: string)
    requires Valid(lease, t)
    ensures var q := Run(lease, t);
            if id in q.jobs then q.jobs[id].attempt == Leases(t, id) && AttemptsBounded(q.jobs[id], Expiries(lease, t, id))
            else Leases(t, id) == 0
  {
    if t != [] {
      AttemptInvariant(lease, Front(t), id);
      AttemptStep(lease, Run(lease, Front(t)), Last(t).0, Last(t).1, id, Leases(Front(t), id), Expiries(lease, Front(t), id));
    }
  }

  /**
   * `attempt` counts the leases of the job, and with max_attempts at least 1 a job is leased at most
   * max_attempts times plus once for every lease that expired.
   */
  lemma LeasesBounded(lease: int, t: Trace, id: string)
    requires Valid(lease, t) && id in Run(lease, t).jobs
    ensures var j := Run(lease, t).jobs[id];
            j.attempt == Leases(t, id) && (j.maxAttempts >= 1 ==> Leases(t, id) <= j.maxAttempts + Expiries(lease, t, id))
  {
    AttemptInvariant(lease, t, id);
  }

  // ---------- the circuit breaker ----------

  /** Failures of the type since its latest completion, reset or process start. */
  ghost function FailuresSince(lease: int, t: Trace, jobType: string): nat {
    if t == [] then 0
    else
      var q := Run(lease, Front(t));
      match Last(t).0
      case Fail(id, _) => FailuresSince(lease, Front(t), jobType) + if id in q.jobs && q.jobs[id].jobType == jobType then 1 else 0
      case Complete(id) => if Is(q, id, LEASED) && q.jobs[id].jobType == jobType then 0 else FailuresSince(lease, Front(t), jobType)
      case ResetCircuit(r) => if r == jobType then 0 else FailuresSince(lease, Front(t), jobType)
      case Restart => 0
      case _ => FailuresSince(lease, Front(t), jobType)
  }

  lemma {:induction false} CircuitCounts(lease: int, t: Trace, jobType: string)
    ensures Failures(Run(lease, t), jobType) == FailuresSince(lease, t, jobType)
  {
    if t != [] {
      hide ExpireLeases, EnqueueResult, GivesUp;
      CircuitCounts(lease, Front(t), jobType);
    }
  }

  /**
   * A `fail` dead-letters the job exactly when its attempts are exhausted or this is at least the fifth
   * failure of its type since the last completion, reset or restart; otherwise the job is queued again.
   */
  lemma FailOutcome(lease: int, t: Trace, id: string, error: string, now: int)
    requires id in Run(lease, t).jobs
    ensures var j := Run(lease, t).jobs[id];
            var after := Run(lease, t + [(Fail(id, error), now)]);
            var gaveUp := j.attempt >= j.maxAttempts || FailuresSince(lease, t, j.jobType) + 1 >= 5;
            && id in after.jobs
            && (gaveUp ==> after.jobs[id].state == DEAD_LETTER &&
                           after.deadLetters == Run(lease, t).deadLetters + [DeadLetter(id, j.jobType, j.payload, error, now)])
            && (!gaveUp ==> after.jobs[id].state == QUEUED && after.deadLetters == Run(lease, t).deadLetters)
  {
    assert Front(t + [(Fail(id, error), now)]) == t;
    CircuitCounts(lease, t, Run(lease, t).jobs[id].jobType);
  }

  // ---------- absorbing states ----------

  predicate Terminal(s: JobState) {
    s in {COMPLETED, DEAD_LETTER, CANCELLED}
  }

  /**
   * `fail` has no state guard, so terminal states are not absorbing in general.  A step moves a job out
   * of its terminal state exactly when it is a `fail` of that job, other than one that dead-letters a
   * dead letter again.
   */
  lemma TerminalLeftExactlyByFail(lease: int, q: Queue, e: Event, now: int, id: string)
    requires id in q.jobs && Terminal(q.jobs[id].state) && Legal(q, e, now)
    ensures id in Apply(lease, q, e, now).jobs
    ensures Apply(lease, q, e, now).jobs[id].state != q.jobs[id].state <==>
            e.Fail? && e.id == id && !(q.jobs[id].state == DEAD_LETTER && GivesUp(q, id))
  {
  }

  /** A completed job with attempts left is queued again by a late `fail`. */
  lemma CompletedJobResurrected(lease: int)
    requires lease >= 0
    ensures var t := [(Enqueue("j", None, "type", 100, "{}", 3), 0), (LeaseNext(None, Some("j")), 1), (Complete("j"), 2), (Fail("j", "late"), 3)];
            Valid(lease, t) && Is(Run(lease, t[..3]), "j", COMPLETED) && Is(Run(lease, t), "j", QUEUED)
  {
    var t1 := [(Enqueue("j", None, "type", 100, "{}", 3), 0)];
    var t2 := t1 + [(LeaseNext(None, Some("j")), 1)];
    var t3 := t2 + [(Complete("j"), 2)];
    Extend(lease, [], t1[0].0, 0);
    assert [] + t1 == t1;
    Extend(lease, t1, t2[1].0, 1);
    Extend(lease, t2, t3[2].0, 2);
    Extend(lease, t3, Fail("j", "late"), 3);
    assert t3 + [(Fail("j", "late"), 3)] == [t1[0], t2[1], t3[2], (Fail("j", "late"), 3)];
    assert [t1[0], t2[1], t3[2], (Fail("j", "late"), 3)][..3] == t3;
  }

  lemma Extend(lease: int, t: Trace, e: Event, now: int)
    requires Valid(lease, t) && Legal(Run(lease, t), e, now) && (t != [] ==> Last(t).1 <= now)
    ensures Valid(lease, t + [(e, now)]) && Run(lease, t + [(e, now)]) == Apply(lease, Run(lease, t), e, now)
  {
    assert Front(t + [(e, now)]) == t;
  }

  /** A `fail` that moves the job out of the terminal state it is in. */
  ghost predicate Disturbs(q: Queue, e: Event, id: string) {
    e.Fail? && e.id == id && id in q.jobs && Terminal(q.jobs[id].state) && !(q.jobs[id].state == DEAD_LETTER && GivesUp(q, id))
  }

  /** No step of the continuation is such a `fail`. */
  ghost predicate Undisturbed(lease: int, t: Trace, more: Trace, id: string) {
    more == [] || (Undisturbed(lease, t, Front(more), id) && !Disturbs(Run(lease, t + Front(more)), Last(more).0, id))
  }

  /** The job is in state `s` after `t` and after every step of the continuation. */
  ghost predicate StaysIn(lease: int, t: Trace, more: Trace, id: string, s: JobState) {
    Is(Run(lease, t + more), id, s) && (more == [] || StaysIn(lease, t, Front(more), id, s))
  }

  /** A job in a terminal state stays in it throughout a continuation if and only if no `fail` disturbs it. */
  lemma {:induction false} TerminalStaysExactly(lease: int, t: Trace, more: Trace, id: string)
    requires Valid(lease, t + more) && id in Run(lease, t).jobs && Terminal(Run(lease, t).jobs[id].state)
    ensures StaysIn(lease, t, more, id, Run(lease, t).jobs[id].state) <==> Undisturbed(lease, t, more, id)
  {
    if more == [] {
      assert t + more == t;
    } else {
      hide Apply, GivesUp, Legal, Terminal;
      assert Front(t + more) == t + Front(more);
      TerminalStaysExactly(lease, t, Front(more), id);
      var q, s := Run(lease, t + Front(more)), Run(lease, t).jobs[id].state;
      if Is(q, id, s) {
        TerminalLeftExactlyByFail(lease, q, Last(more).0, Last(more).1, id);
      } else {
        NotStaying(lease, t, more, id, s);
      }
    }
  }

  lemma NotStaying(lease: int, t: Trace, more: Trace, id: string, s: JobState)
    requires more != [] && !Is(Run(lease, t + Front(more)), id, s)
    ensures !StaysIn(lease, t, more, id, s) && !StaysIn(lease, t, Front(more), id, s)
  {
  }

  /** The worker never fails a job that is in a terminal state at that moment. */
  ghost predicate FailsNoTerminal(lease: int, t: Trace) {
    t == [] ||
    (FailsNoTerminal(lease, Front(t)) && (Last(t).0.Fail? && Last(t).0.id in Run(lease, Front(t)).jobs ==>
       !Terminal(Run(lease, Front(t)).jobs[Last(t).0.id].state)))
  }

  /** With such a worker, a job keeps its terminal state over every continuation of the trace. */
  lemma {:induction false} TerminalAbsorbs(lease: int, t: Trace, more: Trace, id: string)
    requires Valid(lease, t + more) && FailsNoTerminal(lease, t + more)
    requires id in Run(lease, t).jobs && Terminal(Run(lease, t).jobs[id].state)
    ensures StaysIn(lease, t, more, id, Run(lease, t).jobs[id].state)
  {
    if more == [] {
      assert t + more == t;
    } else {
      hide Apply, GivesUp, Legal, Terminal;
      assert Front(t + more) == t + Front(more);
      TerminalAbsorbs(lease, t, Front(more), id);
      TerminalLeftExactlyByFail(lease, Run(lease, t + Front(more)), Last(more).0, Last(more).1, id);
    }
  }

  // ---------- dead letters ----------

  ghost function RowsOf(rows: seq<DeadLetter>, id: string): nat {
    if rows == [] then 0 else RowsOf(rows[..|rows| - 1], id) + if rows[|rows| - 1].jobId == id then 1 else 0
  }

  function DeadRows(q: Queue, id: string): nat {
    if Is(q, id, DEAD_LETTER) then 1 else 0
  }

  /** Dead-lettered jobs and dead-letter rows are in bijection. */
  ghost predicate RowsMatch(q: Queue) {
    forall id :: RowsOf(q.deadLetters, id) == DeadRows(q, id)
  }

  /** Every dead-letter row carries the type and payload of its job. */
  ghost predicate RowsFaithful(q: Queue) {
    forall r :: r in q.deadLetters ==> r.jobId in q.jobs && r.payload == q.jobs[r.jobId].payload && r.jobType == q.jobs[r.jobId].jobType
  }

  lemma RowsAppend(rows: seq<DeadLetter>, row: DeadLetter, id: string)
    ensures RowsOf(rows + [row], id) == RowsOf(rows, id) + if row.jobId == id then 1 else 0
  {
    assert (rows + [row])[..|rows|] == rows;
  }

  /** What one step does to the rows of one job. */
  lemma RowStep(lease: int, q: Queue, e: Event, now: int, id: string)
    requires Legal(q, e, now)
    ensures var q' := Apply(lease, q, e, now);
            var failed := e.Fail? && e.id == id && id in q.jobs;
            && RowsOf(q'.deadLetters, id) == RowsOf(q.deadLetters, id) + (if failed && GivesUp(q, id) then 1 else 0)
            && DeadRows(q', id) == if failed then (if GivesUp(q, id) then 1 else 0) else DeadRows(q, id)
  {
    hide GivesUp, Failures, KeyTaken, NotAfter, RowsOf;
    if e.Fail? {
      if e.id in q.jobs {
        var j := q.jobs[e.id];
        RowsAppend(q.deadLetters, DeadLetter(e.id, j.jobType, j.payload, e.error, now), id);
      }
    } else {
      OtherStep(lease, q, e, now, id);
    }
  }

  lemma OtherStep(lease: int, q: Queue, e: Event, now: int, id: string)
    requires Legal(q, e, now) && !e.Fail?
    ensures Apply(lease, q, e, now).deadLetters == q.deadLetters && DeadRows(Apply(lease, q, e, now), id) == DeadRows(q, id)
  {
    hide GivesUp, Failures, KeyTaken, NotAfter;
  }

  /** A `fail` on a dead-lettered job leaves one row too many, and nothing else changes the excess. */
  lemma ExcessStays(lease: int, q: Queue, e: Event, now: int, id: string)
    requires Legal(q, e, now)
    ensures var q' := Apply(lease, q, e, now);
            var added := if e.Fail? && e.id == id && Is(q, id, DEAD_LETTER) then 1 else 0;
            RowsOf(q'.deadLetters, id) - DeadRows(q', id) == RowsOf(q.deadLetters, id) - DeadRows(q, id) + added
  {
    hide Apply, Legal, GivesUp, RowsOf;
    RowStep(lease, q, e, now, id);
  }

  lemma {:induction false} EveryDeadLetterHasRow(lease: int, t: Trace, id: string)
    requires Valid(lease, t)
    ensures RowsOf(Run(lease, t).deadLetters, id) >= DeadRows(Run(lease, t), id)
  {
    if t != [] {
      EveryDeadLetterHasRow(lease, Front(t), id);
      ExcessStays(lease, Run(lease, Front(t)), Last(t).0, Last(t).1, id);
    }
  }

  /** No `fail` meets a job that is already dead-lettered. */
  ghost predicate NeverFailsDeadLetter(lease: int, t: Trace) {
    t == [] ||
    (NeverFailsDeadLetter(lease, Front(t)) && (Last(t).0.Fail? ==> !Is(Run(lease, Front(t)), Last(t).0.id, DEAD_LETTER)))
  }

  lemma DeadLetterPayloads(lease: int, q: Queue, e: Event, now: int)
    requires RowsFaithful(q) && Legal(q, e, now)
    ensures RowsFaithful(Apply(lease, q, e, now))
  {
    hide GivesUp, Failures, EnqueueResult, IsNext;
    ApplyKeys(lease, q, e, now);
  }

  /**
   * Every row carries the payload of its job, and the rows match the dead-lettered jobs one to one if
   * and only if no `fail` ever met a job that was dead-lettered already.
   */
  lemma {:induction false} DeadLettersBijective(lease: int, t: Trace)
    requires Valid(lease, t)
    ensures RowsFaithful(Run(lease, t))
    ensures RowsMatch(Run(lease, t)) <==> NeverFailsDeadLetter(lease, t)
  {
    if t != [] {
      hide Apply, Legal, RowsOf, DeadRows, RowsFaithful;
      var q, e, now := Run(lease, Front(t)), Last(t).0, Last(t).1;
      DeadLettersBijective(lease, Front(t));
      DeadLetterPayloads(lease, q, e, now);
      forall id
        ensures RowsOf(q.deadLetters, id) >= DeadRows(q, id)
      {
        EveryDeadLetterHasRow(lease, Front(t), id);
      }
      MatchStep(lease, q, e, now);
    }
  }

  /** A job that is failed again after it was dead-lettered has two rows. */
  lemma DeadLetterTwice(lease: int)
    requires lease >= 0
    ensures var t := [(Enqueue("j", None, "type", 100, "{}", 1), 0), (LeaseNext(None, Some("j")), 1), (Fail("j", "x"), 2), (Fail("j", "x"), 3)];
            && Valid(lease, t) && !NeverFailsDeadLetter(lease, t)
            && Is(Run(lease, t), "j", DEAD_LETTER) && RowsOf(Run(lease, t).deadLetters, "j") == 2 && !RowsMatch(Run(lease, t))
  {
    hide RowsMatch, RowsOf, NeverFailsDeadLetter;
    var e, l, f := Enqueue("j", None, "type", 100, "{}", 1), LeaseNext(None, Some("j")), Fail("j", "x");
    var t1: Trace := [(e, 0)];
    var t2, t3, t4 := t1 + [(l, 1)], t1 + [(l, 1)] + [(f, 2)], t1 + [(l, 1)] + [(f, 2)] + [(f, 3)];
    Extend(lease, [], e, 0);
    assert [] + t1 == t1;
    Extend(lease, t1, l, 1);
    Extend(lease, t2, f, 2);
    Extend(lease, t3, f, 3);
    assert Is(Run(lease, t3), "j", DEAD_LETTER);
    RowStep(lease, Run(lease, t2), f, 2, "j");
    RowStep(lease, Run(lease, t3), f, 3, "j");
    NoRows("j");
    assert t4 == [(e, 0), (l, 1), (f, 2), (f, 3)];
    MatchNeedsOne(Run(lease, t4), "j");
    DeadLettersBijective(lease, t4);
  }

  lemma NoRows(id: string)
    ensures RowsOf([], id) == 0
  {
  }

  lemma MatchNeedsOne(q: Queue, id: string)
    requires RowsOf(q.deadLetters, id) > 1
    ensures !RowsMatch(q)
  {
  }

  lemma MatchStep(lease: int, q: Queue, e: Event, now: int)
    requires Legal(q, e, now) && forall id :: RowsOf(q.deadLetters, id) >= DeadRows(q, id)
    ensures RowsMatch(Apply(lease, q, e, now)) <==> RowsMatch(q) && (e.Fail? ==> !Is(q, e.id, DEAD_LETTER))
  {
    hide Apply, Legal, RowsOf, DeadRows;
    forall id
      ensures RowsOf(q.deadLetters, id) >= DeadRows(q, id)
      ensures var q' := Apply(lease, q, e, now);
              RowsOf(q'.deadLetters, id) == DeadRows(q', id) <==>
              RowsOf(q.deadLetters, id) == DeadRows(q, id) && !(e.Fail? && e.id == id && Is(q, id, DEAD_LETTER))
    {
      ExcessStays(lease, q, e, now, id);
    }
  }

  // ---------- counts ----------

  ghost function InState(q: Queue, s: JobState): set<string> {
    set id | id in q.jobs && q.jobs[id].state == s
  }

  ghost function AcceptedEnqueues(lease: int, t: Trace): nat {
    if t == [] then 0
    else
      AcceptedEnqueues(lease, Front(t)) +
      if Last(t).0.Enqueue? && EnqueueResult(Run(lease, Front(t)), Last(t).0.id, Last(t).0.key) == Accepted then 1 else 0
  }

  lemma ApplyKeys(lease: int, q: Queue, e: Event, now: int)
    requires Legal(q, e, now)
    ensures var added := e.Enqueue? && EnqueueResult(q, e.id, e.key) == Accepted;
            Apply(lease, q, e, now).jobs.Keys == q.jobs.Keys + (if added then {e.id} else {}) && (added ==> e.id !in q.jobs)
  {
  }

  lemma {:induction false} JobsAreAcceptedEnqueues(lease: int, t: Trace)
    requires Valid(lease, t)
    ensures |Run(lease, t).jobs.Keys| == AcceptedEnqueues(lease, t)
  {
    if t != [] {
      JobsAreAcceptedEnqueues(lease, Front(t));
      ApplyKeys(lease, Run(lease, Front(t)), Last(t).0, Last(t).1);
    }
  }

  /** The counts per state sum to the accepted enqueues: no job is ever lost or duplicated. */
  lemma StateCountsSum(lease: int, t: Trace)
    requires Valid(lease, t)
    ensures var q := Run(lease, t);
            |InState(q, QUEUED)| + |InState(q, LEASED)| + |InState(q, COMPLETED)| + |InState(q, DEAD_LETTER)| + |InState(q, CANCELLED)|
            == AcceptedEnqueues(lease, t)
  {
    JobsAreAcceptedEnqueues(lease, t);
    Partition(Run(lease, t));
  }

  lemma Partition(q: Queue)
    ensures |InState(q, QUEUED)| + |InState(q, LEASED)| + |InState(q, COMPLETED)| + |InState(q, DEAD_LETTER)| + |InState(q, CANCELLED)|
         == |q.jobs.Keys|
  {
    hide InState;
    var a, b, c, d, e := InState(q, QUEUED), InState(q, LEASED), InState(q, COMPLETED), InState(q, DEAD_LETTER), InState(q, CANCELLED);
    StatesCover(q);
    forall s, t: JobState | s != t
      ensures InState(q, s) !! InState(q, t)
    {
      StatesDisjoint(q, s, t);
    }
    FiveParts(a, b, c, d, e);
  }

  lemma StatesDisjoint(q: Queue, s: JobState, t: JobState)
    requires s != t
    ensures InState(q, s) !! InState(q, t)
  {
  }

  lemma StatesCover(q: Queue)
    ensures q.jobs.Keys == InState(q, QUEUED) + InState(q, LEASED) + InState(q, COMPLETED) + InState(q, DEAD_LETTER) + InState(q, CANCELLED)
  {
  }

  lemma FiveParts<T>(a: set<T>, b: set<T>, c: set<T>, d: set<T>, e: set<T>)
    requires a !! b !! c !! d !! e
    ensures |a + b + c + d + e| == |a| + |b| + |c| + |d| + |e|
  {
    assert |a + b + c + d| == |a| + |b| + |c| + |d|;
  }

  // ---------- draining ----------

  ghost predicate NoneLapsed(q: Queue, now: int) {
    forall id :: id in q.jobs ==> !Lapsed(q.jobs[id], now)
  }

  /** The trace continues by leases under one filter, during which no lease expires. */
  ghost predicate Drain(lease: int, t: Trace, more: Trace, filter: Option<string>) {
    more == [] ||
    (Drain(lease, t, Front(more), filter) && Last(more).0.LeaseNext? && Last(more).0.filter == filter
     && NoneLapsed(Run(lease, t + Front(more)), Last(more).1))
  }

  lemma LeaseShrinks(lease: int, q: Queue, e: Event, now: int, id: string)
    requires e.LeaseNext? && NoneLapsed(q, now) && Is(Apply(lease, q, e, now), id, QUEUED)
    ensures Is(q, id, QUEUED) && q.jobs[id] == Apply(lease, q, e, now).jobs[id]
  {
  }

  /** A drain only removes jobs from the waiting ones. */
  lemma {:induction false} DrainShrinks(lease: int, t: Trace, more: Trace, filter: Option<string>, id: string)
    requires Valid(lease, t + more) && Drain(lease, t, more, filter) && Is(Run(lease, t + more), id, QUEUED)
    ensures Is(Run(lease, t), id, QUEUED) && Run(lease, t).jobs[id] == Run(lease, t + more).jobs[id]
  {
    if more == [] {
      assert t + more == t;
    } else {
      hide Apply, Legal, NoneLapsed;
      assert Front(t + more) == t + Front(more);
      LeaseShrinks(lease, Run(lease, t + Front(more)), Last(more).0, Last(more).1, id);
      DrainShrinks(lease, t, Front(more), filter, id);
    }
  }

  /** A drain hands out jobs in the order of (priority, created_at). */
  lemma DrainIsSorted(lease: int, t: Trace, more: Trace, filter: Option<string>, a: string, b: string, n1: int, n2: int)
    requires var first := t + [(LeaseNext(filter, Some(a)), n1)];
             Valid(lease, first + more + [(LeaseNext(filter, Some(b)), n2)])
             && Drain(lease, t, [(LeaseNext(filter, Some(a)), n1)] + more + [(LeaseNext(filter, Some(b)), n2)], filter)
    ensures a in Run(lease, t).jobs && b in Run(lease, t).jobs && NotAfter(Run(lease, t).jobs[a], Run(lease, t).jobs[b])
  {
    var one, two := (LeaseNext(filter, Some(a)), n1), (LeaseNext(filter, Some(b)), n2);
    var middle := [one] + more;
    assert Front(middle + [two]) == middle && t + middle == t + [one] + more;
    assert Front(t + [one] + more + [two]) == t + middle;
    ValidPrefix(lease, t + [one], more);
    assert Front(t + [one]) == t;
    DrainFirst(lease, t, one, more, filter);
    hide Apply, Legal, NoneLapsed, NotAfter, Eligible;
    LeasedIsFirst(Run(lease, t), filter, a, n1);
    LeasedIsFirst(Run(lease, t + middle), filter, b, n2);
    DrainShrinks(lease, t, middle, filter, b);
  }

  lemma LeasedIsFirst(q: Queue, filter: Option<string>, g: string, now: int)
    requires NoneLapsed(q, now) && Legal(q, LeaseNext(filter, Some(g)), now)
    ensures Is(q, g, QUEUED) && Eligible(q.jobs[g], filter)
    ensures forall id :: id in q.jobs && Eligible(q.jobs[id], filter) ==> NotAfter(q.jobs[g], q.jobs[id])
  {
    assert ExpireLeases(q.jobs, now) == q.jobs;
  }

  lemma {:induction false} ValidPrefix(lease: int, t: Trace, more: Trace)
    requires Valid(lease, t + more)
    ensures Valid(lease, t)
  {
    if more == [] {
      assert t + more == t;
    } else {
      assert Front(t + more) == t + Front(more);
      ValidPrefix(lease, t, Front(more));
    }
  }

  lemma {:induction false} DrainFirst(lease: int, t: Trace, one: (Event, int), more: Trace, filter: Option<string>)
    requires Drain(lease, t, [one] + more, filter)
    ensures NoneLapsed(Run(lease, t), one.1)
  {
    if more == [] {
      assert [one] + more == [one] && Front([one]) == [] && t + [] == t;
    } else {
      assert Front([one] + more) == [one] + Front(more);
      DrainFirst(lease, t, one, Front(more), filter);
    }
  }
}
