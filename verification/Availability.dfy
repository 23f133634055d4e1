/**
  When a job can be claimed (jobs/store.py:232-246): what each transaction means
  for the claims that come after it, in terms of the row alone.
 */
module Availability {
  import opened Common
  import opened Jobs

  /** No claim at time `t` can take the job. */
  ghost predicate Protected(db: Db, job: JobId, t: real) {
    !ClaimAnswer(db.jobs, Some(job), t)
  }

  /** The job is one that a claim at time `t` chooses from. */
  predicate Waits(db: Db, job: JobId, t: real) {
    job in db.jobs && Runnable(db.jobs[job], t)
  }

  /** Only this row may differ. */
  predicate OnlyRow(db: Db, db': Db, job: JobId) {
    && job in db.jobs && db'.jobs.Keys == db.jobs.Keys
    && forall j :: j in db.jobs && j != job ==> db'.jobs[j] == db.jobs[j]
  }

  /** What a job is, as opposed to how far it has come. */
  predicate SameJob(r: Row, r': Row) {
    r'.key == r.key && r'.kind == r.kind && r'.maxAttempts == r.maxAttempts
  }

  /** A submitted job waits from its submission on; a repeated key changes nothing. */
  lemma SubmittedWaits(db: Db, id: JobId, key: string, kind: string, maxAttempts: int, now: real, t: real)
    requires id !in db.jobs
    ensures var db' := Apply(db, OpSubmit(id, key, kind, maxAttempts, now));
      if exists j :: j in db.jobs && db.jobs[j].key == key then db' == db
      else
        && id in db'.jobs && db'.jobs[id].key == key && db'.jobs[id].kind == kind && db'.jobs[id].maxAttempts == maxAttempts
        && db'.jobs[id].attempts == 0
        && (Waits(db', id, t) <==> now <= t)
        && (forall j :: j in db.jobs ==> j in db'.jobs && db'.jobs[j] == db.jobs[j])
  {
  }

  /**
    A claim takes a job that has waited longest, counts the attempt, and protects
    the job from every other claim until the lease expires, and no longer.
   */
  lemma ClaimProtects(db: Db, worker: WorkerId, p: JobId, now: real, until: real, t: real)
    requires ClaimAnswer(db.jobs, Some(p), now)
    ensures forall j :: Waits(db, j, now) ==> db.jobs[p].availableAt <= db.jobs[j].availableAt
    ensures Waits(db, p, now)
    ensures var db' := Apply(db, OpClaim(worker, Some(p), now, until));
      && OnlyRow(db, db', p) && SameJob(db.jobs[p], db'.jobs[p])
      && db'.jobs[p].attempts == db.jobs[p].attempts + 1
      && db'.jobs[p].worker == Some(worker) && db'.jobs[p].status == Processing
      && (t <= until ==> Protected(db', p, t))
      && (Waits(db', p, t) <==> until < t)
  {
  }

  /** A heartbeat of the holder prolongs the protection up to the new lease; any other heartbeat changes nothing. */
  lemma HeartbeatProtects(db: Db, job: JobId, worker: WorkerId, until: real, t: real)
    ensures var db' := Apply(db, OpHeartbeat(job, worker, until));
      if job in db.jobs && db.jobs[job].worker == Some(worker) && db.jobs[job].status == Processing then
        && OnlyRow(db, db', job) && db'.jobs[job] == db.jobs[job].(lease := Some(until))
        && db'.events == db.events && db'.ledger == db.ledger
        && (t <= until ==> Protected(db', job, t))
        && (Waits(db', job, t) <==> until < t)
      else db' == db
  {
  }

  /** A completed job is never claimed again, and keeps its result. */
  lemma CompletedForGood(db: Db, job: JobId, worker: WorkerId, now: real, result: string, t: real)
    requires job in db.jobs && db.jobs[job].worker == Some(worker) && db.jobs[job].status == Processing
    ensures var db' := Apply(db, OpComplete(job, worker, now, result));
      && OnlyRow(db, db', job) && SameJob(db.jobs[job], db'.jobs[job])
      && db'.jobs[job].status == Completed && db'.jobs[job].result == Some(result)
      && db'.jobs[job].completedAt == Some(now) && db'.jobs[job].error.None?
      && db'.jobs[job].attempts == db.jobs[job].attempts
      && Protected(db', job, t)
  {
  }

  /**
    A failed job with attempts left waits again exactly from the end of its
    backoff on; one without is never claimed unless it is requeued.
   */
  lemma FailedWaits(db: Db, job: JobId, worker: WorkerId, now: real, delay: real, error: string, t: real)
    requires job in db.jobs && db.jobs[job].worker == Some(worker) && db.jobs[job].status == Processing
    ensures var r, db' := db.jobs[job], Apply(db, OpFail(job, worker, now, delay, error));
      && OnlyRow(db, db', job) && SameJob(r, db'.jobs[job]) && db'.jobs[job].attempts == r.attempts
      && db'.jobs[job].error == Some(if |error| <= 4000 then error else error[..4000])
      && (r.attempts < r.maxAttempts ==> db'.jobs[job].status == Retrying && (Waits(db', job, t) <==> now + delay <= t))
      && (r.attempts >= r.maxAttempts ==> db'.jobs[job].status == Dlq && Protected(db', job, t))
  {
  }

  /** A requeued job starts over: no attempts, no error, waiting from the requeue on. */
  lemma RequeuedWaits(db: Db, job: JobId, now: real, t: real)
    requires job in db.jobs && db.jobs[job].status == Dlq
    ensures var db' := Apply(db, OpRequeue(job, now));
      && OnlyRow(db, db', job) && SameJob(db.jobs[job], db'.jobs[job])
      && db'.jobs[job].attempts == 0 && db'.jobs[job].error.None?
      && (Waits(db', job, t) <==> now <= t)
  {
  }

  // ----- Over runs -----

  /** The lease of a job in progress lasts at least until `t`, and it is not given up. */
  ghost predicate HeldUntil(db: Db, job: JobId, worker: WorkerId, t: real) {
    && job in db.jobs && db.jobs[job].status == Processing && db.jobs[job].worker == Some(worker)
    && db.jobs[job].lease.Some? && db.jobs[job].lease.value >= t
  }

  /** What others do, up to time `t`: their claims come before it, and they settle nothing in this worker's name. */
  predicate ByOthers(op: StoreOp, job: JobId, worker: WorkerId, t: real) {
    match op
    case OpClaim(_, _, now, _) => now <= t
    case OpHeartbeat(j, w, until) => j == job && w == worker ==> until >= t
    case OpComplete(j, w, _, _) => j != job || w != worker
    case OpFail(j, w, _, _, _) => j != job || w != worker
    case _ => true
  }

  lemma StaysHeld(db: Db, op: StoreOp, job: JobId, worker: WorkerId, t: real)
    requires HeldUntil(db, job, worker, t) && Enabled(db, op) && ByOthers(op, job, worker, t)
    ensures HeldUntil(Apply(db, op), job, worker, t)
  {
  }

  /**
    A worker that keeps its lease ahead of the clock keeps its job: whatever the
    others do up to time `t`, it still holds the job then.
   */
  lemma {:induction false} LeaseKeepsJob(db: Db, ops: seq<StoreOp>, job: JobId, worker: WorkerId, t: real)
    requires HeldUntil(db, job, worker, t) && CanRun(db, ops)
    requires forall i :: 0 <= i < |ops| ==> ByOthers(ops[i], job, worker, t)
    ensures HeldUntil(Run(db, ops), job, worker, t)
    decreases |ops|
  {
    if ops != [] {
      StaysHeld(db, ops[0], job, worker, t);
      LeaseKeepsJob(Apply(db, ops[0]), ops[1..], job, worker, t);
    }
  }
}
