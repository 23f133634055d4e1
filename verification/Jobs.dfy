/**
  The durable job store (jobs/store.py): three tables, and one atomic step for
  each transaction that the store runs.

  `Db` is the contents of the tables. `Apply` gives the effect of every
  transaction on them; the class `JobStore` performs the transactions in place
  and is proved to do exactly that. Time is a real number handed in by the
  caller, because the store reads the wall clock, which need not be monotone.
 */
module Jobs {
  import opened Common

  type JobId = string
  type WorkerId = nat

  datatype Status = Submitted | Queued | Processing | Completed | Failed | Retrying | Dlq

  /** A row of the table `jobs`. */
  datatype Row = Row(
    key: string,
    kind: string,
    maxAttempts: int,
    status: Status,
    attempts: nat,
    availableAt: real,
    lease: Option<real>,
    worker: Option<WorkerId>,
    completedAt: Option<real>,
    error: Option<string>,
    result: Option<string>)

  /** A row of the append-only table `job_events`; its id is its position. */
  datatype Event = Event(job: JobId, from: Option<Status>, to: Status, worker: Option<WorkerId>)

  /** The whole database: jobs, events, and the side-effect ledger. */
  datatype Db = Db(jobs: map<JobId, Row>, events: seq<Event>, ledger: map<string, JobId>)

  // ----- Retry policy -----

  function Pow(base: real, n: nat): real {
    if n == 0 then 1.0 else base * Pow(base, n - 1)
  }

  datatype RetryPolicy = RetryPolicy(
    maxAttempts: int, baseDelay: real, maxDelay: real, multiplier: real, jitter: real)
  {
    /** The backoff before jitter. */
    function RawDelay(attempt: int): real {
      var grown := baseDelay * Pow(multiplier, Max(attempt - 1, 0));
      if grown <= maxDelay then grown else maxDelay
    }

    /** The backoff with the random draw `u` from [-jitter, jitter]. */
    function DelayFor(attempt: int, u: real): real {
      RawDelay(attempt) * (1.0 + u)
    }

    ghost predicate Sane() {
      0.0 <= baseDelay && 0.0 <= maxDelay && 1.0 <= multiplier && 0.0 <= jitter <= 1.0
    }

    /** `max_attempts or policy.max_attempts`: zero counts as absent. */
    function EffectiveMax(requested: Option<int>): int {
      if requested.Some? && requested.value != 0 then requested.value else maxAttempts
    }
  }

  lemma {:induction false} PowGrows(base: real, n: nat)
    requires 1.0 <= base
    ensures 1.0 <= Pow(base, n) <= Pow(base, n + 1)
  {
    if n > 0 {
      PowGrows(base, n - 1);
      assert Pow(base, n) <= base * Pow(base, n);
    }
  }

  lemma GrowsByFactor(x: real, factor: real)
    requires 0.0 <= x && 1.0 <= factor
    ensures x <= factor * x
  {
    ProductNonNegative(x, factor - 1.0);
  }

  /** The first delay is the base delay, each further one the multiplier times the one before it, all cut at the cap. */
  lemma DelaysGrow(p: RetryPolicy, attempt: int)
    requires p.Sane()
    ensures attempt <= 1 ==> p.RawDelay(attempt) == if p.baseDelay <= p.maxDelay then p.baseDelay else p.maxDelay
    ensures attempt >= 1 ==> var grown := p.multiplier * p.RawDelay(attempt);
      p.RawDelay(attempt + 1) == if grown <= p.maxDelay then grown else p.maxDelay
    ensures 0.0 <= p.RawDelay(attempt) <= p.RawDelay(attempt + 1) <= p.maxDelay
  {
    var n := Max(attempt - 1, 0);
    PowGrows(p.multiplier, n);
    var here := p.baseDelay * Pow(p.multiplier, n);
    ProductNonNegative(p.baseDelay, Pow(p.multiplier, n));
    GrowsByFactor(here, p.multiplier);
    GrowsByFactor(p.maxDelay, p.multiplier);
    if attempt >= 1 {
      assert p.baseDelay * Pow(p.multiplier, n + 1) == p.multiplier * here;
    }
  }

  /**
    Exponential backoff between two attempts: the raw delay never shrinks, and
    once at the cap it stays there; jitter moves the actual delay by the drawn
    fraction of the raw one, never below zero.
   */
  lemma BackoffBounds(p: RetryPolicy, attempt: int, u: real)
    requires p.Sane() && -p.jitter <= u <= p.jitter
    ensures 0.0 <= p.RawDelay(attempt) <= p.RawDelay(attempt + 1) <= p.maxDelay
    ensures p.RawDelay(attempt) == p.maxDelay ==> p.RawDelay(attempt + 1) == p.maxDelay
    ensures p.DelayFor(attempt, u) == p.RawDelay(attempt) + u * p.RawDelay(attempt)
    ensures 0.0 <= p.RawDelay(attempt) * (1.0 - p.jitter) <= p.DelayFor(attempt, u)
    ensures p.DelayFor(attempt, u) <= p.RawDelay(attempt) * (1.0 + p.jitter)
  {
    DelaysGrow(p, attempt);
    DelaysGrow(p, attempt + 1);
    JitterBounds(p, attempt, u);
  }

  lemma JitterBounds(p: RetryPolicy, attempt: int, u: real)
    requires 0.0 <= p.RawDelay(attempt) && 0.0 <= p.jitter <= 1.0 && -p.jitter <= u <= p.jitter
    ensures p.DelayFor(attempt, u) == p.RawDelay(attempt) + u * p.RawDelay(attempt)
    ensures 0.0 <= p.RawDelay(attempt) * (1.0 - p.jitter) <= p.DelayFor(attempt, u)
    ensures p.DelayFor(attempt, u) <= p.RawDelay(attempt) * (1.0 + p.jitter)
  {
    Jitter(p.RawDelay(attempt), p.jitter, u);
  }

  lemma Jitter(raw: real, jitter: real, u: real)
    requires 0.0 <= raw && 0.0 <= jitter <= 1.0 && -jitter <= u <= jitter
    ensures raw * (1.0 + u) == raw + u * raw
    ensures 0.0 <= raw * (1.0 - jitter) <= raw * (1.0 + u) <= raw * (1.0 + jitter)
  {
    ProductNonNegative(raw, jitter - u);
    ProductNonNegative(raw, jitter + u);
    ProductNonNegative(raw, 1.0 - jitter);
  }

  lemma ProductNonNegative(x: real, y: real)
    requires 0.0 <= x && 0.0 <= y
    ensures 0.0 <= x * y
  {
  }

  // ----- Transactions -----

  /** One committed transaction, with the answers the environment gave it. */
  datatype StoreOp =
    | OpSubmit(id: JobId, key: string, kind: string, maxAttempts: int, now: real)
    | OpClaim(worker: WorkerId, pick: Option<JobId>, now: real, until: real)
    | OpHeartbeat(job: JobId, worker: WorkerId, until: real)
    | OpComplete(job: JobId, worker: WorkerId, now: real, result: string)
    | OpFail(job: JobId, worker: WorkerId, now: real, delay: real, error: string)
    | OpLedger(effectKey: string, job: JobId)
    | OpRequeue(job: JobId, now: real)

  predicate HasKey(jobs: map<JobId, Row>, key: string) {
    exists j :: j in jobs && jobs[j].key == key
  }

  /** Whether a claim at time `now` may take this row. */
  predicate Runnable(r: Row, now: real) {
    || ((r.status == Queued || r.status == Retrying) && r.availableAt <= now)
    || (r.status == Processing && r.lease.Some? && r.lease.value < now)
  }

  /** `pick` is an answer of the claim query: a runnable row that became available first, if any. */
  ghost predicate ClaimAnswer(jobs: map<JobId, Row>, pick: Option<JobId>, now: real) {
    match pick
    case None => forall j :: j in jobs ==> !Runnable(jobs[j], now)
    case Some(p) =>
      && p in jobs && Runnable(jobs[p], now)
      && forall j :: j in jobs && Runnable(jobs[j], now) ==> jobs[p].availableAt <= jobs[j].availableAt
  }

  /** The fence of `complete`, `fail` and `heartbeat`. */
  predicate Holds(jobs: map<JobId, Row>, job: JobId, worker: WorkerId) {
    job in jobs && jobs[job].worker == Some(worker) && jobs[job].status == Processing
  }

  ghost predicate Enabled(db: Db, op: StoreOp) {
    match op
    case OpSubmit(id, _, _, _, _) => id !in db.jobs
    case OpClaim(_, pick, now, _) => ClaimAnswer(db.jobs, pick, now)
    case _ => true
  }

  function Truncate(s: string, n: nat): string {
    if |s| <= n then s else s[..n]
  }

  function SubmittedRow(key: string, kind: string, maxAttempts: int, now: real): Row {
    Row(key, kind, maxAttempts, Queued, 0, now, None, None, None, None, None)
  }

  function Apply(db: Db, op: StoreOp): Db {
    match op
    case OpSubmit(id, key, kind, maxAttempts, now) =>
      if HasKey(db.jobs, key) then db
      else db.(
        jobs := db.jobs[id := SubmittedRow(key, kind, maxAttempts, now)],
        events := db.events + [Event(id, None, Submitted, None), Event(id, Some(Submitted), Queued, None)])
    case OpClaim(worker, pick, now, until) =>
      if pick.None? || pick.value !in db.jobs then db
      else
        var r := db.jobs[pick.value];
        db.(
          jobs := db.jobs[pick.value := r.(
            status := Processing, attempts := r.attempts + 1, worker := Some(worker), lease := Some(until))],
          events := db.events + [Event(pick.value, Some(r.status), Processing, Some(worker))])
    case OpHeartbeat(job, worker, until) =>
      if !Holds(db.jobs, job, worker) then db
      else db.(jobs := db.jobs[job := db.jobs[job].(lease := Some(until))])
    case OpComplete(job, worker, now, result) =>
      if !Holds(db.jobs, job, worker) then db
      else db.(
        jobs := db.jobs[job := db.jobs[job].(
          status := Completed, completedAt := Some(now), lease := None, error := None, result := Some(result))],
        events := db.events + [Event(job, Some(Processing), Completed, Some(worker))])
    case OpFail(job, worker, now, delay, error) =>
      if !Holds(db.jobs, job, worker) then db
      else
        var r := db.jobs[job].(lease := None, error := Some(Truncate(error, 4000)));
        var next := if r.attempts >= r.maxAttempts then Dlq else Retrying;
        db.(
          jobs := db.jobs[job :=
            if next == Dlq then r.(status := Dlq) else r.(status := Retrying, availableAt := now + delay)],
          events := db.events + [
            Event(job, Some(Processing), Failed, Some(worker)), Event(job, Some(Failed), next, Some(worker))])
    case OpLedger(effectKey, job) =>
      if effectKey in db.ledger then db else db.(ledger := db.ledger[effectKey := job])
    case OpRequeue(job, now) =>
      var db' := db.(events := db.events + [Event(job, Some(Dlq), Queued, None)]);
      if job in db.jobs && db.jobs[job].status == Dlq
      then db'.(jobs := db.jobs[job := db.jobs[job].(status := Queued, attempts := 0, availableAt := now, error := None)])
      else db'
  }

  /** A run of enabled transactions, whoever issues them. */
  ghost predicate CanRun(db: Db, ops: seq<StoreOp>)
    decreases |ops|
  {
    ops == [] || (Enabled(db, ops[0]) && CanRun(Apply(db, ops[0]), ops[1..]))
  }

  function Run(db: Db, ops: seq<StoreOp>): Db
    decreases |ops|
  {
    if ops == [] then db else Run(Apply(db, ops[0]), ops[1..])
  }

  // ----- The store -----

  predicate Earliest(jobs: map<JobId, Row>, p: JobId, runnable: set<JobId>)
    requires runnable <= jobs.Keys && p in runnable
  {
    forall j :: j in runnable ==> jobs[p].availableAt <= jobs[j].availableAt
  }

  lemma {:induction false} EarliestExists(jobs: map<JobId, Row>, runnable: set<JobId>) returns (p: JobId)
    requires runnable != {} && runnable <= jobs.Keys
    ensures p in runnable && Earliest(jobs, p, runnable)
    decreases |runnable|
  {
    var a :| a in runnable;
    var rest := runnable - {a};
    assert forall j :: j in runnable ==> j == a || j in rest;
    if rest == {} {
      return a;
    }
    var q := EarliestExists(jobs, rest);
    p := if jobs[q].availableAt <= jobs[a].availableAt then q else a;
  }

  lemma EarliestIsAnswer(jobs: map<JobId, Row>, p: JobId, runnable: set<JobId>, now: real)
    requires runnable == set j | j in jobs && Runnable(jobs[j], now)
    requires p in runnable && Earliest(jobs, p, runnable)
    ensures ClaimAnswer(jobs, Some(p), now)
  {
  }

  class JobStore {
    var jobs: map<JobId, Row>
    var events: seq<Event>
    var ledger: map<string, JobId>
    const policy: RetryPolicy
    const leaseSeconds: real

    ghost function Contents(): Db reads this {
      Db(jobs, events, ledger)
    }

    /** Opens the database file: its tables are created only if they are missing, so what it holds stays. */
    constructor (file: Db, policy: RetryPolicy, leaseSeconds: real)
      ensures Contents() == file && this.policy == policy && this.leaseSeconds == leaseSeconds
    {
      jobs, events, ledger := file.jobs, file.events, file.ledger;
      this.policy, this.leaseSeconds := policy, leaseSeconds;
    }

    /** `newId` is the new uuid. Returns the id of the job that owns the key. */
    method Submit(newId: JobId, key: string, kind: string, requested: Option<int>, now: real)
      returns (id: JobId, created: bool)
      requires newId !in jobs
      modifies this`jobs, this`events
      ensures Contents() == Apply(old(Contents()), OpSubmit(newId, key, kind, policy.EffectiveMax(requested), now))
      ensures created <==> !HasKey(old(jobs), key)
      ensures created ==> id == newId
      ensures id in jobs && jobs[id].key == key
      ensures !created ==> jobs == old(jobs) && events == old(events)
      ensures created ==>
        && jobs.Keys == old(jobs).Keys + {id} && (forall j :: j in old(jobs) ==> jobs[j] == old(jobs)[j])
        && var r := jobs[id];
           && r.kind == kind
           && r.maxAttempts == (if requested == None || requested == Some(0) then policy.maxAttempts else requested.value)
           && r.status == Queued && r.attempts == 0 && r.availableAt == now
           && r.lease.None? && r.worker.None? && r.completedAt.None? && r.error.None? && r.result.None?
    {
      if exists j :: j in jobs && jobs[j].key == key {
        id :| id in jobs && jobs[id].key == key;
        created := false;
      } else {
        id, created := newId, true;
        jobs := jobs[id := SubmittedRow(key, kind, policy.EffectiveMax(requested), now)];
        events := events + [Event(id, None, Submitted, None)];
        events := events + [Event(id, Some(Submitted), Queued, None)];
      }
    }

    method Claim(worker: WorkerId, now: real) returns (pick: Option<JobId>)
      modifies this`jobs, this`events
      ensures ClaimAnswer(old(jobs), pick, now)
      ensures Contents() == Apply(old(Contents()), OpClaim(worker, pick, now, now + leaseSeconds))
      ensures pick.None? ==> jobs == old(jobs) && events == old(events)
      ensures pick.Some? ==>
        var r := old(jobs)[pick.value];
        && jobs == old(jobs)[pick.value := r.(status := Processing, attempts := r.attempts + 1,
                                              worker := Some(worker), lease := Some(now + leaseSeconds))]
        && events == old(events) + [Event(pick.value, Some(r.status), Processing, Some(worker))]
    {
      var runnable := set j | j in jobs && Runnable(jobs[j], now);
      if runnable == {} {
        assert forall j :: j in jobs && Runnable(jobs[j], now) ==> j in runnable;
        return None;
      }
      ghost var earliest := EarliestExists(jobs, runnable);
      var p :| p in runnable && Earliest(jobs, p, runnable);
      EarliestIsAnswer(jobs, p, runnable, now);
      var r := jobs[p];
      jobs := jobs[p := r.(
        status := Processing, attempts := r.attempts + 1, worker := Some(worker), lease := Some(now + leaseSeconds))];
      events := events + [Event(p, Some(r.status), Processing, Some(worker))];
      pick := Some(p);
    }

    method Heartbeat(job: JobId, worker: WorkerId, now: real)
      modifies this`jobs
      ensures Contents() == Apply(old(Contents()), OpHeartbeat(job, worker, now + leaseSeconds))
      ensures jobs == if Holds(old(jobs), job, worker)
        then old(jobs)[job := old(jobs)[job].(lease := Some(now + leaseSeconds))] else old(jobs)
      ensures Holds(old(jobs), job, worker) ==>
        forall t: real :: t <= now + leaseSeconds ==> !ClaimAnswer(jobs, Some(job), t)
    {
      if job in jobs && jobs[job].worker == Some(worker) && jobs[job].status == Processing {
        jobs := jobs[job := jobs[job].(lease := Some(now + leaseSeconds))];
      }
    }

    method Complete(job: JobId, worker: WorkerId, now: real, result: string)
      modifies this`jobs, this`events
      ensures Contents() == Apply(old(Contents()), OpComplete(job, worker, now, result))
      ensures !Holds(old(jobs), job, worker) ==> jobs == old(jobs) && events == old(events)
      ensures Holds(old(jobs), job, worker) ==>
        && jobs == old(jobs)[job := old(jobs)[job].(status := Completed, completedAt := Some(now), lease := None,
                                                    error := None, result := Some(result))]
        && events == old(events) + [Event(job, Some(Processing), Completed, Some(worker))]
    {
      if job in jobs && jobs[job].worker == Some(worker) && jobs[job].status == Processing {
        jobs := jobs[job := jobs[job].(
          status := Completed, completedAt := Some(now), lease := None, error := None, result := Some(result))];
        events := events + [Event(job, Some(Processing), Completed, Some(worker))];
      }
    }

    /** `u` is the jitter draw. The answer is the status the caller logs; `Failed` means the fence refused. */
    method Fail(job: JobId, worker: WorkerId, now: real, u: real, error: string) returns (next: Status)
      modifies this`jobs, this`events
      ensures Contents() == Apply(old(Contents()), OpFail(job, worker, now,
        if job in old(jobs) then policy.DelayFor(old(jobs)[job].attempts, u) else 0.0, error))
      ensures next == if Holds(old(jobs), job, worker) then jobs[job].status else Failed
      ensures next == Failed ==> jobs == old(jobs) && events == old(events)
      ensures Holds(old(jobs), job, worker) ==>
        var r := old(jobs)[job];
        && next == (if r.attempts >= r.maxAttempts then Dlq else Retrying)
        && jobs == old(jobs)[job := r.(status := next, lease := None, error := Some(Truncate(error, 4000)),
             availableAt := if next == Dlq then r.availableAt else now + policy.DelayFor(r.attempts, u))]
        && events == old(events) + [Event(job, Some(Processing), Failed, Some(worker)), Event(job, Some(Failed), next, Some(worker))]
    {
      if !(job in jobs && jobs[job].worker == Some(worker) && jobs[job].status == Processing) {
        return Failed;
      }
      var r := jobs[job].(lease := None, error := Some(Truncate(error, 4000)));
      events := events + [Event(job, Some(Processing), Failed, Some(worker))];
      if r.attempts >= r.maxAttempts {
        next := Dlq;
        jobs := jobs[job := r.(status := Dlq)];
      } else {
        next := Retrying;
        jobs := jobs[job := r.(status := Retrying, availableAt := now + policy.DelayFor(r.attempts, u))];
      }
      events := events + [Event(job, Some(Failed), next, Some(worker))];
    }

    method SideEffectOnce(effectKey: string, job: JobId) returns (first: bool)
      modifies this`ledger
      ensures first <==> effectKey !in old(ledger)
      ensures ledger == if first then old(ledger)[effectKey := job] else old(ledger)
      ensures Contents() == Apply(old(Contents()), OpLedger(effectKey, job))
    {
      first := effectKey !in ledger;
      if first {
        ledger := ledger[effectKey := job];
      }
    }

    /** The event is written even when no row matched; a missing job is reported after the commit. */
    method RequeueDlq(job: JobId, now: real) returns (row: Option<Row>)
      modifies this`jobs, this`events
      ensures Contents() == Apply(old(Contents()), OpRequeue(job, now))
      ensures row == if job in jobs then Some(jobs[job]) else None
      ensures jobs == if job in old(jobs) && old(jobs)[job].status == Dlq
        then old(jobs)[job := old(jobs)[job].(status := Queued, attempts := 0, availableAt := now, error := None)]
        else old(jobs)
      ensures events == old(events) + [Event(job, Some(Dlq), Queued, None)]
    {
      if job in jobs && jobs[job].status == Dlq {
        jobs := jobs[job := jobs[job].(status := Queued, attempts := 0, availableAt := now, error := None)];
      }
      events := events + [Event(job, Some(Dlq), Queued, None)];
      row := if job in jobs then Some(jobs[job]) else None;
    }
  }
}
