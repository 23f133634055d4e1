/**
  The event log as the history of the job table (jobs/store.py).

  `Replay` folds the events of one job, knowing nothing of the table. The
  invariant `Faithful` says that in every reachable state the fold succeeds for
  every job and gives exactly the status, worker and attempts of its row.
 */
module JobHistory {
  import opened Common
  import opened Jobs

  /** The lifecycle graph. The self-loop on Processing is the reclaim of an expired lease. */
  predicate Edge(from: Status, to: Status) {
    match from
    case Submitted => to == Queued
    case Queued => to == Processing
    case Processing => to == Processing || to == Completed || to == Failed
    case Failed => to == Retrying || to == Dlq
    case Retrying => to == Processing
    case Dlq => to == Queued
    case Completed => false
  }

  /** What the events of a job say about it since it was submitted or last requeued. */
  datatype Track = Track(status: Status, worker: Option<WorkerId>, attempts: nat, failures: nat, reclaims: nat)

  datatype Life = Unborn | Alive(track: Track) | Broken

  /** The worker an event must name: outcomes belong to the worker of the latest claim. */
  predicate WorkerFits(t: Track, e: Event) {
    match e.to
    case Processing => e.worker.Some?
    case Queued => e.worker.None?
    case _ => e.worker == t.worker && e.worker.Some?
  }

  function Advance(l: Life, e: Event): Life {
    match l
    case Unborn =>
      if e.from.None? && e.to == Submitted && e.worker.None? then Alive(Track(Submitted, None, 0, 0, 0)) else Broken
    case Broken => Broken
    case Alive(t) =>
      if e.from != Some(t.status) || !Edge(t.status, e.to) || !WorkerFits(t, e) then Broken
      else match e.to
        case Processing => Alive(Track(Processing, e.worker, t.attempts + 1, t.failures,
                                       t.reclaims + if t.status == Processing then 1 else 0))
        case Failed => Alive(t.(status := Failed, failures := t.failures + 1))
        case Queued => Alive(Track(Queued, t.worker, 0, 0, 0))
        case _ => Alive(t.(status := e.to))
  }

  function Replay(events: seq<Event>, job: JobId): Life {
    if events == [] then Unborn
    else
      var before := Replay(events[..|events| - 1], job);
      var last := events[|events| - 1];
      if last.job == job then Advance(before, last) else before
  }

  lemma ReplayOne(events: seq<Event>, e: Event, job: JobId)
    ensures Replay(events + [e], job) == if e.job == job then Advance(Replay(events, job), e) else Replay(events, job)
  {
    assert (events + [e])[..|events|] == events;
  }

  lemma ReplayTwo(events: seq<Event>, e: Event, f: Event, job: JobId)
    requires e.job == f.job
    ensures Replay(events + [e, f], job) ==
      if e.job == job then Advance(Advance(Replay(events, job), e), f) else Replay(events, job)
  {
    assert events + [e, f] == (events + [e]) + [f];
    ReplayOne(events, e, job);
    ReplayOne(events + [e], f, job);
  }

  // ----- The table is the replay of the log -----

  ghost predicate RowFits(jobs: map<JobId, Row>, job: JobId, l: Life) {
    match l
    case Unborn => job !in jobs
    case Broken => false
    case Alive(t) =>
      && job in jobs
      && jobs[job].status == t.status && jobs[job].worker == t.worker && jobs[job].attempts == t.attempts
      && t.status != Submitted && t.status != Failed
      && (t.status == Processing ==> t.worker.Some? && jobs[job].lease.Some?)
      && WithinLimit(jobs[job].maxAttempts, t)
  }

  /** The attempt limits, in terms of the replayed track. */
  predicate WithinLimit(max: int, t: Track) {
    match t.status
    case Queued => t.attempts == 0
    case Retrying => 0 < t.attempts < max
    case Dlq => t.attempts >= max && t.failures <= Max(1, max)
    case _ => t.failures < Max(1, max)
  }

  ghost predicate Fits(db: Db, job: JobId) {
    RowFits(db.jobs, job, Replay(db.events, job))
  }

  ghost predicate Faithful(db: Db) {
    forall job :: Fits(db, job)
  }

  /** Operators requeue only jobs that are in the dead-letter queue. */
  predicate Disciplined(db: Db, op: StoreOp) {
    op.OpRequeue? ==> op.job in db.jobs && db.jobs[op.job].status == Dlq
  }

  lemma {:induction false} AttemptsAccounted(events: seq<Event>, job: JobId)
    ensures var l := Replay(events, job); l.Alive? ==>
      var t := l.track;
      t.attempts == t.failures + t.reclaims + if t.status == Processing || t.status == Completed then 1 else 0
  {
    if events != [] {
      AttemptsAccounted(events[..|events| - 1], job);
    }
  }

  lemma SubmitFits(db: Db, op: StoreOp, job: JobId)
    requires op.OpSubmit? && Fits(db, job) && Enabled(db, op)
    ensures Fits(Apply(db, op), job)
  {
    ReplayTwo(db.events, Event(op.id, None, Submitted, None), Event(op.id, Some(Submitted), Queued, None), job);
  }

  lemma ClaimFits(db: Db, op: StoreOp, job: JobId)
    requires op.OpClaim? && Fits(db, job) && Enabled(db, op)
    ensures Fits(Apply(db, op), job)
  {
    if op.pick.Some? {
      var p := op.pick.value;
      ReplayOne(db.events, Event(p, Some(db.jobs[p].status), Processing, Some(op.worker)), job);
      AttemptsAccounted(db.events, job);
    }
  }

  lemma CompleteFits(db: Db, op: StoreOp, job: JobId)
    requires op.OpComplete? && Fits(db, job)
    ensures Fits(Apply(db, op), job)
  {
    ReplayOne(db.events, Event(op.job, Some(Processing), Completed, Some(op.worker)), job);
  }

  lemma FailFits(db: Db, op: StoreOp, job: JobId)
    requires op.OpFail? && Fits(db, job)
    ensures Fits(Apply(db, op), job)
  {
    var j, w := op.job, Some(op.worker);
    if Holds(db.jobs, j, op.worker) {
      var next := if db.jobs[j].attempts >= db.jobs[j].maxAttempts then Dlq else Retrying;
      ReplayTwo(db.events, Event(j, Some(Processing), Failed, w), Event(j, Some(Failed), next, w), job);
      AttemptsAccounted(db.events, job);
    }
  }

  lemma RequeueFits(db: Db, op: StoreOp, job: JobId)
    requires op.OpRequeue? && Fits(db, job) && Disciplined(db, op)
    ensures Fits(Apply(db, op), job)
  {
    ReplayOne(db.events, Event(op.job, Some(Dlq), Queued, None), job);
  }

  lemma FaithfulStep(db: Db, op: StoreOp)
    requires Faithful(db) && Enabled(db, op) && Disciplined(db, op)
    ensures Faithful(Apply(db, op))
  {
    forall job ensures Fits(Apply(db, op), job) {
      assert Fits(db, job);
      match op
      case OpSubmit(_, _, _, _, _) => SubmitFits(db, op, job);
      case OpClaim(_, _, _, _) => ClaimFits(db, op, job);
      case OpHeartbeat(_, _, _) =>
      case OpComplete(_, _, _, _) => CompleteFits(db, op, job);
      case OpFail(_, _, _, _, _) => FailFits(db, op, job);
      case OpLedger(_, _) =>
      case OpRequeue(_, _) => RequeueFits(db, op, job);
    }
  }

  ghost predicate DisciplinedRun(db: Db, ops: seq<StoreOp>)
    decreases |ops|
  {
    ops == [] || (Disciplined(db, ops[0]) && DisciplinedRun(Apply(db, ops[0]), ops[1..]))
  }

  /** Over every run from the empty store the job table is the replay of the event log. */
  lemma {:induction false} FaithfulRun(db: Db, ops: seq<StoreOp>)
    requires Faithful(db) && CanRun(db, ops) && DisciplinedRun(db, ops)
    ensures Faithful(Run(db, ops))
    decreases |ops|
  {
    if ops != [] {
      FaithfulStep(db, ops[0]);
      FaithfulRun(Apply(db, ops[0]), ops[1..]);
    }
  }

  lemma EmptyIsFaithful()
    ensures Faithful(Db(map[], [], map[]))
  {
  }

  /** `requeue_dlq` keeps the log faithful exactly when the job is in the dead-letter queue. */
  lemma RequeueFaithfulIff(db: Db, job: JobId, now: real)
    requires Faithful(db)
    ensures Faithful(Apply(db, OpRequeue(job, now))) <==> job in db.jobs && db.jobs[job].status == Dlq
  {
    if job in db.jobs && db.jobs[job].status == Dlq {
      FaithfulStep(db, OpRequeue(job, now));
    } else {
      var db' := Apply(db, OpRequeue(job, now));
      assert Fits(db, job);
      ReplayOne(db.events, Event(job, Some(Dlq), Queued, None), job);
      assert !Fits(db', job);
    }
  }

  /**
    Attempt accounting in every reachable state: attempts are the failures and
    reclaims since submission or the last requeue, plus the run in progress or
    completed; and the limits of each status.
   */
  lemma AttemptLimits(db: Db, job: JobId)
    requires Faithful(db) && job in db.jobs
    ensures Replay(db.events, job).Alive?
    ensures
      var r, t := db.jobs[job], Replay(db.events, job).track;
      && r.attempts == t.failures + t.reclaims + (if r.status == Processing || r.status == Completed then 1 else 0)
      && (r.status == Queued ==> r.attempts == 0)
      && (r.status == Retrying ==> 0 < r.attempts < r.maxAttempts)
      && (r.status == Dlq ==> r.attempts >= r.maxAttempts)
      && t.failures <= Max(1, r.maxAttempts)
      && r.status in {Queued, Processing, Retrying, Completed, Dlq}
  {
    assert Fits(db, job);
    AttemptsAccounted(db.events, job);
  }

  /** The claim takes over an expired lease of a job that has used up its attempts. */
  predicate ReclaimsAtLimit(db: Db, op: StoreOp) {
    && op.OpClaim? && op.pick.Some? && op.pick.value in db.jobs
    && db.jobs[op.pick.value].status == Processing
    && db.jobs[op.pick.value].attempts >= db.jobs[op.pick.value].maxAttempts
  }

  /** A claim takes its job past the attempt limit exactly if it reclaims at the limit, or the limit allows no attempt. */
  lemma ClaimPastLimitIff(db: Db, op: StoreOp)
    requires Faithful(db) && Enabled(db, op) && op.OpClaim? && op.pick.Some?
    ensures var r, r' := db.jobs[op.pick.value], Apply(db, op).jobs[op.pick.value];
      r'.attempts > r'.maxAttempts <==> ReclaimsAtLimit(db, op) || r.maxAttempts < 1
  {
    AttemptLimits(db, op.pick.value);
  }

  ghost predicate WithinLimits(db: Db) {
    forall j :: j in db.jobs ==> db.jobs[j].attempts <= db.jobs[j].maxAttempts
  }

  /** While limits allow an attempt: a transaction breaks the attempt limits exactly if it reclaims at the limit. */
  lemma LimitsBrokenIff(db: Db, op: StoreOp)
    requires Faithful(db) && Enabled(db, op) && WithinLimits(db)
    requires forall j :: j in db.jobs ==> db.jobs[j].maxAttempts >= 1
    requires op.OpSubmit? ==> op.maxAttempts >= 1
    ensures WithinLimits(Apply(db, op)) <==> !ReclaimsAtLimit(db, op)
  {
    if op.OpClaim? && op.pick.Some? {
      ClaimPastLimitIff(db, op);
      assert op.pick.value in Apply(db, op).jobs;
    }
  }

  lemma {:induction false} Reclaims(db: Db, job: JobId, worker: WorkerId, lease: real, n: nat) returns (ops: seq<StoreOp>)
    requires db.jobs.Keys == {job} && db.jobs[job].status == Processing && db.jobs[job].lease.Some?
    ensures |ops| == n && CanRun(db, ops) && DisciplinedRun(db, ops)
    ensures forall i :: 0 <= i < n ==> ops[i].OpClaim? && ops[i].until == ops[i].now + lease
    ensures job in Run(db, ops).jobs && Run(db, ops).jobs[job] ==
      db.jobs[job].(attempts := db.jobs[job].attempts + n, worker := Run(db, ops).jobs[job].worker,
                    lease := Run(db, ops).jobs[job].lease)
    decreases n
  {
    if n == 0 {
      return [];
    }
    var now := db.jobs[job].lease.value + 1.0;
    var op := OpClaim(worker, Some(job), now, now + lease);
    var rest := Reclaims(Apply(db, op), job, worker, lease, n - 1);
    ops := [op] + rest;
    assert ops[1..] == rest;
  }

  lemma RunCons(db: Db, op: StoreOp, rest: seq<StoreOp>)
    requires Enabled(db, op) && Disciplined(db, op) && CanRun(Apply(db, op), rest) && DisciplinedRun(Apply(db, op), rest)
    ensures CanRun(db, [op] + rest) && DisciplinedRun(db, [op] + rest)
    ensures Run(db, [op] + rest) == Run(Apply(db, op), rest)
  {
    assert ([op] + rest)[1..] == rest;
  }

  /**
    Reclaims are not limited: from the empty store, with a limit of one attempt
    and leases of any length, a job can be attempted any number of times.
   */
  lemma ReclaimsUnlimited(job: JobId, key: string, kind: string, worker: WorkerId, lease: real, n: nat)
    returns (ops: seq<StoreOp>)
    requires lease > 0.0
    ensures var empty := Db(map[], [], map[]);
      && CanRun(empty, ops) && DisciplinedRun(empty, ops)
      && (forall i :: 0 <= i < |ops| && ops[i].OpClaim? ==> ops[i].until == ops[i].now + lease)
      && Run(empty, ops).jobs.Keys == {job}
      && Run(empty, ops).jobs[job].maxAttempts == 1 && Run(empty, ops).jobs[job].attempts == n + 1
  {
    var empty := Db(map[], [], map[]);
    var submit, claim := OpSubmit(job, key, kind, 1, 0.0), OpClaim(worker, Some(job), 0.0, lease);
    var submitted := Apply(empty, submit);
    var claimed := Apply(submitted, claim);
    var rest := Reclaims(claimed, job, worker, lease, n);
    RunCons(submitted, claim, rest);
    RunCons(empty, submit, [claim] + rest);
    ops := [submit] + ([claim] + rest);
    KeysKept(claimed, rest);
  }

  lemma {:induction false} KeysKept(db: Db, ops: seq<StoreOp>)
    requires forall i :: 0 <= i < |ops| ==> ops[i].OpClaim?
    ensures Run(db, ops).jobs.Keys == db.jobs.Keys
    decreases |ops|
  {
    if ops != [] {
      KeysKept(Apply(db, ops[0]), ops[1..]);
      assert Apply(db, ops[0]).jobs.Keys == db.jobs.Keys;
    }
  }

  // ----- Fencing, read off the log -----

  /** `c` is the latest event of `job` before position `i`. */
  ghost predicate PreviousEvent(events: seq<Event>, job: JobId, c: nat, i: nat) {
    && c < i <= |events| && events[c].job == job
    && forall k :: c < k < i ==> events[k].job != job
  }

  lemma {:induction false} LatestEvent(events: seq<Event>, job: JobId) returns (c: nat)
    requires Replay(events, job).Alive?
    ensures PreviousEvent(events, job, c, |events|)
    ensures events[c].to == Replay(events, job).track.status
    ensures events[c].to == Processing ==> events[c].worker == Replay(events, job).track.worker
  {
    var n := |events| - 1;
    if events[n].job == job {
      c := n;
    } else {
      c := LatestEvent(events[..n], job);
    }
  }

  lemma {:induction false} PrefixUnbroken(events: seq<Event>, job: JobId, n: nat)
    requires n <= |events| && Replay(events, job) != Broken
    ensures Replay(events[..n], job) != Broken
    decreases |events| - n
  {
    if n < |events| {
      var shorter := events[..|events| - 1];
      PrefixUnbroken(shorter, job, n);
      assert shorter[..n] == events[..n];
    } else {
      assert events[..n] == events;
    }
  }

  predicate Outcome(e: Event) {
    e.from == Some(Processing) && (e.to == Completed || e.to == Failed)
  }

  /**
    Every accepted outcome in the log is immediately preceded, within its job,
    by a claim of the same worker. So no claim has two outcomes, and an outcome
    always comes from the most recent claimer.
   */
  lemma OutcomeFromLatestClaim(db: Db, i: nat) returns (c: nat)
    requires Faithful(db) && i < |db.events| && Outcome(db.events[i])
    ensures PreviousEvent(db.events, db.events[i].job, c, i)
    ensures db.events[c].to == Processing && db.events[c].worker == db.events[i].worker
  {
    var events, job := db.events, db.events[i].job;
    assert Fits(db, job);
    PrefixUnbroken(events, job, i + 1);
    assert events[..i + 1][..i] == events[..i];
    PrefixUnbroken(events, job, i);
    c := LatestEvent(events[..i], job);
  }

  /** Two outcomes of one job are separated by a new claim, made by the worker of the second. */
  lemma OutcomesSeparatedByClaim(db: Db, i: nat, k: nat) returns (c: nat)
    requires Faithful(db) && i < k < |db.events| && Outcome(db.events[i]) && Outcome(db.events[k])
    requires db.events[i].job == db.events[k].job
    ensures i < c < k && db.events[c].job == db.events[i].job
    ensures db.events[c].to == Processing && db.events[c].worker == db.events[k].worker
  {
    c := OutcomeFromLatestClaim(db, k);
  }
}
