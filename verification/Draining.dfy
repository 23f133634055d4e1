/**
  Draining terminates: a budget of attempts that no worker can refill
  (jobs/worker.py:91-118, jobs/store.py:300-329).
 */
module Draining {
  import opened Common
  import opened Jobs
  import opened Delivery

  /** How many more claims a row can still cost without a reclaim. */
  function Budget(r: Row): nat {
    match r.status
    case Queued => Max(1, r.maxAttempts - r.attempts)
    case Retrying => Max(1, r.maxAttempts - r.attempts)
    case Processing => Max(0, r.maxAttempts - r.attempts)
    case _ => 0
  }

  /** The sum of the weights of all rows. */
  ghost function Total(jobs: map<JobId, Row>, weight: Row -> nat): nat
    decreases |jobs|
  {
    if jobs == map[] then 0
    else
      var j :| j in jobs;
      assert (jobs - {j}).Keys == jobs.Keys - {j};
      weight(jobs[j]) + Total(jobs - {j}, weight)
  }

  lemma {:induction false} TotalSplit(jobs: map<JobId, Row>, weight: Row -> nat, j: JobId)
    requires j in jobs
    ensures Total(jobs, weight) == weight(jobs[j]) + Total(jobs - {j}, weight)
    decreases |jobs|
  {
    var i :| i in jobs && Total(jobs, weight) == weight(jobs[i]) + Total(jobs - {i}, weight);
    if i != j {
      assert (jobs - {i}).Keys == jobs.Keys - {i};
      TotalSplit(jobs - {i}, weight, j);
      TotalSplitOther(jobs, weight, i, j);
    }
  }

  lemma {:induction false} TotalSplitOther(jobs: map<JobId, Row>, weight: Row -> nat, i: JobId, j: JobId)
    requires i in jobs && j in jobs && i != j
    ensures Total(jobs - {j}, weight) == weight(jobs[i]) + Total(jobs - {i} - {j}, weight)
    decreases |jobs|, 0
  {
    assert (jobs - {j}).Keys == jobs.Keys - {j};
    TotalSplit(jobs - {j}, weight, i);
    assert jobs - {j} - {i} == jobs - {i} - {j};
  }

  lemma TotalUpdate(jobs: map<JobId, Row>, weight: Row -> nat, j: JobId, r: Row)
    ensures Total(jobs[j := r], weight) == weight(r) + Total(jobs - {j}, weight)
  {
    TotalSplit(jobs[j := r], weight, j);
    assert jobs[j := r] - {j} == jobs - {j};
  }

  /** A claim of a queued or retrying job, as opposed to the reclaim of an expired lease. */
  predicate FreshClaim(s: System, a: Action) {
    && a.Poll? && a.pick.Some? && a.pick.value in s.db.jobs
    && s.db.jobs[a.pick.value].status != Processing
  }

  /** Steps that bring no new work: no submission, no requeue, and no expired lease. */
  predicate Quiet(s: System, a: Action) {
    !a.Submit? && !a.Requeue? && !(a.Poll? && a.pick.Some? && !FreshClaim(s, a))
  }

  /** The job whose row an action may change. */
  function Touched(s: System, a: Action): Option<JobId>
    requires CanDo(s, a)
  {
    if a.Poll? then a.pick
    else if a.Beat? || a.Finish? || a.Fail? then Some(s.workers[a.w].ctx.job)
    else None
  }

  lemma OnlyTouchedChanges(s: System, a: Action)
    requires CanDo(s, a) && Quiet(s, a)
    ensures var jobs, jobs', j := s.db.jobs, Do(s, a).db.jobs, Touched(s, a);
      if j.Some? && j.value in jobs
      then j.value in jobs' && jobs' == jobs[j.value := jobs'[j.value]]
           && Budget(jobs'[j.value]) + (if FreshClaim(s, a) then 1 else 0) <= Budget(jobs[j.value])
      else jobs' == jobs
  {
  }

  lemma QuietStep(s: System, a: Action)
    requires CanDo(s, a) && Quiet(s, a)
    ensures Total(Do(s, a).db.jobs, Budget) + (if FreshClaim(s, a) then 1 else 0) <= Total(s.db.jobs, Budget)
  {
    var jobs, jobs', j := s.db.jobs, Do(s, a).db.jobs, Touched(s, a);
    OnlyTouchedChanges(s, a);
    if j.Some? && j.value in jobs {
      TotalSplit(jobs, Budget, j.value);
      TotalUpdate(jobs, Budget, j.value, jobs'[j.value]);
    }
  }

  ghost predicate QuietRun(s: System, actions: seq<Action>)
    requires CanRunAll(s, actions)
    decreases |actions|
  {
    actions == [] || (Quiet(s, actions[0]) && QuietRun(Do(s, actions[0]), actions[1..]))
  }

  ghost function FreshClaims(s: System, actions: seq<Action>): nat
    requires CanRunAll(s, actions)
    decreases |actions|
  {
    if actions == [] then 0
    else (if FreshClaim(s, actions[0]) then 1 else 0) + FreshClaims(Do(s, actions[0]), actions[1..])
  }

  /**
    In any interleaving of any number of workers, even with crashes, the number
    of successful polls is at most the attempts that the jobs had left, as long
    as nothing is submitted or requeued and no lease expires.
   */
  lemma {:induction false} DrainBound(s: System, actions: seq<Action>)
    requires CanRunAll(s, actions) && QuietRun(s, actions)
    ensures FreshClaims(s, actions) + Total(RunAll(s, actions).db.jobs, Budget) <= Total(s.db.jobs, Budget)
    decreases |actions|
  {
    if actions != [] {
      QuietStep(s, actions[0]);
      DrainBound(Do(s, actions[0]), actions[1..]);
    }
  }
}
