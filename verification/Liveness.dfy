/**
  What the history of the jobs says about the running system, and that polling
  late enough settles every job (jobs/worker.py:91-118 over jobs/store.py).
 */
module Liveness {
  import opened Common
  import opened Delivery
  import opened Draining
  import opened Jobs
  import opened WorkerLoop
  import JobHistory

  // ----- Runs of the system have a faithful history -----

  /** Operators requeue only jobs that are in the dead-letter queue. */
  predicate Disciplined(s: System, a: Action) {
    a.Requeue? ==> a.job in s.db.jobs && s.db.jobs[a.job].status == Dlq
  }

  ghost predicate DisciplinedRun(s: System, actions: seq<Action>)
    requires CanRunAll(s, actions)
    decreases |actions|
  {
    actions == [] || (Disciplined(s, actions[0]) && DisciplinedRun(Do(s, actions[0]), actions[1..]))
  }

  lemma StepIsFaithful(s: System, a: Action)
    requires JobHistory.Faithful(s.db) && CanDo(s, a) && Disciplined(s, a)
    ensures JobHistory.Faithful(Do(s, a).db)
  {
    var op := OpOf(s, a);
    if op.Some? {
      JobHistory.FaithfulStep(s.db, op.value);
    }
  }

  lemma {:induction false} RunIsFaithful(s: System, actions: seq<Action>)
    requires JobHistory.Faithful(s.db) && CanRunAll(s, actions) && DisciplinedRun(s, actions)
    ensures JobHistory.Faithful(RunAll(s, actions).db)
    decreases |actions|
  {
    if actions != [] {
      StepIsFaithful(s, actions[0]);
      RunIsFaithful(Do(s, actions[0]), actions[1..]);
    }
  }

  /**
    In every disciplined run of any number of workers, with crashes, reclaims and
    duplicate submissions, the job table is the replay of the event log, and the
    attempts of every job are accounted for.
   */
  lemma SystemHistory(s: System, actions: seq<Action>, job: JobId)
    requires Initial(s) && CanRunAll(s, actions) && DisciplinedRun(s, actions)
    ensures JobHistory.Faithful(RunAll(s, actions).db)
    ensures job in RunAll(s, actions).db.jobs ==>
      var db := RunAll(s, actions).db;
      var life := JobHistory.Replay(db.events, job);
      && life.Alive? && db.jobs[job].attempts ==
           life.track.failures + life.track.reclaims + if db.jobs[job].status in {Processing, Completed} then 1 else 0
  {
    JobHistory.EmptyIsFaithful();
    RunIsFaithful(s, actions);
    if job in RunAll(s, actions).db.jobs {
      JobHistory.AttemptLimits(RunAll(s, actions).db, job);
    }
  }

  predicate Unsettled(r: Row) {
    r.status == Queued || r.status == Retrying || r.status == Processing
  }

  ghost predicate AllSettled(db: Db) {
    forall j :: j in db.jobs ==> db.jobs[j].status == Completed || db.jobs[j].status == Dlq
  }

  /** When no job is queued, retrying or in progress, every job is completed or dead-lettered, unknown types included. */
  lemma DrainedIsSettled(s: System, actions: seq<Action>)
    requires Initial(s) && CanRunAll(s, actions) && DisciplinedRun(s, actions)
    requires forall j :: j in RunAll(s, actions).db.jobs ==> !Unsettled(RunAll(s, actions).db.jobs[j])
    ensures AllSettled(RunAll(s, actions).db)
  {
    SystemHistory(s, actions, "");
    NothingElse(RunAll(s, actions).db);
  }

  lemma NothingElse(db: Db)
    requires JobHistory.Faithful(db) && forall j :: j in db.jobs ==> !Unsettled(db.jobs[j])
    ensures AllSettled(db)
  {
    forall j | j in db.jobs
      ensures db.jobs[j].status == Completed || db.jobs[j].status == Dlq
    {
      JobHistory.AttemptLimits(db, j);
    }
  }

  // ----- Polling settles every job -----

  /** How far a row is from being settled: its budget of claims, and the claim it may be held by. */
  function Distance(r: Row): nat {
    Budget(r) + if r.status == Processing then 1 else 0
  }

  /** The worker holds the job of its claim, and nothing else has changed since it polled. */
  ghost predicate Begun(before: System, s: System, w: WorkerId, p: JobId) {
    && w < |s.workers| && !s.workers[w].Idle? && s.workers[w].ctx.job == p
    && p in before.db.jobs && p in s.db.jobs
    && s.db.jobs == before.db.jobs[p := s.db.jobs[p]]
    && var r, r' := before.db.jobs[p], s.db.jobs[p];
       r'.status == Processing && r'.worker == Some(w) && r'.attempts == r.attempts + 1 && r'.maxAttempts == r.maxAttempts
  }

  lemma PollBegins(s: System, a: Action)
    requires CanDo(s, a) && a.Poll? && a.pick.Some?
    ensures Begun(s, Do(s, a), a.w, a.pick.value)
  {
  }

  /** What the worker does between its claim and the outcome. */
  predicate InBetween(a: Action, w: WorkerId) {
    !a.Submit? && !a.Requeue? && !a.Crash? && !a.Poll? && !a.Finish? && !a.Fail? && a.w == w
  }

  lemma StaysBegun(before: System, s: System, a: Action, w: WorkerId, p: JobId)
    requires Begun(before, s, w, p) && CanDo(s, a) && InBetween(a, w)
    ensures Begun(before, Do(s, a), w, p)
  {
  }

  lemma OutcomeSettles(before: System, s: System, a: Action, w: WorkerId, p: JobId)
    requires Begun(before, s, w, p) && CanDo(s, a) && (a.Finish? || a.Fail?) && a.w == w
    requires Unsettled(before.db.jobs[p])
    ensures var s' := Do(s, a);
      && p in s'.db.jobs && s'.db.jobs == before.db.jobs[p := s'.db.jobs[p]]
      && Distance(s'.db.jobs[p]) < Distance(before.db.jobs[p])
      && w < |s'.workers| && s'.workers[w].Idle?
  {
  }

  lemma {:induction false} BegunSettles(before: System, s: System, steps: seq<Action>, w: WorkerId, p: JobId)
    requires Begun(before, s, w, p) && CanRunAll(s, steps) && steps != []
    requires forall i :: 0 <= i < |steps| - 1 ==> InBetween(steps[i], w)
    requires var last := steps[|steps| - 1]; (last.Finish? || last.Fail?) && last.w == w
    requires Unsettled(before.db.jobs[p])
    ensures var s' := RunAll(s, steps);
      && p in s'.db.jobs && s'.db.jobs == before.db.jobs[p := s'.db.jobs[p]]
      && Distance(s'.db.jobs[p]) < Distance(before.db.jobs[p])
      && w < |s'.workers| && s'.workers[w].Idle?
    decreases |steps|
  {
    if |steps| == 1 {
      OutcomeSettles(before, s, steps[0], w, p);
      assert steps[1..] == [];
    } else {
      StaysBegun(before, s, steps[0], w, p);
      BegunSettles(before, Do(s, steps[0]), steps[1..], w, p);
    }
  }

  /** Every poll that claims a job brings the store closer to being settled, whatever the handler does. */
  lemma PollProgresses(s: System, steps: seq<Action>, w: WorkerId)
    requires CanRunAll(s, steps) && OnePoll(steps, w) && w < |s.workers|
    ensures w < |RunAll(s, steps).workers| && RunAll(s, steps).workers[w].Idle?
    ensures if steps[0].pick.None? then RunAll(s, steps).db.jobs == s.db.jobs
      else Total(RunAll(s, steps).db.jobs, Distance) < Total(s.db.jobs, Distance)
  {
    var poll, rest := steps[0], steps[1..];
    if poll.pick.None? {
      assert rest == [];
    } else {
      var front := steps[..|steps| - 1];
      assert front[0] == poll;
      assert forall i :: 0 < i < |front| ==> steps[i] == front[i];
      PollBegins(s, poll);
      BegunSettles(s, Do(s, poll), rest, w, poll.pick.value);
      var p, s' := poll.pick.value, RunAll(s, steps);
      TotalSplit(s.db.jobs, Distance, p);
      TotalUpdate(s.db.jobs, Distance, p, s'.db.jobs[p]);
    }
  }

  /** Every delay is over and every lease has expired. */
  ghost predicate Late(db: Db, now: real) {
    forall j :: j in db.jobs ==>
      db.jobs[j].availableAt <= now && (db.jobs[j].lease.Some? ==> db.jobs[j].lease.value < now)
  }

  /** Polls of one worker, each late enough, and none ended by an exception of the store. */
  ghost predicate LatePolls(s: System, polls: seq<seq<Action>>, w: WorkerId)
    decreases |polls|
  {
    polls == [] ||
    (OnePoll(polls[0], w) && CanRunAll(s, polls[0]) && Late(s.db, polls[0][0].now)
     && LatePolls(RunAll(s, polls[0]), polls[1..], w))
  }

  ghost function AfterPolls(s: System, polls: seq<seq<Action>>, w: WorkerId): System
    requires LatePolls(s, polls, w)
    decreases |polls|
  {
    if polls == [] then s else AfterPolls(RunAll(s, polls[0]), polls[1..], w)
  }

  lemma {:induction false} OwnRunIsDisciplined(s: System, steps: seq<Action>)
    requires CanRunAll(s, steps) && forall i :: 0 <= i < |steps| ==> !steps[i].Requeue?
    ensures DisciplinedRun(s, steps)
    decreases |steps|
  {
    if steps != [] {
      OwnRunIsDisciplined(Do(s, steps[0]), steps[1..]);
    }
  }

  lemma {:induction false} NoDistanceLeft(jobs: map<JobId, Row>, j: JobId)
    requires j in jobs && Total(jobs, Distance) == 0
    ensures !Unsettled(jobs[j])
  {
    TotalSplit(jobs, Distance, j);
  }

  lemma NothingToClaim(s: System, poll: Action)
    requires JobHistory.Faithful(s.db) && CanDo(s, poll) && poll.Poll? && poll.pick.None? && Late(s.db, poll.now)
    ensures AllSettled(s.db)
  {
    forall j | j in s.db.jobs
      ensures !Unsettled(s.db.jobs[j])
    {
      assert JobHistory.Fits(s.db, j);
    }
    NothingElse(s.db);
  }

  lemma {:induction false} SettledHasArrived(jobs: map<JobId, Row>)
    requires forall j :: j in jobs ==> jobs[j].status == Completed || jobs[j].status == Dlq
    ensures Total(jobs, Distance) == 0
    decreases |jobs|
  {
    if j :| j in jobs {
      TotalSplit(jobs, Distance, j);
      assert (jobs - {j}).Keys == jobs.Keys - {j};
      SettledHasArrived(jobs - {j});
    }
  }

  /**
    One worker that polls late enough settles every job, whatever its handlers
    raise and wherever the other workers crashed: as many polls as the distance
    of the store suffice.
   */
  lemma {:induction false} PollingSettles(s: System, polls: seq<seq<Action>>, w: WorkerId)
    requires JobHistory.Faithful(s.db) && w < |s.workers| && s.workers[w].Idle?
    requires LatePolls(s, polls, w) && |polls| >= Total(s.db.jobs, Distance)
    ensures AllSettled(AfterPolls(s, polls, w).db)
    decreases |polls|
  {
    if polls == [] {
      forall j | j in s.db.jobs
        ensures !Unsettled(s.db.jobs[j])
      {
        NoDistanceLeft(s.db.jobs, j);
      }
      NothingElse(s.db);
    } else {
      var steps := polls[0];
      PollIsSequential(steps, w, false);
      OwnRunIsDisciplined(s, steps);
      RunIsFaithful(s, steps);
      PollProgresses(s, steps, w);
      if steps[0].pick.None? {
        NothingToClaim(s, steps[0]);
        SettledHasArrived(s.db.jobs);
      }
      PollingSettles(RunAll(s, steps), polls[1..], w);
    }
  }
}
