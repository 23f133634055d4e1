/**
  Why delivery is not exactly once: a worker that crashes after it won the
  ledger key and before it appended (jobs/worker.py:199-201) loses the effect,
  and the reclaimed job completes without it.
 */
module LostEffects {
  import opened Common
  import opened Jobs
  import opened Delivery

  lemma RunCons(s: System, a: Action, rest: seq<Action>)
    requires CanDo(s, a) && CanRunAll(Do(s, a), rest)
    ensures CanRunAll(s, [a] + rest) && RunAll(s, [a] + rest) == RunAll(Do(s, a), rest)
  {
    assert ([a] + rest)[1..] == rest;
  }

  /** One job, one worker: the table, the ledger and the worker as they are on the way. */
  predicate OneJob(s: System, job: JobId, row: Row, won: bool, pc: Pc) {
    && s.db.jobs == map[job := row] && |s.workers| == 1 && s.workers[0] == pc && s.log == []
    && s.db.ledger == if won then map[RowEffectKey(row) := job] else map[]
  }

  lemma Claims(s: System, job: JobId, row: Row, won: bool, now: real, until: real)
    requires OneJob(s, job, row, won, Idle) && Runnable(row, now)
    ensures var a := Poll(0, Some(job), now, until);
      && CanDo(s, a)
      && OneJob(Do(s, a), job,
           row.(status := Processing, attempts := row.attempts + 1, worker := Some(0), lease := Some(until)), won,
           Running(Ctx(job, row.kind, row.key, |s.db.events|)))
      && Do(s, a).abandoned == s.abandoned
  {
  }

  lemma WinsAndCrashes(s: System, job: JobId, row: Row, c: Ctx)
    requires OneJob(s, job, row, false, Running(c)) && row.kind in KINDS
    requires c.job == job && c.kind == row.kind && c.key == row.key
    ensures CanDo(s, Ledger(0)) && CanDo(Do(s, Ledger(0)), Crash(0))
    ensures var s' := Do(Do(s, Ledger(0)), Crash(0));
      OneJob(s', job, row, true, Idle) && s'.abandoned == s.abandoned + [RowEffectKey(row)]
  {
  }

  lemma LosesAndFinishes(s: System, job: JobId, row: Row, c: Ctx, now: real)
    requires OneJob(s, job, row, true, Running(c)) && row.kind in KINDS && row.status == Processing && row.worker == Some(0)
    requires c.job == job && c.kind == row.kind && c.key == row.key
    ensures CanDo(s, Ledger(0)) && CanDo(Do(s, Ledger(0)), Finish(0, now, ""))
    ensures var s' := Do(Do(s, Ledger(0)), Finish(0, now, ""));
      && s'.db.jobs.Keys == {job} && s'.db.jobs[job].status == Completed && RowEffectKey(s'.db.jobs[job]) == RowEffectKey(row)
      && s'.log == [] && s'.workers == [Idle] && s'.abandoned == s.abandoned
  {
  }

  /** From the empty system, for every job type and key: a run after which the job is completed and nothing was delivered. */
  lemma CrashLosesEffect(s: System, job: JobId, key: string, kind: string) returns (actions: seq<Action>)
    requires Initial(s) && |s.workers| == 1 && kind in KINDS
    ensures CanRunAll(s, actions)
    ensures var s' := RunAll(s, actions);
      && s'.db.jobs.Keys == {job} && s'.db.jobs[job].status == Completed && s'.log == [] && s'.workers == [Idle]
      && s'.abandoned == [EffectKey(kind, key)]
  {
    var row := SubmittedRow(key, kind, 5, 0.0);
    var row1 := row.(status := Processing, attempts := 1, worker := Some(0), lease := Some(1.0));
    var row2 := row1.(attempts := 2, lease := Some(3.0));
    var a1, a2, a5, a7 := Submit(job, key, kind, 5, 0.0), Poll(0, Some(job), 0.0, 1.0), Poll(0, Some(job), 2.0, 3.0), Finish(0, 2.0, "");
    var s1 := Do(s, a1);
    assert OneJob(s1, job, row, false, Idle);
    Claims(s1, job, row, false, 0.0, 1.0);
    var s2 := Do(s1, a2);
    WinsAndCrashes(s2, job, row1, s2.workers[0].ctx);
    var s3 := Do(s2, Ledger(0));
    var s4 := Do(s3, Crash(0));
    Claims(s4, job, row1, true, 2.0, 3.0);
    var s5 := Do(s4, a5);
    LosesAndFinishes(s5, job, row2, s5.workers[0].ctx, 2.0);
    var s6 := Do(s5, Ledger(0));
    RunCons(s6, a7, []);
    RunCons(s5, Ledger(0), [a7] + []);
    RunCons(s4, a5, [Ledger(0)] + ([a7] + []));
    RunCons(s3, Crash(0), [a5] + ([Ledger(0)] + ([a7] + [])));
    RunCons(s2, Ledger(0), [Crash(0)] + ([a5] + ([Ledger(0)] + ([a7] + []))));
    RunCons(s1, a2, [Ledger(0)] + ([Crash(0)] + ([a5] + ([Ledger(0)] + ([a7] + [])))));
    actions := [a1] + ([a2] + ([Ledger(0)] + ([Crash(0)] + ([a5] + ([Ledger(0)] + ([a7] + []))))));
    RunCons(s, a1, actions[1..]);
  }

  /**
    Exactly once, for a completed job that no worker is still delivering: one
    log entry if and only if no crash and no failed append abandoned its window.
   */
  lemma ExactlyOnceIff(s: System, actions: seq<Action>, job: JobId)
    requires Initial(s) && CanRunAll(s, actions)
    requires job in RunAll(s, actions).db.jobs && RunAll(s, actions).db.jobs[job].status == Completed
    requires !InWindow(RunAll(s, actions), job)
    ensures
      var s' := RunAll(s, actions);
      |set i | 0 <= i < |s'.log| && s'.log[i].job == job| == 1 <==> RowEffectKey(s'.db.jobs[job]) !in s'.abandoned
  {
    CompletedAccounted(s, actions, job);
    var s' := RunAll(s, actions);
    var entries := set i | 0 <= i < |s'.log| && s'.log[i].job == job;
    if Logged(s', job) {
      var i :| 0 <= i < |s'.log| && s'.log[i].job == job;
      forall k | k in entries
        ensures k == i
      {
        if k < i {
          AtMostOnce(s, actions, k, i);
        } else if i < k {
          AtMostOnce(s, actions, i, k);
        }
      }
      assert entries == {i};
    } else {
      assert entries == {};
    }
  }
}
