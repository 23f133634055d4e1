/**
  The worker as code (jobs/worker.py:72-202): one poll runs claim, handler,
  ledger, append, and complete or fail in sequence. Each call is proved to be a
  run of the atomic steps of the delivery protocol by this one worker.
 */
module WorkerLoop {
  import opened Common
  import opened Jobs
  import opened Delivery

  /** Where the claim raises: not at all, in its transaction, or when it reads the claimed row back. */
  datatype ClaimFault = NoFault | BeforeCommit | AfterCommit

  /** What the environment does during one poll; an absent error means that the operation succeeds. */
  datatype Script = Script(
    claimAt: real,
    claimFault: ClaimFault,
    beats: seq<real>,                // heartbeat times while the handler holds the job
    handlerError: Option<string>,    // raised before the ledger
    appendError: Option<string>,     // raised by the append to the effect log
    completeError: Option<string>,   // raised by the store on completion
    failError: Option<string>,       // raised by the store when the failure is recorded
    doneAt: real,
    jitter: real,
    result: string)

  class EffectLog {
    var entries: seq<Effect>

    constructor ()
      ensures entries == []
    {
      entries := [];
    }
  }

  lemma {:induction false} RunSnoc(s: System, steps: seq<Action>, a: Action)
    requires CanRunAll(s, steps) && CanDo(RunAll(s, steps), a)
    ensures CanRunAll(s, steps + [a]) && RunAll(s, steps + [a]) == Do(RunAll(s, steps), a)
    decreases |steps|
  {
    if steps == [] {
      assert steps + [a] == [a];
      assert [a][1..] == [];
    } else {
      assert (steps + [a])[1..] == steps[1..] + [a];
      RunSnoc(Do(s, steps[0]), steps[1..], a);
    }
  }

  lemma {:induction false} RunConcat(s: System, first: seq<Action>, second: seq<Action>)
    requires CanRunAll(s, first) && CanRunAll(RunAll(s, first), second)
    ensures CanRunAll(s, first + second) && RunAll(s, first + second) == RunAll(RunAll(s, first), second)
    decreases |first|
  {
    if first == [] {
      assert first + second == second;
    } else {
      assert (first + second)[1..] == first[1..] + second;
      RunConcat(Do(s, first[0]), first[1..], second);
    }
  }

  /** All steps are this worker's own, and none of them is a crash. */
  ghost predicate OwnSteps(steps: seq<Action>, w: WorkerId) {
    forall i :: 0 <= i < |steps| ==> !steps[i].Submit? && !steps[i].Requeue? && !steps[i].Crash? && steps[i].w == w
  }

  /** The steps of a job that this worker claimed and has not settled. */
  ghost predicate JobBegun(steps: seq<Action>, w: WorkerId) {
    && OwnSteps(steps, w) && |steps| > 0 && steps[0].Poll? && steps[0].pick.Some?
    && forall i :: 0 < i < |steps| ==> !steps[i].Poll? && !steps[i].Finish? && !steps[i].Fail?
  }

  /** The steps of a handler: after `before`, this worker's own, and none that claims or settles a job. */
  ghost predicate Continues(w: WorkerId, before: seq<Action>, steps: seq<Action>) {
    && before <= steps
    && forall i :: |before| <= i < |steps| ==>
         && !steps[i].Submit? && !steps[i].Requeue? && !steps[i].Crash? && steps[i].w == w
         && !steps[i].Poll? && !steps[i].Finish? && !steps[i].Fail?
  }

  lemma BegunContinues(w: WorkerId, before: seq<Action>, steps: seq<Action>)
    requires JobBegun(before, w) && Continues(w, before, steps)
    ensures JobBegun(steps, w)
  {
    assert forall i :: 0 <= i < |before| ==> steps[i] == before[i];
  }

  /** One poll: the claim comes first, and after it exactly one attempt to settle the job, which comes last. */
  ghost predicate OnePoll(steps: seq<Action>, w: WorkerId) {
    && |steps| > 0 && steps[0].Poll?
    && if steps[0].pick.None? then OwnSteps(steps, w) && |steps| == 1
       else
         && |steps| > 1 && JobBegun(steps[..|steps| - 1], w)
         && var last := steps[|steps| - 1]; (last.Finish? || last.Fail?) && last.w == w
  }

  /** A poll that an exception of the store ends: before anything is committed, or with a claimed job left behind. */
  ghost predicate EscapedPoll(steps: seq<Action>, w: WorkerId) {
    steps == [] || (JobBegun(steps[..|steps| - 1], w) && steps[|steps| - 1] == Crash(w))
  }

  // ----- What a poll does to the store and the effect log -----

  /** Only the lease of this job may differ. */
  ghost predicate SameButLease(jobs: map<JobId, Row>, jobs': map<JobId, Row>, job: JobId) {
    job in jobs && job in jobs' && jobs' == jobs[job := jobs[job].(lease := jobs'[job].lease)]
  }

  /** Every heartbeat of the holder prolonged the lease; the last one decides. */
  ghost predicate Beaten(jobs: map<JobId, Row>, jobs': map<JobId, Row>, job: JobId, worker: WorkerId,
                         leaseSeconds: real, beats: seq<real>)
  {
    Holds(jobs, job, worker) ==>
      && job in jobs'
      && jobs'[job].lease == if beats == [] then jobs[job].lease else Some(beats[|beats| - 1] + leaseSeconds)
  }

  /** The job as the claim leaves it. */
  ghost predicate ClaimedRow(jobs: map<JobId, Row>, jobs': map<JobId, Row>, job: JobId, worker: WorkerId, until: real) {
    && job in jobs
    && jobs' == jobs[job := jobs[job].(status := Processing, attempts := jobs[job].attempts + 1,
                                       worker := Some(worker), lease := Some(until))]
  }

  /** The handler raises before it asks the ledger. */
  predicate HandlerRaises(kind: string, script: Script) {
    kind !in KINDS || script.handlerError.Some?
  }

  /** The handler asks the ledger, is the first to do so, and goes on to the append. */
  predicate Wins(kind: string, key: string, ledger: map<string, JobId>, script: Script) {
    !HandlerRaises(kind, script) && kind + ":" + key !in ledger
  }

  predicate JobRaises(kind: string, key: string, ledger: map<string, JobId>, script: Script) {
    || HandlerRaises(kind, script)
    || (Wins(kind, key, ledger, script) && script.appendError.Some?)
    || script.completeError.Some?
  }

  /** What the handler of a job with this row leaves in the ledger and in the effect log. */
  ghost predicate HandlerLeaves(r: Row, ledger: map<string, JobId>, log: seq<Effect>,
                                ledger': map<string, JobId>, log': seq<Effect>, job: JobId, script: Script)
  {
    var effectKey, wins := r.kind + ":" + r.key, Wins(r.kind, r.key, ledger, script);
    && ledger' == (if wins then ledger[effectKey := job] else ledger)
    && log' == if wins && script.appendError.None? then log + [Effect(job, effectKey)] else log
  }

  /** What the outcome makes of a job in progress. */
  ghost predicate OutcomeSets(jobs: map<JobId, Row>, jobs': map<JobId, Row>, job: JobId, policy: RetryPolicy,
                              raises: bool, script: Script, escaped: bool)
  {
    && job in jobs && job in jobs' && jobs' == jobs[job := jobs'[job]]
    && escaped == (raises && script.failError.Some?)
    && var r, r' := jobs[job], jobs'[job];
       && r'.kind == r.kind && r'.key == r.key && r'.maxAttempts == r.maxAttempts
       && r'.attempts == r.attempts && r'.worker == r.worker
       && (!raises ==> r'.status == Completed && r'.result == Some(script.result) && r'.completedAt == Some(script.doneAt))
       && (escaped ==> r'.status == r.status)
       && (raises && !escaped ==>
            if r.attempts >= r.maxAttempts then r'.status == Dlq
            else r'.status == Retrying && r'.availableAt == script.doneAt + policy.DelayFor(r.attempts, script.jitter))
  }

  /**
    What a claimed job comes to, from the store and the log before the poll to
    those after it. Without a fault it is completed; it is delivered exactly if
    its key was new. A raising job keeps its key in the ledger exactly if it
    raised after it had won it: in the append, or in the completion.
   */
  ghost predicate JobOutcome(jobs: map<JobId, Row>, ledger: map<string, JobId>, log: seq<Effect>,
                             jobs': map<JobId, Row>, ledger': map<string, JobId>, log': seq<Effect>,
                             job: JobId, worker: WorkerId, policy: RetryPolicy, script: Script, escaped: bool)
  {
    && job in jobs && job in jobs' && jobs' == jobs[job := jobs'[job]]
    && var r, r' := jobs[job], jobs'[job];
       var effectKey := r.kind + ":" + r.key;
       var wins := Wins(r.kind, r.key, ledger, script);
       var raises := JobRaises(r.kind, r.key, ledger, script);
       && r'.kind == r.kind && r'.key == r.key && r'.maxAttempts == r.maxAttempts && r'.attempts == r.attempts + 1
       && ledger' == (if wins then ledger[effectKey := job] else ledger)
       && log' == (if wins && script.appendError.None? then log + [Effect(job, effectKey)] else log)
       && escaped == (raises && script.failError.Some?)
       && r'.worker == Some(worker)
       && (!raises ==> r'.status == Completed && r'.result == Some(script.result) && r'.completedAt == Some(script.doneAt))
       && (escaped ==> r'.status == Processing)
       && (raises && !escaped ==>
            if r.attempts + 1 >= r.maxAttempts then r'.status == Dlq
            else r'.status == Retrying && r'.availableAt == script.doneAt + policy.DelayFor(r.attempts + 1, script.jitter))
  }

  lemma ClaimThenOutcome(jobs: map<JobId, Row>, mid: map<JobId, Row>, jobs': map<JobId, Row>,
                         ledger: map<string, JobId>, log: seq<Effect>, ledger': map<string, JobId>, log': seq<Effect>,
                         job: JobId, worker: WorkerId, until: real, policy: RetryPolicy, script: Script, escaped: bool)
    requires ClaimedRow(jobs, mid, job, worker, until)
    requires HandlerLeaves(mid[job], ledger, log, ledger', log', job, script)
    requires OutcomeSets(mid, jobs', job, policy, JobRaises(mid[job].kind, mid[job].key, ledger, script), script, escaped)
    ensures JobOutcome(jobs, ledger, log, jobs', ledger', log', job, worker, policy, script, escaped)
  {
  }

  lemma LeaseThenOutcome(jobs: map<JobId, Row>, mid: map<JobId, Row>, jobs': map<JobId, Row>, job: JobId,
                         policy: RetryPolicy, raises: bool, script: Script, escaped: bool)
    requires SameButLease(jobs, mid, job) && OutcomeSets(mid, jobs', job, policy, raises, script, escaped)
    ensures OutcomeSets(jobs, jobs', job, policy, raises, script, escaped)
  {
  }

  /** An exception of the store that nothing in the poll catches. */
  predicate CanEscape(script: Script) {
    !script.claimFault.NoFault? || script.failError.Some?
  }

  /** No job was runnable, the job was settled, or an exception escaped. */
  datatype PollResult = Nothing | Handled | Escaped

  /** This worker's own steps; only the last one may be the crash that an escaped exception amounts to. */
  ghost predicate SequentialSteps(steps: seq<Action>, w: WorkerId, escaped: bool) {
    forall i :: 0 <= i < |steps| ==>
      && !steps[i].Submit? && !steps[i].Requeue? && steps[i].w == w
      && (steps[i].Crash? ==> escaped && i == |steps| - 1)
  }

  lemma PollIsSequential(steps: seq<Action>, w: WorkerId, escaped: bool)
    requires if escaped then EscapedPoll(steps, w) else OnePoll(steps, w)
    ensures SequentialSteps(steps, w, escaped)
  {
    if steps != [] {
      var front := steps[..|steps| - 1];
      assert forall i :: 0 <= i < |front| ==> steps[i] == front[i];
    }
  }

  lemma SequentialAppend(first: seq<Action>, second: seq<Action>, w: WorkerId, escaped: bool)
    requires SequentialSteps(first, w, false) && SequentialSteps(second, w, escaped)
    ensures SequentialSteps(first + second, w, escaped)
  {
  }

  function PollsIn(steps: seq<Action>): nat {
    if steps == [] then 0 else PollsIn(steps[..|steps| - 1]) + if steps[|steps| - 1].Poll? then 1 else 0
  }

  lemma {:induction false} PollsConcat(first: seq<Action>, second: seq<Action>)
    ensures PollsIn(first + second) == PollsIn(first) + PollsIn(second)
    decreases |second|
  {
    if second == [] {
      assert first + second == first;
    } else {
      assert (first + second)[..|first + second| - 1] == first + second[..|second| - 1];
      PollsConcat(first, second[..|second| - 1]);
    }
  }

  lemma {:induction false} PollComesFirst(steps: seq<Action>)
    requires steps != [] && steps[0].Poll? && forall i :: 0 < i < |steps| ==> !steps[i].Poll?
    ensures PollsIn(steps) == 1
    decreases |steps|
  {
    if |steps| > 1 {
      PollComesFirst(steps[..|steps| - 1]);
    } else {
      assert steps[..0] == [];
    }
  }

  lemma OnePollIsOne(steps: seq<Action>, w: WorkerId)
    requires OnePoll(steps, w)
    ensures PollsIn(steps) == 1
  {
    if steps[0].pick.Some? {
      var front := steps[..|steps| - 1];
      assert forall i :: 0 <= i < |front| ==> steps[i] == front[i];
    }
    PollComesFirst(steps);
  }

  class Worker {
    const id: WorkerId
    const store: JobStore
    const log: EffectLog
    var processed: nat

    constructor (id: WorkerId, store: JobStore, log: EffectLog)
      ensures this.id == id && this.store == store && this.log == log && processed == 0
    {
      this.id, this.store, this.log, processed := id, store, log, 0;
    }

    /** `s` is a protocol state whose store and log are the real ones, and in which this worker is idle. */
    ghost predicate Reflects(s: System)
      reads store, log
    {
      s.db == store.Contents() && s.log == log.entries && id < |s.workers|
    }

    /** The ghost run `steps` leads from `s` to `now`, and `now` is the real state. */
    ghost predicate At(s: System, steps: seq<Action>, now: System)
      reads store, log
    {
      CanRunAll(s, steps) && now == RunAll(s, steps) && Reflects(now) && |now.workers| == |s.workers|
    }

    /** Process at most one job. `end` is the state that the ghost run `steps` reaches from `s`. */
    method RunOnce(script: Script, ghost s: System)
      returns (result: PollResult, ghost end: System, ghost steps: seq<Action>)
      requires Reflects(s) && s.workers[id].Idle?
      modifies this, store, log
      ensures At(s, steps, end) && end.workers[id].Idle?
      ensures if result.Escaped? then EscapedPoll(steps, id) else OnePoll(steps, id) && result.Handled? == steps[0].pick.Some?
      ensures !result.Escaped? ==>
        (result.Handled? <==> exists j :: j in old(store.jobs) && Runnable(old(store.jobs)[j], script.claimAt))
      ensures script.claimFault.BeforeCommit? ==> result.Escaped? && steps == []
      ensures steps == [] || (steps[0].pick.None? && |steps| == 1) ==>
        store.jobs == old(store.jobs) && store.ledger == old(store.ledger) && log.entries == old(log.entries)
      ensures !script.claimFault.BeforeCommit? ==>
        && steps != [] && steps[0].Poll? && ClaimAnswer(old(store.jobs), steps[0].pick, script.claimAt)
        && (steps[0].pick.None? ==> result.Nothing?)
        && (steps[0].pick.Some? && script.claimFault.AfterCommit? ==>
              && result.Escaped? && store.ledger == old(store.ledger) && log.entries == old(log.entries)
              && ClaimedRow(old(store.jobs), store.jobs, steps[0].pick.value, id, script.claimAt + store.leaseSeconds))
        && (steps[0].pick.Some? && script.claimFault.NoFault? ==>
              && !result.Nothing?
              && JobOutcome(old(store.jobs), old(store.ledger), old(log.entries), store.jobs, store.ledger, log.entries,
                            steps[0].pick.value, id, store.policy, script, result.Escaped?))
      // A job of a known type without a fault is completed, and delivered exactly if its key was new.
      ensures script.claimFault.NoFault? && steps[0].pick.Some? ==>
        var job := steps[0].pick.value;
        var kind, effectKey := old(store.jobs)[job].kind, old(store.jobs)[job].kind + ":" + old(store.jobs)[job].key;
        kind in KINDS && script.handlerError.None? && script.appendError.None? && script.completeError.None? ==>
          && result.Handled? && store.jobs[job].status == Completed && effectKey in store.ledger
          && log.entries == if effectKey in old(store.ledger) then old(log.entries)
                            else old(log.entries) + [Effect(job, effectKey)]
      // Any other job is retried or dead-lettered; it leaves its key behind exactly if it got as far as the ledger.
      ensures script.claimFault.NoFault? && steps[0].pick.Some? && script.failError.None? ==>
        var job := steps[0].pick.value;
        var r, effectKey := old(store.jobs)[job], old(store.jobs)[job].kind + ":" + old(store.jobs)[job].key;
        var early := r.kind !in KINDS || script.handlerError.Some?;
        early || (script.appendError.Some? && effectKey !in old(store.ledger)) || script.completeError.Some? ==>
          && result.Handled?
          && store.jobs[job].status == (if r.attempts + 1 >= r.maxAttempts then Dlq else Retrying)
          && (early ==> store.ledger == old(store.ledger) && log.entries == old(log.entries))
          && (!early ==> effectKey in store.ledger)
          && (log.entries != old(log.entries) <==> !early && effectKey !in old(store.ledger) && script.appendError.None?)
      ensures processed == old(processed) +
        if result.Handled? && store.jobs[steps[0].pick.value].status == Completed then 1 else 0
    {
      if script.claimFault.BeforeCommit? {
        return Escaped, s, [];
      }
      var pick;
      pick, end, steps := Claim(script.claimAt, s);
      if pick.None? {
        return Nothing, end, steps;
      }
      if script.claimFault.AfterCommit? {
        end, steps := Abandon(s, end, steps);
        return Escaped, end, steps;
      }
      var escaped;
      escaped, end, steps := Proceed(pick.value, script, old(store.jobs), s, end, steps);
      result := if escaped then Escaped else Handled;
    }

    method Proceed(job: JobId, script: Script, ghost jobs: map<JobId, Row>, ghost s: System, ghost mid: System, ghost before: seq<Action>)
      returns (escaped: bool, ghost end: System, ghost steps: seq<Action>)
      requires At(s, before, mid) && mid.workers[id].Running?
      requires RunsRow(mid.workers[id].ctx, job) && JobBegun(before, id)
      requires ClaimedRow(jobs, store.jobs, job, id, script.claimAt + store.leaseSeconds)
      modifies this`processed, store, log
      ensures At(s, steps, end) && end.workers[id].Idle?
      ensures steps != [] && before <= steps && (if escaped then EscapedPoll(steps, id) else OnePoll(steps, id))
      ensures JobOutcome(jobs, old(store.ledger), old(log.entries), store.jobs, store.ledger, log.entries,
                         job, id, store.policy, script, escaped)
      ensures processed == old(processed) + if store.jobs[job].status == Completed then 1 else 0
    {
      ghost var claimed := store.jobs;
      escaped, end, steps := Process(job, script, s, mid, before);
      assert steps[0] == before[0];
      ClaimThenOutcome(jobs, claimed, store.jobs, old(store.ledger), old(log.entries), store.ledger, log.entries,
                       job, id, script.claimAt + store.leaseSeconds, store.policy, script, escaped);
    }

    /** An exception escapes with the job claimed. */
    ghost method Abandon(s: System, mid: System, before: seq<Action>) returns (end: System, steps: seq<Action>)
      requires At(s, before, mid) && JobBegun(before, id)
      ensures At(s, steps, end) && end.workers[id].Idle?
      ensures EscapedPoll(steps, id) && steps == before + [Crash(id)]
    {
      end, steps := Step(s, mid, before, Crash(id));
      assert steps[..|steps| - 1] == before;
    }

    /** The handler and the outcome of a claimed job. */
    method Process(job: JobId, script: Script, ghost s: System, ghost mid: System, ghost before: seq<Action>)
      returns (escaped: bool, ghost end: System, ghost steps: seq<Action>)
      requires At(s, before, mid) && mid.workers[id].Running?
      requires RunsRow(mid.workers[id].ctx, job) && JobBegun(before, id) && Holds(store.jobs, job, id)
      modifies this`processed, store, log
      ensures At(s, steps, end) && end.workers[id].Idle?
      ensures |steps| > |before| && before <= steps && JobBegun(steps[..|steps| - 1], id)
      ensures var last := steps[|steps| - 1];
        && (if escaped then last.Crash? else last.Finish? || last.Fail?) && last.w == id
      ensures OutcomeSets(old(store.jobs), store.jobs, job, store.policy,
        JobRaises(old(store.jobs)[job].kind, old(store.jobs)[job].key, old(store.ledger), script), script, escaped)
      ensures HandlerLeaves(old(store.jobs)[job], old(store.ledger), old(log.entries), store.ledger, log.entries, job, script)
      ensures processed == old(processed) + if store.jobs[job].status == Completed then 1 else 0
    {
      var error;
      error, end, steps := Handle(job, script, s, mid, before);
      BegunContinues(id, before, steps);
      ghost var handled := steps;
      ghost var beaten := store.jobs;
      escaped, end, steps := Settle(job, error, script, s, end, steps);
      BegunContinues(id, handled, steps[..|steps| - 1]);
      LeaseThenOutcome(old(store.jobs), beaten, store.jobs, job, store.policy,
                       error.Some? || script.completeError.Some?, script, escaped);
    }

    /** The outcome of a handled job: completion, or the failure that an exception makes of it, unless that raises too. */
    method Settle(job: JobId, handlerError: Option<string>, script: Script,
                  ghost s: System, ghost mid: System, ghost before: seq<Action>)
      returns (escaped: bool, ghost end: System, ghost steps: seq<Action>)
      requires At(s, before, mid) && !mid.workers[id].Idle? && mid.workers[id].ctx.job == job
      requires if handlerError.None? then mid.workers[id].Finishing? else mid.workers[id].Failing?
      requires Holds(store.jobs, job, id)
      modifies this`processed, store`jobs, store`events
      ensures At(s, steps, end) && end.workers[id].Idle?
      ensures |steps| > |before| && Continues(id, before, steps[..|steps| - 1])
      ensures var last := steps[|steps| - 1];
        && (if escaped then last.Crash? else last.Finish? || last.Fail?) && last.w == id
      ensures OutcomeSets(old(store.jobs), store.jobs, job, store.policy, handlerError.Some? || script.completeError.Some?, script, escaped)
      ensures processed == old(processed) + if store.jobs[job].status == Completed then 1 else 0
    {
      end, steps := mid, before;
      var error := handlerError;
      if error.None? && script.completeError.Some? {
        error := script.completeError;
        end, steps := Local(s, end, steps, FinishRaise(id));
      }
      ghost var raised := steps;
      escaped, end, steps := Conclude(job, error, script, s, end, steps);
      assert steps[..|steps| - 1] == raised;
    }

    method Conclude(job: JobId, error: Option<string>, script: Script,
                    ghost s: System, ghost mid: System, ghost before: seq<Action>)
      returns (escaped: bool, ghost end: System, ghost steps: seq<Action>)
      requires At(s, before, mid) && !mid.workers[id].Idle? && mid.workers[id].ctx.job == job
      requires if error.None? then mid.workers[id].Finishing? else mid.workers[id].Failing?
      requires Holds(store.jobs, job, id)
      modifies this`processed, store`jobs, store`events
      ensures At(s, steps, end) && end.workers[id].Idle?
      ensures |steps| == |before| + 1 && steps[..|before|] == before
      ensures var last := steps[|before|];
        && (if escaped then last.Crash? else last.Finish? || last.Fail?) && last.w == id
      ensures OutcomeSets(old(store.jobs), store.jobs, job, store.policy, error.Some?, script, escaped)
      ensures processed == old(processed) + if store.jobs[job].status == Completed then 1 else 0
    {
      escaped := error.Some? && script.failError.Some?;
      if escaped {
        end, steps := Step(s, mid, before, Crash(id));
      } else if error.None? {
        end, steps := Complete(job, script, s, mid, before);
        processed := processed + 1;
      } else {
        end, steps := RecordFailure(job, error.value, script, s, mid, before);
      }
    }

    /** A handler of the default registry; an unknown type and every injected fault surface as an error. */
    method Handle(job: JobId, script: Script, ghost s: System, ghost mid: System, ghost before: seq<Action>)
      returns (error: Option<string>, ghost end: System, ghost steps: seq<Action>)
      requires At(s, before, mid) && mid.workers[id].Running?
      requires RunsRow(mid.workers[id].ctx, job)
      modifies store, log
      ensures SameButLease(old(store.jobs), store.jobs, job)
      ensures old(store.jobs)[job].kind in KINDS ==>
        Beaten(old(store.jobs), store.jobs, job, id, store.leaseSeconds, script.beats)
      ensures HandlerLeaves(old(store.jobs)[job], old(store.ledger), old(log.entries), store.ledger, log.entries, job, script)
      ensures var r := old(store.jobs)[job];
        error.Some? <==> HandlerRaises(r.kind, script) || (Wins(r.kind, r.key, old(store.ledger), script) && script.appendError.Some?)
      ensures At(s, steps, end) && Continues(id, before, steps)
      ensures !end.workers[id].Idle? && end.workers[id].ctx == mid.workers[id].ctx
      ensures if error.None? then end.workers[id].Finishing? else end.workers[id].Failing?
    {
      end, steps := mid, before;
      var kind, key := store.jobs[job].kind, store.jobs[job].key;
      if kind !in KINDS {
        end, steps := Local(s, end, steps, Raise(id));
        return Some("no handler registered"), end, steps;
      }
      end, steps := Beats(job, script, s, end, steps);
      if script.handlerError.Some? {
        end, steps := Local(s, end, steps, Raise(id));
        return script.handlerError, end, steps;
      }
      error, end, steps := Deliver(job, kind, key, script, s, end, steps);
    }

    /** The ledger and the append; a key that is not new is somebody else's delivery. */
    method Deliver(job: JobId, kind: string, key: string, script: Script,
                   ghost s: System, ghost mid: System, ghost before: seq<Action>)
      returns (error: Option<string>, ghost end: System, ghost steps: seq<Action>)
      requires At(s, before, mid) && mid.workers[id].Running? && mid.workers[id].ctx.job == job
      requires mid.workers[id].ctx.kind == kind && mid.workers[id].ctx.key == key && kind in KINDS
      modifies store`ledger, log
      ensures var effectKey := kind + ":" + key;
        && store.ledger == (if effectKey in old(store.ledger) then old(store.ledger) else old(store.ledger)[effectKey := job])
        && log.entries == (if effectKey !in old(store.ledger) && script.appendError.None?
                           then old(log.entries) + [Effect(job, effectKey)] else old(log.entries))
        && (error.Some? <==> effectKey !in old(store.ledger) && script.appendError.Some?)
      ensures At(s, steps, end) && Continues(id, before, steps)
      ensures end.workers[id] == if error.None? then Finishing(mid.workers[id].ctx) else Failing(mid.workers[id].ctx)
    {
      var first;
      first, end, steps := Once(EffectKey(kind, key), job, s, mid, before);
      if !first {
        return None, end, steps;
      }
      if script.appendError.Some? {
        end, steps := Local(s, end, steps, AppendRaise(id));
        return script.appendError, end, steps;
      }
      end, steps := AppendEffect(job, EffectKey(kind, key), s, end, steps);
      error := None;
    }

    method Beats(job: JobId, script: Script, ghost s: System, ghost mid: System, ghost before: seq<Action>)
      returns (ghost end: System, ghost steps: seq<Action>)
      requires At(s, before, mid) && mid.workers[id].Running? && mid.workers[id].ctx.job == job && job in store.jobs
      modifies store`jobs
      ensures At(s, steps, end) && Continues(id, before, steps)
      ensures end.workers[id] == mid.workers[id]
      ensures SameButLease(old(store.jobs), store.jobs, job)
      ensures Beaten(old(store.jobs), store.jobs, job, id, store.leaseSeconds, script.beats)
    {
      end, steps := mid, before;
      for i := 0 to |script.beats|
        modifies store`jobs
        invariant Beaten(old(store.jobs), store.jobs, job, id, store.leaseSeconds, script.beats[..i])
        invariant SameButLease(old(store.jobs), store.jobs, job)
        invariant At(s, steps, end) && Continues(id, before, steps)
        invariant end.workers[id] == mid.workers[id]
      {
        end, steps := Heartbeat(job, script.beats[i], s, end, steps);
      }
    }

    /** The context is a snapshot of this row. */
    ghost predicate RunsRow(c: Ctx, job: JobId)
      reads store
    {
      c.job == job && job in store.jobs && c.kind == store.jobs[job].kind && c.key == store.jobs[job].key
    }

    method Claim(now: real, ghost s: System)
      returns (pick: Option<JobId>, ghost end: System, ghost steps: seq<Action>)
      requires Reflects(s) && s.workers[id].Idle?
      modifies store`jobs, store`events
      ensures ClaimAnswer(old(store.jobs), pick, now)
      ensures if pick.None? then store.jobs == old(store.jobs)
        else ClaimedRow(old(store.jobs), store.jobs, pick.value, id, now + store.leaseSeconds)
      ensures steps == [Poll(id, pick, now, now + store.leaseSeconds)] && At(s, steps, end)
      ensures pick.Some? <==> exists j :: j in old(store.jobs) && Runnable(old(store.jobs)[j], now)
      ensures if pick.None? then end.workers[id].Idle?
        else end.workers[id].Running? && RunsRow(end.workers[id].ctx, pick.value)
    {
      pick := store.Claim(id, now);
      end, steps := Step(s, s, [], Poll(id, pick, now, now + store.leaseSeconds));
    }

    method Heartbeat(job: JobId, now: real, ghost s: System, ghost mid: System, ghost before: seq<Action>)
      returns (ghost end: System, ghost steps: seq<Action>)
      requires At(s, before, mid) && mid.workers[id].Running? && mid.workers[id].ctx.job == job
      modifies store`jobs
      ensures store.jobs == if Holds(old(store.jobs), job, id)
        then old(store.jobs)[job := old(store.jobs)[job].(lease := Some(now + store.leaseSeconds))] else old(store.jobs)
      ensures steps == before + [Beat(id, now + store.leaseSeconds)] && At(s, steps, end)
      ensures end.workers == mid.workers
    {
      store.Heartbeat(job, id, now);
      end, steps := Step(s, mid, before, Beat(id, now + store.leaseSeconds));
      assert end.workers == mid.workers;
    }

    method Once(effectKey: string, job: JobId, ghost s: System, ghost mid: System, ghost before: seq<Action>)
      returns (first: bool, ghost end: System, ghost steps: seq<Action>)
      requires At(s, before, mid) && mid.workers[id].Running? && mid.workers[id].ctx.kind in KINDS
      requires mid.workers[id].ctx.job == job
      requires effectKey == EffectKey(mid.workers[id].ctx.kind, mid.workers[id].ctx.key)
      modifies store`ledger
      ensures first <==> effectKey !in old(store.ledger)
      ensures store.ledger == if first then old(store.ledger)[effectKey := job] else old(store.ledger)
      ensures steps == before + [Ledger(id)] && At(s, steps, end)
      ensures end.workers[id] == if first then Window(mid.workers[id].ctx) else Finishing(mid.workers[id].ctx)
    {
      first := store.SideEffectOnce(effectKey, job);
      end, steps := Step(s, mid, before, Ledger(id));
    }

    method AppendEffect(job: JobId, effectKey: string, ghost s: System, ghost mid: System, ghost before: seq<Action>)
      returns (ghost end: System, ghost steps: seq<Action>)
      requires At(s, before, mid) && mid.workers[id].Window? && mid.workers[id].ctx.job == job
      requires effectKey == EffectKey(mid.workers[id].ctx.kind, mid.workers[id].ctx.key)
      modifies log
      ensures log.entries == old(log.entries) + [Effect(job, effectKey)]
      ensures steps == before + [Append(id)] && At(s, steps, end)
      ensures end.workers[id] == Finishing(mid.workers[id].ctx)
    {
      log.entries := log.entries + [Effect(job, effectKey)];
      end, steps := Step(s, mid, before, Append(id));
    }

    method Complete(job: JobId, script: Script, ghost s: System, ghost mid: System, ghost before: seq<Action>)
      returns (ghost end: System, ghost steps: seq<Action>)
      requires At(s, before, mid) && mid.workers[id].Finishing? && mid.workers[id].ctx.job == job
      requires Holds(store.jobs, job, id)
      modifies store`jobs, store`events
      ensures OutcomeSets(old(store.jobs), store.jobs, job, store.policy, false, script, false)
      ensures steps == before + [Finish(id, script.doneAt, script.result)] && At(s, steps, end)
      ensures end.workers[id].Idle?
    {
      store.Complete(job, id, script.doneAt, script.result);
      end, steps := Step(s, mid, before, Finish(id, script.doneAt, script.result));
    }

    method RecordFailure(job: JobId, error: string, script: Script,
                         ghost s: System, ghost mid: System, ghost before: seq<Action>)
      returns (ghost end: System, ghost steps: seq<Action>)
      requires At(s, before, mid) && mid.workers[id].Failing? && mid.workers[id].ctx.job == job
      requires Holds(store.jobs, job, id) && script.failError.None?
      modifies store`jobs, store`events
      ensures OutcomeSets(old(store.jobs), store.jobs, job, store.policy, true, script, false)
      ensures |steps| == |before| + 1 && before <= steps && steps[|before|].Fail? && steps[|before|].w == id
      ensures At(s, steps, end) && end.workers[id].Idle?
    {
      ghost var delay :=
        if job in store.jobs then store.policy.DelayFor(store.jobs[job].attempts, script.jitter) else 0.0;
      var next := store.Fail(job, id, script.doneAt, script.jitter, error);
      end, steps := Step(s, mid, before, Fail(id, script.doneAt, delay, error));
    }

    /** An exception: the store is not involved. */
    ghost method Local(s: System, mid: System, before: seq<Action>, a: Action)
      returns (end: System, steps: seq<Action>)
      requires At(s, before, mid) && CanDo(mid, a)
      requires (a.Raise? || a.AppendRaise? || a.FinishRaise?) && a.w == id
      ensures steps == before + [a] && At(s, steps, end) && end.workers[id] == Failing(mid.workers[id].ctx)
    {
      end, steps := Step(s, mid, before, a);
    }

    /** Records one protocol step at the end of the ghost run. */
    ghost method Step(s: System, mid: System, before: seq<Action>, a: Action)
      returns (end: System, steps: seq<Action>)
      requires CanRunAll(s, before) && mid == RunAll(s, before) && CanDo(mid, a)
      ensures steps == before + [a] && CanRunAll(s, steps) && end == RunAll(s, steps) && end == Do(mid, a)
    {
      RunSnoc(s, before, a);
      end, steps := Do(mid, a), before + [a];
    }

    /**
      Polls until it is stopped or an exception escapes; the stop event arrives
      at the latest after as many polls as there are scripts.
     */
    method RunForever(scripts: seq<Script>, ghost s: System)
      returns (escaped: bool, ghost end: System, ghost steps: seq<Action>)
      requires Reflects(s) && s.workers[id].Idle?
      modifies this, store, log
      ensures At(s, steps, end) && end.workers[id].Idle? && SequentialSteps(steps, id, escaped)
      ensures old(processed) <= processed <= old(processed) + |scripts|
      // It stops only when it has polled for every script, or when an exception escapes.
      ensures !escaped ==> PollsIn(steps) == |scripts|
      ensures escaped ==> exists i :: 0 <= i < |scripts| && CanEscape(scripts[i])
    {
      escaped, end, steps := false, s, [];
      var i := 0;
      while i < |scripts| && !escaped
        invariant 0 <= i <= |scripts|
        invariant At(s, steps, end) && end.workers[id].Idle? && SequentialSteps(steps, id, escaped)
        invariant old(processed) <= processed <= old(processed) + i
        invariant !escaped ==> PollsIn(steps) == i
        invariant escaped ==> i > 0 && CanEscape(scripts[i - 1])
      {
        ghost var one: seq<Action>;
        var result;
        ghost var next: System;
        result, next, one := RunOnce(scripts[i], end);
        escaped := result.Escaped?;
        RunConcat(s, steps, one);
        PollsConcat(steps, one);
        if !escaped {
          OnePollIsOne(one, id);
        }
        PollIsSequential(one, id, escaped);
        SequentialAppend(steps, one, id, escaped);
        end, steps := next, steps + one;
        i := i + 1;
      }
    }
  }
}
