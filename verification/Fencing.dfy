/**
  Fencing (jobs/store.py:273-329 under jobs/worker.py): with distinct worker
  ids and workers that run one job at a time, the fence (worker id, Processing)
  accepts exactly the most recent claimer, although it compares no attempt number.
 */
module Fencing {
  import opened Common
  import opened Jobs
  import opened Delivery

  predicate IsClaim(e: Event, job: JobId) {
    e.job == job && e.to == Processing
  }

  ghost predicate LatestClaim(events: seq<Event>, job: JobId, c: nat) {
    && c < |events| && IsClaim(events[c], job)
    && forall k :: c < k < |events| ==> !IsClaim(events[k], job)
  }

  /** A worker's token is a claim of its own; if the row still names the worker, no later claim exists. */
  ghost predicate TokenOk(db: Db, w: WorkerId, pc: Pc) {
    !pc.Idle? ==>
      var c := pc.ctx;
      && c.job in db.jobs
      && c.claim < |db.events| && IsClaim(db.events[c.claim], c.job) && db.events[c.claim].worker == Some(w)
      && (db.jobs[c.job].worker == Some(w) ==> LatestClaim(db.events, c.job, c.claim))
  }

  /** The row names the worker of the latest claim; without a claim it names nobody. */
  ghost predicate RowToken(db: Db, job: JobId)
    requires job in db.jobs
  {
    && (forall c: nat :: LatestClaim(db.events, job, c) ==> db.events[c].worker == db.jobs[job].worker)
    && (db.jobs[job].worker.Some? ==> exists c: nat :: LatestClaim(db.events, job, c))
  }

  ghost predicate FenceInv(s: System) {
    && (forall w :: 0 <= w < |s.workers| ==> TokenOk(s.db, w, s.workers[w]))
    && (forall j :: j in s.db.jobs ==> RowToken(s.db, j))
    && (forall i :: 0 <= i < |s.db.events| && s.db.events[i].to == Processing ==> s.db.events[i].job in s.db.jobs)
  }

  /** A transaction that claims nothing: no claim event is added and no row changes its worker. */
  ghost predicate ClaimsNothing(db: Db, db': Db) {
    && db.events <= db'.events
    && (forall k :: |db.events| <= k < |db'.events| ==> db'.events[k].to != Processing)
    && (forall j :: j in db.jobs ==> j in db'.jobs && db'.jobs[j].worker == db.jobs[j].worker)
    && (forall j :: j in db'.jobs && j !in db.jobs ==> db'.jobs[j].worker.None?)
  }

  lemma NonClaimOps(db: Db, op: StoreOp)
    requires Enabled(db, op) && !(op.OpClaim? && op.pick.Some?)
    ensures ClaimsNothing(db, Apply(db, op))
  {
  }

  lemma NoNewClaim(db: Db, db': Db, job: JobId, c: nat)
    requires ClaimsNothing(db, db')
    ensures LatestClaim(db'.events, job, c) <==> LatestClaim(db.events, job, c)
  {
    assert forall k :: 0 <= k < |db.events| ==> db'.events[k] == db.events[k];
  }

  lemma TokenKept(db: Db, db': Db, w: WorkerId, pc: Pc)
    requires ClaimsNothing(db, db') && TokenOk(db, w, pc)
    ensures TokenOk(db', w, pc)
  {
    if !pc.Idle? {
      NoNewClaim(db, db', pc.ctx.job, pc.ctx.claim);
    }
  }

  lemma RowTokenKept(db: Db, db': Db, job: JobId)
    requires ClaimsNothing(db, db') && job in db'.jobs && (job in db.jobs ==> RowToken(db, job))
    requires forall i :: 0 <= i < |db.events| && db.events[i].to == Processing ==> db.events[i].job in db.jobs
    ensures RowToken(db', job)
  {
    forall c: nat ensures LatestClaim(db'.events, job, c) <==> LatestClaim(db.events, job, c) {
      NoNewClaim(db, db', job, c);
    }
  }

  lemma OtherOpsKeepTokens(s: System, a: Action)
    requires FenceInv(s) && CanDo(s, a) && !(a.Poll? && a.pick.Some?)
    ensures FenceInv(Do(s, a))
  {
    var s' := Do(s, a);
    var op := OpOf(s, a);
    if op.Some? {
      NonClaimOps(s.db, op.value);
    }
    assert ClaimsNothing(s.db, s'.db);
    forall w | 0 <= w < |s'.workers| ensures TokenOk(s'.db, w, s'.workers[w]) {
      TokenKept(s.db, s'.db, w, s.workers[w]);
    }
    forall j | j in s'.db.jobs ensures RowToken(s'.db, j) {
      RowTokenKept(s.db, s'.db, j);
    }
    assert forall k :: 0 <= k < |s.db.events| ==> s'.db.events[k] == s.db.events[k];
  }

  lemma PollKeepsTokens(s: System, a: Action)
    requires FenceInv(s) && CanDo(s, a) && a.Poll? && a.pick.Some?
    ensures FenceInv(Do(s, a))
  {
    var db, db' := s.db, Do(s, a).db;
    var p, n := a.pick.value, |s.db.events|;
    assert IsClaim(db'.events[n], p) && LatestClaim(db'.events, p, n);
    forall j, c: nat | j != p ensures LatestClaim(db'.events, j, c) <==> LatestClaim(db.events, j, c) {
      assert forall k :: 0 <= k < n ==> db'.events[k] == db.events[k];
    }
    forall w | 0 <= w < |s.workers| ensures TokenOk(db', w, Do(s, a).workers[w]) {
      assert TokenOk(db, w, s.workers[w]);
    }
    forall j | j in db'.jobs ensures RowToken(db', j) {
      assert RowToken(db, j);
    }
  }

  lemma {:induction false} FenceRun(s: System, actions: seq<Action>)
    requires FenceInv(s) && CanRunAll(s, actions)
    ensures FenceInv(RunAll(s, actions))
    decreases |actions|
  {
    if actions != [] {
      if actions[0].Poll? && actions[0].pick.Some? {
        PollKeepsTokens(s, actions[0]);
      } else {
        OtherOpsKeepTokens(s, actions[0]);
      }
      FenceRun(Do(s, actions[0]), actions[1..]);
    }
  }

  /** The fence accepts a busy worker exactly when its claim is the latest one of the job and the job is in progress. */
  lemma FenceIsLatestClaim(s: System, actions: seq<Action>, w: WorkerId)
    requires Initial(s) && CanRunAll(s, actions)
    requires var s' := RunAll(s, actions); w < |s'.workers| && !s'.workers[w].Idle?
    ensures
      var s' := RunAll(s, actions);
      var c := s'.workers[w].ctx;
      && c.job in s'.db.jobs
      && (Holds(s'.db.jobs, c.job, w) <==>
          LatestClaim(s'.db.events, c.job, c.claim) && s'.db.jobs[c.job].status == Processing)
  {
    FenceRun(s, actions);
    var s' := RunAll(s, actions);
    assert TokenOk(s'.db, w, s'.workers[w]);
    assert RowToken(s'.db, s'.workers[w].ctx.job);
  }

  /** Someone has claimed the job after this worker did. */
  ghost predicate TakenOver(db: Db, c: Ctx) {
    exists k :: c.claim < k < |db.events| && IsClaim(db.events[k], c.job)
  }

  lemma RefusedChangesNothing(s: System, a: Action)
    requires CanDo(s, a) && !a.Submit? && !a.Requeue?
    requires !s.workers[a.w].Idle? && !Holds(s.db.jobs, s.workers[a.w].ctx.job, a.w)
    ensures Do(s, a).db.jobs == s.db.jobs && Do(s, a).db.events == s.db.events
  {
  }

  /**
    Once another claim has taken over its lease, nothing that a worker still
    does about that claim changes a job row or the event log, however late.
   */
  lemma TakeoverIsFinal(s: System, actions: seq<Action>, c: Ctx, a: Action)
    requires FenceInv(s) && CanRunAll(s, actions) && TakenOver(s.db, c)
    requires CanDo(RunAll(s, actions), a) && !a.Submit? && !a.Requeue?
    requires !RunAll(s, actions).workers[a.w].Idle? && RunAll(s, actions).workers[a.w].ctx == c
    ensures Do(RunAll(s, actions), a).db.jobs == RunAll(s, actions).db.jobs
    ensures Do(RunAll(s, actions), a).db.events == RunAll(s, actions).db.events
  {
    var late := RunAll(s, actions);
    FenceRun(s, actions);
    RunExtends(s, actions);
    var k :| c.claim < k < |s.db.events| && IsClaim(s.db.events[k], c.job);
    assert IsClaim(late.db.events[k], c.job);
    assert TokenOk(late.db, a.w, late.workers[a.w]);
    assert !Holds(late.db.jobs, c.job, a.w);
    RefusedChangesNothing(late, a);
  }
}
