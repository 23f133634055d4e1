/**
  The delivery protocol (jobs/worker.py over jobs/store.py).

  Any number of workers share one store. Each worker is a program counter: it
  claims a job, runs the handler up to the ledger, and, if it won the ledger
  key, is in a window until it has appended to the effect log. Every action
  below is one atomic step, taken in any order, and a worker may crash at any
  point; a crashed worker comes back idle under its own id.
 */
module Delivery {
  import opened Common
  import opened Jobs

  // ----- Handlers -----

  /** The job types that the default registry knows. */
  const KINDS: set<string> := {"send_email", "generate_report", "sync_webhook", "process_document", "business_write"}

  /** The ledger key of a job: its type, a colon, its idempotency key. */
  function EffectKey(kind: string, key: string): string {
    kind + ":" + key
  }

  function RowEffectKey(r: Row): string {
    EffectKey(r.kind, r.key)
  }

  lemma EffectKeyInjective(kind: string, key: string, kind': string, key': string)
    requires kind in KINDS && kind' in KINDS
    requires EffectKey(kind, key) == EffectKey(kind', key')
    ensures kind == kind' && key == key'
  {
    var a, b := EffectKey(kind, key), EffectKey(kind', key');
    assert a[0] == kind[0] && b[0] == kind'[0] && a[1] == kind[1] && b[1] == kind'[1];
    assert kind == kind';
    assert key == a[|kind| + 1..] == b[|kind'| + 1..] == key';
  }

  // ----- The system -----

  /** The job snapshot a worker holds; `claim` is the position of its claim in the event log. */
  datatype Ctx = Ctx(job: JobId, kind: string, key: string, claim: nat)

  datatype Pc =
    | Idle
    | Running(ctx: Ctx)    // in the handler, before the ledger
    | Window(ctx: Ctx)     // won the ledger key, effect not yet appended
    | Finishing(ctx: Ctx)  // handler returned, about to complete the job
    | Failing(ctx: Ctx)    // an exception is about to be recorded

  datatype Effect = Effect(job: JobId, key: string)

  datatype System = System(
    db: Db,
    workers: seq<Pc>,
    log: seq<Effect>,        // the append-only effect log
    abandoned: seq<string>,  // history: keys of windows lost to a crash or an exception
    submitted: set<string>)  // history: keys ever submitted

  datatype Action =
    | Submit(id: JobId, key: string, kind: string, maxAttempts: int, now: real)
    | Requeue(job: JobId, now: real)
    | Poll(w: WorkerId, pick: Option<JobId>, now: real, until: real)
    | Beat(w: WorkerId, until: real)
    | Raise(w: WorkerId)
    | Ledger(w: WorkerId)
    | Append(w: WorkerId)
    | AppendRaise(w: WorkerId)
    | Finish(w: WorkerId, now: real, result: string)
    | FinishRaise(w: WorkerId)
    | Fail(w: WorkerId, now: real, delay: real, error: string)
    | Crash(w: WorkerId)

  ghost predicate CanDo(s: System, a: Action) {
    match a
    case Submit(id, _, _, _, _) => id !in s.db.jobs
    case Requeue(_, _) => true
    case _ =>
      && a.w < |s.workers|
      && var pc := s.workers[a.w];
         match a
         case Poll(_, pick, now, _) => pc.Idle? && ClaimAnswer(s.db.jobs, pick, now)
         case Beat(_, _) => pc.Running?
         case Raise(_) => pc.Running?
         case Ledger(_) => pc.Running? && pc.ctx.kind in KINDS
         case Append(_) => pc.Window?
         case AppendRaise(_) => pc.Window?
         case Finish(_, _, _) => pc.Finishing?
         case FinishRaise(_) => pc.Finishing?
         case Fail(_, _, _, _) => pc.Failing?
         case _ => true
  }

  /** The transaction an action runs, if it runs one. */
  function OpOf(s: System, a: Action): Option<StoreOp>
    requires CanDo(s, a)
  {
    match a
    case Submit(id, key, kind, maxAttempts, now) => Some(OpSubmit(id, key, kind, maxAttempts, now))
    case Requeue(job, now) => Some(OpRequeue(job, now))
    case Poll(w, pick, now, until) => Some(OpClaim(w, pick, now, until))
    case Beat(w, until) => Some(OpHeartbeat(s.workers[w].ctx.job, w, until))
    case Ledger(w) =>
      var c := s.workers[w].ctx;
      Some(OpLedger(EffectKey(c.kind, c.key), c.job))
    case Finish(w, now, result) => Some(OpComplete(s.workers[w].ctx.job, w, now, result))
    case Fail(w, now, delay, error) => Some(OpFail(s.workers[w].ctx.job, w, now, delay, error))
    case _ => None
  }

  function NextPc(s: System, a: Action): Pc
    requires CanDo(s, a) && !a.Submit? && !a.Requeue?
  {
    var pc := s.workers[a.w];
    match a
    case Poll(_, pick, _, _) =>
      if pick.None? then Idle
      else
        var r := s.db.jobs[pick.value];
        Running(Ctx(pick.value, r.kind, r.key, |s.db.events|))
    case Beat(_, _) => pc
    case Raise(_) => Failing(pc.ctx)
    case Ledger(_) =>
      if EffectKey(pc.ctx.kind, pc.ctx.key) in s.db.ledger then Finishing(pc.ctx) else Window(pc.ctx)
    case Append(_) => Finishing(pc.ctx)
    case AppendRaise(_) => Failing(pc.ctx)
    case FinishRaise(_) => Failing(pc.ctx)
    case _ => Idle
  }

  function Do(s: System, a: Action): System
    requires CanDo(s, a)
  {
    var op := OpOf(s, a);
    var db := if op.Some? then Apply(s.db, op.value) else s.db;
    if a.Submit? then s.(db := db, submitted := s.submitted + {a.key})
    else if a.Requeue? then s.(db := db)
    else
      var pc := s.workers[a.w];
      var s' := s.(db := db, workers := s.workers[a.w := NextPc(s, a)]);
      if a.Append? then s'.(log := s.log + [Effect(pc.ctx.job, EffectKey(pc.ctx.kind, pc.ctx.key))])
      else if (a.AppendRaise? || a.Crash?) && pc.Window?
      then s'.(abandoned := s.abandoned + [EffectKey(pc.ctx.kind, pc.ctx.key)])
      else s'
  }

  ghost predicate CanRunAll(s: System, actions: seq<Action>)
    decreases |actions|
  {
    actions == [] || (CanDo(s, actions[0]) && CanRunAll(Do(s, actions[0]), actions[1..]))
  }

  ghost function RunAll(s: System, actions: seq<Action>): System
    requires CanRunAll(s, actions)
    decreases |actions|
  {
    if actions == [] then s else RunAll(Do(s, actions[0]), actions[1..])
  }

  ghost predicate Initial(s: System) {
    && s.db == Db(map[], [], map[]) && s.log == [] && s.abandoned == [] && s.submitted == {}
    && forall w :: 0 <= w < |s.workers| ==> s.workers[w].Idle?
  }

  // ----- Where every ledger key is -----

  function Keys(log: seq<Effect>): multiset<string> {
    if log == [] then multiset{} else Keys(log[..|log| - 1]) + multiset{log[|log| - 1].key}
  }

  function OpenKey(pc: Pc): multiset<string> {
    if pc.Window? then multiset{EffectKey(pc.ctx.kind, pc.ctx.key)} else multiset{}
  }

  function Windows(workers: seq<Pc>): multiset<string> {
    if workers == [] then multiset{} else Windows(workers[..|workers| - 1]) + OpenKey(workers[|workers| - 1])
  }

  lemma AddBoth(a: multiset<string>, x: multiset<string>, b: multiset<string>, y: multiset<string>, c: multiset<string>)
    requires a + x == b + y
    ensures (a + c) + x == (b + c) + y
  {
    assert (a + c) + x == (a + x) + c;
    assert (b + c) + y == (b + y) + c;
  }

  lemma AddEither(a: multiset<string>, x: multiset<string>, y: multiset<string>)
    ensures (a + x) + y == (a + y) + x
  {
  }

  lemma {:induction false} WindowsUpdate(workers: seq<Pc>, w: nat, pc: Pc)
    requires w < |workers|
    ensures Windows(workers[w := pc]) + OpenKey(workers[w]) == Windows(workers) + OpenKey(pc)
  {
    var n := |workers| - 1;
    var rest, last, updated := workers[..n], OpenKey(workers[n]), workers[w := pc];
    assert Windows(workers) == Windows(rest) + last;
    if w == n {
      assert updated[..n] == rest && updated[n] == pc;
      AddEither(Windows(rest), OpenKey(pc), last);
    } else {
      assert updated[..n] == rest[w := pc] && updated[n] == workers[n] && rest[w] == workers[w];
      WindowsUpdate(rest, w, pc);
      AddBoth(Windows(rest[w := pc]), OpenKey(workers[w]), Windows(rest), OpenKey(pc), last);
    }
  }

  lemma {:induction false} WindowsWitness(workers: seq<Pc>, k: string) returns (w: nat)
    requires k in Windows(workers)
    ensures w < |workers| && workers[w].Window? && EffectKey(workers[w].ctx.kind, workers[w].ctx.key) == k
  {
    var n := |workers| - 1;
    if k in OpenKey(workers[n]) {
      w := n;
    } else {
      w := WindowsWitness(workers[..n], k);
    }
  }

  lemma {:induction false} WindowsMember(workers: seq<Pc>, w: nat)
    requires w < |workers| && workers[w].Window?
    ensures EffectKey(workers[w].ctx.kind, workers[w].ctx.key) in Windows(workers)
  {
    var n := |workers| - 1;
    if w < n {
      WindowsMember(workers[..n], w);
    }
  }

  /** The workers that won a ledger key and have not appended yet. */
  ghost function InWindows(workers: seq<Pc>): set<nat> {
    set w: nat | w < |workers| && workers[w].Window?
  }

  lemma InWindowsSnoc(workers: seq<Pc>, last: Pc)
    ensures |workers| !in InWindows(workers)
    ensures InWindows(workers + [last]) == InWindows(workers) + if last.Window? then {|workers|} else {}
  {
  }

  lemma {:induction false} WindowsCount(workers: seq<Pc>)
    ensures |Windows(workers)| == |InWindows(workers)|
  {
    if workers == [] {
      assert InWindows(workers) == {};
    } else {
      var n := |workers| - 1;
      var front, last := workers[..n], workers[n];
      WindowsCount(front);
      assert front + [last] == workers;
      InWindowsSnoc(front, last);
      assert Windows(workers) == Windows(front) + OpenKey(last);
      assert |Windows(workers)| == |Windows(front)| + if last.Window? then 1 else 0;
    }
  }

  lemma {:induction false} KeysWitness(log: seq<Effect>, k: string) returns (i: nat)
    requires k in Keys(log)
    ensures i < |log| && log[i].key == k
  {
    var n := |log| - 1;
    if log[n].key == k {
      i := n;
    } else {
      i := KeysWitness(log[..n], k);
    }
  }

  lemma {:induction false} KeysMember(log: seq<Effect>, i: nat)
    requires i < |log|
    ensures Keys(log)[log[i].key] >= 1
    ensures forall j :: i < j < |log| && log[j].key == log[i].key ==> Keys(log)[log[i].key] >= 2
  {
    var n := |log| - 1;
    if i < n {
      KeysMember(log[..n], i);
      assert forall j :: i < j < n ==> log[..n][j] == log[j];
    }
  }

  lemma {:induction false} KeysCount(log: seq<Effect>)
    ensures |Keys(log)| == |log|
  {
    if log != [] {
      KeysCount(log[..|log| - 1]);
    }
  }

  // ----- The invariant -----

  ghost predicate Consistent(db: Db, c: Ctx) {
    c.job in db.jobs && db.jobs[c.job].kind == c.kind && db.jobs[c.job].key == c.key
  }

  ghost predicate KeysUnique(jobs: map<JobId, Row>) {
    forall i, j :: i in jobs && j in jobs && jobs[i].key == jobs[j].key ==> i == j
  }

  ghost predicate LedgerOk(db: Db) {
    forall k :: k in db.ledger ==>
      var j := db.ledger[k];
      j in db.jobs && db.jobs[j].kind in KINDS && RowEffectKey(db.jobs[j]) == k
  }

  /** A handler of the default registry has settled the effect of this job, one way or another. */
  ghost predicate Settled(db: Db, kind: string, key: string) {
    kind in KINDS && EffectKey(kind, key) in db.ledger
  }

  ghost predicate PcOk(db: Db, pc: Pc) {
    !pc.Idle? ==>
      && Consistent(db, pc.ctx)
      && (pc.Window? || pc.Finishing? ==> Settled(db, pc.ctx.kind, pc.ctx.key))
  }

  ghost predicate WorkersOk(s: System) {
    forall w :: 0 <= w < |s.workers| ==> PcOk(s.db, s.workers[w])
  }

  ghost predicate LogOk(s: System) {
    forall i :: 0 <= i < |s.log| ==>
      var e := s.log[i];
      e.job in s.db.jobs && s.db.jobs[e.job].kind in KINDS && RowEffectKey(s.db.jobs[e.job]) == e.key
  }

  ghost predicate CompletedOk(db: Db) {
    forall j :: j in db.jobs && db.jobs[j].status == Completed ==> Settled(db, db.jobs[j].kind, db.jobs[j].key)
  }

  /** Every ledger key is in exactly one place: logged, in an open window, or abandoned. */
  ghost predicate Balanced(s: System) {
    multiset(s.db.ledger.Keys) == Keys(s.log) + Windows(s.workers) + multiset(s.abandoned)
  }

  ghost predicate EffectInv(s: System) {
    KeysUnique(s.db.jobs) && LedgerOk(s.db) && WorkersOk(s) && LogOk(s) && CompletedOk(s.db) && Balanced(s)
  }

  /** Jobs are never removed, and their type and key never change; the ledger and the event log only grow. */
  ghost predicate Extends(db: Db, db': Db) {
    && (forall j :: j in db.jobs ==>
          j in db'.jobs && db'.jobs[j].kind == db.jobs[j].kind && db'.jobs[j].key == db.jobs[j].key)
    && (forall k :: k in db.ledger ==> k in db'.ledger && db'.ledger[k] == db.ledger[k])
    && db.events <= db'.events
  }

  lemma ApplyExtends(db: Db, op: StoreOp)
    requires Enabled(db, op)
    ensures Extends(db, Apply(db, op))
    ensures KeysUnique(db.jobs) ==> KeysUnique(Apply(db, op).jobs)
  {
  }

  lemma DoExtends(s: System, a: Action)
    requires CanDo(s, a)
    ensures Extends(s.db, Do(s, a).db)
    ensures KeysUnique(s.db.jobs) ==> KeysUnique(Do(s, a).db.jobs)
    ensures |Do(s, a).workers| == |s.workers|
  {
    if OpOf(s, a).Some? {
      ApplyExtends(s.db, OpOf(s, a).value);
    }
  }

  /** Balance survives any move of keys between the four places that conserves them. */
  lemma Rebalance(s: System, s': System, gained: multiset<string>, entered: multiset<string>, left: multiset<string>,
                  logged: multiset<string>, lost: multiset<string>)
    requires Balanced(s)
    requires multiset(s'.db.ledger.Keys) == multiset(s.db.ledger.Keys) + gained
    requires Windows(s'.workers) + left == Windows(s.workers) + entered
    requires Keys(s'.log) == Keys(s.log) + logged
    requires multiset(s'.abandoned) == multiset(s.abandoned) + lost
    requires gained + left == entered + logged + lost
    ensures Balanced(s')
  {
    var rows, rows' := multiset(s.db.ledger.Keys), multiset(s'.db.ledger.Keys);
    forall k ensures rows'[k] == (Keys(s'.log) + Windows(s'.workers) + multiset(s'.abandoned))[k] {
      assert rows'[k] == (rows + gained)[k];
      assert (Windows(s'.workers) + left)[k] == (Windows(s.workers) + entered)[k];
      assert (gained + left)[k] == (entered + logged + lost)[k];
      assert rows[k] == (Keys(s.log) + Windows(s.workers) + multiset(s.abandoned))[k];
    }
  }

  lemma LedgerGain(ledger: map<string, JobId>, k: string, job: JobId)
    requires k !in ledger
    ensures multiset(ledger[k := job].Keys) == multiset(ledger.Keys) + multiset{k}
  {
    assert ledger[k := job].Keys == ledger.Keys + {k};
  }

  /** What each action does to the four places. */
  lemma LedgerMoves(s: System, a: Action) returns (gained: multiset<string>)
    requires CanDo(s, a)
    ensures multiset(Do(s, a).db.ledger.Keys) == multiset(s.db.ledger.Keys) + gained
    ensures a.Ledger? ==> gained == OpenKey(NextPc(s, a))
    ensures !a.Ledger? ==> gained == multiset{}
  {
    gained := multiset{};
    if a.Ledger? {
      var c := s.workers[a.w].ctx;
      var k := EffectKey(c.kind, c.key);
      if k !in s.db.ledger {
        LedgerGain(s.db.ledger, k, c.job);
        gained := multiset{k};
      }
    }
  }

  lemma KeysSnoc(log: seq<Effect>, e: Effect)
    ensures Keys(log + [e]) == Keys(log) + multiset{e.key}
  {
    assert (log + [e])[..|log|] == log;
  }

  /** Only an append changes the log, and only a lost window is abandoned. */
  lemma LogAfter(s: System, a: Action)
    requires CanDo(s, a)
    ensures Do(s, a).log == if a.Append?
      then s.log + [Effect(s.workers[a.w].ctx.job, EffectKey(s.workers[a.w].ctx.kind, s.workers[a.w].ctx.key))] else s.log
    ensures Do(s, a).abandoned == if (a.AppendRaise? || a.Crash?) && s.workers[a.w].Window?
      then s.abandoned + [EffectKey(s.workers[a.w].ctx.kind, s.workers[a.w].ctx.key)] else s.abandoned
  {
  }

  lemma LogMoves(s: System, a: Action) returns (logged: multiset<string>, lost: multiset<string>)
    requires CanDo(s, a)
    ensures Keys(Do(s, a).log) == Keys(s.log) + logged
    ensures multiset(Do(s, a).abandoned) == multiset(s.abandoned) + lost
    ensures logged == if a.Append? then OpenKey(s.workers[a.w]) else multiset{}
    ensures lost == if a.AppendRaise? || a.Crash? then OpenKey(s.workers[a.w]) else multiset{}
  {
    LogAfter(s, a);
    logged, lost := multiset{}, multiset{};
    if a.Append? {
      logged := OpenKey(s.workers[a.w]);
      var c := s.workers[a.w].ctx;
      KeysSnoc(s.log, Effect(c.job, EffectKey(c.kind, c.key)));
    } else if a.AppendRaise? || a.Crash? {
      lost := OpenKey(s.workers[a.w]);
    }
  }

  lemma WindowMoves(s: System, a: Action) returns (entered: multiset<string>, left: multiset<string>)
    requires CanDo(s, a)
    ensures Windows(Do(s, a).workers) + left == Windows(s.workers) + entered
    ensures entered == if a.Ledger? then OpenKey(NextPc(s, a)) else multiset{}
    ensures left == if a.Append? || a.AppendRaise? || a.Crash? then OpenKey(s.workers[a.w]) else multiset{}
  {
    entered, left := multiset{}, multiset{};
    if !a.Submit? && !a.Requeue? {
      WindowsUpdate(s.workers, a.w, NextPc(s, a));
      entered, left := OpenKey(NextPc(s, a)), OpenKey(s.workers[a.w]);
    }
  }

  lemma MovesConserve(entered: multiset<string>, left: multiset<string>, delivered: bool)
    ensures entered + left ==
      entered + (if delivered then left else multiset{}) + (if delivered then multiset{} else left)
  {
  }

  lemma BalancedStep(s: System, a: Action)
    requires Balanced(s) && CanDo(s, a)
    ensures Balanced(Do(s, a))
  {
    var gained := LedgerMoves(s, a);
    var logged, lost := LogMoves(s, a);
    var entered, left := WindowMoves(s, a);
    MovesConserve(gained, left, a.Append?);
    assert logged + lost == (if a.Append? then left else multiset{}) + (if a.Append? then multiset{} else left);
    Rebalance(s, Do(s, a), gained, entered, left, logged, lost);
  }

  lemma ApplyCompleted(db: Db, op: StoreOp)
    requires CompletedOk(db) && Enabled(db, op)
    requires op.OpComplete? && op.job in db.jobs ==> Settled(db, db.jobs[op.job].kind, db.jobs[op.job].key)
    ensures CompletedOk(Apply(db, op))
  {
    ApplyExtends(db, op);
    var db' := Apply(db, op);
    forall j | j in db'.jobs && db'.jobs[j].status == Completed
      ensures Settled(db', db'.jobs[j].kind, db'.jobs[j].key)
    {
      if j in db.jobs {
        assert db.jobs[j].status == Completed || (op.OpComplete? && op.job == j);
      }
    }
  }

  lemma CompletedStep(s: System, a: Action)
    requires EffectInv(s) && CanDo(s, a)
    ensures CompletedOk(Do(s, a).db)
  {
    var op := OpOf(s, a);
    if op.Some? {
      if a.Finish? {
        assert PcOk(s.db, s.workers[a.w]);
      }
      ApplyCompleted(s.db, op.value);
    }
  }

  lemma LedgerExtends(db: Db, db': Db)
    requires LedgerOk(db) && Extends(db, db') && db'.ledger == db.ledger
    ensures LedgerOk(db')
  {
  }

  lemma LedgerWins(db: Db, c: Ctx)
    requires LedgerOk(db) && Consistent(db, c) && c.kind in KINDS
    ensures LedgerOk(db.(ledger := db.ledger[EffectKey(c.kind, c.key) := c.job]))
  {
  }

  lemma ApplyLedger(db: Db, op: StoreOp)
    requires Enabled(db, op)
    ensures Apply(db, op).ledger ==
      if op.OpLedger? && op.effectKey !in db.ledger then db.ledger[op.effectKey := op.job] else db.ledger
  {
  }

  lemma LedgerStep(s: System, a: Action)
    requires LedgerOk(s.db) && WorkersOk(s) && CanDo(s, a)
    ensures LedgerOk(Do(s, a).db)
  {
    var op := OpOf(s, a);
    if op.Some? {
      ApplyLedger(s.db, op.value);
      ApplyExtends(s.db, op.value);
      if a.Ledger? {
        assert PcOk(s.db, s.workers[a.w]);
        LedgerWins(s.db, s.workers[a.w].ctx);
      } else {
        LedgerExtends(s.db, Apply(s.db, op.value));
      }
    }
  }

  lemma PcKept(db: Db, db': Db, pc: Pc)
    requires PcOk(db, pc) && Extends(db, db')
    ensures PcOk(db', pc)
  {
  }

  lemma NextPcOk(s: System, a: Action)
    requires CanDo(s, a) && !a.Submit? && !a.Requeue? && PcOk(s.db, s.workers[a.w])
    ensures PcOk(Do(s, a).db, NextPc(s, a))
  {
    DoExtends(s, a);
    if a.Ledger? {
      ApplyLedger(s.db, OpOf(s, a).value);
    }
    PcKept(s.db, Do(s, a).db, s.workers[a.w]);
  }

  lemma WorkersStep(s: System, a: Action)
    requires WorkersOk(s) && CanDo(s, a)
    ensures WorkersOk(Do(s, a))
  {
    var s' := Do(s, a);
    DoExtends(s, a);
    forall w | 0 <= w < |s'.workers| ensures PcOk(s'.db, s'.workers[w]) {
      assert PcOk(s.db, s.workers[w]);
      if !a.Submit? && !a.Requeue? && w == a.w {
        NextPcOk(s, a);
      } else {
        PcKept(s.db, s'.db, s.workers[w]);
      }
    }
  }

  lemma LogStep(s: System, a: Action)
    requires WorkersOk(s) && LogOk(s) && CanDo(s, a)
    ensures LogOk(Do(s, a))
  {
    DoExtends(s, a);
    if a.Append? {
      assert PcOk(s.db, s.workers[a.w]);
    }
  }

  lemma EffectStep(s: System, a: Action)
    requires EffectInv(s) && CanDo(s, a)
    ensures EffectInv(Do(s, a))
  {
    DoExtends(s, a);
    BalancedStep(s, a);
    CompletedStep(s, a);
    LedgerStep(s, a);
    WorkersStep(s, a);
    LogStep(s, a);
  }

  lemma {:induction false} EffectRun(s: System, actions: seq<Action>)
    requires EffectInv(s) && CanRunAll(s, actions)
    ensures EffectInv(RunAll(s, actions))
    decreases |actions|
  {
    if actions != [] {
      EffectStep(s, actions[0]);
      EffectRun(Do(s, actions[0]), actions[1..]);
    }
  }

  // ----- The delivery guarantee -----

  /** In every reachable state the effect log holds at most one entry for each job. */
  lemma AtMostOnce(s: System, actions: seq<Action>, i: nat, j: nat)
    requires Initial(s) && CanRunAll(s, actions)
    requires i < j < |RunAll(s, actions).log|
    ensures RunAll(s, actions).log[i].job != RunAll(s, actions).log[j].job
  {
    InitialInv(s);
    EffectRun(s, actions);
    var s' := RunAll(s, actions);
    KeysMember(s'.log, i);
    var k := s'.log[i].key;
    assert multiset(s'.db.ledger.Keys)[k] <= 1;
  }

  lemma {:induction false} NoWindows(workers: seq<Pc>)
    requires forall w :: 0 <= w < |workers| ==> workers[w].Idle?
    ensures Windows(workers) == multiset{}
  {
    if workers != [] {
      NoWindows(workers[..|workers| - 1]);
    }
  }

  lemma InitialInv(s: System)
    requires Initial(s)
    ensures EffectInv(s)
  {
    NoWindows(s.workers);
  }

  /** Conservation: ledger rows are the logged effects, the open windows and the abandoned ones. */
  lemma EffectAccounting(s: System, actions: seq<Action>)
    requires Initial(s) && CanRunAll(s, actions)
    ensures
      var s' := RunAll(s, actions);
      |s'.db.ledger| == |s'.log| + |InWindows(s'.workers)| + |s'.abandoned|
  {
    InitialInv(s);
    EffectRun(s, actions);
    var s' := RunAll(s, actions);
    KeysCount(s'.log);
    WindowsCount(s'.workers);
    assert |multiset(s'.db.ledger.Keys)| == |s'.db.ledger.Keys|;
  }

  ghost predicate Logged(s: System, job: JobId) {
    exists i :: 0 <= i < |s.log| && s.log[i].job == job
  }

  ghost predicate InWindow(s: System, job: JobId) {
    exists w :: 0 <= w < |s.workers| && s.workers[w].Window? && s.workers[w].ctx.job == job
  }

  lemma SameEffectSameJob(s: System, i: JobId, j: JobId)
    requires KeysUnique(s.db.jobs) && i in s.db.jobs && j in s.db.jobs
    requires s.db.jobs[i].kind in KINDS && s.db.jobs[j].kind in KINDS
    requires RowEffectKey(s.db.jobs[i]) == RowEffectKey(s.db.jobs[j])
    ensures i == j
  {
    var a, b := s.db.jobs[i], s.db.jobs[j];
    EffectKeyInjective(a.kind, a.key, b.kind, b.key);
  }

  lemma LoggedByKey(s: System, job: JobId)
    requires KeysUnique(s.db.jobs) && LogOk(s) && job in s.db.jobs && s.db.jobs[job].kind in KINDS
    ensures Logged(s, job) <==> RowEffectKey(s.db.jobs[job]) in Keys(s.log)
  {
    var k := RowEffectKey(s.db.jobs[job]);
    if k in Keys(s.log) {
      var i := KeysWitness(s.log, k);
      SameEffectSameJob(s, s.log[i].job, job);
    }
    if i :| 0 <= i < |s.log| && s.log[i].job == job {
      KeysMember(s.log, i);
    }
  }

  lemma InWindowByKey(s: System, job: JobId)
    requires KeysUnique(s.db.jobs) && WorkersOk(s) && job in s.db.jobs && s.db.jobs[job].kind in KINDS
    ensures InWindow(s, job) <==> RowEffectKey(s.db.jobs[job]) in Windows(s.workers)
  {
    var k := RowEffectKey(s.db.jobs[job]);
    if k in Windows(s.workers) {
      var w := WindowsWitness(s.workers, k);
      assert PcOk(s.db, s.workers[w]);
      SameEffectSameJob(s, s.workers[w].ctx.job, job);
    }
    if w :| 0 <= w < |s.workers| && s.workers[w].Window? && s.workers[w].ctx.job == job {
      assert PcOk(s.db, s.workers[w]);
      WindowsMember(s.workers, w);
    }
  }

  /**
    A completed job is in exactly one of three situations: its effect is in the
    log, a worker that won its key is still about to append, or that one window
    was abandoned. So it was delivered exactly once, unless its window was lost.
   */
  lemma CompletedAccounted(s: System, actions: seq<Action>, job: JobId)
    requires Initial(s) && CanRunAll(s, actions)
    requires job in RunAll(s, actions).db.jobs && RunAll(s, actions).db.jobs[job].status == Completed
    ensures
      var s' := RunAll(s, actions);
      var lost := RowEffectKey(s'.db.jobs[job]) in s'.abandoned;
      && (Logged(s', job) || InWindow(s', job) || lost)
      && !(Logged(s', job) && InWindow(s', job)) && !(Logged(s', job) && lost) && !(InWindow(s', job) && lost)
      && (!InWindow(s', job) ==> (Logged(s', job) <==> !lost))
  {
    InitialInv(s);
    EffectRun(s, actions);
    var s' := RunAll(s, actions);
    LoggedByKey(s', job);
    InWindowByKey(s', job);
    var k := RowEffectKey(s'.db.jobs[job]);
    assert multiset(s'.db.ledger.Keys)[k] == 1;
    assert k in s'.abandoned <==> multiset(s'.abandoned)[k] > 0;
  }

  // ----- Deduplicated submission -----

  ghost predicate SubmissionInv(s: System) {
    && KeysUnique(s.db.jobs)
    && (forall j :: j in s.db.jobs ==> s.db.jobs[j].key in s.submitted)
    && (forall k :: k in s.submitted ==> HasKey(s.db.jobs, k))
  }

  lemma OnlySubmitAddsJobs(db: Db, op: StoreOp)
    requires Enabled(db, op)
    ensures forall j :: j in Apply(db, op).jobs && j !in db.jobs ==> op.OpSubmit? && Apply(db, op).jobs[j].key == op.key
  {
  }

  lemma KeysStaySubmitted(s: System, a: Action)
    requires SubmissionInv(s) && CanDo(s, a)
    ensures var s' := Do(s, a); forall j :: j in s'.db.jobs ==> s'.db.jobs[j].key in s'.submitted
  {
    var op := OpOf(s, a);
    if op.Some? {
      ApplyExtends(s.db, op.value);
      OnlySubmitAddsJobs(s.db, op.value);
      assert s.submitted <= Do(s, a).submitted;
    }
  }

  lemma SubmittedStaysOwned(s: System, a: Action, key: string)
    requires SubmissionInv(s) && CanDo(s, a) && key in Do(s, a).submitted
    ensures HasKey(Do(s, a).db.jobs, key)
  {
    var s' := Do(s, a);
    DoExtends(s, a);
    if key in s.submitted {
      var j :| j in s.db.jobs && s.db.jobs[j].key == key;
      assert j in s'.db.jobs && s'.db.jobs[j].key == key;
    } else {
      assert a.id in s'.db.jobs && s'.db.jobs[a.id].key == key;
    }
  }

  lemma SubmissionStep(s: System, a: Action)
    requires SubmissionInv(s) && CanDo(s, a)
    ensures SubmissionInv(Do(s, a))
  {
    DoExtends(s, a);
    KeysStaySubmitted(s, a);
    forall key | key in Do(s, a).submitted
      ensures HasKey(Do(s, a).db.jobs, key)
    {
      SubmittedStaysOwned(s, a, key);
    }
  }

  lemma {:induction false} SubmissionRun(s: System, actions: seq<Action>)
    requires SubmissionInv(s) && CanRunAll(s, actions)
    ensures SubmissionInv(RunAll(s, actions))
    decreases |actions|
  {
    if actions != [] {
      SubmissionStep(s, actions[0]);
      SubmissionRun(Do(s, actions[0]), actions[1..]);
    }
  }

  lemma {:induction false} CountKeys(jobs: map<JobId, Row>, keys: set<string>)
    requires KeysUnique(jobs)
    requires keys == set j | j in jobs :: jobs[j].key
    ensures |jobs| == |keys|
    decreases |jobs|
  {
    if j :| j in jobs {
      var rest := jobs - {j};
      var restKeys := set i | i in rest :: rest[i].key;
      forall k ensures k in restKeys <==> k in keys - {jobs[j].key} {
        if k in keys - {jobs[j].key} {
          var i :| i in jobs && jobs[i].key == k;
          assert i in rest && rest[i].key == k;
        }
      }
      assert restKeys == keys - {jobs[j].key};
      CountKeys(rest, restKeys);
      assert rest.Keys == jobs.Keys - {j};
      assert jobs[j].key in keys;
    } else {
      assert jobs == map[];
    }
  }

  /** However often keys are resubmitted, there are exactly as many jobs as distinct keys. */
  lemma JobsAreDistinctKeys(s: System, actions: seq<Action>)
    requires Initial(s) && CanRunAll(s, actions)
    ensures |RunAll(s, actions).db.jobs| == |RunAll(s, actions).submitted|
  {
    SubmissionRun(s, actions);
    var s' := RunAll(s, actions);
    CountKeys(s'.db.jobs, s'.submitted);
  }

  lemma {:induction false} RunExtends(s: System, actions: seq<Action>)
    requires CanRunAll(s, actions)
    ensures Extends(s.db, RunAll(s, actions).db)
    ensures |RunAll(s, actions).workers| == |s.workers|
    decreases |actions|
  {
    if actions != [] {
      DoExtends(s, actions[0]);
      RunExtends(Do(s, actions[0]), actions[1..]);
    }
  }

  /** The job that owns a key owns it forever: a later submission of the key creates nothing. */
  lemma KeyOwnerForever(s: System, actions: seq<Action>, job: JobId, later: Action)
    requires SubmissionInv(s) && CanRunAll(s, actions) && job in s.db.jobs
    requires later.Submit? && later.key == s.db.jobs[job].key && CanDo(RunAll(s, actions), later)
    ensures
      var s' := RunAll(s, actions);
      && Do(s', later).db == s'.db
      && forall j :: j in s'.db.jobs && s'.db.jobs[j].key == later.key ==> j == job
  {
    SubmissionRun(s, actions);
    RunExtends(s, actions);
  }
}
