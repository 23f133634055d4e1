/**
  One voice session (voice/runtime.py over voice/transport/websocket.py): the
  response tasks of an asyncio loop, interleaved at their await points.

  A step runs one task from one await point to the next, or is one synchronous
  stretch of the session itself. What is awaited (the router, localization,
  speech synthesis) answers in any way and at any time, or raises. A cancelled
  task runs nothing but its `finally` block. The send lock of the transport is
  first in, first out, and joining its queue does not suspend.
 */
module VoiceSessions {
  import opened Common

  type TaskId = nat

  /** The three ways a response comes to be spoken. `resume`: the verified request is answered next. */
  datatype Path = Main | System(resume: bool) | Duplicate

  /** Where a response task is suspended. */
  datatype Pc =
    | Created
    | Thinking
    | Waiting              // for the inference lock
    | Inference            // inside the router, holding the lock
    | Localizing(path: Path)
    | Announcing(path: Path)
    | Speaking(path: Path)      // for the next chunk of audio
    | SendingAudio(path: Path)  // for the send lock, or for the send
    | Draining(path: Path)      // for the end of playback
    | Closing(path: Path)
    | Done

  datatype Phase = PhaseIdle | PhaseInference | PhaseLocalizing | PhaseTts

  datatype Task = Task(gen: nat, pc: Pc, cancelled: bool) {
    predicate Live() { !pc.Done? }
    predicate Active() { Live() && !cancelled }
  }

  /** A message that waits for the wire: audio of a generation, or the clear of a barge-in. */
  datatype Packet = Audio(gen: nat, owner: TaskId) | Clear(gen: nat)

  datatype Session = Session(
    generation: nat,
    phase: Phase,
    current: Option<TaskId>,
    tasks: seq<Task>,           // all response tasks ever created, oldest first
    lock: Option<TaskId>,       // holder of the inference lock
    bargeIns: set<nat>,         // generations of barge-ins that wait for their clear to be sent
    queue: seq<Packet>,         // the send lock: its holder and its waiters
    wire: seq<Packet>)

  const SILENT: Session := Session(0, PhaseIdle, None, [], None, {}, [], [])

  datatype Move =
    | Schedule
    | BargeBegin
    | BargeEnd(gen: nat)
    | Transmit
    | Drop
    | Begin(t: TaskId)
    | RouteLocal(t: TaskId, path: Path)
    | RouteRouter(t: TaskId)
    | Acquire(t: TaskId)
    | Inferred(t: TaskId, challenge: bool)
    | Localized(t: TaskId)
    | Announced(t: TaskId, empty: bool)
    | NextAudio(t: TaskId, empty: bool)
    | AudioSent(t: TaskId)
    | StreamEnds(t: TaskId)
    | Drained(t: TaskId)
    | Closed(t: TaskId)
    | Raises(t: TaskId)
    | Unwinds(t: TaskId)

  predicate OfTask(m: Move) {
    !m.Schedule? && !m.BargeBegin? && !m.BargeEnd? && !m.Transmit? && !m.Drop?
  }

  function PcAt(s: Session, t: TaskId): Pc {
    if t < |s.tasks| then s.tasks[t].pc else Done
  }

  predicate CanMove(s: Session, m: Move) {
    if OfTask(m) then
      && m.t < |s.tasks| && s.tasks[m.t].Live()
      && s.tasks[m.t].cancelled == m.Unwinds?
      && var pc := s.tasks[m.t].pc;
         match m
         case Begin(_) => pc.Created?
         case RouteLocal(_, path) => pc.Thinking? && !path.Main?
         case RouteRouter(_) => pc.Thinking?
         case Acquire(_) => pc.Waiting? && s.lock.None?
         case Inferred(_, _) => pc.Inference?
         case Localized(_) => pc.Localizing?
         case Announced(_, _) => pc.Announcing?
         case NextAudio(_, _) => pc.Speaking?
         case AudioSent(t) => pc.SendingAudio? && forall i :: 0 <= i < |s.queue| ==> !Owned(s.queue[i], t)
         case StreamEnds(_) => pc.Speaking?
         case Drained(_) => pc.Draining?
         case Closed(_) => pc.Closing?
         case Raises(_) => !pc.Created?
         case _ => true
    else match m
      case BargeEnd(gen) => gen in s.bargeIns && Clear(gen) !in s.queue
      case Transmit => s.queue != []
      case Drop => s.queue != []
      case _ => true
  }

  predicate Owned(p: Packet, t: TaskId) {
    p.Audio? && p.owner == t
  }

  /** A task that ends gives up its place in the send queue. */
  function Without(queue: seq<Packet>, t: TaskId): seq<Packet> {
    if queue == [] then []
    else (if Owned(queue[0], t) then [] else [queue[0]]) + Without(queue[1..], t)
  }

  function SetPc(s: Session, t: TaskId, pc: Pc): Session
    requires t < |s.tasks|
  {
    s.(tasks := s.tasks[t := s.tasks[t].(pc := pc)])
  }

  /** The `finally` block of a response, and the end of its task. */
  function Finish(s: Session, t: TaskId): Session
    requires t < |s.tasks|
  {
    SetPc(s, t, Done).(
      phase := if s.tasks[t].gen == s.generation then PhaseIdle else s.phase,
      current := if s.current == Some(t) then None else s.current,
      lock := if s.lock == Some(t) then None else s.lock,
      queue := Without(s.queue, t))
  }

  /** A new turn cancels every unfinished response except those inside the router. */
  function CancelStale(tasks: seq<Task>): seq<Task> {
    seq(|tasks|, i requires 0 <= i < |tasks| =>
      if tasks[i].Live() && !tasks[i].pc.Inference? then tasks[i].(cancelled := true) else tasks[i])
  }

  function ScheduleResponse(s: Session): Session {
    s.(generation := s.generation + 1,
       tasks := CancelStale(s.tasks) + [Task(s.generation + 1, Created, false)],
       current := Some(|s.tasks|))
  }

  function BeginBargeIn(s: Session): Session {
    s.(generation := s.generation + 1,
       queue := s.queue + [Clear(s.generation + 1)],
       bargeIns := s.bargeIns + {s.generation + 1})
  }

  function EndBargeIn(s: Session, gen: nat): Session {
    s.(tasks :=
         if s.current.Some? && s.current.value < |s.tasks| && s.tasks[s.current.value].Live() && s.phase != PhaseInference
         then s.tasks[s.current.value := s.tasks[s.current.value].(cancelled := true)]
         else s.tasks,
       current := None,
       phase := PhaseIdle,
       bargeIns := s.bargeIns - {gen})
  }

  function Do(s: Session, m: Move): Session
    requires CanMove(s, m)
  {
    match m
    case Schedule => ScheduleResponse(s)
    case BargeBegin => BeginBargeIn(s)
    case BargeEnd(gen) => EndBargeIn(s, gen)
    case Transmit => s.(wire := s.wire + [s.queue[0]], queue := s.queue[1..])
    case Drop => s.(queue := s.queue[1..])
    case _ => DoTask(s, m)
  }

  predicate Fresh(s: Session, t: TaskId)
    requires t < |s.tasks|
  {
    s.tasks[t].gen == s.generation
  }

  function DoTask(s: Session, m: Move): Session
    requires OfTask(m) && CanMove(s, m)
  {
    var t := m.t;
    var pc := s.tasks[t].pc;
    match m
    case Begin(_) => SetPc(s, t, Thinking)
    case RouteLocal(_, path) => SetPc(s, t, Localizing(path))
    case RouteRouter(_) => SetPc(s, t, Waiting)
    case Acquire(_) => SetPc(s, t, Inference).(lock := Some(t), phase := PhaseInference)
    case Inferred(_, challenge) =>
      var released := s.(lock := None, phase := PhaseLocalizing);
      if !Fresh(s, t) then Finish(released, t)
      else SetPc(released, t, Localizing(if challenge then System(false) else Main))
    case Localized(_) =>
      // The duplicate path announces without comparing generations.
      if !pc.path.Duplicate? && !Fresh(s, t) then Finish(s, t) else SetPc(s, t, Announcing(pc.path))
    case Announced(_, empty) =>
      if pc.path.Main? && empty then Finish(s, t) else SetPc(s, t, Speaking(pc.path)).(phase := PhaseTts)
    case NextAudio(_, empty) =>
      if !Fresh(s, t) then Finish(s, t)
      else if empty then s
      else SetPc(s, t, SendingAudio(pc.path)).(queue := s.queue + [Audio(s.tasks[t].gen, t)])
    case AudioSent(_) => SetPc(s, t, Speaking(pc.path))
    case StreamEnds(_) => SetPc(s, t, Draining(pc.path))
    case Drained(_) =>
      if !Fresh(s, t) then Finish(s, t)
      else SetPc(s, t, Closing(pc.path)).(phase := if pc.path.System? then PhaseIdle else s.phase)
    case Closed(_) =>
      if pc.path == System(true) && Fresh(s, t) then SetPc(s, t, Thinking) else Finish(s, t)
    case Unwinds(_) =>
      // A task that is cancelled before its first step never enters the coroutine.
      if pc.Created? then SetPc(s, t, Done) else Finish(s, t)
    case Raises(_) => Finish(s, t)
  }

  ghost predicate CanRun(s: Session, moves: seq<Move>)
    decreases |moves|
  {
    moves == [] || (CanMove(s, moves[0]) && CanRun(Do(s, moves[0]), moves[1..]))
  }

  ghost function After(s: Session, moves: seq<Move>): Session
    requires CanRun(s, moves)
    decreases |moves|
  {
    if moves == [] then s else After(Do(s, moves[0]), moves[1..])
  }

  lemma {:induction false} RunAppend(s: Session, one: seq<Move>, two: seq<Move>)
    requires CanRun(s, one) && CanRun(After(s, one), two)
    ensures CanRun(s, one + two) && After(s, one + two) == After(After(s, one), two)
    decreases |one|
  {
    if one == [] {
      assert one + two == two;
    } else {
      assert (one + two)[1..] == one[1..] + two;
      RunAppend(Do(s, one[0]), one[1..], two);
    }
  }

  lemma RunAppendTwice(s: Session, one: seq<Move>, two: seq<Move>, three: seq<Move>)
    requires CanRun(s, one) && CanRun(After(s, one), two) && CanRun(After(After(s, one), two), three)
    ensures CanRun(s, one + two + three) && After(s, one + two + three) == After(After(After(s, one), two), three)
  {
    RunAppend(s, one, two);
    RunAppend(s, one + two, three);
  }

  // ----- The invariant of the tasks -----

  predicate Newest(s: Session, t: TaskId) {
    t == |s.tasks| - 1
  }

  ghost predicate Generations(s: Session) {
    && (forall i :: 0 <= i < |s.tasks| ==> s.tasks[i].gen <= s.generation)
    && (forall i, j :: 0 <= i < j < |s.tasks| ==> s.tasks[i].gen < s.tasks[j].gen)
  }

  /** The lock is held by exactly the task inside the router, and no such task is ever cancelled. */
  ghost predicate LockOk(s: Session) {
    && (s.lock.Some? ==> s.lock.value < |s.tasks|)
    && forall i :: 0 <= i < |s.tasks| ==>
      && (s.tasks[i].pc.Inference? <==> s.lock == Some(i))
      && (s.tasks[i].pc.Inference? ==> !s.tasks[i].cancelled)
  }

  /** A task that is neither finished nor cancelled is the newest one or inside the router. */
  ghost predicate ActiveOk(s: Session) {
    forall i :: 0 <= i < |s.tasks| && s.tasks[i].Active() ==> Newest(s, i) || s.tasks[i].pc.Inference?
  }

  /** The current task is the newest; and if it is inside the router, the phase says so. */
  ghost predicate CurrentOk(s: Session) {
    s.current.Some? ==>
      && Newest(s, s.current.value)
      && (PcAt(s, s.current.value).Inference? ==> s.phase == PhaseInference)
  }

  ghost predicate TasksInv(s: Session) {
    Generations(s) && LockOk(s) && ActiveOk(s) && CurrentOk(s)
  }

  lemma FinishKeeps(s: Session, t: TaskId)
    requires t < |s.tasks| && Generations(s) && ActiveOk(s)
    requires CurrentOk(s) || (s.current == Some(t) && Newest(s, t))
    requires s.lock.Some? ==> s.lock.value < |s.tasks|
    requires forall i :: 0 <= i < |s.tasks| && i != t ==>
      (s.tasks[i].pc.Inference? <==> s.lock == Some(i)) && (s.tasks[i].pc.Inference? ==> !s.tasks[i].cancelled)
    ensures TasksInv(Finish(s, t))
  {
  }

  /** A task that is not inside the router goes on outside it, or ends. */
  lemma PcKeeps(s: Session, t: TaskId, pc: Pc)
    requires TasksInv(s) && t < |s.tasks| && s.tasks[t].Live() && !s.tasks[t].pc.Inference? && !pc.Inference?
    requires s.tasks[t].cancelled ==> pc.Done?
    ensures TasksInv(SetPc(s, t, pc))
  {
  }

  lemma InferredKeeps(s: Session, m: Move)
    requires TasksInv(s) && CanMove(s, m) && m.Inferred?
    ensures TasksInv(Do(s, m))
  {
    var t := m.t;
    if !Fresh(s, t) {
      var released := s.(lock := None, phase := PhaseLocalizing);
      assert s.current.Some? && s.current != Some(t) ==> !PcAt(s, s.current.value).Inference?;
      FinishKeeps(released, t);
    } else {
      var last := s.tasks[|s.tasks| - 1];
      assert last.gen <= s.generation;
    }
  }

  lemma TaskMoveKeeps(s: Session, m: Move)
    requires TasksInv(s) && OfTask(m) && CanMove(s, m)
    ensures TasksInv(Do(s, m))
  {
    var t := m.t;
    if m.Inferred? {
      InferredKeeps(s, m);
    } else if Do(s, m) == Finish(s, t) {
      FinishKeeps(s, t);
    } else if !m.Acquire? && PcAt(s, t) != PcAt(Do(s, m), t) {
      PcKeeps(s, t, PcAt(Do(s, m), t));
    }
  }

  lemma SessionMoveKeeps(s: Session, m: Move)
    requires TasksInv(s) && !OfTask(m) && CanMove(s, m)
    ensures TasksInv(Do(s, m))
  {
  }

  lemma StepKeeps(s: Session, m: Move)
    requires TasksInv(s) && CanMove(s, m)
    ensures TasksInv(Do(s, m))
  {
    if OfTask(m) {
      TaskMoveKeeps(s, m);
    } else {
      SessionMoveKeeps(s, m);
    }
  }

  lemma {:induction false} TasksInvRun(s: Session, moves: seq<Move>)
    requires TasksInv(s) && CanRun(s, moves)
    ensures TasksInv(After(s, moves))
    decreases |moves|
  {
    if moves != [] {
      StepKeeps(s, moves[0]);
      TasksInvRun(Do(s, moves[0]), moves[1..]);
    }
  }

  /**
    In every run: no task inside the router is ever cancelled, by a new turn or
    by a barge-in; at most one task is there; and at most two tasks are neither
    finished nor cancelled.
   */
  lemma RouterUndisturbed(moves: seq<Move>, i: TaskId, j: TaskId, k: TaskId)
    requires CanRun(SILENT, moves)
    requires i < |After(SILENT, moves).tasks| && j < |After(SILENT, moves).tasks| && k < |After(SILENT, moves).tasks|
    ensures
      var tasks := After(SILENT, moves).tasks;
      && (tasks[i].pc.Inference? ==> !tasks[i].cancelled)
      && (tasks[i].pc.Inference? && tasks[j].pc.Inference? ==> i == j)
      && (tasks[i].Active() && tasks[j].Active() && tasks[k].Active() ==> i == j || j == k || i == k)
  {
    TasksInvRun(SILENT, moves);
  }

  // ----- What a barge-in cancels -----

  /** No response goes on, except inside the router. */
  predicate OnlyRouterGoesOn(s: Session) {
    forall i :: 0 <= i < |s.tasks| && s.tasks[i].Active() ==> s.tasks[i].pc.Inference?
  }

  /**
    A barge-in leaves nothing going on outside the router, exactly if the
    response it interrupts has ended, is itself inside the router, or is the
    current one at a moment when no response has set the phase to inference.
   */
  lemma BargeInStopsIff(s: Session, gen: nat)
    requires TasksInv(s) && CanMove(s, BargeEnd(gen)) && s.tasks != []
    ensures
      var last := s.tasks[|s.tasks| - 1];
      OnlyRouterGoesOn(Do(s, BargeEnd(gen))) <==>
        !last.Active() || last.pc.Inference? || (s.current.Some? && s.phase != PhaseInference)
  {
    var s' := Do(s, BargeEnd(gen));
    var n := |s.tasks| - 1;
    assert s'.tasks[n].pc == s.tasks[n].pc;
  }

  lemma EntersRouter()
    ensures var moves := [Schedule, Begin(0), RouteRouter(0), Acquire(0)];
      CanRun(SILENT, moves) && After(SILENT, moves) == Session(1, PhaseInference, Some(0), [Task(1, Inference, false)], Some(0), {}, [], [])
  {
    var scheduled := Session(1, PhaseIdle, Some(0), [Task(1, Created, false)], None, {}, [], []);
    assert Do(SILENT, Schedule) == scheduled;
    var moves := [Schedule, Begin(0), RouteRouter(0), Acquire(0)];
    var waiting := scheduled.(tasks := [Task(1, Waiting, false)]);
    RoutesAlone(scheduled, waiting);
    RunAppendTwice(SILENT, [Schedule], [Begin(0), RouteRouter(0)], [Acquire(0)]);
    assert moves == [Schedule] + [Begin(0), RouteRouter(0)] + [Acquire(0)];
  }

  lemma RoutesAlone(scheduled: Session, waiting: Session)
    requires scheduled == Session(1, PhaseIdle, Some(0), [Task(1, Created, false)], None, {}, [], [])
    requires waiting == scheduled.(tasks := [Task(1, Waiting, false)])
    ensures CanRun(scheduled, [Begin(0), RouteRouter(0)]) && After(scheduled, [Begin(0), RouteRouter(0)]) == waiting
    ensures CanRun(waiting, [Acquire(0)])
  {
    assert [Begin(0), RouteRouter(0)][1..] == [RouteRouter(0)];
  }

  lemma WaitsBehind(first: Session)
    requires first == Session(1, PhaseInference, Some(0), [Task(1, Inference, false)], Some(0), {}, [], [])
    ensures var moves := [Schedule, Begin(1), RouteRouter(1)];
      CanRun(first, moves) && After(first, moves) ==
        Session(2, PhaseInference, Some(1), [Task(1, Inference, false), Task(2, Waiting, false)], Some(0), {}, [], [])
  {
    var scheduled := Session(2, PhaseInference, Some(1), [Task(1, Inference, false), Task(2, Created, false)], Some(0), {}, [], []);
    assert Do(first, Schedule) == scheduled;
    var moves := [Schedule, Begin(1), RouteRouter(1)];
    assert moves[1..] == [Begin(1), RouteRouter(1)];
  }

  lemma IsSpared(second: Session)
    requires second == Session(2, PhaseInference, Some(1), [Task(1, Inference, false), Task(2, Waiting, false)], Some(0), {}, [], [])
    ensures var moves := [BargeBegin, Transmit, BargeEnd(3)];
      CanRun(second, moves) && After(second, moves) ==
        second.(generation := 3, current := None, phase := PhaseIdle, wire := [Clear(3)])
  {
    var cleared := second.(generation := 3, bargeIns := {3}, wire := [Clear(3)]);
    assert {3} - {3} == {};
    var moves := [BargeBegin, Transmit, BargeEnd(3)];
    assert moves[1..] == [Transmit, BargeEnd(3)] && moves[2..] == [BargeEnd(3)];
    assert Do(Do(second, BargeBegin), Transmit) == cleared;
  }

  /**
    A turn that waits behind a stale request for the router survives the
    barge-in that interrupts it, because the phase speaks of the stale request.
   */
  lemma BargeInSparesWaitingTurn(moves: seq<Move>)
    requires moves == [Schedule, Begin(0), RouteRouter(0), Acquire(0)] + [Schedule, Begin(1), RouteRouter(1)] + [BargeBegin, Transmit, BargeEnd(3)]
    ensures CanRun(SILENT, moves)
    ensures var s := After(SILENT, moves);
      |s.tasks| == 2 && s.tasks[1].Active() && s.tasks[1].pc.Waiting? && s.tasks[1].gen < s.generation && s.bargeIns == {}
  {
    EntersRouter();
    var first := Session(1, PhaseInference, Some(0), [Task(1, Inference, false)], Some(0), {}, [], []);
    WaitsBehind(first);
    IsSpared(Session(2, PhaseInference, Some(1), [Task(1, Inference, false), Task(2, Waiting, false)], Some(0), {}, [], []));
    RunAppendTwice(SILENT, [Schedule, Begin(0), RouteRouter(0), Acquire(0)], [Schedule, Begin(1), RouteRouter(1)], [BargeBegin, Transmit, BargeEnd(3)]);
  }

  /** The barge-in of this generation cancels a response that was started after it. */
  predicate CancelsLater(s: Session, gen: nat)
    requires CanMove(s, BargeEnd(gen))
  {
    exists i :: 0 <= i < |s.tasks| && s.tasks[i].Active() && s.tasks[i].gen > gen && !Do(s, BargeEnd(gen)).tasks[i].Active()
  }

  /**
    A barge-in cancels a response started after it, exactly if a later turn was
    scheduled, is still current and going on, and no response has set the phase
    to inference.
   */
  lemma BargeInCancelsLaterIff(s: Session, gen: nat)
    requires TasksInv(s) && CanMove(s, BargeEnd(gen))
    ensures CancelsLater(s, gen) <==>
      s.current.Some? && s.phase != PhaseInference
      && s.tasks[|s.tasks| - 1].gen > gen && s.tasks[|s.tasks| - 1].Active()
  {
    var s' := Do(s, BargeEnd(gen));
    assert forall i :: 0 <= i < |s.tasks| && s.current != Some(i) ==> s'.tasks[i] == s.tasks[i];
    if s.current.Some? && s.phase != PhaseInference && s.tasks[s.current.value].Active() {
      assert !s'.tasks[s.current.value].Active();
    }
  }

  /** A turn delivered while the clear of a barge-in waits for the wire is cancelled instead of the response interrupted. */
  lemma BargeInCancelsLaterTurn(moves: seq<Move>)
    requires moves == [Schedule, BargeBegin, Schedule] + [Transmit, BargeEnd(2)]
    ensures CanRun(SILENT, moves)
    ensures var s := After(SILENT, moves); |s.tasks| == 2 && s.tasks[1].cancelled && s.tasks[1].gen == s.generation > 2
  {
    var first := Task(1, Created, false);
    var later := Session(3, PhaseIdle, Some(1), [first.(cancelled := true), Task(3, Created, false)], None, {2}, [Clear(2)], []);
    var cleared := later.(queue := [], wire := [Clear(2)]);
    DeliveredMeanwhile();
    assert Do(later, Transmit) == cleared && CanMove(cleared, BargeEnd(2));
    assert [Transmit, BargeEnd(2)][1..] == [BargeEnd(2)];
    RunAppend(SILENT, [Schedule, BargeBegin, Schedule], [Transmit, BargeEnd(2)]);
    assert After(later, [Transmit, BargeEnd(2)]) == Do(cleared, BargeEnd(2));
  }

  lemma DeliveredMeanwhile()
    ensures var moves := [Schedule, BargeBegin, Schedule];
      CanRun(SILENT, moves) && After(SILENT, moves) ==
        Session(3, PhaseIdle, Some(1), [Task(1, Created, true), Task(3, Created, false)], None, {2}, [Clear(2)], [])
  {
    var moves := [Schedule, BargeBegin, Schedule];
    var s1 := Session(1, PhaseIdle, Some(0), [Task(1, Created, false)], None, {}, [], []);
    var s2 := Session(2, PhaseIdle, Some(0), [Task(1, Created, false)], None, {2}, [Clear(2)], []);
    assert Do(SILENT, Schedule) == s1 && Do(s1, BargeBegin) == s2;
    assert moves[1..] == [BargeBegin, Schedule] && moves[1..][1..] == [Schedule];
  }

  // ----- The wire -----

  function Sent(s: Session): seq<Packet> {
    s.wire + s.queue
  }

  /** Audio carries the generation of the response it belongs to; no response has the generation of a barge-in. */
  predicate PacketOk(s: Session, p: Packet) {
    match p
    case Audio(gen, owner) => owner < |s.tasks| && s.tasks[owner].gen == gen
    case Clear(gen) => gen <= s.generation && forall i :: 0 <= i < |s.tasks| ==> s.tasks[i].gen != gen
  }

  ghost predicate Ordered(ps: seq<Packet>) {
    forall i, j :: 0 <= i < j < |ps| ==> ps[i].gen <= ps[j].gen
  }

  ghost predicate WireInv(s: Session) {
    Ordered(Sent(s)) && forall i :: 0 <= i < |Sent(s)| ==> PacketOk(s, Sent(s)[i])
  }

  lemma {:induction false} WithoutMember(queue: seq<Packet>, t: TaskId, p: Packet)
    requires p in Without(queue, t)
    ensures p in queue && !Owned(p, t)
    decreases |queue|
  {
    if p in Without(queue[1..], t) {
      WithoutMember(queue[1..], t, p);
    }
  }

  lemma AppendAssoc(a: seq<Packet>, b: seq<Packet>, c: seq<Packet>)
    ensures a + b + c == a + (b + c)
  {
  }

  lemma StillOrdered(front: seq<Packet>, p: Packet, rest: seq<Packet>)
    requires Ordered(front + [p] + rest)
    ensures Ordered(front + rest)
  {
    var all, fewer := front + [p] + rest, front + rest;
    assert forall i :: 0 <= i < |fewer| ==> fewer[i] == all[if i < |front| then i else i + 1];
  }

  /** A sequence stays in order when it loses some of its members. */
  lemma {:induction false} WithoutOrdered(front: seq<Packet>, queue: seq<Packet>, t: TaskId)
    requires Ordered(front + queue)
    ensures Ordered(front + Without(queue, t))
    decreases |queue|
  {
    if queue != [] {
      var first, rest := queue[0], queue[1..];
      assert queue == [first] + rest;
      AppendAssoc(front, [first], rest);
      if Owned(first, t) {
        StillOrdered(front, first, rest);
        WithoutOrdered(front, rest, t);
        assert Without(queue, t) == Without(rest, t);
      } else {
        WithoutOrdered(front + [first], rest, t);
        AppendAssoc(front, [first], Without(rest, t));
      }
    }
  }

  lemma WithoutKeeps(s: Session, t: TaskId)
    requires WireInv(s)
    ensures WireInv(s.(queue := Without(s.queue, t)))
  {
    WithoutOrdered(s.wire, s.queue, t);
    var s' := s.(queue := Without(s.queue, t));
    forall i | 0 <= i < |Sent(s')|
      ensures PacketOk(s, Sent(s')[i])
    {
      if i >= |s.wire| {
        WithoutMember(s.queue, t, Sent(s')[i]);
      }
      assert Sent(s')[i] in Sent(s);
    }
  }

  lemma SendKeeps(s: Session, p: Packet)
    requires WireInv(s) && Generations(s) && p.gen == s.generation && PacketOk(s, p)
    ensures WireInv(s.(queue := s.queue + [p]))
  {
    assert s.wire + (s.queue + [p]) == Sent(s) + [p];
  }

  /** What the new state may change while the wire stays in order. */
  predicate Extends(s: Session, s': Session) {
    && s.generation <= s'.generation && |s.tasks| <= |s'.tasks|
    && (forall i :: 0 <= i < |s.tasks| ==> s'.tasks[i].gen == s.tasks[i].gen)
    && (forall i :: |s.tasks| <= i < |s'.tasks| ==> s'.tasks[i].gen > s.generation)
  }

  lemma MoveExtends(s: Session, m: Move)
    requires CanMove(s, m)
    ensures Extends(s, Do(s, m))
  {
  }

  lemma ExtendsKeeps(s: Session, s': Session)
    requires WireInv(s) && Extends(s, s') && Sent(s') == Sent(s)
    ensures WireInv(s')
  {
    forall i | 0 <= i < |Sent(s')|
      ensures PacketOk(s', Sent(s')[i])
    {
      assert PacketOk(s, Sent(s)[i]);
    }
  }

  /** The packets that the move leaves out or adds, in the state before the move. */
  function QueueAfter(s: Session, m: Move): Session
    requires CanMove(s, m)
  {
    s.(wire := Do(s, m).wire, queue := Do(s, m).queue)
  }

  lemma SessionQueueKeeps(s: Session, m: Move)
    requires WireInv(s) && CanMove(s, m) && !OfTask(m) && !m.BargeBegin?
    ensures WireInv(QueueAfter(s, m))
  {
    var s' := QueueAfter(s, m);
    if m.Drop? {
      assert s.queue == [s.queue[0]] + s.queue[1..];
      assert forall i :: 0 <= i < |Sent(s')| ==> Sent(s')[i] == Sent(s)[if i < |s.wire| then i else i + 1];
    } else {
      assert Sent(s') == Sent(s);
    }
  }

  lemma TaskQueueKeeps(s: Session, m: Move)
    requires WireInv(s) && Generations(s) && CanMove(s, m) && OfTask(m)
    ensures WireInv(QueueAfter(s, m))
  {
    var t := m.t;
    var s' := QueueAfter(s, m);
    if m.NextAudio? && Fresh(s, t) && !m.empty {
      SendKeeps(s, Audio(s.tasks[t].gen, t));
    } else if s'.queue != s.queue {
      assert s' == s.(queue := Without(s.queue, t));
      WithoutKeeps(s, t);
    }
  }

  lemma WireStep(s: Session, m: Move)
    requires TasksInv(s) && WireInv(s) && CanMove(s, m)
    ensures WireInv(Do(s, m))
  {
    MoveExtends(s, m);
    if m.BargeBegin? {
      var later := s.(generation := s.generation + 1);
      ExtendsKeeps(s, later);
      SendKeeps(later, Clear(later.generation));
      ExtendsKeeps(later.(queue := Do(s, m).queue), Do(s, m));
    } else {
      if OfTask(m) {
        TaskQueueKeeps(s, m);
      } else {
        SessionQueueKeeps(s, m);
      }
      ExtendsKeeps(QueueAfter(s, m), Do(s, m));
    }
  }

  lemma {:induction false} WireRun(s: Session, moves: seq<Move>)
    requires TasksInv(s) && WireInv(s) && CanRun(s, moves)
    ensures WireInv(After(s, moves))
    decreases |moves|
  {
    if moves != [] {
      WireStep(s, moves[0]);
      StepKeeps(s, moves[0]);
      WireRun(Do(s, moves[0]), moves[1..]);
    }
  }

  /**
    In every run, audio goes out in the order of the generations, those of one
    generation from one response; and once the clear of a barge-in is on the
    wire, only audio of later generations follows it, although older packets
    may have been waiting for the send lock.
   */
  lemma AudioInOrder(moves: seq<Move>, i: nat, j: nat)
    requires CanRun(SILENT, moves) && i < j < |After(SILENT, moves).wire|
    ensures
      var a, b := After(SILENT, moves).wire[i], After(SILENT, moves).wire[j];
      && a.gen <= b.gen
      && (a.Audio? && b.Audio? && a.gen == b.gen ==> a.owner == b.owner)
      && (a.Clear? && b.Audio? ==> a.gen < b.gen)
      && (a.Audio? && b.Clear? ==> a.gen < b.gen)
  {
    TasksInvRun(SILENT, moves);
    WireRun(SILENT, moves);
    SentInOrder(After(SILENT, moves), i, j);
  }

  lemma SentInOrder(s: Session, i: nat, j: nat)
    requires Generations(s) && WireInv(s) && i < j < |s.wire|
    ensures
      var a, b := s.wire[i], s.wire[j];
      && a.gen <= b.gen
      && (a.Audio? && b.Audio? && a.gen == b.gen ==> a.owner == b.owner)
      && (a.Clear? && b.Audio? ==> a.gen < b.gen)
      && (a.Audio? && b.Clear? ==> a.gen < b.gen)
  {
    assert Sent(s)[i] == s.wire[i] && Sent(s)[j] == s.wire[j];
    assert PacketOk(s, s.wire[i]) && PacketOk(s, s.wire[j]);
  }

  lemma NothingStaleJoins(s: Session, m: Move, p: Packet)
    requires CanMove(s, m) && p in Sent(Do(s, m))
    ensures p in Sent(s) || p.gen >= s.generation
  {
    if OfTask(m) && p in Without(s.queue, m.t) {
      WithoutMember(s.queue, m.t, p);
    }
  }

  /**
    Whatever a response computed for an earlier generation is discarded: from
    any state on, only packets of its generation or later ones join the wire.
   */
  lemma {:induction false} NothingStaleIsSent(s: Session, moves: seq<Move>, p: Packet)
    requires CanRun(s, moves) && p in Sent(After(s, moves))
    ensures p in Sent(s) || p.gen >= s.generation
    decreases |moves|
  {
    if moves != [] {
      var s1 := Do(s, moves[0]);
      NothingStaleIsSent(s1, moves[1..], p);
      if p in Sent(s1) {
        NothingStaleJoins(s, moves[0], p);
      } else {
        GenerationGrows(s, moves[0]);
      }
    }
  }

  lemma GenerationGrows(s: Session, m: Move)
    requires CanMove(s, m)
    ensures Do(s, m).generation >= s.generation
  {
  }

  // ----- What is spoken is sent, dropped or withdrawn -----

  /** How many packets of the sequence are audio of this task. */
  function OwnedCount(packets: seq<Packet>, t: TaskId): nat {
    if packets == [] then 0
    else OwnedCount(packets[..|packets| - 1], t) + if Owned(packets[|packets| - 1], t) then 1 else 0
  }

  lemma {:induction false} OwnedConcat(a: seq<Packet>, b: seq<Packet>, t: TaskId)
    ensures OwnedCount(a + b, t) == OwnedCount(a, t) + OwnedCount(b, t)
    decreases |b|
  {
    if b == [] {
      assert a + b == a;
    } else {
      assert (a + b)[..|a + b| - 1] == a + b[..|b| - 1];
      OwnedConcat(a, b[..|b| - 1], t);
    }
  }

  lemma OwnedFirst(queue: seq<Packet>, t: TaskId)
    requires queue != []
    ensures OwnedCount(queue, t) == (if Owned(queue[0], t) then 1 else 0) + OwnedCount(queue[1..], t)
  {
    assert queue == [queue[0]] + queue[1..];
    OwnedConcat([queue[0]], queue[1..], t);
    assert [queue[0]][..0] == [];
  }

  lemma {:induction false} OwnedWithout(queue: seq<Packet>, t: TaskId, u: TaskId)
    ensures OwnedCount(Without(queue, u), t) == if t == u then 0 else OwnedCount(queue, t)
    decreases |queue|
  {
    if queue != [] {
      OwnedWithout(queue[1..], t, u);
      OwnedFirst(queue, t);
      var first: seq<Packet> := if Owned(queue[0], u) then [] else [queue[0]];
      OwnedConcat(first, Without(queue[1..], u), t);
      assert [queue[0]][..0] == [];
    }
  }

  /** The task has a chunk of audio to send, and no newer generation forbids it. */
  predicate SpeaksNow(s: Session, m: Move, t: TaskId) {
    m.NextAudio? && m.t == t && !m.empty && t < |s.tasks| && s.tasks[t].gen == s.generation
  }

  /** How many packets of the task are lost: with a failed send, or when the task ends while it waits to send. */
  function Lost(s: Session, m: Move, t: TaskId): nat
    requires CanMove(s, m)
  {
    if m.Drop? then (if Owned(s.queue[0], t) then 1 else 0)
    else if OfTask(m) && m.t == t && !s.tasks[t].pc.Created? && Do(s, m).tasks[t].pc.Done? then OwnedCount(s.queue, t)
    else 0
  }

  /** What a task does to the send queue. */
  lemma TaskQueue(s: Session, m: Move)
    requires CanMove(s, m) && OfTask(m)
    ensures Do(s, m).wire == s.wire
    ensures Do(s, m).queue ==
      if SpeaksNow(s, m, m.t) then s.queue + [Audio(s.tasks[m.t].gen, m.t)]
      else if Do(s, m).tasks[m.t].pc.Done? && !s.tasks[m.t].pc.Created? then Without(s.queue, m.t)
      else s.queue
    ensures SpeaksNow(s, m, m.t) ==> !Do(s, m).tasks[m.t].pc.Done?
  {
  }

  lemma AudioStepOfTask(s: Session, m: Move, t: TaskId)
    requires CanMove(s, m) && OfTask(m)
    ensures OwnedCount(Do(s, m).queue, t) + Lost(s, m, t) == OwnedCount(s.queue, t) + if SpeaksNow(s, m, t) then 1 else 0
  {
    TaskQueue(s, m);
    if SpeaksNow(s, m, m.t) {
      var packet := Audio(s.tasks[m.t].gen, m.t);
      OwnedConcat(s.queue, [packet], t);
      assert [packet][..0] == [];
    } else if Do(s, m).tasks[m.t].pc.Done? && !s.tasks[m.t].pc.Created? {
      OwnedWithout(s.queue, t, m.t);
    }
  }

  lemma AudioStepOfSession(s: Session, m: Move, t: TaskId)
    requires CanMove(s, m) && !OfTask(m)
    ensures OwnedCount(Do(s, m).wire, t) + OwnedCount(Do(s, m).queue, t) + Lost(s, m, t) ==
      OwnedCount(s.wire, t) + OwnedCount(s.queue, t)
  {
    if m.Transmit? {
      OwnedFirst(s.queue, t);
      OwnedConcat(s.wire, [s.queue[0]], t);
      assert [s.queue[0]][..0] == [];
    } else if m.Drop? {
      OwnedFirst(s.queue, t);
    } else if m.BargeBegin? {
      OwnedConcat(s.queue, [Clear(s.generation + 1)], t);
      assert [Clear(s.generation + 1)][..0] == [];
    }
  }

  lemma AudioStep(s: Session, m: Move, t: TaskId)
    requires CanMove(s, m)
    ensures OwnedCount(Sent(Do(s, m)), t) + Lost(s, m, t) == OwnedCount(Sent(s), t) + if SpeaksNow(s, m, t) then 1 else 0
  {
    OwnedConcat(s.wire, s.queue, t);
    OwnedConcat(Do(s, m).wire, Do(s, m).queue, t);
    if OfTask(m) {
      TaskQueue(s, m);
      AudioStepOfTask(s, m, t);
    } else {
      AudioStepOfSession(s, m, t);
    }
  }

  /** The chunks that the task had to send in its own generation. */
  ghost function ChunksSpoken(s: Session, moves: seq<Move>, t: TaskId): nat
    requires CanRun(s, moves)
    decreases |moves|
  {
    if moves == [] then 0
    else (if SpeaksNow(s, moves[0], t) then 1 else 0) + ChunksSpoken(Do(s, moves[0]), moves[1..], t)
  }

  ghost function ChunksLost(s: Session, moves: seq<Move>, t: TaskId): nat
    requires CanRun(s, moves)
    decreases |moves|
  {
    if moves == [] then 0 else Lost(s, moves[0], t) + ChunksLost(Do(s, moves[0]), moves[1..], t)
  }

  /**
    Conservation of audio, in every run: the packets of a task on the wire and in
    the send queue are the chunks that it had to send in its own generation,
    except those lost with a failed send or with the end of the task.
   */
  lemma {:induction false} AudioAccounted(s: Session, moves: seq<Move>, t: TaskId)
    requires CanRun(s, moves)
    ensures OwnedCount(Sent(After(s, moves)), t) + ChunksLost(s, moves, t) == OwnedCount(Sent(s), t) + ChunksSpoken(s, moves, t)
    decreases |moves|
  {
    if moves != [] {
      AudioStep(s, moves[0], t);
      AudioAccounted(Do(s, moves[0]), moves[1..], t);
    }
  }

  /** The wire only grows, and only by the packet that has waited longest. */
  lemma WireGrows(s: Session, m: Move)
    requires CanMove(s, m)
    ensures Do(s, m).wire == if m.Transmit? then s.wire + [s.queue[0]] else s.wire
    ensures m.Transmit? ==> [s.queue[0]] + Do(s, m).queue == s.queue
  {
  }

  // ----- One chunk at a time -----

  /** A task has a packet in the send queue only while it waits for its send, and then at most one. */
  ghost predicate QueueOk(s: Session) {
    forall t: TaskId :: OwnedCount(s.queue, t) <= if PcAt(s, t).SendingAudio? then 1 else 0
  }

  lemma {:induction false} NoneOwned(queue: seq<Packet>, t: TaskId)
    requires forall i :: 0 <= i < |queue| ==> !Owned(queue[i], t)
    ensures OwnedCount(queue, t) == 0
    decreases |queue|
  {
    if queue != [] {
      NoneOwned(queue[..|queue| - 1], t);
    }
  }

  lemma QueueStepOfTask(s: Session, m: Move, t: TaskId)
    requires QueueOk(s) && CanMove(s, m) && OfTask(m)
    ensures OwnedCount(Do(s, m).queue, t) <= if PcAt(Do(s, m), t).SendingAudio? then 1 else 0
  {
    AudioStepOfTask(s, m, t);
    assert OwnedCount(s.queue, t) <= if PcAt(s, t).SendingAudio? then 1 else 0;
    if m.AudioSent? && m.t == t {
      NoneOwned(s.queue, t);
    }
  }

  lemma QueueStepOfSession(s: Session, m: Move, t: TaskId)
    requires QueueOk(s) && CanMove(s, m) && !OfTask(m)
    ensures OwnedCount(Do(s, m).queue, t) <= if PcAt(Do(s, m), t).SendingAudio? then 1 else 0
  {
    AudioStepOfSession(s, m, t);
    assert OwnedCount(s.queue, t) <= if PcAt(s, t).SendingAudio? then 1 else 0;
    assert t < |s.tasks| ==> PcAt(Do(s, m), t) == PcAt(s, t);
    if m.Transmit? || m.Drop? {
      OwnedFirst(s.queue, t);
    } else if m.BargeBegin? {
      OwnedConcat(s.queue, [Clear(s.generation + 1)], t);
    }
  }

  /** In every run, no response has two chunks waiting for the wire, and none while it does anything but wait for its send. */
  lemma {:induction false} OneChunkAtATime(s: Session, moves: seq<Move>)
    requires QueueOk(s) && CanRun(s, moves)
    ensures QueueOk(After(s, moves))
    decreases |moves|
  {
    if moves != [] {
      forall t: TaskId
        ensures OwnedCount(Do(s, moves[0]).queue, t) <= if PcAt(Do(s, moves[0]), t).SendingAudio? then 1 else 0
      {
        if OfTask(moves[0]) {
          QueueStepOfTask(s, moves[0], t);
        } else {
          QueueStepOfSession(s, moves[0], t);
        }
      }
      OneChunkAtATime(Do(s, moves[0]), moves[1..]);
    }
  }

  // ----- Every barge-in clears -----

  predicate OfTurn(s: Session, gen: nat) {
    exists i :: 0 <= i < |s.tasks| && s.tasks[i].gen == gen
  }

  /** Every generation is that of a turn or of a barge-in, whose clear is out or waits; and a barge-in waits for its own. */
  ghost predicate ClearsOk(s: Session) {
    && (forall gen :: 1 <= gen <= s.generation && !OfTurn(s, gen) ==> Clear(gen) in Sent(s))
    && (forall gen :: gen in s.bargeIns ==> Clear(gen) in Sent(s))
  }

  lemma {:induction false} WithoutKeepsClear(queue: seq<Packet>, t: TaskId, gen: nat)
    requires Clear(gen) in queue
    ensures Clear(gen) in Without(queue, t)
    decreases |queue|
  {
    if Clear(gen) in queue[1..] {
      WithoutKeepsClear(queue[1..], t, gen);
    }
  }

  lemma ClearStays(s: Session, m: Move, gen: nat)
    requires CanMove(s, m) && !m.Drop? && Clear(gen) in Sent(s)
    ensures Clear(gen) in Sent(Do(s, m))
  {
    if Clear(gen) in s.wire {
      assert Clear(gen) in Do(s, m).wire;
    } else if OfTask(m) {
      TaskQueue(s, m);
      WithoutKeepsClear(s.queue, m.t, gen);
    } else if m.Transmit? {
      assert Sent(Do(s, m)) == Sent(s);
    }
  }

  lemma StillOfTurn(s: Session, m: Move, gen: nat)
    requires CanMove(s, m) && OfTurn(s, gen)
    ensures OfTurn(Do(s, m), gen)
  {
    var i :| 0 <= i < |s.tasks| && s.tasks[i].gen == gen;
    MoveExtends(s, m);
    assert Do(s, m).tasks[i].gen == gen;
  }

  /** What a step adds: a turn with the next generation, or a clear of it. */
  lemma NextGeneration(s: Session, m: Move)
    requires CanMove(s, m)
    ensures var s' := Do(s, m);
      && s'.generation == s.generation + (if m.Schedule? || m.BargeBegin? then 1 else 0)
      && (m.Schedule? ==> OfTurn(s', s'.generation))
      && (m.BargeBegin? ==> Clear(s'.generation) in Sent(s') && s'.bargeIns == s.bargeIns + {s'.generation})
      && (!m.BargeBegin? ==> s'.bargeIns <= s.bargeIns)
  {
    var s' := Do(s, m);
    if m.Schedule? {
      assert s'.tasks[|s.tasks|].gen == s'.generation;
    } else if m.BargeBegin? {
      assert s'.queue[|s.queue|] == Clear(s'.generation);
    }
  }

  lemma ClearsStep(s: Session, m: Move)
    requires ClearsOk(s) && CanMove(s, m) && !m.Drop?
    ensures ClearsOk(Do(s, m))
  {
    var s' := Do(s, m);
    NextGeneration(s, m);
    forall gen | 1 <= gen <= s'.generation && !OfTurn(s', gen)
      ensures Clear(gen) in Sent(s')
    {
      if gen <= s.generation {
        if OfTurn(s, gen) {
          StillOfTurn(s, m, gen);
        } else {
          ClearStays(s, m, gen);
        }
      }
    }
    forall gen | gen in s'.bargeIns
      ensures Clear(gen) in Sent(s')
    {
      if gen in s.bargeIns {
        ClearStays(s, m, gen);
      }
    }
  }

  /** In every run without a failed send, every barge-in clears the playback: its clear is out or waits for the wire. */
  lemma {:induction false} EveryBargeInClears(s: Session, moves: seq<Move>)
    requires ClearsOk(s) && CanRun(s, moves) && Drop !in moves
    ensures ClearsOk(After(s, moves))
    decreases |moves|
  {
    if moves != [] {
      ClearsStep(s, moves[0]);
      EveryBargeInClears(Do(s, moves[0]), moves[1..]);
    }
  }

  /** And it cancels the current response only when its clear is out. */
  lemma ClearBeforeCancel(moves: seq<Move>, gen: nat)
    requires CanRun(SILENT, moves) && Drop !in moves && CanMove(After(SILENT, moves), BargeEnd(gen))
    ensures Clear(gen) in After(SILENT, moves).wire
  {
    EveryBargeInClears(SILENT, moves);
  }

  // ----- A superseded response comes to an end -----

  /** The most steps that a response of an old generation can still take. */
  function StepsLeft(pc: Pc): nat {
    match pc
    case Created => 6
    case Thinking => 5
    case Waiting => 2
    case Inference => 1
    case Localizing(path) => if path.Duplicate? then 4 else 1
    case Announcing(_) => 3
    case Speaking(_) => 2
    case SendingAudio(_) => 3
    case Draining(_) => 1
    case Closing(_) => 1
    case Done => 0
  }

  /** How many of the moves are those of this task. */
  function MovesOf(moves: seq<Move>, t: TaskId): nat {
    if moves == [] then 0 else (if OfTask(moves[0]) && moves[0].t == t then 1 else 0) + MovesOf(moves[1..], t)
  }

  lemma StaleStep(s: Session, m: Move, t: TaskId)
    requires CanMove(s, m) && t < |s.tasks| && s.tasks[t].gen < s.generation
    ensures var s' := Do(s, m);
      && t < |s'.tasks| && s'.tasks[t].gen == s.tasks[t].gen < s'.generation
      && StepsLeft(s'.tasks[t].pc) + (if OfTask(m) && m.t == t then 1 else 0) <= StepsLeft(s.tasks[t].pc)
  {
    MoveExtends(s, m);
    if !OfTask(m) || m.t != t {
      assert Do(s, m).tasks[t].pc == s.tasks[t].pc;
    }
  }

  /**
    A response that a later turn or a barge-in has superseded takes at most six
    more steps, however the session goes on, and has no audio of its own after
    those that are already out or waiting: it ends by itself even where nothing
    cancels it.
   */
  lemma {:induction false} SupersededEnds(s: Session, moves: seq<Move>, t: TaskId)
    requires CanRun(s, moves) && t < |s.tasks| && s.tasks[t].gen < s.generation
    ensures MovesOf(moves, t) <= StepsLeft(s.tasks[t].pc) <= 6
    ensures ChunksSpoken(s, moves, t) == 0
    decreases |moves|
  {
    if moves != [] {
      StaleStep(s, moves[0], t);
      SupersededEnds(Do(s, moves[0]), moves[1..], t);
    }
  }

  // ----- A turn that nothing disturbs -----

  /** The newest task is current, fresh and at this point, and nobody waits to send. */
  ghost predicate Alone(s: Session, t: TaskId, pc: Pc) {
    && t == |s.tasks| - 1 && s.tasks[t] == Task(s.generation, pc, false)
    && s.current == Some(t) && s.queue == []
  }

  /** What a run changes when this task alone moves: its own progress, and the wire. */
  ghost predicate OnlySpeaks(s: Session, s': Session, t: TaskId, packets: seq<Packet>) {
    && s'.generation == s.generation && |s'.tasks| == |s.tasks| && s'.wire == s.wire + packets
    && s'.lock == s.lock && s'.bargeIns == s.bargeIns
    && forall i :: 0 <= i < |s.tasks| && i != t ==> s'.tasks[i] == s.tasks[i]
  }

  function Chunks(n: nat, p: Packet): seq<Packet> {
    seq(n, i => p)
  }

  lemma RunCons(s: Session, m: Move, rest: seq<Move>)
    requires CanMove(s, m) && CanRun(Do(s, m), rest)
    ensures CanRun(s, [m] + rest) && After(s, [m] + rest) == After(Do(s, m), rest)
  {
    assert ([m] + rest)[1..] == rest;
  }

  lemma OneMove(s: Session, m: Move)
    requires CanMove(s, m)
    ensures CanRun(s, [m]) && After(s, [m]) == Do(s, m)
  {
    RunCons(s, m, []);
    assert [m] + [] == [m];
  }

  lemma ThreeRuns(s: Session, a: Move, s1: Session, b: Move, s2: Session, c: Move, s3: Session)
    requires CanRun(s, [a]) && After(s, [a]) == s1
    requires CanRun(s1, [b]) && After(s1, [b]) == s2
    requires CanRun(s2, [c]) && After(s2, [c]) == s3
    ensures CanRun(s, [a, b, c]) && After(s, [a, b, c]) == s3
  {
    RunAppendTwice(s, [a], [b], [c]);
    assert [a] + [b] + [c] == [a, b, c];
  }

  lemma ThreeMoves(s: Session, a: Move, b: Move, c: Move)
    requires CanMove(s, a) && CanMove(Do(s, a), b) && CanMove(Do(Do(s, a), b), c)
    ensures CanRun(s, [a, b, c]) && After(s, [a, b, c]) == Do(Do(Do(s, a), b), c)
  {
    var s1 := Do(s, a);
    var s2 := Do(s1, b);
    OneMove(s, a);
    OneMove(s1, b);
    OneMove(s2, c);
    ThreeRuns(s, a, s1, b, s2, c, Do(s2, c));
  }

  lemma SpeaksOne(s: Session, t: TaskId, path: Path)
    requires Alone(s, t, Speaking(path)) && s.phase == PhaseTts
    ensures var moves := [NextAudio(t, false), Transmit, AudioSent(t)];
      && CanRun(s, moves) && Alone(After(s, moves), t, Speaking(path)) && After(s, moves).phase == PhaseTts
      && OnlySpeaks(s, After(s, moves), t, [Audio(s.generation, t)])
  {
    var s1 := Do(s, NextAudio(t, false));
    assert s1.queue == [Audio(s.generation, t)];
    assert CanMove(s1, Transmit) && Do(s1, Transmit).queue == [];
    ThreeMoves(s, NextAudio(t, false), Transmit, AudioSent(t));
  }

  lemma {:induction false} SpeaksAll(s: Session, t: TaskId, path: Path, n: nat) returns (moves: seq<Move>)
    requires Alone(s, t, Speaking(path)) && s.phase == PhaseTts
    ensures CanRun(s, moves) && Alone(After(s, moves), t, Speaking(path)) && After(s, moves).phase == PhaseTts
    ensures OnlySpeaks(s, After(s, moves), t, Chunks(n, Audio(s.generation, t)))
    decreases n
  {
    var packet := Audio(s.generation, t);
    if n == 0 {
      moves := [];
      assert s.wire + Chunks(0, packet) == s.wire;
    } else {
      SpeaksOne(s, t, path);
      var one := [NextAudio(t, false), Transmit, AudioSent(t)];
      var rest := SpeaksAll(After(s, one), t, path, n - 1);
      RunAppend(s, one, rest);
      moves := one + rest;
      assert s.wire + [packet] + Chunks(n - 1, packet) == s.wire + Chunks(n, packet);
    }
  }

  lemma EntersAlone(s: Session, t: TaskId)
    requires Alone(s, t, Created) && s.lock.None?
    ensures var moves := [Begin(t), RouteRouter(t), Acquire(t)];
      && CanRun(s, moves) && Alone(After(s, moves), t, Inference)
      && OnlySpeaks(s, After(s, moves).(lock := None), t, [])
  {
    ThreeMoves(s, Begin(t), RouteRouter(t), Acquire(t));
  }

  /** The answer of the router is spoken; a verification challenge as a message of the system. */
  lemma LeavesAlone(s: Session, t: TaskId, challenge: bool)
    requires Alone(s, t, Inference)
    ensures var moves := [Inferred(t, challenge), Localized(t), Announced(t, false)];
      && CanRun(s, moves) && After(s, moves).phase == PhaseTts
      && Alone(After(s, moves), t, Speaking(if challenge then System(false) else Main))
      && OnlySpeaks(s.(lock := None), After(s, moves), t, [])
  {
    ThreeMoves(s, Inferred(t, challenge), Localized(t), Announced(t, false));
  }

  /** An empty answer ends the turn in silence. */
  lemma EmptyAnswerIsSilent(s: Session, t: TaskId)
    requires Alone(s, t, Inference)
    ensures var moves := [Inferred(t, false), Localized(t), Announced(t, true)];
      && CanRun(s, moves)
      && var s' := After(s, moves);
         && OnlySpeaks(s.(lock := None), s', t, []) && s'.tasks[t] == Task(s.generation, Done, false)
         && s'.current.None? && s'.phase == PhaseIdle && s'.queue == []
  {
    ThreeMoves(s, Inferred(t, false), Localized(t), Announced(t, true));
  }

  lemma ComesToSpeak(s: Session, t: TaskId)
    requires Alone(s, t, Created) && s.lock.None?
    ensures var moves := [Begin(t), RouteRouter(t), Acquire(t)] + [Inferred(t, false), Localized(t), Announced(t, false)];
      && CanRun(s, moves) && Alone(After(s, moves), t, Speaking(Main)) && After(s, moves).phase == PhaseTts
      && OnlySpeaks(s, After(s, moves), t, [])
  {
    var one, two := [Begin(t), RouteRouter(t), Acquire(t)], [Inferred(t, false), Localized(t), Announced(t, false)];
    EntersAlone(s, t);
    LeavesAlone(After(s, one), t, false);
    RunAppend(s, one, two);
    assert s.wire + [] + [] == s.wire + [];
  }

  lemma ComesToAnEnd(s: Session, t: TaskId)
    requires Alone(s, t, Speaking(Main)) && s.lock.None?
    ensures var moves := [StreamEnds(t), Drained(t), Closed(t)];
      && CanRun(s, moves)
      && var s' := After(s, moves);
         && OnlySpeaks(s, s', t, []) && s'.tasks[t] == Task(s.generation, Done, false)
         && s'.current.None? && s'.phase == PhaseIdle && s'.queue == []
  {
    ThreeMoves(s, StreamEnds(t), Drained(t), Closed(t));
  }

  /**
    A turn that nothing disturbs is spoken to its end: from any state in which
    nobody holds the router and nobody waits to send, a new turn with `n` chunks
    of audio can be scheduled and run so that exactly its `n` packets go out, in
    its own generation, and the session is idle again.
   */
  lemma UndisturbedTurnIsSpoken(s: Session, n: nat) returns (moves: seq<Move>)
    requires s.queue == [] && s.lock.None? && Generations(s)
    ensures CanRun(s, moves)
    ensures
      var s', t := After(s, moves), |s.tasks|;
      && s'.wire == s.wire + Chunks(n, Audio(s.generation + 1, t))
      && |s'.tasks| == t + 1 && s'.tasks[t].gen == s.generation + 1 == s'.generation && s'.tasks[t].pc == Done
      && s'.current.None? && s'.phase == PhaseIdle && s'.queue == [] && s'.lock.None?
  {
    var t := |s.tasks|;
    var s1 := Do(s, Schedule);
    ComesToSpeak(s1, t);
    var start := [Begin(t), RouteRouter(t), Acquire(t)] + [Inferred(t, false), Localized(t), Announced(t, false)];
    var s2 := After(s1, start);
    var speech := SpeaksAll(s2, t, Main, n);
    var s3 := After(s2, speech);
    ComesToAnEnd(s3, t);
    var end := [StreamEnds(t), Drained(t), Closed(t)];
    RunAppendTwice(s1, start, speech, end);
    var rest := start + speech + end;
    assert ([Schedule] + rest)[1..] == rest;
    moves := [Schedule] + rest;
    assert s.wire + [] + Chunks(n, Audio(s.generation + 1, t)) + [] == s.wire + Chunks(n, Audio(s.generation + 1, t));
  }

  lemma StartsLocal(s: Session, t: TaskId, path: Path)
    requires Alone(s, t, Thinking) && !path.Main?
    ensures var moves := [RouteLocal(t, path), Localized(t), Announced(t, false)];
      && CanRun(s, moves) && Alone(After(s, moves), t, Speaking(path)) && After(s, moves).phase == PhaseTts
      && OnlySpeaks(s, After(s, moves), t, [])
  {
    ThreeMoves(s, RouteLocal(t, path), Localized(t), Announced(t, false));
  }

  lemma EndsLocal(s: Session, t: TaskId, path: Path)
    requires Alone(s, t, Speaking(path)) && !path.Main? && s.lock.None?
    ensures var moves := [StreamEnds(t), Drained(t), Closed(t)];
      && CanRun(s, moves)
      && var s' := After(s, moves);
         && OnlySpeaks(s, s', t, []) && s'.phase == PhaseIdle
         && if path == System(true) then Alone(s', t, Thinking)
            else s'.tasks[t] == Task(s.generation, Done, false) && s'.current.None? && s'.queue == []
  {
    ThreeMoves(s, StreamEnds(t), Drained(t), Closed(t));
  }

  /**
    What is answered without the router, a verification message or the notice of
    a duplicate, is spoken in the same way; and after a successful verification
    the response goes on to think about the verified request.
   */
  lemma LocalMessageIsSpoken(s: Session, t: TaskId, path: Path, n: nat) returns (moves: seq<Move>)
    requires Alone(s, t, Thinking) && !path.Main? && s.lock.None?
    ensures CanRun(s, moves)
    ensures
      var s' := After(s, moves);
      && OnlySpeaks(s, s', t, Chunks(n, Audio(s.generation, t))) && s'.phase == PhaseIdle
      && if path == System(true) then Alone(s', t, Thinking)
         else s'.tasks[t] == Task(s.generation, Done, false) && s'.current.None? && s'.queue == []
  {
    var start, end := [RouteLocal(t, path), Localized(t), Announced(t, false)], [StreamEnds(t), Drained(t), Closed(t)];
    StartsLocal(s, t, path);
    var s1 := After(s, start);
    var speech := SpeaksAll(s1, t, path, n);
    EndsLocal(After(s1, speech), t, path);
    RunAppendTwice(s, start, speech, end);
    moves := start + speech + end;
    assert s.wire + [] + Chunks(n, Audio(s.generation, t)) + [] == s.wire + Chunks(n, Audio(s.generation, t));
  }

  // ----- A response that speaks can be stopped -----

  /** The response speaks, or it has the router's answer and is about to. */
  predicate Speaks(pc: Pc) {
    || pc.Speaking? || pc.SendingAudio? || pc.Draining? || pc.Closing?
    || pc == Localizing(Main) || pc == Announcing(Main)
  }

  /** While the current response speaks, the phase does not say that it is inside the router. */
  ghost predicate SpeakingOk(s: Session) {
    s.current.Some? && Speaks(PcAt(s, s.current.value)) ==> s.phase != PhaseInference
  }

  lemma SpeakingStepOfOther(s: Session, m: Move)
    requires TasksInv(s) && SpeakingOk(s) && CanMove(s, m) && OfTask(m)
    requires s.current.Some? && m.t != s.current.value
    ensures SpeakingOk(Do(s, m))
  {
  }

  lemma SpeakingStep(s: Session, m: Move)
    requires TasksInv(s) && SpeakingOk(s) && CanMove(s, m)
    ensures SpeakingOk(Do(s, m))
  {
    if OfTask(m) && s.current.Some? && m.t != s.current.value {
      SpeakingStepOfOther(s, m);
    }
  }

  lemma {:induction false} SpeakingRun(s: Session, moves: seq<Move>)
    requires TasksInv(s) && SpeakingOk(s) && CanRun(s, moves)
    ensures SpeakingOk(After(s, moves))
    decreases |moves|
  {
    if moves != [] {
      SpeakingStep(s, moves[0]);
      StepKeeps(s, moves[0]);
      SpeakingRun(Do(s, moves[0]), moves[1..]);
    }
  }

  /** In every run, a barge-in cancels the current response if that speaks or has its answer, even while a stale request is in the router. */
  lemma SpeakerIsCancelled(moves: seq<Move>, gen: nat)
    requires CanRun(SILENT, moves) && CanMove(After(SILENT, moves), BargeEnd(gen))
    requires var s := After(SILENT, moves); s.current.Some? && Speaks(PcAt(s, s.current.value))
    ensures
      var s := After(SILENT, moves);
      var s' := Do(s, BargeEnd(gen));
      s.current.value < |s'.tasks| && s'.tasks[s.current.value].cancelled && s'.current.None?
  {
    TasksInvRun(SILENT, moves);
    SpeakingRun(SILENT, moves);
  }

  // ----- The session object -----

  class VoiceSession {
    var generationId: nat
    var phase: Phase
    var currentTask: Option<TaskId>
    var backgroundTasks: seq<Task>
    var inferenceTasks: set<TaskId>
    var inferenceLock: Option<TaskId>
    var clearing: set<nat>
    var sendQueue: seq<Packet>
    var sent: seq<Packet>

    ghost function State(): Session
      reads this
    {
      Session(generationId, phase, currentTask, backgroundTasks, inferenceLock, clearing, sendQueue, sent)
    }

    /** The set of tasks inside the router is what the program counters say. */
    ghost predicate Valid()
      reads this
    {
      forall t: TaskId :: t in inferenceTasks <==> t < |backgroundTasks| && backgroundTasks[t].pc.Inference?
    }

    constructor ()
      ensures Valid() && State() == SILENT
    {
      generationId, phase, currentTask := 0, PhaseIdle, None;
      backgroundTasks, inferenceTasks, inferenceLock := [], {}, None;
      clearing, sendQueue, sent := {}, [], [];
    }

    method ScheduleResponse()
      requires Valid()
      modifies this
      ensures Valid() && State() == Do(old(State()), Schedule)
      ensures generationId == old(generationId) + 1 && currentTask == Some(old(|backgroundTasks|))
      ensures |backgroundTasks| == old(|backgroundTasks|) + 1
      ensures backgroundTasks[old(|backgroundTasks|)] == Task(generationId, Created, false)
      ensures forall t :: 0 <= t < old(|backgroundTasks|) ==>
        && backgroundTasks[t].pc == old(backgroundTasks[t].pc)
        && (backgroundTasks[t].cancelled <==>
              old(backgroundTasks[t].cancelled) || (!old(backgroundTasks[t].pc.Done?) && t !in old(inferenceTasks)))
    {
      CancelBackground();
      generationId := generationId + 1;
      currentTask := Some(|backgroundTasks|);
      backgroundTasks := backgroundTasks + [Task(generationId, Created, false)];
    }

    method CancelBackground()
      requires Valid()
      modifies this`backgroundTasks
      ensures Valid() && backgroundTasks == CancelStale(old(backgroundTasks))
    {
      ghost var before := backgroundTasks;
      var i := 0;
      while i < |backgroundTasks|
        invariant 0 <= i <= |backgroundTasks| == |before|
        invariant forall k :: 0 <= k < i ==> backgroundTasks[k] == CancelStale(before)[k]
        invariant forall k :: i <= k < |before| ==> backgroundTasks[k] == before[k]
      {
        var task := backgroundTasks[i];
        if !task.pc.Done? && i !in inferenceTasks {
          backgroundTasks := backgroundTasks[i := task.(cancelled := true)];
        }
        i := i + 1;
      }
      assert backgroundTasks == CancelStale(before);
    }

    /** The part of a confirmed barge-in before it waits for the wire. */
    method ConfirmBargeIn()
      requires Valid()
      modifies this
      ensures Valid() && State() == Do(old(State()), BargeBegin)
      ensures generationId == old(generationId) + 1 && sendQueue == old(sendQueue) + [Clear(generationId)]
    {
      generationId := generationId + 1;
      sendQueue := sendQueue + [Clear(generationId)];
      clearing := clearing + {generationId};
    }

    /** The part of a confirmed barge-in after its clear went out or failed. */
    method CancelCurrent(gen: nat)
      requires Valid() && CanMove(State(), BargeEnd(gen))
      modifies this
      ensures Valid() && State() == Do(old(State()), BargeEnd(gen))
      ensures currentTask == None && phase == PhaseIdle && clearing == old(clearing) - {gen}
      ensures |backgroundTasks| == old(|backgroundTasks|)
      ensures forall t :: 0 <= t < |backgroundTasks| ==>
        (backgroundTasks[t].cancelled <==>
          old(backgroundTasks[t].cancelled)
          || (old(currentTask) == Some(t) && old(phase) != PhaseInference && !old(backgroundTasks[t].pc.Done?)))
    {
      if currentTask.Some? && currentTask.value < |backgroundTasks| {
        var t := currentTask.value;
        if !backgroundTasks[t].pc.Done? && phase != PhaseInference {
          backgroundTasks := backgroundTasks[t := backgroundTasks[t].(cancelled := true)];
        }
      }
      currentTask := None;
      phase := PhaseIdle;
      clearing := clearing - {gen};
    }

    method EnterInference(t: TaskId)
      requires Valid() && CanMove(State(), Acquire(t))
      modifies this
      ensures Valid() && State() == Do(old(State()), Acquire(t))
      ensures inferenceLock == Some(t) && inferenceTasks == old(inferenceTasks) + {t} && phase == PhaseInference
    {
      inferenceLock := Some(t);
      inferenceTasks := inferenceTasks + {t};
      phase := PhaseInference;
      backgroundTasks := backgroundTasks[t := backgroundTasks[t].(pc := Inference)];
    }

    method LeaveInference(t: TaskId, challenge: bool)
      requires Valid() && CanMove(State(), Inferred(t, challenge))
      modifies this
      ensures Valid() && State() == Do(old(State()), Inferred(t, challenge))
      ensures inferenceLock == None && t !in inferenceTasks && phase == PhaseLocalizing
      ensures old(backgroundTasks[t].gen != generationId) ==> backgroundTasks[t].pc == Done
      ensures old(backgroundTasks[t].gen == generationId) ==>
        backgroundTasks[t].pc == Localizing(if challenge then System(false) else Main)
    {
      inferenceTasks := inferenceTasks - {t};
      inferenceLock := None;
      phase := PhaseLocalizing;
      if backgroundTasks[t].gen != generationId {
        Finally(t);
      } else {
        backgroundTasks := backgroundTasks[t := backgroundTasks[t].(pc := Localizing(if challenge then System(false) else Main))];
      }
    }

    method StartSpeaking(t: TaskId, empty: bool)
      requires Valid() && CanMove(State(), Announced(t, empty))
      modifies this
      ensures Valid() && State() == Do(old(State()), Announced(t, empty))
      ensures empty && old(backgroundTasks[t].pc) == Announcing(Main) ==> backgroundTasks[t].pc == Done
      ensures !empty ==> phase == PhaseTts && backgroundTasks[t].pc == Speaking(old(backgroundTasks[t].pc.path))
    {
      var path := backgroundTasks[t].pc.path;
      if path.Main? && empty {
        Finally(t);
      } else {
        phase := PhaseTts;
        backgroundTasks := backgroundTasks[t := backgroundTasks[t].(pc := Speaking(path))];
      }
    }

    method SpeakChunk(t: TaskId, empty: bool)
      requires Valid() && CanMove(State(), NextAudio(t, empty))
      modifies this
      ensures Valid() && State() == Do(old(State()), NextAudio(t, empty))
      ensures old(backgroundTasks[t].gen == generationId) && !empty ==>
        && sendQueue == old(sendQueue) + [Audio(generationId, t)]
        && backgroundTasks[t].pc == SendingAudio(old(backgroundTasks[t].pc.path))
      ensures old(backgroundTasks[t].gen != generationId) ==>
        backgroundTasks[t].pc == Done && forall p :: p in sendQueue ==> p in old(sendQueue) && !Owned(p, t)
    {
      if backgroundTasks[t].gen != generationId {
        Finally(t);
        forall p | p in sendQueue
          ensures p in old(sendQueue) && !Owned(p, t)
        {
          WithoutMember(old(sendQueue), t, p);
        }
      } else if !empty {
        sendQueue := sendQueue + [Audio(backgroundTasks[t].gen, t)];
        backgroundTasks := backgroundTasks[t := backgroundTasks[t].(pc := SendingAudio(backgroundTasks[t].pc.path))];
      }
    }

    method FinishSpeaking(t: TaskId)
      requires Valid() && CanMove(State(), Drained(t))
      modifies this
      ensures Valid() && State() == Do(old(State()), Drained(t))
      ensures old(backgroundTasks[t].gen != generationId) ==> backgroundTasks[t].pc == Done
      ensures old(backgroundTasks[t].gen == generationId) ==>
        && backgroundTasks[t].pc == Closing(old(backgroundTasks[t].pc.path))
        && phase == if old(backgroundTasks[t].pc.path.System?) then PhaseIdle else old(phase)
    {
      var path := backgroundTasks[t].pc.path;
      if backgroundTasks[t].gen != generationId {
        Finally(t);
      } else {
        if path.System? {
          phase := PhaseIdle;
        }
        backgroundTasks := backgroundTasks[t := backgroundTasks[t].(pc := Closing(path))];
      }
    }

    /** The send lock lets its first packet out, or the send fails. */
    method SendNext(fails: bool)
      requires Valid() && sendQueue != []
      modifies this
      ensures Valid() && State() == Do(old(State()), if fails then Drop else Transmit)
      ensures [old(sendQueue)[0]] + sendQueue == old(sendQueue)
      ensures sent == if fails then old(sent) else old(sent) + [old(sendQueue)[0]]
    {
      if !fails {
        sent := sent + [sendQueue[0]];
      }
      sendQueue := sendQueue[1..];
    }

    method Finally(t: TaskId)
      requires t < |backgroundTasks|
      requires forall u: TaskId :: u != t ==> (u in inferenceTasks <==> u < |backgroundTasks| && backgroundTasks[u].pc.Inference?)
      modifies this
      ensures Valid() && State() == Finish(old(State()), t)
      ensures backgroundTasks[t].pc == Done && currentTask != Some(t) && inferenceLock != Some(t)
      ensures phase == if old(backgroundTasks[t].gen == generationId) then PhaseIdle else old(phase)
      ensures old(currentTask) != Some(t) ==> currentTask == old(currentTask)
    {
      if backgroundTasks[t].gen == generationId {
        phase := PhaseIdle;
      }
      if currentTask == Some(t) {
        currentTask := None;
      }
      if inferenceLock == Some(t) {
        inferenceLock := None;
      }
      inferenceTasks := inferenceTasks - {t};
      LeaveSendQueue(t);
      backgroundTasks := backgroundTasks[t := backgroundTasks[t].(pc := Done)];
    }

    /** A cancelled task ends. */
    method Unwind(t: TaskId)
      requires Valid() && CanMove(State(), Unwinds(t))
      modifies this
      ensures Valid() && State() == Do(old(State()), Unwinds(t))
    {
      if backgroundTasks[t].pc.Created? {
        backgroundTasks := backgroundTasks[t := backgroundTasks[t].(pc := Done)];
      } else {
        Finally(t);
      }
    }

    method LeaveSendQueue(t: TaskId)
      modifies this`sendQueue
      ensures sendQueue == Without(old(sendQueue), t)
    {
      var kept := [];
      var rest := sendQueue;
      while rest != []
        invariant kept + Without(rest, t) == Without(sendQueue, t)
        decreases |rest|
      {
        if !Owned(rest[0], t) {
          kept := kept + [rest[0]];
        }
        rest := rest[1..];
      }
      sendQueue := kept;
    }
  }
}
