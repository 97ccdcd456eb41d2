/**
 All schedulers of a program, the thread that holds each scheduler's running token, and the main thread,
 as a transition system. One step is one access to something another thread can see: an atomic, a task
 deque, a condition variable, or a critical section on a scheduler's mutex.
 */
module SchedulerSystem {
  import opened Common
  import opened SchedulerQueues

  /** `Scheduler::State` after construction. */
  datatype Phase = RunningPhase | IdleWait | IdleSleep | ExitingPhase

  /** Who holds a scheduler's mutex across steps: its own thread inside `sleep`, or main inside `all_idle`. */
  datatype Holder = Own | MainThread

  /** Where the thread holding the token of a scheduler stands. */
  datatype Pc =
    | Exec                              // user code of the current worker
    | Pushing(target: nat, t: Task)     // in enqueue_task, the task not yet in the deque
    | Notifying(target: nat)            // in notify, before the critical section
    | Signalling(target: nat)           // in notify, before m_cv.notify_one
    | Checking                          // in wait_cond_or_sleep, the condition flag cleared
    | IoScan
    | WaitScan
    | Fetch                             // schedule_idle_workers, before its test
    | Pop                               // schedule_idle_worker, before the deque access
    | Hand(t: Task, stolen: bool)       // a task taken from a deque, no worker chosen yet
    | YieldScan
    | Steal(k: nat)                     // looking at scheduler k
    | StealPop(k: nat)                  // scheduler k looked worth it
    | Choose
    | SleepEntry
    | SleepLock
    | SleepTasks                        // from here on inside the critical section of sleep
    | SleepExit
    | SleepKind
    | Conds(k: nat, found: bool)        // waiters_info, k flags read
    | WaitBlocked
    | WaitWoken
    | IdleCount
    | IdleReport                        // the last to fall idle, before m_check_idle
    | IdleSignal                        // ... before the notify_one of wait_exit's condition variable
    | IdlePred
    | IdleBlock
    | IdleBlocked
    | IdleWoken
    | IdleDone
    | ShouldExit
    | Exited

  datatype Sched = Sched(
    q: Queues,
    pc: Pc,
    phase: Phase,
    tasks: seq<Task>,
    cond: set<Wid>,         // workers whose condition flag is set
    running: bool,          // m_running
    exit: bool,             // m_exit
    mtx: Option<Holder>)

  datatype MainPc =
    | MPushing(target: nat, t: Task)
    | MNotifying(target: nat)
    | MSignalling(target: nat)
    | WaitExit              // in wait_exit, about to evaluate its predicate
    | ReadCount             // in all_idle, the mutex given up
    | ReadTasks(k: nat)
    | LockAll(k: nat)
    | Inspect(k: nat)
    | UnlockAll(k: nat, idle: bool)
    | Answered              // the answer is no, the mutex of wait_exit not yet taken back
    | Asleep                // blocked on the condition variable of wait_exit
    | SetExit(k: nat)
    | NotifyExit(k: nat)
    | SignalExit(k: nat)
    | Join(k: nat)
    | Finished

  datatype Sys = Sys(
    s: seq<Sched>,
    main: MainPc,
    idleCount: int,
    checkIdle: bool,
    created: set<Task>,
    finished: seq<Task>)

  // ---------- steps on one scheduler ----------

  /** What the environment decides: what user code does, what I/O and clocks answer. */
  datatype Choice = TaskDone | YieldNow | BeginIo | BeginWait | Answers(a: seq<bool>) | Flag(b: bool)

  function HasStealable(sc: Sched): bool {
    if |sc.tasks| == 0 then false else if |sc.tasks| == 1 then sc.q.load > 0 else true
  }

  ghost function LeaveUser(sc: Sched, ctx: SyncContext): Sched
    requires Wf(sc.q)
  {
    sc.(q := Leave(sc.q, ctx), pc := IoScan)
  }

  /** User code parks its worker, or starts a wait and checks the flag once before it parks. */
  ghost function UserStep(sc: Sched, c: Choice): Option<Sched>
    requires Wf(sc.q)
  {
    var w := sc.q.current;
    match sc.pc
    case Exec =>
      (match c
       case TaskDone => Some(LeaveUser(sc, Main))
       case YieldNow => Some(LeaveUser(sc, Yield))
       case BeginIo => Some(LeaveUser(sc, Io))
       case BeginWait => Some(sc.(cond := sc.cond - {w}, pc := Checking))
       case _ => None)
    case Checking =>
      if w in sc.cond || c == Flag(true) then Some(sc.(pc := Exec)) else Some(LeaveUser(sc, Wait))
    case _ => None
  }

  /** The operations of `schedule_workers` and `prepare_exec` that move workers between queues. */
  ghost function QueueStep(sc: Sched, c: Choice): Option<Sched>
    requires Wf(sc.q)
  {
    Members(sc.q);
    var q := sc.q;
    match sc.pc
    case IoScan =>
      if c.Answers? && |c.a| == |q.pendingIo| then Some(sc.(q := ScheduleIo(q, c.a), pc := WaitScan)) else None
    case WaitScan =>
      if c.Answers? && |c.a| == |q.waiting| then Some(sc.(q := ScheduleWaiting(q, c.a), pc := Fetch)) else None
    case Hand(t, stolen) =>
      if q.idle == [] then None
      else Some(sc.(q := StartTask(q, t), pc := if stolen then Choose else YieldScan))
    case YieldScan =>
      var q' := ScheduleYielded(q);
      Some(sc.(q := q', pc := if q'.runnable != [] || q'.idle == [] then Choose else Steal(0)))
    case Choose =>
      if q.runnable != [] then Some(sc.(q := PrepareNextWorker(q), pc := Exec)) else Some(sc.(pc := SleepEntry))
    case _ => None
  }

  /**
   The tests of the loop. `n` is the number of schedulers, `me` the index of this one, `worthIt` whether
   the scheduler looked at has stealable work.
   */
  ghost function TestStep(sc: Sched, n: nat, me: nat, c: Choice, worthIt: bool): Option<Sched>
    requires Wf(sc.q)
  {
    var q := sc.q;
    match sc.pc
    case Fetch =>
      Some(sc.(pc := if q.runnable == [] && q.idle != [] && sc.tasks != [] then Pop else YieldScan))
    case Pop =>
      if sc.tasks == [] then Some(sc.(pc := YieldScan))
      else Some(sc.(tasks := sc.tasks[1..], pc := Hand(sc.tasks[0], false)))
    case Steal(k) =>
      Some(sc.(pc := if k >= n then Choose else if k == me || !worthIt then Steal(k + 1) else StealPop(k)))
    case SleepEntry =>
      Some(sc.(pc := if q.pendingIo != [] || c == Flag(true) then ShouldExit else SleepLock))
    case ShouldExit =>
      if sc.exit then Some(sc.(q := SetWorkerState(q, q.current, Exiting), phase := ExitingPhase, pc := Exited))
      else Some(sc.(pc := IoScan))
    case _ => None
  }

  /** `sleep` from its lock on, and its bounded wait while workers are waiting. */
  function SleepStep(sc: Sched, c: Choice): Option<Sched> {
    match sc.pc
    case SleepLock =>
      if sc.mtx == None then Some(sc.(mtx := Some(Own), pc := SleepTasks)) else None
    case SleepTasks =>
      if sc.tasks != [] && sc.q.idle != [] then Some(sc.(mtx := None, pc := ShouldExit))
      else Some(sc.(pc := SleepExit))
    case SleepExit =>
      if sc.exit && sc.q.waiting == [] && sc.tasks == [] then Some(sc.(mtx := None, pc := ShouldExit))
      else Some(sc.(pc := SleepKind))
    case SleepKind =>
      if sc.q.waiting != [] then Some(sc.(pc := Conds(0, false))) else Some(sc.(phase := IdleSleep, pc := IdleCount))
    case Conds(k, found) =>
      if k < |sc.q.waiting| then Some(sc.(pc := Conds(k + 1, found || sc.q.waiting[k] in sc.cond)))
      else if found || c == Flag(true) then Some(sc.(mtx := None, pc := ShouldExit))
      else Some(sc.(phase := IdleWait, running := false, mtx := None, pc := WaitBlocked))
    case WaitBlocked => Some(sc.(pc := WaitWoken))
    case WaitWoken =>
      if sc.mtx != None then None
      else if sc.running || c == Flag(true) then Some(sc.(running := true, phase := RunningPhase, pc := ShouldExit))
      else Some(sc.(pc := WaitBlocked))
    case _ => None
  }

  /** The unbounded wait of `sleep`; `last` tells whether all other schedulers are counted idle. */
  function IdleStep(sc: Sched, last: bool): Option<Sched> {
    match sc.pc
    case IdleCount => Some(sc.(running := false, pc := if last then IdleReport else IdlePred))
    case IdleReport => Some(sc.(pc := IdleSignal))
    case IdlePred => Some(sc.(pc := if sc.tasks != [] || sc.exit then IdleDone else IdleBlock))
    case IdleBlock => Some(sc.(mtx := None, pc := IdleBlocked))
    case IdleBlocked => Some(sc.(pc := IdleWoken))
    case IdleWoken =>
      if sc.mtx == None then Some(sc.(mtx := Some(Own), pc := IdlePred)) else None
    case IdleDone => Some(sc.(phase := RunningPhase, mtx := None, pc := ShouldExit))
    case _ => None
  }

  /** The parts of the code, one for each of the step functions above. */
  datatype Part = UserPart | QueuePart | TestPart | SleepPart | IdlePart | EndPart

  function PartOf(pc: Pc): Part {
    match pc
    case Exec | Pushing(_, _) | Notifying(_) | Signalling(_) | Checking => UserPart
    case IoScan | WaitScan | Hand(_, _) | YieldScan | Choose => QueuePart
    case Fetch | Pop | Steal(_) | StealPop(_) | SleepEntry | ShouldExit => TestPart
    case SleepLock | SleepTasks | SleepExit | SleepKind | Conds(_, _) | WaitBlocked | WaitWoken => SleepPart
    case IdleCount | IdleReport | IdleSignal | IdlePred | IdleBlock | IdleBlocked | IdleWoken | IdleDone => IdlePart
    case Exited => EndPart
  }

  /** The steps in which a scheduler's thread changes only its own record. */
  ghost function OwnStep(sc: Sched, n: nat, me: nat, c: Choice, worthIt: bool, last: bool): Option<Sched>
    requires Wf(sc.q)
  {
    match PartOf(sc.pc)
    case UserPart => UserStep(sc, c)
    case QueuePart => QueueStep(sc, c)
    case TestPart => TestStep(sc, n, me, c, worthIt)
    case SleepPart => SleepStep(sc, c)
    case IdlePart => IdleStep(sc, last)
    case EndPart => None
  }

  // ---------- steps of the system ----------

  datatype Action =
    | OwnAct(i: nat, c: Choice)
    | Create(i: nat, target: nat, t: Task)    // user code calls async
    | SetCond(i: nat, target: nat, w: Wid)    // user code wakes a waiter: Worker::notify_waiter
    | Push(i: nat)
    | Notify(i: nat)
    | Signal(i: nat)
    | StealTask(i: nat)
    | Report(i: nat)                          // the last to fall idle wakes wait_exit
    | MainAct

  ghost predicate Typed(g: Sys) {
    |g.s| > 0 && forall i :: 0 <= i < |g.s| && g.s[i].pc != Exited ==> Wf(g.s[i].q)
  }

  function Woken(pc: Pc): Pc {
    match pc
    case WaitBlocked => WaitWoken
    case IdleBlocked => IdleWoken
    case _ => pc
  }

  function WithPc(g: Sys, i: nat, pc: Pc): Sys
    requires i < |g.s|
  {
    g.(s := g.s[i := g.s[i].(pc := pc)])
  }

  function PushTo(g: Sys, d: nat, t: Task): Sys
    requires d < |g.s|
  {
    g.(s := g.s[d := g.s[d].(tasks := g.s[d].tasks + [t])])
  }

  function AddCond(g: Sys, d: nat, w: Wid): Sys
    requires d < |g.s|
  {
    g.(s := g.s[d := g.s[d].(cond := g.s[d].cond + {w})])
  }

  function PopFrom(g: Sys, k: nat): Sys
    requires k < |g.s| && g.s[k].tasks != []
  {
    g.(s := g.s[k := g.s[k].(tasks := g.s[k].tasks[1..])])
  }

  function MarkRunning(g: Sys, d: nat): Sys
    requires d < |g.s|
  {
    g.(s := g.s[d := g.s[d].(running := true)])
  }

  function Wake(g: Sys, d: nat): Sys
    requires d < |g.s|
  {
    WithPc(g, d, Woken(g.s[d].pc))
  }

  function Roused(m: MainPc): MainPc {
    if m == Asleep then WaitExit else m
  }

  function SetMtx(g: Sys, d: nat, m: Option<Holder>): Sys
    requires d < |g.s|
  {
    g.(s := g.s[d := g.s[d].(mtx := m)])
  }

  function MainStep(g: Sys): Option<Sys>
    requires |g.s| > 0
  {
    var n := |g.s|;
    match g.main
    case MPushing(d, t) => if d < n then Some(PushTo(g, d, t).(main := MNotifying(d))) else None
    case MNotifying(d) => if d < n && g.s[d].mtx == None then Some(MarkRunning(g, d).(main := MSignalling(d))) else None
    case MSignalling(d) => if d < n then Some(Wake(g, d).(main := WaitExit)) else None
    case WaitExit => Some(if g.checkIdle then g.(checkIdle := false, main := ReadCount) else g.(main := Asleep))
    case ReadCount => Some(g.(main := if g.idleCount < n then Answered else ReadTasks(0)))
    case ReadTasks(k) =>
      if k >= n then Some(g.(main := LockAll(0)))
      else Some(g.(main := if g.s[k].tasks != [] then Answered else ReadTasks(k + 1)))
    case LockAll(k) =>
      if k >= n then Some(g.(main := Inspect(0)))
      else if g.s[k].mtx == None then Some(SetMtx(g, k, Some(MainThread)).(main := LockAll(k + 1))) else None
    case Inspect(k) =>
      if k >= n then Some(g.(main := UnlockAll(0, true)))
      else if g.s[k].phase == IdleSleep && g.s[k].tasks == [] then Some(g.(main := Inspect(k + 1)))
      else Some(g.(main := UnlockAll(0, false)))
    case UnlockAll(k, idle) =>
      if k >= n then Some(g.(main := if idle then SetExit(0) else Answered))
      else Some(SetMtx(g, k, None).(main := UnlockAll(k + 1, idle)))
    case Answered => Some(g.(main := Asleep))
    case Asleep => Some(g.(main := WaitExit))   // a spurious wake-up
    case SetExit(k) =>
      if k >= n then Some(g.(main := Finished))
      else Some(g.(s := g.s[k := g.s[k].(exit := true)], main := NotifyExit(k)))
    case NotifyExit(k) => if k < n && g.s[k].mtx == None then Some(MarkRunning(g, k).(main := SignalExit(k))) else None
    case SignalExit(k) => if k < n then Some(Wake(g, k).(main := Join(k))) else None
    case Join(k) => if k < n && g.s[k].pc == Exited then Some(g.(main := SetExit(k + 1))) else None
    case Finished => None
  }

  function CountDelta(pc: Pc): int {
    match pc case IdleCount => 1 case IdleDone => -1 case _ => 0
  }

  /** The task a worker gives up when user code returns to `main_loop`. */
  function Completed(sc: Sched, c: Choice): Option<Task> {
    if sc.pc == Exec && c == TaskDone && sc.q.current in sc.q.task then sc.q.task[sc.q.current] else None
  }

  ghost function OwnActStep(g: Sys, i: nat, c: Choice): Option<Sys>
    requires Typed(g) && i < |g.s| && g.s[i].pc != Exited
  {
    var sc := g.s[i];
    var worthIt := sc.pc.Steal? && sc.pc.k < |g.s| && HasStealable(g.s[sc.pc.k]);
    var r := OwnStep(sc, |g.s|, i, c, worthIt, g.idleCount + 1 >= |g.s|);
    if r.None? then None
    else Some(g.(
      s := g.s[i := r.value],
      idleCount := g.idleCount + CountDelta(sc.pc),
      checkIdle := g.checkIdle || sc.pc == IdleReport,
      finished := if Completed(sc, c).Some? then g.finished + [Completed(sc, c).value] else g.finished))
  }

  ghost function Do(g: Sys, a: Action): Option<Sys>
    requires Typed(g)
  {
    var n := |g.s|;
    match a
    case MainAct => MainStep(g)
    case OwnAct(i, c) => if i < n && g.s[i].pc != Exited then OwnActStep(g, i, c) else None
    case Create(i, d, t) =>
      if i < n && d < n && g.s[i].pc == Exec && t !in g.created
      then Some(WithPc(g, i, Pushing(d, t)).(created := g.created + {t})) else None
    case SetCond(i, d, w) =>
      if i < n && d < n && g.s[i].pc == Exec
      then Some(AddCond(WithPc(g, i, Notifying(d)), d, w)) else None
    case Push(i) =>
      if i < n && g.s[i].pc.Pushing? && g.s[i].pc.target < n
      then Some(PushTo(WithPc(g, i, Notifying(g.s[i].pc.target)), g.s[i].pc.target, g.s[i].pc.t)) else None
    case Notify(i) =>
      if i < n && g.s[i].pc.Notifying? && g.s[i].pc.target < n && g.s[g.s[i].pc.target].mtx == None
      then Some(MarkRunning(WithPc(g, i, Signalling(g.s[i].pc.target)), g.s[i].pc.target)) else None
    case Signal(i) =>
      if i < n && g.s[i].pc.Signalling? && g.s[i].pc.target < n
      then Some(Wake(WithPc(g, i, Exec), g.s[i].pc.target)) else None
    case StealTask(i) =>
      if i < n && g.s[i].pc.StealPop? && g.s[i].pc.k < n && g.s[i].pc.k != i
      then
        var k := g.s[i].pc.k;
        if g.s[k].tasks == [] then Some(WithPc(g, i, Steal(k + 1)))
        else Some(WithPc(PopFrom(g, k), i, Hand(g.s[k].tasks[0], true)))
      else None
    case Report(i) =>
      if i < n && g.s[i].pc == IdleSignal then Some(WithPc(g, i, IdlePred).(main := Roused(g.main))) else None
  }

  ghost predicate Next(g: Sys, g': Sys) {
    Typed(g) && exists a :: Do(g, a) == Some(g')
  }

  /** A scheduler right after construction: all workers idle, its thread blocked in `sleep`. */
  ghost predicate Fresh(sc: Sched) {
    && Parked(sc.q) && sc.q.idle != [] && sc.q.runnable == [] && sc.q.waiting == [] && sc.q.pendingIo == []
    && sc.q.yielded.None?
    && sc == Sched(sc.q, IdleBlocked, IdleSleep, [], {}, false, false, None)
  }

  /** All schedulers constructed, main about to enqueue the user's main function. */
  ghost predicate Init(g: Sys) {
    && |g.s| > 0 && (forall i :: 0 <= i < |g.s| ==> Fresh(g.s[i]))
    && g.main.MPushing? && g.main.target < |g.s|
    && g.idleCount == |g.s| && g.created == {g.main.t} && g.finished == []
  }

  ghost predicate Behaviour(b: seq<Sys>) {
    |b| > 0 && Init(b[0]) && forall i :: 0 <= i < |b| - 1 ==> Next(b[i], b[i + 1])
  }
}
