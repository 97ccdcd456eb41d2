/**
 The worker threads of one scheduler, from its construction to the joins of its destruction: the mutex
 `m_workers_mtx`, each worker's `m_running` flag and condition variable, and who runs. A blocked thread may
 wake at any time without having been notified.
 */
module RunningToken {
  import opened Common

  type Tid = nat

  datatype Pc =
    | NotStarted
    | Starting        // parked in the idle queue, before the lock in sync_init
    | InitBlocked     // in Worker::wait called from sync_init, in the wait set of m_cv
    | InitWoken       // ... out of the wait set, the mutex not yet taken back
    | Scheduling
    | User
    | SwitchEntry     // context_switch, before its lock
    | SwitchLocked
    | Handing         // the next worker notified, this one not yet waiting
    | SwitchBlocked
    | SwitchWoken
    | Finished

  datatype MainPc =
    | Create(k: nat)        // about to start thread k
    | CtorCheck(k: nat)     // in the constructor of worker k, about to test m_running under the mutex
    | CtorBlocked(k: nat)
    | Launch
    | Up                    // construction done
    | Destroy(k: nat)       // exit signalled; ~Worker of worker k
    | Join(k: nat)
    | Gone

  datatype State = State(
    pc: seq<Pc>,
    running: seq<bool>,
    leaving: seq<bool>,     // the worker's state is `exiting`
    mutex: Option<Tid>,
    current: Tid,           // m_worker
    started: bool,          // m_workers_started
    exit: bool,
    main: MainPc,
    token: Tid)             // history: who was last handed the right to run

  predicate Sized(s: State) {
    |s.pc| == |s.running| == |s.leaving|
  }

  predicate InWait(pc: Pc) {
    pc == InitBlocked || pc == InitWoken || pc == SwitchBlocked || pc == SwitchWoken
  }

  predicate Blocked(pc: Pc) {
    pc == InitBlocked || pc == SwitchBlocked
  }

  function Woken(pc: Pc): Pc {
    match pc case InitBlocked => InitWoken case SwitchBlocked => SwitchWoken case _ => pc
  }

  function At(s: State, t: Tid, pc: Pc): State
    requires t < |s.pc|
  {
    s.(pc := s.pc[t := pc])
  }

  /** `Worker::notify`: the flag goes up and whoever waits on the worker's condition variable leaves the wait set. */
  function NotifyWorker(s: State, w: Tid): State
    requires w < |s.pc| && Sized(s)
  {
    s.(running := s.running[w := true], pc := s.pc[w := Woken(s.pc[w])],
       main := if s.main == CtorBlocked(w) then CtorCheck(w) else s.main)
  }

  /** Where a thread goes once `Worker::wait` has returned. */
  function Resume(s: State, t: Tid): State
    requires t < |s.pc| && Sized(s)
  {
    if s.leaving[t] then At(s, t, Finished)
    else if s.pc[t] == InitWoken && !s.started then At(s.(started := true), t, Scheduling)
    else At(s, t, User)
  }

  /** One step of a worker thread; `v` is the worker `schedule` selects. */
  function Step(s: State, t: Tid, v: Tid): Option<State>
    requires t < |s.pc| && Sized(s)
  {
    match s.pc[t]
    case NotStarted => None
    case Starting =>
      if s.mutex != None then None
      else Some(At(NotifyWorker(s, t).(running := s.running[t := false]), t, InitBlocked))
    case InitBlocked => Some(At(s, t, InitWoken))
    case SwitchBlocked => Some(At(s, t, SwitchWoken))
    case InitWoken => if s.mutex != None then None else Some(if s.running[t] then Resume(s, t) else At(s, t, InitBlocked))
    case SwitchWoken => if s.mutex != None then None else Some(if s.running[t] then Resume(s, t) else At(s, t, SwitchBlocked))
    case Scheduling =>
      // with exit signalled no work is left, see SchedulerTheorems.ExitAssertion
      if s.exit then (if s.current < |s.pc| then Some(At(s.(leaving := s.leaving[s.current := true]), t, Finished)) else None)
      else if v < |s.pc| then Some(At(s.(current := v), t, if v == t then User else SwitchEntry)) else None
    case User => Some(At(s, t, Scheduling))
    case SwitchEntry => if s.mutex == None then Some(At(s.(mutex := Some(t)), t, SwitchLocked)) else None
    case SwitchLocked => if s.current < |s.pc| then Some(At(NotifyWorker(s, s.current), t, Handing)) else None
    case Handing => Some(At(s.(running := s.running[t := false], mutex := None, token := s.current), t, SwitchBlocked))
    case Finished => None
  }

  /** The thread that constructs the scheduler and later destroys it. */
  function MainStep(s: State): Option<State>
    requires Sized(s) && |s.pc| > 0
  {
    match s.main
    case Create(k) => if k < |s.pc| then Some(At(s, k, Starting).(main := CtorCheck(k))) else Some(s.(main := Launch))
    case CtorCheck(k) =>
      if s.mutex != None || k >= |s.pc| then None
      else Some(s.(main := if s.running[k] then CtorBlocked(k) else Create(k + 1)))
    case CtorBlocked(k) => Some(s.(main := CtorCheck(k)))
    case Launch => if s.mutex == None then Some(NotifyWorker(s.(current := 0, token := 0), 0).(main := Up)) else None
    case Up =>
      // destruction starts when every scheduler is quiet, see SchedulerTheorems.AllIdleSound
      if s.token < |s.pc| && s.started && s.pc[s.token] == Scheduling then Some(s.(exit := true, main := Destroy(0))) else None
    case Destroy(k) =>
      if k >= |s.pc| then Some(s.(main := Gone))
      else if s.mutex == None then Some(NotifyWorker(s, k).(leaving := s.leaving[k := true], main := Join(k))) else None
    case Join(k) => if k < |s.pc| && s.pc[k] == Finished then Some(s.(main := Destroy(k + 1))) else None
    case Gone => None
  }

  ghost predicate Next(s: State, s': State) {
    && Sized(s) && |s.pc| > 0
    && (MainStep(s) == Some(s') || exists t: Tid, v: Tid :: t < |s.pc| && Step(s, t, v) == Some(s'))
  }

  /** Worker objects exist with their flags up; no thread has been started. */
  ghost predicate Init(s: State) {
    && Sized(s) && |s.pc| > 0 && s.mutex == None && !s.started && !s.exit && s.main == Create(0)
    && forall t :: 0 <= t < |s.pc| ==> s.pc[t] == NotStarted && s.running[t] && !s.leaving[t]
  }

  ghost predicate Behaviour(b: seq<State>) {
    |b| > 0 && Init(b[0]) && forall i :: 0 <= i < |b| - 1 ==> Next(b[i], b[i + 1])
  }

  // ---------- the invariant ----------

  predicate InInit(pc: Pc) {
    pc == InitBlocked || pc == InitWoken
  }

  /** How many threads have been started, and how many are known to have parked. */
  function Begun(m: MainPc, n: nat): nat {
    match m case Create(k) => k case CtorCheck(k) => k + 1 case CtorBlocked(k) => k + 1 case _ => n
  }

  function Settled(m: MainPc, n: nat): nat {
    match m case Create(k) => k case CtorCheck(k) => k case CtorBlocked(k) => k case _ => n
  }

  predicate Building(m: MainPc) {
    m.Create? || m.CtorCheck? || m.CtorBlocked? || m == Launch
  }

  ghost predicate BuildingOk(s: State)
    requires Sized(s)
  {
    var n := |s.pc|;
    && Begun(s.main, n) <= n && s.mutex == None && !s.started && !s.exit
    && (forall t: Tid :: t < n ==> !s.leaving[t])
    && (forall t: Tid :: t < Settled(s.main, n) ==> InInit(s.pc[t]) && !s.running[t])
    && (forall t: Tid :: Begun(s.main, n) <= t < n ==> s.pc[t] == NotStarted && s.running[t])
    && (forall t: Tid :: Settled(s.main, n) <= t < Begun(s.main, n) ==>
          if s.running[t] then s.pc[t] == Starting else InInit(s.pc[t]) && s.main == CtorCheck(t))
  }

  predicate Switching(pc: Pc) {
    pc == SwitchEntry || pc == SwitchLocked || pc == Handing
  }

  ghost predicate TokenOk(s: State)
    requires Sized(s)
  {
    var n := |s.pc|;
    && s.token < n && s.current < n && s.running[s.token] && !s.exit
    && (forall t: Tid :: t < n ==> !s.leaving[t])
    && (forall t: Tid :: t < n && t != s.token ==>
          InWait(s.pc[t]) && (s.running[t] <==> s.pc[s.token] == Handing && t == s.current))
    && (forall t: Tid :: t < n && s.running[t] ==> !Blocked(s.pc[t]))
    && (InWait(s.pc[s.token]) || Switching(s.pc[s.token]) || s.pc[s.token] == Scheduling || s.pc[s.token] == User)
    && (Switching(s.pc[s.token]) <==> s.current != s.token)
    && s.mutex == (if s.pc[s.token] == SwitchLocked || s.pc[s.token] == Handing then Some(s.token) else None)
    && (!s.started ==> forall t: Tid :: t < n ==> InInit(s.pc[t]))
  }

  function Dismissed(m: MainPc, n: nat): nat {
    match m case Destroy(k) => k case Join(k) => k + 1 case _ => n
  }

  ghost predicate LeavingOk(s: State)
    requires Sized(s)
  {
    var n := |s.pc|;
    && s.exit && s.started && s.mutex == None && s.token < n && s.current == s.token && Dismissed(s.main, n) <= n
    && (forall t: Tid :: t < n && t != s.token ==> InWait(s.pc[t]) || s.pc[t] == Finished)
    && (s.pc[s.token] == Scheduling || s.pc[s.token] == Finished)
    && (forall t: Tid :: t < n && t != s.token ==> (s.running[t] <==> t < Dismissed(s.main, n)))
    && (forall t: Tid :: t < n && t != s.token ==> (s.leaving[t] <==> t < Dismissed(s.main, n)))
    && (forall t: Tid :: t < n && s.running[t] ==> !Blocked(s.pc[t]))
  }

  ghost predicate Inv(s: State) {
    && Sized(s) && |s.pc| > 0
    && if Building(s.main) then BuildingOk(s) else if s.main == Up then TokenOk(s) else LeavingOk(s)
  }
}
