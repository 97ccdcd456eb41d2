/**
 `Timed_mutex` and `Recursive_timed_mutex` with any number of threads: a lock word guarded by an inner mutex,
 and a condition variable its waiters sleep on. Both are one transition system, told apart by `recursive`.
 */
module TimedLock {
  import opened Common
  import opened CondVarWait
  import opened LockCount

  datatype Pc =
    | Outside
    | Enter(timed: bool)              // lock or a timed attempt, before the inner mutex
    | Try                             // try_lock
    | End                             // unlock, before the inner mutex
    | AtCv(timed: bool, ph: Phase)
    | Notify                          // the inner mutex released, notify_one still to come

  datatype State = State(
    recursive: bool,
    locked: bool,            // m_locked of the plain one
    tid: Option<Tid>,        // m_tid and m_locks_count of the recursive one
    count: Count,
    mutex: Option<Tid>,
    list: seq<Tid>,
    cond: seq<bool>,
    pc: seq<Pc>,
    depth: seq<nat>)         // history: successful locks minus unlocks, thread by thread

  predicate Free(s: State) {
    if s.recursive then s.count == 0 else !s.locked
  }

  predicate Sized(s: State) {
    |s.cond| == |s.pc| == |s.depth|
  }

  function At(s: State, t: Tid, pc: Pc): State
    requires t < |s.pc|
  {
    s.(pc := s.pc[t := pc])
  }

  /** The last statements of a lock operation that found the lock free, or its own. */
  function Take(s: State, t: Tid): State
    requires t < |s.pc| && Sized(s)
  {
    var deeper := s.depth[t := s.depth[t] + 1];
    if !s.recursive then At(s.(locked := true, depth := deeper, mutex := None), t, Outside)
    else if Inc(s.count).1
    then At(s.(tid := Some(t), count := Inc(s.count).0, depth := deeper, mutex := None), t, Outside)
    else At(s.(count := Inc(s.count).0, mutex := None), t, Outside)
  }

  function Unlock(s: State, t: Tid): State
    requires t < |s.pc| && Sized(s)
  {
    var lower := s.depth[t := if s.depth[t] > 0 then s.depth[t] - 1 else 0];
    if !s.recursive then At(s.(locked := false, depth := lower), t, Notify)
    else if Dec(s.count) == 0 then At(s.(tid := None, count := 0, depth := lower), t, Notify)
    else At(s.(count := Dec(s.count), depth := lower), t, Outside)
  }

  function CvStep(s: State, t: Tid, chance: bool): Option<State>
    requires t < |s.pc| && Sized(s) && s.pc[t].AtCv?
  {
    var late := s.pc[t].timed && chance;
    var timed := s.pc[t].timed;
    match s.pc[t].ph
    case Eval => Some(if Free(s) then Take(s, t) else At(s, t, AtCv(timed, if late then Last else Add)))
    case Add => Some(At(s.(list := s.list + [t]), t, AtCv(timed, Clear)))
    case Clear => Some(At(s.(cond := s.cond[t := false]), t, AtCv(timed, Release)))
    case Release => Some(At(s.(mutex := None), t, AtCv(timed, Sleeping)))
    case Sleeping => if s.cond[t] || late then Some(At(s, t, AtCv(timed, Relock))) else None
    case Relock => if s.mutex == None then Some(At(s.(mutex := Some(t)), t, AtCv(timed, Remove))) else None
    case Remove => Some(At(s.(list := RemoveNode(s.list, t)), t, AtCv(timed, if late then Last else Eval)))
    case Last => Some(if Free(s) then Take(s, t) else At(s.(mutex := None), t, Outside))
  }

  /** One step of a thread; `chance` is a passed deadline, or an inner mutex found busy by `try_lock`. */
  function Step(s: State, t: Tid, chance: bool): Option<State>
    requires t < |s.pc| && Sized(s)
  {
    match s.pc[t]
    case Outside => None
    case AtCv(_, _) => CvStep(s, t, chance)
    case Enter(timed) =>
      if s.mutex != None then None
      else if s.recursive && s.tid == Some(t) then Some(Take(s, t))
      else Some(At(s.(mutex := Some(t)), t, AtCv(timed, Eval)))
    case Try =>
      if s.mutex == None && !chance && (Free(s) || (s.recursive && s.tid == Some(t))) then Some(Take(s, t))
      else Some(At(s, t, Outside))
    case End => if s.mutex == None then Some(Unlock(s, t)) else None
    case Notify => Some(At(s.(cond := FlagFront(s.list, s.cond)), t, Outside))
  }

  /** The user's side of the contract: only a holder unlocks, and only the recursive kind is locked again by its holder. */
  predicate MayCall(s: State, t: Tid, call: Pc)
    requires t < |s.pc| && Sized(s)
  {
    s.pc[t] == Outside &&
    match call
    case Enter(_) => s.recursive || s.depth[t] == 0
    case Try => s.recursive || s.depth[t] == 0
    case End => s.depth[t] > 0
    case _ => false
  }

  ghost predicate ThreadNext(s: State, t: Tid, s': State) {
    Sized(s) && t < |s.pc| &&
    ((exists call :: MayCall(s, t, call) && s' == At(s, t, call))
     || Step(s, t, false) == Some(s') || Step(s, t, true) == Some(s'))
  }

  ghost predicate Next(s: State, s': State) {
    exists t: Tid :: ThreadNext(s, t, s')
  }

  ghost predicate Init(s: State) {
    && Sized(s) && !s.locked && s.tid == None && s.count == 0 && s.mutex == None && s.list == []
    && forall t :: 0 <= t < |s.pc| ==> s.pc[t] == Outside && s.depth[t] == 0
  }

  ghost predicate Behaviour(b: seq<State>) {
    |b| > 0 && Init(b[0]) && forall i :: 0 <= i < |b| - 1 ==> Next(b[i], b[i + 1])
  }

  // ---------- the invariant ----------

  predicate Holds(pc: Pc) { pc.AtCv? && HasMutex(pc.ph) }

  predicate Listed(pc: Pc) { pc.AtCv? && InList(pc.ph) }

  ghost predicate MutexOk(s: State) {
    && (s.mutex.Some? ==> s.mutex.value < |s.pc|)
    && forall t: Tid :: t < |s.pc| ==> (s.mutex == Some(t) <==> Holds(s.pc[t]))
  }

  ghost predicate ListOk(s: State) {
    NoDup(s.list) && forall t: Tid :: t in s.list <==> t < |s.pc| && Listed(s.pc[t])
  }

  ghost predicate CommittedOk(s: State) {
    forall t: Tid :: t < |s.pc| && s.pc[t].AtCv? && Committed(s.pc[t].ph) ==> !Free(s)
  }

  /** The fields of the lock agree with who has locked it, and how often. */
  ghost predicate OwnerOk(s: State)
    requires Sized(s)
  {
    && (forall t: Tid :: t < |s.pc| && (Free(s) || (s.recursive && s.tid != Some(t))) ==> s.depth[t] == 0)
    && (s.recursive ==> !s.locked && (s.tid == None <==> s.count == 0) && s.count < MAX_REC_LOCKS)
    && (forall t: Tid :: s.recursive && s.tid == Some(t) ==> t < |s.pc| && s.depth[t] == s.count)
    && (!s.recursive ==> s.tid == None && s.count == 0)
    && (!s.recursive && s.locked ==> SomeHolder(s))
    && (!s.recursive ==> forall t: Tid, u: Tid :: t < |s.pc| && u < |s.pc| && s.depth[t] > 0 && s.depth[u] > 0 ==> t == u)
    && (!s.recursive ==> forall t: Tid :: t < |s.pc| ==> s.depth[t] <= 1)
    && (forall t: Tid :: t < |s.pc| && s.pc[t] == End ==> s.depth[t] > 0)
    && (forall t: Tid :: t < |s.pc| && s.pc[t].AtCv? ==> s.depth[t] == 0)
    && (forall t: Tid :: t < |s.pc| && !s.recursive && (s.pc[t].Enter? || s.pc[t] == Try) ==> s.depth[t] == 0)
  }

  ghost predicate SomeHolder(s: State)
    requires Sized(s)
  {
    exists t: Tid :: t < |s.pc| && s.depth[t] > 0
  }

  ghost predicate Coming(s: State) {
    exists u: Tid :: u < |s.pc| && s.pc[u] == Notify
  }

  /** A listed waiter that is past its sleep or will be: it has been signalled or its deadline has passed. */
  predicate Awake(s: State, t: Tid)
    requires Sized(s)
  {
    t < |s.pc| && s.pc[t].AtCv? &&
    (s.pc[t].ph == Relock || s.pc[t].ph == Remove || (s.pc[t].ph == Sleeping && s.cond[t]))
  }

  ghost predicate SomeAwake(s: State)
    requires Sized(s)
  {
    exists t: Tid :: Awake(s, t)
  }

  /** The holder of the inner mutex is about to look at the lock. */
  predicate HolderLooks(s: State) {
    s.mutex.Some? && s.mutex.value < |s.pc| && s.pc[s.mutex.value].AtCv? &&
    (s.pc[s.mutex.value].ph == Eval || s.pc[s.mutex.value].ph == Last)
  }

  ghost predicate HandOffOk(s: State)
    requires Sized(s)
  {
    Free(s) && s.list != [] ==> Coming(s) || SomeAwake(s) || HolderLooks(s)
  }

  ghost predicate Inv(s: State) {
    Sized(s) && MutexOk(s) && ListOk(s) && CommittedOk(s) && OwnerOk(s) && HandOffOk(s)
  }
}
