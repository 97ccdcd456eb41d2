/**
 `Mutex` and `Recursive_mutex` over the spinlock, at the grain of single memory accesses: the load and the
 exchange of the flag, the loads and stores of the thread id, and the read and the write inside `++` and `--`
 on the plain lock count. Any number of threads.
 */
module SpinMutex {
  import opened Common
  import opened LockCount

  type Tid = nat

  datatype Pc =
    | Outside
    | LoadTid(try: bool)             // compares m_tid with its own id; `try` tells try_lock from lock
    | SpinLoad(try: bool)            // m_flag.load
    | SpinExchange(try: bool)        // m_flag.exchange
    | StoreTid(try: bool)
    | ReadUp(again: bool, try: bool) // ++m_locks_count; `again` when the lock is already its own
    | WriteUp(seen: Count, again: bool, try: bool)
    | ReadDown
    | WriteDown(seen: Count)
    | StoreEmpty
    | ClearFlag

  datatype State = State(
    recursive: bool,
    flag: bool,
    tid: Option<Tid>,
    count: Count,
    pc: seq<Pc>,
    held: seq<nat>,        // history: successful locks minus unlocks, thread by thread
    recorded: seq<bool>)   // history: the thread's last acquisition went through lock()

  predicate Sized(s: State) {
    |s.pc| == |s.held| == |s.recorded|
  }

  function At(s: State, t: Tid, pc: Pc): State
    requires t < |s.pc|
  {
    s.(pc := s.pc[t := pc])
  }

  function Holding(s: State, t: Tid, n: nat): State
    requires t < |s.held|
  {
    s.(held := s.held[t := n])
  }

  /** The flag went from 0 to 1 under this thread's exchange. */
  function Acquired(s: State, t: Tid, try: bool): State
    requires t < |s.pc| && Sized(s)
  {
    if s.recursive then At(s.(flag := true), t, if try then ReadUp(false, true) else StoreTid(false))
    else if try then At(Holding(s.(flag := true, recorded := s.recorded[t := false]), t, 1), t, Outside)
    else At(s.(flag := true), t, StoreTid(false))
  }

  function StoreStep(s: State, t: Tid, try: bool): State
    requires t < |s.pc| && Sized(s)
  {
    var s1 := s.(tid := Some(t));
    if s.recursive then At(s1, t, if try then Outside else ReadUp(false, false))
    else At(Holding(s1.(recorded := s.recorded[t := true]), t, 1), t, Outside)
  }

  /** One memory access of a thread inside an operation. */
  function Step(s: State, t: Tid): Option<State>
    requires t < |s.pc| && Sized(s)
  {
    match s.pc[t]
    case Outside => None
    case LoadTid(try) =>
      Some(At(s, t, if s.tid != Some(t) then SpinLoad(try) else if s.recursive then ReadUp(true, try) else Outside))
    case SpinLoad(try) =>
      Some(At(s, t, if !s.flag then SpinExchange(try) else if try then Outside else SpinLoad(false)))
    case SpinExchange(try) =>
      Some(if !s.flag then Acquired(s, t, try) else At(s, t, if try then Outside else SpinLoad(false)))
    case StoreTid(try) => Some(StoreStep(s, t, try))
    case ReadUp(again, try) => Some(At(s, t, WriteUp(s.count, again, try)))
    case WriteUp(seen, again, try) =>
      var s1 := s.(count := Inc(seen).0);
      Some(At(if Inc(seen).1 then Holding(s1, t, s.held[t] + 1) else s1, t, if again || !try then Outside else StoreTid(true)))
    case ReadDown => Some(At(s, t, WriteDown(s.count)))
    case WriteDown(seen) =>
      var s1 := Holding(s.(count := Dec(seen)), t, if s.held[t] > 0 then s.held[t] - 1 else 0);
      Some(At(s1, t, if Dec(seen) == 0 then StoreEmpty else Outside))
    case StoreEmpty =>
      var s1 := s.(tid := None);
      Some(At(if s.recursive then s1 else Holding(s1, t, 0), t, ClearFlag))
    case ClearFlag => Some(At(s.(flag := false), t, Outside))
  }

  /** Calls: `lock` and `try_lock` at any time, `unlock` by a holder. */
  predicate MayCall(s: State, t: Tid, call: Pc)
    requires t < |s.pc| && Sized(s)
  {
    s.pc[t] == Outside &&
    match call
    case LoadTid(try) => s.recursive || !try
    case SpinLoad(try) => !s.recursive && try
    case ReadDown => s.recursive && s.held[t] > 0
    case StoreEmpty => !s.recursive && s.held[t] > 0
    case _ => false
  }

  ghost predicate ThreadNext(s: State, t: Tid, s': State) {
    Sized(s) && t < |s.pc| && ((exists call :: MayCall(s, t, call) && s' == At(s, t, call)) || Step(s, t) == Some(s'))
  }

  ghost predicate Next(s: State, s': State) {
    exists t: Tid :: ThreadNext(s, t, s')
  }

  ghost predicate Init(s: State) {
    && Sized(s) && !s.flag && s.tid == None && s.count == 0
    && forall t :: 0 <= t < |s.pc| ==> s.pc[t] == Outside && s.held[t] == 0
  }

  ghost predicate Behaviour(b: seq<State>) {
    |b| > 0 && Init(b[0]) && forall i :: 0 <= i < |b| - 1 ==> Next(b[i], b[i + 1])
  }

  // ---------- the invariant ----------

  /** The thread between its exchange and its clearing of the flag. */
  predicate Owns(pc: Pc, held: nat) {
    held > 0 || pc.StoreTid? || ((pc.ReadUp? || pc.WriteUp?) && !pc.again) || pc == StoreEmpty || pc == ClearFlag
  }

  /** ... and whether its id is in `m_tid`. */
  predicate Stored(recursive: bool, recorded: bool, pc: Pc) {
    && !pc.StoreTid? && pc != ClearFlag && !((pc.ReadUp? || pc.WriteUp?) && !pc.again && pc.try)
    && (recursive || recorded)
  }

  /** What a thread's position says about its own holds and about the count it has read. */
  predicate LocalOk(recursive: bool, count: Count, pc: Pc, held: nat) {
    match pc
    case StoreTid(try) => held == (if try then 1 else 0) && (try ==> recursive)
    case ReadUp(again, _) => recursive && (again <==> held > 0)
    case WriteUp(seen, again, _) => recursive && (again <==> held > 0) && seen == count
    case ReadDown => recursive && held > 0
    case WriteDown(seen) => recursive && held > 0 && seen == count
    case StoreEmpty => held == (if recursive then 0 else 1)
    case ClearFlag => held == 0
    case LoadTid(try) => recursive || !try
    case _ => recursive || held <= 1
  }

  ghost predicate SomeOwner(s: State)
    requires Sized(s)
  {
    exists t: Tid :: t < |s.pc| && Owns(s.pc[t], s.held[t])
  }

  ghost predicate Inv(s: State) {
    && Sized(s)
    && (s.flag <==> SomeOwner(s))
    && (forall t: Tid, u: Tid :: t < |s.pc| && u < |s.pc| && Owns(s.pc[t], s.held[t]) && Owns(s.pc[u], s.held[u]) ==> t == u)
    && (s.tid.Some? ==> s.tid.value < |s.pc|)
    && (forall t: Tid :: t < |s.pc| ==>
          (s.tid == Some(t) <==> Owns(s.pc[t], s.held[t]) && Stored(s.recursive, s.recorded[t], s.pc[t])))
    && (forall t: Tid :: t < |s.pc| ==> LocalOk(s.recursive, s.count, s.pc[t], s.held[t]) && (s.recursive || s.held[t] <= 1))
    && (forall t: Tid :: t < |s.pc| && Owns(s.pc[t], s.held[t]) && s.recursive ==> s.count == s.held[t])
    && (!s.flag || !s.recursive ==> s.count == 0)
    && s.count < MAX_REC_LOCKS
  }
}
