/**
 The two-gate reader/writer lock with any number of threads: `Shared_mutex` and `Shared_timed_mutex` over
 an internal mutex, two condition variables and the packed word.
 */
module SharedMutex {
  import opened Common
  import opened CondVarWait
  import opened SharedMutexState

  datatype Gate = G1 | G2

  datatype Kind = Kind(write: bool, timed: bool)

  datatype Pc =
    | Outside
    | Enter(k: Kind)                        // lock, lock_shared or a timed acquisition, before the internal mutex
    | AtGate(g: Gate, k: Kind, ph: Phase)
    | TryWrite                              // try_lock, before the internal mutex
    | TryRead
    | Writing                               // holds the lock exclusively
    | Reading                               // holds the lock shared
    | EndWrite                              // unlock, before the internal mutex
    | EndRead                               // unlock_shared, before the internal mutex
    | Notify(what: Notice)                  // the internal mutex released, the notification still to come

  datatype State = State(
    word: Word,
    mutex: Option<Tid>,
    gate1: seq<Tid>,
    gate2: seq<Tid>,
    cond: seq<bool>,
    pc: seq<Pc>)

  /** The predicate a thread waits for at a gate. */
  function Open(g: Gate, k: Kind, w: Word): bool {
    match g
    case G1 => !HasWrite(w) && (k.write || !MaxReaders(w))
    case G2 => !HasReaders(w)
  }

  function At(s: State, t: Tid, pc: Pc): State
    requires t < |s.pc|
  {
    s.(pc := s.pc[t := pc])
  }

  function WithList(s: State, g: Gate, list: seq<Tid>): State {
    match g
    case G1 => s.(gate1 := list)
    case G2 => s.(gate2 := list)
  }

  function ListOf(s: State, g: Gate): seq<Tid> {
    match g
    case G1 => s.gate1
    case G2 => s.gate2
  }

  /** The gate's predicate holds: the thread goes through, still inside the critical section. */
  function Pass(s: State, t: Tid, g: Gate, k: Kind): State
    requires t < |s.pc|
  {
    if g == G2 then At(s.(mutex := None), t, Writing)
    else if k.write then At(s.(word := SetWrite(s.word)), t, AtGate(G2, k, Eval))
    else At(s.(word := IncReaders(s.word), mutex := None), t, Reading)
  }

  /** A timed acquisition gives up; behind the first gate it takes its write request back. */
  function Fail(s: State, t: Tid, g: Gate): State
    requires t < |s.pc|
  {
    if g == G1 then At(s.(mutex := None), t, Outside)
    else At(s.(word := UnsetWrite(s.word), mutex := None), t, Notify(AllAtGate1))
  }

  /** One step of a thread at a gate; `late` tells whether a timed thread's deadline has passed. */
  function GateStep(s: State, t: Tid, late: bool): Option<State>
    requires t < |s.pc| && |s.cond| == |s.pc| && s.pc[t].AtGate?
  {
    var (g, k) := (s.pc[t].g, s.pc[t].k);
    match s.pc[t].ph
    case Eval =>
      if Open(g, k, s.word) then Some(Pass(s, t, g, k))
      else Some(At(s, t, AtGate(g, k, if k.timed && late then Last else Add)))
    case Add => Some(At(WithList(s, g, ListOf(s, g) + [t]), t, AtGate(g, k, Clear)))
    case Clear => Some(At(s.(cond := s.cond[t := false]), t, AtGate(g, k, Release)))
    case Release => Some(At(s.(mutex := None), t, AtGate(g, k, Sleeping)))
    case Sleeping => if s.cond[t] || (k.timed && late) then Some(At(s, t, AtGate(g, k, Relock))) else None
    case Relock => if s.mutex == None then Some(At(s.(mutex := Some(t)), t, AtGate(g, k, Remove))) else None
    case Remove =>
      Some(At(WithList(s, g, RemoveNode(ListOf(s, g), t)), t, AtGate(g, k, if k.timed && late then Last else Eval)))
    case Last => Some(if Open(g, k, s.word) then Pass(s, t, g, k) else Fail(s, t, g))
  }

  function AfterNotice(what: Notice): Pc {
    if what == NoNotice then Outside else Notify(what)
  }

  /** One step of a thread inside an operation of the lock, or `None` when it is blocked or outside. */
  function Step(s: State, t: Tid, late: bool): Option<State>
    requires t < |s.pc| && |s.cond| == |s.pc|
  {
    match s.pc[t]
    case AtGate(_, _, _) => GateStep(s, t, late)
    case Enter(k) => if s.mutex == None then Some(At(s.(mutex := Some(t)), t, AtGate(G1, k, Eval))) else None
    case TryWrite =>
      if s.mutex != None then None
      else if !HasReaders(s.word) && !HasWrite(s.word) then Some(At(s.(word := SetWrite(s.word)), t, Writing))
      else Some(At(s, t, Outside))
    case TryRead =>
      if s.mutex != None then None
      else if !HasWrite(s.word) && !MaxReaders(s.word) then Some(At(s.(word := IncReaders(s.word)), t, Reading))
      else Some(At(s, t, Outside))
    case EndWrite =>
      if s.mutex != None then None else Some(At(s.(word := UnsetWrite(s.word)), t, Notify(AllAtGate1)))
    case EndRead =>
      if s.mutex != None then None
      else Some(At(s.(word := DecReaders(s.word)), t, AfterNotice(UnlockSharedNotice(s.word))))
    case Notify(what) =>
      var c := match what
               case NoNotice => s.cond
               case AllAtGate1 => FlagAll(s.gate1, s.cond)
               case OneAtGate1 => FlagFront(s.gate1, s.cond)
               case OneAtGate2 => FlagFront(s.gate2, s.cond);
      Some(At(s.(cond := c), t, Outside))
    case _ => None
  }

  /** What a thread outside the lock's operations may call next. */
  predicate MayCall(pc: Pc, call: Pc) {
    match pc
    case Outside => call.Enter? || call == TryWrite || call == TryRead
    case Writing => call == EndWrite
    case Reading => call == EndRead
    case _ => false
  }

  predicate Sized(s: State) {
    |s.cond| == |s.pc|
  }

  /** A thread starts an operation, or takes a step inside one; its deadline may pass at any time. */
  ghost predicate ThreadNext(s: State, t: Tid, s': State) {
    Sized(s) && t < |s.pc| &&
      ((exists call :: MayCall(s.pc[t], call) && s' == At(s, t, call))
       || Step(s, t, false) == Some(s') || Step(s, t, true) == Some(s'))
  }

  ghost predicate Next(s: State, s': State) {
    exists t: Tid :: ThreadNext(s, t, s')
  }

  /** The lock as constructed, with all threads outside; the configuration allows far fewer threads than readers. */
  ghost predicate Init(s: State) {
    && Sized(s) && |s.pc| < MAX_READERS
    && s.word == 0 && s.mutex == None && s.gate1 == [] && s.gate2 == []
    && forall t :: 0 <= t < |s.pc| ==> s.pc[t] == Outside
  }

  ghost predicate Behaviour(b: seq<State>) {
    |b| > 0 && Init(b[0]) && forall i :: 0 <= i < |b| - 1 ==> Next(b[i], b[i + 1])
  }

  // ---------- the invariant ----------

  predicate Holds(pc: Pc) {
    pc.AtGate? && HasMutex(pc.ph)
  }

  /** The thread's write request is in the word. */
  predicate Entered(pc: Pc) {
    (pc.AtGate? && pc.g == G2) || pc == Writing || pc == EndWrite
  }

  predicate Shares(pc: Pc) {
    pc == Reading || pc == EndRead
  }

  predicate Listed(pc: Pc, g: Gate) {
    pc.AtGate? && pc.g == g && InList(pc.ph)
  }

  function CountShares(pc: seq<Pc>): nat {
    if pc == [] then 0 else (if Shares(pc[0]) then 1 else 0) + CountShares(pc[1..])
  }

  ghost predicate MutexOk(s: State) {
    && (s.mutex.Some? ==> s.mutex.value < |s.pc|)
    && forall t: Tid :: t < |s.pc| ==> (s.mutex == Some(t) <==> Holds(s.pc[t]))
  }

  ghost predicate ListOk(s: State, g: Gate) {
    && NoDup(ListOf(s, g))
    && forall t: Tid :: t in ListOf(s, g) <==> t < |s.pc| && Listed(s.pc[t], g)
  }

  ghost predicate SomeEntered(s: State) {
    exists t: Tid :: t < |s.pc| && Entered(s.pc[t])
  }

  ghost predicate WriterOk(s: State) {
    && (HasWrite(s.word) <==> SomeEntered(s))
    && (forall t: Tid, u: Tid :: t < |s.pc| && u < |s.pc| && Entered(s.pc[t]) && Entered(s.pc[u]) ==> t == u)
    && (forall t: Tid :: t < |s.pc| && (s.pc[t] == Writing || s.pc[t] == EndWrite) ==> Readers(s.word) == 0)
  }

  ghost predicate CommittedOk(s: State) {
    forall t: Tid :: t < |s.pc| && s.pc[t].AtGate? && Committed(s.pc[t].ph) ==> !Open(s.pc[t].g, s.pc[t].k, s.word)
  }

  ghost predicate Coming(s: State, what: Notice) {
    exists u: Tid :: u < |s.pc| && s.pc[u] == Notify(what)
  }

  /** Asleep at the gate with no signal. */
  predicate Unsignalled(s: State, t: Tid, g: Gate)
    requires t < |s.pc| && Sized(s)
  {
    s.pc[t].AtGate? && s.pc[t].g == g && s.pc[t].ph == Sleeping && !s.cond[t]
  }

  ghost predicate HandOffOk(s: State)
    requires Sized(s)
  {
    && (forall t: Tid :: t < |s.pc| && Unsignalled(s, t, G1) && !HasWrite(s.word) ==> Coming(s, AllAtGate1))
    && (forall t: Tid :: t < |s.pc| && Unsignalled(s, t, G2) && !HasReaders(s.word) ==> Coming(s, OneAtGate2))
  }

  ghost predicate Inv(s: State) {
    && Sized(s) && |s.pc| < MAX_READERS
    && MutexOk(s) && ListOk(s, G1) && ListOk(s, G2) && WriterOk(s) && CommittedOk(s) && HandOffOk(s)
    && Readers(s.word) == CountShares(s.pc)
  }
}
