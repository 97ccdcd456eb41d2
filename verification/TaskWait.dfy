/**
 One task, the worker that waits for it, the worker that completes it, and the scheduler of the waiting
 worker: task flags, the task's mutex and condition variable, the waiter's flag, the waiting queue and the
 scheduler's sleep, put together. Other threads may notify the scheduler at any time.
 */
module TaskWait {
  import opened Common

  datatype WaiterPc =
    | Outside
    | GetCheck       // prepare_get, before it looks at the taken flag
    | Lock
    | Eval           // the predicate of the wait, the task's mutex held
    | Add
    | Clear
    | Release
    | Check          // wait_cond_or_sleep
    | Parked         // in the scheduler's waiting queue
    | Ready          // moved to the runnable queue
    | Relock
    | Remove
    | SetTaken

  /** The completing worker in `TaskBase::notify`. */
  datatype FinisherPc =
    | Invoking
    | SetDone
    | NotifyLock     // notify_one, before the spinlock of the waiter list
    | Flag           // spinlock held
    | SchedNotify    // Scheduler::notify, before its critical section
    | SchedSignal    // ... before m_cv.notify_one
    | Unspin
    | Finished

  /** The thread that runs the waiter's scheduler. */
  datatype SchedPc =
    | Busy           // some worker of the scheduler executes
    | Scan           // schedule_waiting_workers
    | SleepLock
    | SleepCond      // scheduler mutex held, before the flags are read
    | SleepBlock     // the flags were clear
    | Blocked
    | Woken

  datatype TaskObject = TaskObject(
    done: bool,
    taken: bool,
    mutex: bool,     // m_mtx, held by the waiter
    listed: bool,    // the waiter is on m_cv
    spin: bool)      // the spinlock of m_cv, held by the finisher

  datatype Waiter = Waiter(
    pc: WaiterPc,
    get: bool,       // the call under way is `get`, not `wait`
    cond: bool,      // its condition flag
    results: nat)    // history: how often `get` has returned a result

  datatype Sched = Sched(
    pc: SchedPc,
    running: bool,      // m_running
    otherSignal: bool)  // another notifier has set m_running and not yet signalled

  datatype State = State(task: TaskObject, w: Waiter, f: FinisherPc, s: Sched)

  /** The waiter moves while its scheduler executes workers; when it parks, the thread goes on to schedule. */
  predicate WaiterStep(g: State, g': State) {
    var (task, w) := (g.task, g.w);
    g.s.pc == Busy && g'.f == g.f &&
    match w.pc
    case Outside => g' == g.(w := w.(pc := Lock, get := false)) || g' == g.(w := w.(pc := GetCheck, get := true))
    case GetCheck => g' == g.(w := w.(pc := if task.taken then Outside else Lock))
    case Lock => !task.mutex && g' == g.(task := task.(mutex := true), w := w.(pc := Eval))
    case Eval =>
      if !task.done then g' == g.(w := w.(pc := Add))
      else g' == g.(task := task.(mutex := false), w := w.(pc := if w.get then SetTaken else Outside))
    case Add => !task.spin && g' == g.(task := task.(listed := true), w := w.(pc := Clear))
    case Clear => g' == g.(w := w.(cond := false, pc := Release))
    case Release => g' == g.(task := task.(mutex := false), w := w.(pc := Check))
    case Check =>
      if w.cond then g' == g.(w := w.(pc := Relock)) else g' == g.(w := w.(pc := Parked), s := g.s.(pc := Scan))
    case Parked => false
    case Ready => g' == g.(w := w.(pc := Relock))
    case Relock => !task.mutex && g' == g.(task := task.(mutex := true), w := w.(pc := Remove))
    case Remove => !task.spin && g' == g.(task := task.(listed := false), w := w.(pc := Eval))
    case SetTaken => g' == g.(task := task.(taken := true), w := w.(pc := Outside, results := w.results + 1))
  }

  predicate InSleep(s: Sched) {
    s.pc == SleepCond || s.pc == SleepBlock
  }

  function Signalled(s: Sched): Sched {
    if s.pc == Blocked then s.(pc := Woken) else s
  }

  predicate FinisherStep(g: State, g': State) {
    var task := g.task;
    match g.f
    case Invoking => g' == g.(f := SetDone)
    case SetDone => !task.mutex && g' == g.(task := task.(done := true), f := NotifyLock)
    case NotifyLock => g' == g.(task := task.(spin := true), f := Flag)
    case Flag =>
      if task.listed then g' == g.(w := g.w.(cond := true), f := SchedNotify) else g' == g.(f := Unspin)
    case SchedNotify => !InSleep(g.s) && g' == g.(s := g.s.(running := true), f := SchedSignal)
    case SchedSignal => g' == g.(s := Signalled(g.s), f := Unspin)
    case Unspin => g' == g.(task := task.(spin := false), f := Finished)
    case Finished => false
  }

  /** `late`: a time another waiting worker asked for has come, or other work has turned up. */
  predicate SchedStep(g: State, late: bool, g': State) {
    var s := g.s;
    g'.f == g.f && g'.task == g.task &&
    match s.pc
    case Busy => g' == g.(s := s.(pc := Scan))
    case Scan =>
      if g.w.pc == Parked && g.w.cond then g' == g.(w := g.w.(pc := Ready), s := s.(pc := Busy))
      else g' == g.(s := s.(pc := if late || (g.w.pc != Parked && g.w.pc != Outside) then Busy else SleepLock))
    case SleepLock => g' == g.(s := s.(pc := SleepCond))
    case SleepCond => g' == g.(s := s.(pc := if late || (g.w.pc == Parked && g.w.cond) then Scan else SleepBlock))
    case SleepBlock => g' == g.(s := s.(running := false, pc := Blocked))
    case Blocked => late && g' == g.(s := s.(pc := Woken))
    case Woken =>
      if s.running || late then g' == g.(s := s.(running := true, pc := Scan)) else g' == g.(s := s.(pc := Blocked))
  }

  /** Some other thread inside `Scheduler::notify`. */
  predicate OtherStep(g: State, g': State) {
    if g.s.otherSignal then g' == g.(s := Signalled(g.s).(otherSignal := false))
    else !InSleep(g.s) && g' == g.(s := g.s.(running := true, otherSignal := true))
  }

  predicate Next(g: State, g': State) {
    WaiterStep(g, g') || FinisherStep(g, g') || SchedStep(g, false, g') || SchedStep(g, true, g') || OtherStep(g, g')
  }

  predicate Init(g: State) {
    && g.task == TaskObject(false, false, false, false, false)
    && g.w.pc == Outside && g.w.results == 0 && g.f == Invoking && g.s.pc == Busy && !g.s.otherSignal
  }

  predicate Behaviour(b: seq<State>) {
    |b| > 0 && Init(b[0]) && forall i :: 0 <= i < |b| - 1 ==> Next(b[i], b[i + 1])
  }

  // ---------- the invariant ----------

  predicate HasMutex(w: WaiterPc) {
    w == Eval || w == Add || w == Clear || w == Release || w == Remove
  }

  predicate Listed(w: WaiterPc) {
    w == Clear || w == Release || w == Check || w == Parked || w == Ready || w == Relock || w == Remove
  }

  /** Each flag agrees with the positions of the threads that set and clear it. */
  predicate ShapeOk(g: State) {
    && g.task.mutex == HasMutex(g.w.pc)
    && g.task.listed == Listed(g.w.pc)
    && g.task.done == (g.f != Invoking && g.f != SetDone)
    && g.task.spin == (g.f == Flag || g.f == SchedNotify || g.f == SchedSignal || g.f == Unspin)
    && (g.w.pc == Add || g.w.pc == Clear || g.w.pc == Release ==> !g.task.done)
    && (g.s.pc != Busy && g.s.pc != Scan ==> g.w.pc == Parked || g.w.pc == Outside)
    && (g.f == SchedNotify ==> g.w.cond)
  }

  /** The waiter's flag, and the scheduler's wake-up after it. */
  predicate HandOverOk(g: State) {
    && (g.task.done && (g.w.pc == Check || g.w.pc == Parked) && !g.w.cond ==> g.f == NotifyLock || g.f == Flag)
    && (g.w.cond && g.w.pc == Parked && g.s.pc == SleepBlock ==> g.f == SchedNotify)
    && (g.w.cond && g.w.pc == Parked && (g.s.pc == Blocked || g.s.pc == Woken) ==> g.f == SchedNotify || g.s.running)
    && (g.s.pc == Blocked && g.s.running ==> g.f == SchedSignal || g.s.otherSignal)
  }

  predicate ResultOk(g: State) {
    && (g.w.get && g.w.pc != Outside && g.w.pc != GetCheck ==> !g.task.taken)
    && (g.w.pc == SetTaken ==> g.task.done && g.w.get)
    && g.w.results == (if g.task.taken then 1 else 0) && (g.task.taken ==> g.task.done)
  }

  predicate Inv(g: State) {
    ShapeOk(g) && HandOverOk(g) && ResultOk(g)
  }

  lemma WaiterShapeKeeps(g: State, g': State)
    requires ShapeOk(g) && WaiterStep(g, g')
    ensures ShapeOk(g')
  {
  }

  lemma WaiterHandOverKeeps(g: State, g': State)
    requires ShapeOk(g) && HandOverOk(g) && WaiterStep(g, g')
    ensures HandOverOk(g')
  {
  }

  lemma WaiterResultKeeps(g: State, g': State)
    requires ResultOk(g) && WaiterStep(g, g')
    ensures ResultOk(g')
  {
  }

  lemma WaiterKeeps(g: State, g': State)
    requires Inv(g) && WaiterStep(g, g')
    ensures Inv(g')
  {
    hide ShapeOk, HandOverOk, ResultOk, WaiterStep;
    WaiterShapeKeeps(g, g');
    WaiterHandOverKeeps(g, g');
    WaiterResultKeeps(g, g');
  }

  lemma FinisherKeeps(g: State, g': State)
    requires Inv(g) && FinisherStep(g, g')
    ensures Inv(g')
  {
  }

  lemma SchedKeeps(g: State, late: bool, g': State)
    requires Inv(g) && SchedStep(g, late, g')
    ensures Inv(g')
  {
  }

  lemma OtherKeeps(g: State, g': State)
    requires Inv(g) && OtherStep(g, g')
    ensures Inv(g')
  {
  }

  lemma NextKeeps(g: State, g': State)
    requires Inv(g) && Next(g, g')
    ensures Inv(g')
  {
    hide Inv, WaiterStep, FinisherStep, SchedStep, OtherStep;
    if WaiterStep(g, g') { WaiterKeeps(g, g'); }
    else if FinisherStep(g, g') { FinisherKeeps(g, g'); }
    else if SchedStep(g, false, g') { SchedKeeps(g, false, g'); }
    else if SchedStep(g, true, g') { SchedKeeps(g, true, g'); }
    else { OtherKeeps(g, g'); }
  }

  lemma InitInv(g: State)
    requires Init(g)
    ensures Inv(g)
  {
  }

  lemma {:induction false} BehaviourInv(b: seq<State>, i: nat)
    requires Behaviour(b) && i < |b|
    ensures Inv(b[i])
  {
    hide Next, Inv;
    if i == 0 {
      InitInv(b[0]);
    } else {
      BehaviourInv(b, i - 1);
      assert Next(b[i - 1], b[i - 1 + 1]);
      NextKeeps(b[i - 1], b[i]);
    }
  }

  // ---------- what holds in every behaviour ----------

  /**
   A finished task never leaves its waiter behind: while the waiter is parked with its flag clear the finisher
   has still to reach the flag, and while its scheduler sleeps on a raised flag a notification is on the way.
   */
  lemma WaiterNotLost(b: seq<State>, i: nat)
    requires Behaviour(b) && i < |b| && b[i].w.pc == Parked && b[i].task.done
    ensures !b[i].w.cond ==> b[i].f == NotifyLock || b[i].f == Flag
    ensures b[i].w.cond && b[i].s.pc == Blocked ==>
      b[i].f == SchedNotify || (b[i].s.running && (b[i].f == SchedSignal || b[i].s.otherSignal))
  {
    hide Behaviour;
    BehaviourInv(b, i);
  }

  /** `get` returns a result only when the task is done, and at most once; the wait before it ends only when it is done. */
  lemma ResultOnce(b: seq<State>, i: nat)
    requires Behaviour(b) && i + 1 < |b|
    ensures b[i].w.results <= 1 && (b[i].w.results == 1 ==> b[i].task.done)
    ensures b[i].w.pc == Eval && b[i + 1].w.pc != Eval && b[i + 1].w.pc != Add ==> b[i].task.done
  {
    hide Inv, Next;
    BehaviourInv(b, i);
    assert Next(b[i], b[i + 1]);
    Once(b[i]);
    EvalLeaves(b[i], b[i + 1]);
  }

  lemma Once(g: State)
    requires Inv(g)
    ensures g.w.results <= 1 && (g.w.results == 1 ==> g.task.done)
  {
  }

  lemma EvalLeaves(g: State, g': State)
    requires Next(g, g')
    ensures g.w.pc == Eval && g'.w.pc != Eval && g'.w.pc != Add ==> g.task.done
  {
  }

  /** How far the waiter of a finished task is from its return. */
  function Distance(g: State): nat {
    10 * WaiterDistance(g.w.pc) + SchedDistance(g.s.pc, g.w.pc == Parked)
  }

  function WaiterDistance(w: WaiterPc): nat {
    match w
    case Outside => 0
    case SetTaken => 1
    case Eval => 2
    case Remove => 3
    case Lock => 3
    case Relock => 4
    case GetCheck => 4
    case Ready => 5
    case Check => 5
    case Parked => 6
    case _ => 7
  }

  function SchedDistance(s: SchedPc, parked: bool): nat {
    match s
    case Busy => if parked then 5 else 0
    case Scan => 1
    case SleepCond => 2
    case Woken => 2
    case SleepLock => 3
    case SleepBlock => 4
    case Blocked => 4
  }

  /** A step of the waiter, of its scheduler, or of a notifier under way. */
  predicate Forced(g: State, g': State) {
    WaiterStep(g, g') || SchedStep(g, false, g') || (g.s.otherSignal && OtherStep(g, g'))
  }

  /**
   Once the finisher is through, some forced step brings the waiter
   closer to its return; none of them needs a timeout or a spurious wake-up.
   */
  lemma WaiterReturns(b: seq<State>, i: nat)
    requires Behaviour(b) && i < |b| && b[i].f == Finished && b[i].w.pc != Outside
    ensures exists g' :: Distance(g') < Distance(b[i]) && Forced(b[i], g')
  {
    hide Behaviour, Inv, WaiterStep, SchedStep, OtherStep, Distance;
    BehaviourInv(b, i);
    var g' := Advance(b[i]);
  }

  lemma Advance(g: State) returns (g': State)
    requires Inv(g) && g.f == Finished && g.w.pc != Outside
    ensures Distance(g') < Distance(g)
    ensures Forced(g, g')
  {
    hide Inv, WaiterStep, SchedStep, OtherStep, Distance;
    if g.s.pc == Busy && g.w.pc != Parked {
      g' := WaiterAdvances(g);
    } else if g.s.pc == Blocked {
      g' := SignalAdvances(g);
    } else {
      g' := SchedAdvances(g);
    }
  }

  /** Nothing the waiter needs is held by others any more. */
  lemma AllFree(g: State)
    requires Inv(g) && g.f == Finished
    ensures g.task.done && !g.task.spin && g.task.mutex == HasMutex(g.w.pc)
    ensures g.w.pc != Add && g.w.pc != Clear && g.w.pc != Release && (g.w.pc == Check ==> g.w.cond)
  {
  }

  lemma WaiterAdvances(g: State) returns (g': State)
    requires Inv(g) && g.f == Finished && g.w.pc != Outside && g.s.pc == Busy && g.w.pc != Parked
    ensures WaiterStep(g, g') && Distance(g') < Distance(g)
  {
    hide Inv, SchedDistance;
    AllFree(g);
    var (task, w) := (g.task, g.w);
    match w.pc
    case GetCheck => g' := g.(w := w.(pc := if task.taken then Outside else Lock));
    case Lock => g' := g.(task := task.(mutex := true), w := w.(pc := Eval));
    case Eval => g' := g.(task := task.(mutex := false), w := w.(pc := if w.get then SetTaken else Outside));
    case Check => g' := g.(w := w.(pc := Relock));
    case Ready => g' := g.(w := w.(pc := Relock));
    case Relock => g' := g.(task := task.(mutex := true), w := w.(pc := Remove));
    case Remove => g' := g.(task := task.(listed := false), w := w.(pc := Eval));
    case SetTaken => g' := g.(task := task.(taken := true), w := w.(pc := Outside, results := w.results + 1));
  }

  lemma SignalAdvances(g: State) returns (g': State)
    requires Inv(g) && g.f == Finished && g.w.pc != Outside && g.s.pc == Blocked
    ensures g.s.otherSignal && OtherStep(g, g') && Distance(g') < Distance(g)
  {
    g' := g.(s := g.s.(pc := Woken, otherSignal := false));
  }

  lemma SchedAdvances(g: State) returns (g': State)
    requires Inv(g) && g.f == Finished && g.w.pc != Outside && g.s.pc != Blocked && (g.s.pc == Busy ==> g.w.pc == Parked)
    ensures SchedStep(g, false, g') && Distance(g') < Distance(g)
  {
    var s := g.s;
    match s.pc
    case Busy => g' := g.(s := s.(pc := Scan));
    case Scan => g' := if g.w.pc == Parked then g.(w := g.w.(pc := Ready), s := s.(pc := Busy)) else g.(s := s.(pc := Busy));
    case SleepLock => g' := g.(s := s.(pc := SleepCond));
    case SleepCond => g' := g.(s := s.(pc := Scan));
    case SleepBlock => g' := g.(s := s.(running := false, pc := Blocked));
    case Woken => g' := g.(s := s.(running := true, pc := Scan));
  }

  /** Forced steps from `g` to the return of the waiter, no more of them than its distance; a `get` has had its result then. */
  predicate Returns(p: seq<State>, g: State) {
    && 0 < |p| <= Distance(g) + 1 && p[0] == g && p[|p| - 1].w.pc == Outside
    && (if g.w.pc == Outside then |p| == 1 else g.w.get ==> p[|p| - 1].w.results == 1)
    && forall i :: 0 <= i < |p| - 1 ==> Forced(p[i], p[i + 1])
  }

  lemma ForcedKeeps(g: State, g': State)
    requires Inv(g) && g.f == Finished && Forced(g, g')
    ensures Inv(g') && g'.f == Finished
  {
    hide Inv;
    NextKeeps(g, g') by { hide WaiterStep, SchedStep, OtherStep; }
  }

  /** A call of `get` goes on as one, and has delivered the result by the time it ends. */
  lemma GetDelivers(g: State, g': State)
    requires Inv(g) && g.w.get && g.w.pc != Outside && Forced(g, g')
    ensures g'.w.get && (g'.w.pc == Outside ==> g'.w.results == 1)
  {
    if WaiterStep(g, g') {
    } else {
      assert g'.w.pc != Outside;
    }
  }

  lemma {:induction false} WayOut(g: State) returns (p: seq<State>)
    requires Inv(g) && g.f == Finished
    ensures Returns(p, g)
    decreases Distance(g)
  {
    hide Inv, Forced, Distance;
    if g.w.pc == Outside {
      p := [g];
    } else {
      var g' := Advance(g);
      ForcedKeeps(g, g');
      if g.w.get { GetDelivers(g, g'); }
      var q := WayOut(g');
      p := [g] + q;
      assert forall i :: 0 < i < |p| ==> p[i] == q[i - 1];
    }
  }

  /** ... so the forced steps alone take the waiter out of its call, from any state after the finisher is through. */
  lemma WaiterGetsOut(b: seq<State>, i: nat)
    requires Behaviour(b) && i < |b| && b[i].f == Finished
    ensures exists p :: Returns(p, b[i])
  {
    hide Behaviour, Inv, Returns;
    BehaviourInv(b, i);
    var p := WayOut(b[i]);
  }

  // ---------- the finisher gets through ----------

  /** How far the finisher is from its end; what it waits for in between is counted with it. */
  function ToFinish(g: State): nat {
    match g.f
    case Invoking => 70
    case SetDone => 50 + (if g.task.mutex then 2 * ToRelease(g.w.pc) + (if g.s.pc == Busy then 0 else 1) else 0)
    case NotifyLock => 40
    case Flag => 30
    case SchedNotify => 20 + (match g.s.pc case SleepCond => 2 case SleepBlock => 1 case _ => 0)
    case SchedSignal => 10
    case Unspin => 5
    case Finished => 0
  }

  /** Steps of the waiter until it gives the task's mutex up. */
  function ToRelease(w: WaiterPc): nat {
    match w case Remove => 5 case Eval => 4 case Add => 3 case Clear => 2 case Release => 1 case _ => 0
  }

  /** The finisher, or the one it waits for. */
  predicate Pushed(g: State, g': State) {
    FinisherStep(g, g') || WaiterStep(g, g') || SchedStep(g, false, g')
  }

  lemma FinisherGoes(g: State) returns (g': State)
    requires Inv(g) && g.f != Finished && !(g.f == SetDone && g.task.mutex) && !(g.f == SchedNotify && InSleep(g.s))
    ensures FinisherStep(g, g') && ToFinish(g') < ToFinish(g) && g'.w.pc == g.w.pc && g'.w.get == g.w.get
  {
    hide Inv;
    var task := g.task;
    match g.f
    case Invoking => g' := g.(f := SetDone);
    case SetDone => g' := g.(task := task.(done := true), f := NotifyLock);
    case NotifyLock => g' := g.(task := task.(spin := true), f := Flag);
    case Flag => g' := if task.listed then g.(w := g.w.(cond := true), f := SchedNotify) else g.(f := Unspin);
    case SchedNotify => g' := g.(s := g.s.(running := true), f := SchedSignal);
    case SchedSignal => g' := g.(s := Signalled(g.s), f := Unspin);
    case Unspin => g' := g.(task := task.(spin := false), f := Finished);
  }

  /** The mutex of a task not yet done is given up by the waiter that holds it. */
  lemma MutexGiven(g: State) returns (g': State)
    requires Inv(g) && g.f == SetDone && g.task.mutex
    ensures (WaiterStep(g, g') || SchedStep(g, false, g')) && ToFinish(g') < ToFinish(g)
    ensures g'.w.pc != Outside && g'.w.get == g.w.get
  {
    var (task, w) := (g.task, g.w);
    if g.s.pc != Busy {
      g' := g.(s := g.s.(pc := Busy));
    } else {
      match w.pc
      case Remove => g' := g.(task := task.(listed := false), w := w.(pc := Eval));
      case Eval => g' := g.(w := w.(pc := Add));
      case Add => g' := g.(task := task.(listed := true), w := w.(pc := Clear));
      case Clear => g' := g.(w := w.(cond := false, pc := Release));
      case Release => g' := g.(task := task.(mutex := false), w := w.(pc := Check));
    }
  }

  lemma SleepLeft(g: State) returns (g': State)
    requires Inv(g) && g.f == SchedNotify && InSleep(g.s)
    ensures SchedStep(g, false, g') && ToFinish(g') < ToFinish(g) && g'.w == g.w
  {
    var s := g.s;
    g' := if s.pc == SleepBlock then g.(s := s.(running := false, pc := Blocked))
          else g.(s := s.(pc := if g.w.pc == Parked && g.w.cond then Scan else SleepBlock));
  }

  lemma PushesOn(g: State) returns (g': State)
    requires Inv(g) && g.f != Finished
    ensures Pushed(g, g') && Inv(g') && ToFinish(g') < ToFinish(g)
    ensures g'.w.get == g.w.get && (g'.w.pc == Outside <==> g.w.pc == Outside)
  {
    hide Inv, FinisherStep, WaiterStep, SchedStep, OtherStep, ToFinish;
    if g.f == SetDone && g.task.mutex {
      MutexHeld(g);
      g' := MutexGiven(g);
    } else if g.f == SchedNotify && InSleep(g.s) {
      g' := SleepLeft(g);
    } else {
      g' := FinisherGoes(g);
    }
    NextKeeps(g, g');
  }

  lemma MutexHeld(g: State)
    requires Inv(g) && g.task.mutex
    ensures g.w.pc != Outside
  {
  }

  /** A run of such steps from `g` to the end of the finisher, the waiter still in its call if it was in one. */
  predicate Finishes(p: seq<State>, g: State) {
    && 0 < |p| <= ToFinish(g) + 1 && p[0] == g && p[|p| - 1].f == Finished
    && p[|p| - 1].w.get == g.w.get && (p[|p| - 1].w.pc == Outside <==> g.w.pc == Outside)
    && forall i :: 0 <= i < |p| - 1 ==> Pushed(p[i], p[i + 1])
  }

  lemma {:induction false} FinishRun(g: State) returns (p: seq<State>)
    requires Inv(g)
    ensures Finishes(p, g) && Inv(p[|p| - 1])
    decreases ToFinish(g)
  {
    hide Inv, Pushed, ToFinish;
    if g.f == Finished {
      p := [g];
    } else {
      var g' := PushesOn(g);
      var q := FinishRun(g');
      p := [g] + q;
      assert forall i :: 0 < i < |p| ==> p[i] == q[i - 1];
    }
  }

  /**
   The whole way: from any state with a worker inside `wait` or `get`, the task not even run yet, a run of bounded
   length completes the task and a second one takes the worker out of its call, with the result if it was `get`.
   */
  lemma TaskThenReturn(b: seq<State>, i: nat)
    requires Behaviour(b) && i < |b| && b[i].w.pc != Outside
    ensures exists p: seq<State>, q: seq<State> :: Finishes(p, b[i]) && Returns(q, p[|p| - 1]) && p[|p| - 1].task.done
                        && (b[i].w.get ==> q[|q| - 1].w.results == 1)
  {
    hide Behaviour, Inv;
    BehaviourInv(b, i);
    var p := FinishRun(b[i]);
    var e := p[|p| - 1];
    var q := WayOut(e);
    AllFree(e);
  }
}
