/**
 The queues of one scheduler as a value: which worker runs, which wait where, and the load counter.
 Every queue operation of scheduler.cpp is a function on this value. The class `Scheduler` implements
 the functions in place; the system of many schedulers takes its steps with them.
 */
module SchedulerQueues {
  import opened Common

  datatype WorkerState = Initializing | Idle | Waiting | PendingIo | Yielded | Runnable | Running | Exiting

  datatype SyncContext = Main | Yield | Wait | Io

  const TASK_LOAD := 10

  function LoadOf(s: WorkerState): int {
    match s
    case Initializing => 0
    case Idle => 0
    case Waiting => 1
    case PendingIo => 2
    case Yielded => TASK_LOAD
    case Runnable => TASK_LOAD
    case Running => TASK_LOAD
    case Exiting => 0
  }

  predicate Active(s: WorkerState) {
    s != Initializing && s != Idle && s != Exiting
  }

  /** A worker's number, its index in `m_workers`. */
  type Wid = nat

  datatype Queues = Queues(
    workers: seq<Wid>,
    current: Wid,
    runnable: seq<Wid>,
    idle: seq<Wid>,
    waiting: seq<Wid>,
    pendingIo: seq<Wid>,
    yielded: Option<Wid>,
    state: map<Wid, WorkerState>,
    task: map<Wid, Option<Task>>,
    load: int)

  // ---------- operations ----------

  function SetWorkerState(q: Queues, w: Wid, s: WorkerState): Queues
    requires w in q.state
  {
    q.(state := q.state[w := s], load := q.load + LoadOf(s) - LoadOf(q.state[w]))
  }

  function ParkRunnable(q: Queues, w: Wid): Queues
    requires w in q.state
  {
    SetWorkerState(q.(runnable := q.runnable + [w]), w, Runnable)
  }

  function ParkIdle(q: Queues, w: Wid, back: bool): Queues
    requires w in q.state
  {
    SetWorkerState(q.(idle := if back then q.idle + [w] else [w] + q.idle), w, Idle)
  }

  function ParkWaiting(q: Queues, w: Wid): Queues
    requires w in q.state
  {
    SetWorkerState(q.(waiting := q.waiting + [w]), w, Waiting)
  }

  function ParkPendingIo(q: Queues, w: Wid): Queues
    requires w in q.state
  {
    SetWorkerState(q.(pendingIo := q.pendingIo + [w]), w, PendingIo)
  }

  function ParkYielded(q: Queues, w: Wid): Queues
    requires w in q.state
  {
    SetWorkerState(q.(yielded := Some(w)), w, Yielded)
  }

  function ParkWorker(q: Queues, w: Wid, ctx: SyncContext, initializing: bool): Queues
    requires w in q.state
  {
    match ctx
    case Main => ParkIdle(q, w, initializing)
    case Yield => ParkYielded(q, w)
    case Wait => ParkWaiting(q, w)
    case Io => ParkPendingIo(q, w)
  }

  function PrepareNextWorker(q: Queues): Queues
    requires q.runnable != [] && q.runnable[0] in q.state
  {
    SetWorkerState(q.(current := q.runnable[0], runnable := q.runnable[1..]), q.runnable[0], Running)
  }

  /** `schedule_idle_worker` once it has a task in hand. */
  function StartTask(q: Queues, t: Task): Queues
    requires q.idle != [] && q.idle[0] in q.state
  {
    ParkRunnable(q.(idle := q.idle[1..], task := q.task[q.idle[0] := Some(t)]), q.idle[0])
  }

  function ScheduleYielded(q: Queues): Queues
    requires q.yielded.Some? ==> q.yielded.value in q.state
  {
    if q.yielded.None? then q else ParkRunnable(q, q.yielded.value).(yielded := None)
  }

  /** The members of `s` whose answer is yes, in order. */
  function Chosen(s: seq<Wid>, answers: seq<bool>): seq<Wid>
    requires |s| == |answers|
  {
    if s == [] then []
    else (if answers[0] then [s[0]] else []) + Chosen(s[1..], answers[1..])
  }

  /** The members of `s` whose answer is no, in order. */
  function Others(s: seq<Wid>, answers: seq<bool>): seq<Wid>
    requires |s| == |answers|
  {
    if s == [] then []
    else (if answers[0] then [] else [s[0]]) + Others(s[1..], answers[1..])
  }

  function ParkAllRunnable(q: Queues, ws: seq<Wid>): (r: Queues)
    requires forall w <- ws :: w in q.state
    ensures r.state.Keys == q.state.Keys
    decreases ws
  {
    if ws == [] then q
    else
      var p := ParkRunnable(q, ws[0]);
      ParkAllRunnable(p, ws[1..])
  }

  /** The scan over the workers with I/O under way; `done[i]` is what the i-th `update` reported. */
  function ScheduleIo(q: Queues, done: seq<bool>): Queues
    requires |done| == |q.pendingIo|
    requires forall w <- q.pendingIo :: w in q.state
  {
    ChosenMembers(q.pendingIo, done);
    ParkAllRunnable(q.(pendingIo := Others(q.pendingIo, done)), Chosen(q.pendingIo, done))
  }

  /** The scan over the waiting workers; `over[i]` is what the i-th `check_wait_info` answered. */
  function ScheduleWaiting(q: Queues, over: seq<bool>): Queues
    requires |over| == |q.waiting|
    requires forall w <- q.waiting :: w in q.state
  {
    ChosenMembers(q.waiting, over);
    ParkAllRunnable(q.(waiting := Others(q.waiting, over)), Chosen(q.waiting, over))
  }

  /** The task of a worker that came back from user code is released before it parks. */
  function ReleaseTask(q: Queues, w: Wid): Queues {
    q.(task := q.task[w := None])
  }

  predicate HasWork(q: Queues, hasTasks: bool) {
    q.runnable != [] || q.waiting != [] || q.pendingIo != [] || hasTasks || q.yielded.Some?
  }

  // ---------- the scan as a stable partition ----------

  lemma ChosenMembers(s: seq<Wid>, answers: seq<bool>)
    requires |s| == |answers|
    ensures forall w :: w in Chosen(s, answers) ==> w in s
    ensures forall w :: w in Others(s, answers) ==> w in s
  {
  }

  /** Number of yes answers among the first `k`. */
  function Yes(answers: seq<bool>, k: nat): nat
    requires k <= |answers|
  {
    if k == 0 then 0 else Yes(answers, k - 1) + if answers[k - 1] then 1 else 0
  }

  lemma YesTail(answers: seq<bool>, k: nat)
    requires 0 < k <= |answers|
    ensures Yes(answers, k) == (if answers[0] then 1 else 0) + Yes(answers[1..], k - 1)
  {
    if k > 1 { YesTail(answers, k - 1); }
  }

  /**
   The scan loses nothing, repeats nothing and keeps order: member `k` lands in the chosen part at the
   index given by the yes answers before it, or in the rest at the index given by the no answers before it.
   */
  lemma {:induction false} StablePartition(s: seq<Wid>, answers: seq<bool>, k: nat)
    requires |s| == |answers| && k < |s|
    ensures |Chosen(s, answers)| == Yes(answers, |s|)
    ensures |Chosen(s, answers)| + |Others(s, answers)| == |s|
    ensures answers[k] ==> Yes(answers, k) < |Chosen(s, answers)| && Chosen(s, answers)[Yes(answers, k)] == s[k]
    ensures !answers[k] ==> 0 <= k - Yes(answers, k) < |Others(s, answers)| && Others(s, answers)[k - Yes(answers, k)] == s[k]
  {
    YesTail(answers, |s|);
    if |s| == 1 {
      assert s[1..] == [] && answers[1..] == [];
    } else {
      if k > 0 { YesTail(answers, k); }
      StablePartition(s[1..], answers[1..], if k == 0 then 0 else k - 1);
    }
  }

  // ---------- invariants ----------

  ghost predicate Shape(q: Queues) {
    && NoDup(q.workers)
    && q.current in q.workers
    && (forall w :: w in q.state <==> w in q.workers)
    && (forall w :: w in q.task <==> w in q.workers)
  }

  /** The list holds, once each, exactly the workers whose state is `s`. */
  ghost predicate Lists(list: seq<Wid>, ws: seq<Wid>, state: map<Wid, WorkerState>, s: WorkerState)
    requires forall w <- ws :: w in state
  {
    NoDup(list) && forall w :: w in list <==> w in ws && state[w] == s
  }

  /** The slot holds exactly the worker, if any, whose state is `Yielded`. */
  ghost predicate SlotLists(slot: Option<Wid>, ws: seq<Wid>, state: map<Wid, WorkerState>)
    requires forall w <- ws :: w in state
  {
    forall w :: slot == Some(w) <==> w in ws && state[w] == Yielded
  }

  ghost predicate OnlyRuns(current: Wid, ws: seq<Wid>, state: map<Wid, WorkerState>)
    requires forall w <- ws :: w in state
  {
    forall w <- ws :: state[w] == Running ==> w == current
  }

  /** Start-up is over and no exit has begun: each worker is running or in a queue. */
  ghost predicate InService(ws: seq<Wid>, state: map<Wid, WorkerState>)
    requires forall w <- ws :: w in state
  {
    forall w <- ws :: state[w] != Initializing && state[w] != Exiting
  }

  /** Each worker's state names the one place that holds it, and that place holds it once. */
  ghost predicate Placed(q: Queues)
    requires Shape(q)
  {
    && Lists(q.runnable, q.workers, q.state, Runnable)
    && Lists(q.idle, q.workers, q.state, Idle)
    && Lists(q.waiting, q.workers, q.state, Waiting)
    && Lists(q.pendingIo, q.workers, q.state, PendingIo)
    && SlotLists(q.yielded, q.workers, q.state)
    && OnlyRuns(q.current, q.workers, q.state)
    && InService(q.workers, q.state)
  }

  /** A worker holds a task exactly while it is running, runnable, waiting, doing I/O or yielded. */
  ghost predicate TasksHeld(q: Queues)
    requires Shape(q)
  {
    forall w <- q.workers :: Active(q.state[w]) <==> q.task[w].Some?
  }

  function TotalLoad(ws: seq<Wid>, state: map<Wid, WorkerState>): int
    requires forall w <- ws :: w in state
  {
    if ws == [] then 0 else LoadOf(state[ws[0]]) + TotalLoad(ws[1..], state)
  }

  ghost predicate LoadCounted(q: Queues)
    requires Shape(q)
  {
    q.load == TotalLoad(q.workers, q.state)
  }

  ghost predicate Wf(q: Queues) {
    Shape(q) && Placed(q) && TasksHeld(q) && LoadCounted(q)
  }

  /** A worker is executing its task; the yielded slot is free, so a yield cannot overwrite it. */
  ghost predicate Executing(q: Queues) {
    Wf(q) && q.state[q.current] == Running && q.yielded.None?
  }

  ghost predicate NoneRuns(ws: seq<Wid>, state: map<Wid, WorkerState>)
    requires forall w <- ws :: w in state
  {
    forall w <- ws :: state[w] != Running
  }

  /** Between `park_worker` and `prepare_next_worker`: every worker sits in some queue. */
  ghost predicate Parked(q: Queues) {
    Wf(q) && NoneRuns(q.workers, q.state)
  }

  // ---------- load accounting ----------

  lemma {:induction false} TotalLoadUnchanged(ws: seq<Wid>, state: map<Wid, WorkerState>, w: Wid, s: WorkerState)
    requires (forall x <- ws :: x in state) && w !in ws
    ensures TotalLoad(ws, state[w := s]) == TotalLoad(ws, state)
  {
    if ws == [] {
    } else {
      TotalLoadUnchanged(ws[1..], state, w, s);
    }
  }

  lemma {:induction false} TotalLoadUpdate(ws: seq<Wid>, state: map<Wid, WorkerState>, w: Wid, s: WorkerState)
    requires (forall x <- ws :: x in state) && w in ws && NoDup(ws)
    ensures TotalLoad(ws, state[w := s]) == TotalLoad(ws, state) + LoadOf(s) - LoadOf(state[w])
  {
    if ws[0] == w {
      TotalLoadUnchanged(ws[1..], state, w, s);
    } else {
      TotalLoadUpdate(ws[1..], state, w, s);
    }
  }

  lemma SetWorkerStateKeepsLoad(q: Queues, w: Wid, s: WorkerState)
    requires Shape(q) && LoadCounted(q) && w in q.workers
    ensures Shape(SetWorkerState(q, w, s)) && LoadCounted(SetWorkerState(q, w, s))
  {
    TotalLoadUpdate(q.workers, q.state, w, s);
  }

  lemma {:induction false} TotalLoadBounds(ws: seq<Wid>, state: map<Wid, WorkerState>)
    requires forall w <- ws :: w in state
    ensures 0 <= TotalLoad(ws, state) <= TASK_LOAD * |ws|
    ensures TotalLoad(ws, state) > 0 <==> exists w :: w in ws && Active(state[w])
  {
    if ws == [] {
    } else {
      TotalLoadBounds(ws[1..], state);
      assert forall w :: w in ws <==> w == ws[0] || w in ws[1..];
    }
  }

  /** The counter other schedulers read before they steal a lone task is positive exactly when a task is under way here. */
  lemma LoadMeansActive(q: Queues)
    requires Wf(q)
    ensures 0 <= q.load <= TASK_LOAD * |q.workers|
    ensures q.load > 0 <==> exists w :: w in q.workers && q.task[w].Some?
  {
    TotalLoadBounds(q.workers, q.state);
    if q.load > 0 {
      var w :| w in q.workers && Active(q.state[w]);
      assert q.task[w].Some?;
    }
  }

  /** With no worker running, a scheduler has work exactly if a task is queued or some worker holds one. */
  lemma HasWorkMeans(q: Queues, hasTasks: bool)
    requires Parked(q)
    ensures HasWork(q, hasTasks) <==> hasTasks || exists w :: w in q.workers && q.task[w].Some?
  {
    hide TotalLoad, NoDup;
    if q.runnable != [] { HoldsTask(q, q.runnable[0]); }
    if q.waiting != [] { HoldsTask(q, q.waiting[0]); }
    if q.pendingIo != [] { HoldsTask(q, q.pendingIo[0]); }
    if q.yielded.Some? { HoldsTask(q, q.yielded.value); }
    if w :| w in q.workers && q.task[w].Some? { SomewhereActive(q, w); }
  }

  lemma HoldsTask(q: Queues, w: Wid)
    requires Parked(q) && (w in q.runnable || w in q.waiting || w in q.pendingIo || q.yielded == Some(w))
    ensures w in q.workers && q.task[w].Some?
  {
    hide TotalLoad, NoDup;
  }

  lemma SomewhereActive(q: Queues, w: Wid)
    requires Parked(q) && w in q.workers && q.task[w].Some?
    ensures w in q.runnable || w in q.waiting || w in q.pendingIo || q.yielded == Some(w)
  {
    hide TotalLoad, NoDup;
    assert Active(q.state[w]) && q.state[w] != Running;
  }

  // ---------- the load by queues ----------

  function CountIn(ws: seq<Wid>, state: map<Wid, WorkerState>, s: WorkerState): nat
    requires forall w <- ws :: w in state
  {
    if ws == [] then 0 else (if state[ws[0]] == s then 1 else 0) + CountIn(ws[1..], state, s)
  }

  lemma {:induction false} TotalLoadByState(ws: seq<Wid>, state: map<Wid, WorkerState>)
    requires forall w <- ws :: w in state
    ensures TotalLoad(ws, state) ==
      10 * (CountIn(ws, state, Runnable) + CountIn(ws, state, Yielded) + CountIn(ws, state, Running))
      + CountIn(ws, state, Waiting) + 2 * CountIn(ws, state, PendingIo)
  {
    if ws == [] {
    } else {
      TotalLoadByState(ws[1..], state);
    }
  }

  lemma {:induction false} CountIsLength(list: seq<Wid>, ws: seq<Wid>, state: map<Wid, WorkerState>, s: WorkerState)
    requires (forall w <- ws :: w in state) && NoDup(ws) && Lists(list, ws, state, s)
    ensures CountIn(ws, state, s) == |list|
    decreases ws
  {
    if ws == [] {
      HeadIn(list);
    } else {
      hide CountIn;
      RemoveNodeFacts(list, ws[0]);
      assert forall w :: w in ws <==> w == ws[0] || w in ws[1..];
      var rest := RemoveNode(list, ws[0]);
      CountIsLength(rest, ws[1..], state, s);
      CountStep(ws, state, s);
      NotMember(list, ws[0]);
    }
  }

  lemma HeadIn(list: seq<Wid>)
    ensures list != [] ==> list[0] in list
  {
  }

  lemma CountStep(ws: seq<Wid>, state: map<Wid, WorkerState>, s: WorkerState)
    requires (forall w <- ws :: w in state) && ws != []
    ensures CountIn(ws, state, s) == (if state[ws[0]] == s then 1 else 0) + CountIn(ws[1..], state, s)
  {
  }

  lemma NotMember(list: seq<Wid>, w: Wid)
    ensures w !in list ==> RemoveNode(list, w) == list
  {
  }

  /** The counter by the lengths of the queues: what each worker adds depends on the place it is in. */
  lemma LoadFormula(q: Queues)
    requires Wf(q)
    ensures q.load == 10 * (|q.runnable| + (if q.yielded.Some? then 1 else 0) + (if q.state[q.current] == Running then 1 else 0))
                      + |q.waiting| + 2 * |q.pendingIo|
  {
    hide TotalLoad, CountIn;
    TotalLoadByState(q.workers, q.state);
    CountIsLength(q.runnable, q.workers, q.state, Runnable);
    CountIsLength(q.waiting, q.workers, q.state, Waiting);
    CountIsLength(q.pendingIo, q.workers, q.state, PendingIo);
    var slot := if q.yielded.Some? then [q.yielded.value] else [];
    var run := if q.state[q.current] == Running then [q.current] else [];
    SlotAsList(q.yielded, q.workers, q.state);
    CountIsLength(slot, q.workers, q.state, Yielded);
    CountIsLength(run, q.workers, q.state, Running);
  }

  lemma SlotAsList(slot: Option<Wid>, ws: seq<Wid>, state: map<Wid, WorkerState>)
    requires (forall w <- ws :: w in state) && SlotLists(slot, ws, state)
    ensures Lists(if slot.Some? then [slot.value] else [], ws, state, Yielded)
  {
    var list := if slot.Some? then [slot.value] else [];
    forall w: Wid ensures w in list <==> w in ws && state[w] == Yielded {
      assert slot == Some(w) <==> w in ws && state[w] == Yielded;
    }
  }

  // ---------- every operation keeps the partition ----------

  lemma ListsAdd(list: seq<Wid>, ws: seq<Wid>, state: map<Wid, WorkerState>, w: Wid, s: WorkerState)
    requires (forall x <- ws :: x in state) && Lists(list, ws, state, s) && w in ws && state[w] != s
    ensures Lists(list + [w], ws, state[w := s], s) && Lists([w] + list, ws, state[w := s], s)
  {
    AppendFacts(list, w);
  }

  lemma ListsKeep(list: seq<Wid>, ws: seq<Wid>, state: map<Wid, WorkerState>, w: Wid, t: WorkerState, s: WorkerState)
    requires (forall x <- ws :: x in state) && Lists(list, ws, state, s) && w in ws && state[w] != s && t != s
    ensures Lists(list, ws, state[w := t], s)
  {
  }

  lemma ListsPop(list: seq<Wid>, ws: seq<Wid>, state: map<Wid, WorkerState>, t: WorkerState, s: WorkerState)
    requires (forall x <- ws :: x in state) && Lists(list, ws, state, s) && list != [] && t != s
    ensures list[0] in ws && state[list[0]] == s && Lists(list[1..], ws, state[list[0] := t], s)
  {
    assert forall w :: w in list <==> w == list[0] || w in list[1..];
  }

  /** A worker in state `s` takes state `t`: the lists of all other states are as they were. */
  lemma OtherListsKeep(q: Queues, w: Wid, t: WorkerState)
    requires Shape(q) && Placed(q) && w in q.workers
    ensures q.state[w] != Runnable && t != Runnable ==> Lists(q.runnable, q.workers, q.state[w := t], Runnable)
    ensures q.state[w] != Idle && t != Idle ==> Lists(q.idle, q.workers, q.state[w := t], Idle)
    ensures q.state[w] != Waiting && t != Waiting ==> Lists(q.waiting, q.workers, q.state[w := t], Waiting)
    ensures q.state[w] != PendingIo && t != PendingIo ==> Lists(q.pendingIo, q.workers, q.state[w := t], PendingIo)
    ensures q.state[w] != Yielded && t != Yielded ==> SlotLists(q.yielded, q.workers, q.state[w := t])
    ensures t != Running ==> OnlyRuns(q.current, q.workers, q.state[w := t])
    ensures t != Running && NoneRuns(q.workers, q.state) ==> NoneRuns(q.workers, q.state[w := t])
    ensures t != Initializing && t != Exiting ==> InService(q.workers, q.state[w := t])
  {
    if q.state[w] != Runnable && t != Runnable { ListsKeep(q.runnable, q.workers, q.state, w, t, Runnable); }
    if q.state[w] != Idle && t != Idle { ListsKeep(q.idle, q.workers, q.state, w, t, Idle); }
    if q.state[w] != Waiting && t != Waiting { ListsKeep(q.waiting, q.workers, q.state, w, t, Waiting); }
    if q.state[w] != PendingIo && t != PendingIo { ListsKeep(q.pendingIo, q.workers, q.state, w, t, PendingIo); }
    hide Lists;
  }

  /** A worker leaves user code: its task goes if it is done, and it parks by context. */
  function Leave(q: Queues, ctx: SyncContext): Queues
    requires q.current in q.state
  {
    ParkWorker(if ctx == Main then ReleaseTask(q, q.current) else q, q.current, ctx, false)
  }

  lemma LeaveParks(q: Queues, ctx: SyncContext)
    requires Executing(q)
    ensures Parked(Leave(q, ctx))
    ensures q.current in Leave(q, ctx).state && Leave(q, ctx).state[q.current] ==
      match ctx case Main => Idle case Yield => Yielded case Wait => Waiting case Io => PendingIo
  {
    hide Lists, SlotLists, InService, TotalLoad, NoDup;
    var w := q.current;
    var p := if ctx == Main then ReleaseTask(q, w) else q;
    var s := match ctx case Main => Idle case Yield => Yielded case Wait => Waiting case Io => PendingIo;
    SetWorkerStateKeepsLoad(p, w, s);
    OtherListsKeep(q, w, s);
    match ctx
    case Main => ListsAdd(q.idle, q.workers, q.state, w, Idle);
    case Yield => SlotFill(q.workers, q.state, w);
    case Wait => ListsAdd(q.waiting, q.workers, q.state, w, Waiting);
    case Io => ListsAdd(q.pendingIo, q.workers, q.state, w, PendingIo);
  }

  lemma SlotFill(ws: seq<Wid>, state: map<Wid, WorkerState>, w: Wid)
    requires (forall x <- ws :: x in state) && SlotLists(None, ws, state) && w in ws
    ensures SlotLists(Some(w), ws, state[w := Yielded])
  {
    assert forall x: Wid :: Option<Wid>.None != Some(x);
  }

  lemma SlotFree(ws: seq<Wid>, state: map<Wid, WorkerState>, w: Wid, s: WorkerState)
    requires (forall x <- ws :: x in state) && SlotLists(Some(w), ws, state) && s != Yielded
    ensures w in ws && state[w] == Yielded && SlotLists(None, ws, state[w := s])
  {
    assert Some(w) == Some(w);
  }

  lemma PrepareNextRuns(q: Queues)
    requires Parked(q) && q.runnable != [] && q.yielded.None?
    ensures Executing(PrepareNextWorker(q))
    ensures PrepareNextWorker(q).current == q.runnable[0] && PrepareNextWorker(q).runnable == q.runnable[1..]
    ensures PrepareNextWorker(q).task == q.task && PrepareNextWorker(q).idle == q.idle
  {
    hide Lists, SlotLists, TotalLoad, NoDup;
    ListsPop(q.runnable, q.workers, q.state, Running, Runnable);
    SetWorkerStateKeepsLoad(q, q.runnable[0], Running);
    OtherListsKeep(q, q.runnable[0], Running);
  }

  lemma StartTaskKeeps(q: Queues, t: Task)
    requires Parked(q) && q.idle != []
    ensures q.idle[0] in q.state
    ensures Parked(StartTask(q, t)) && StartTask(q, t).yielded == q.yielded
    ensures StartTask(q, t).idle == q.idle[1..] && StartTask(q, t).runnable == q.runnable + [q.idle[0]]
    ensures q.idle[0] in StartTask(q, t).task && StartTask(q, t).task[q.idle[0]] == Some(t)
  {
    hide Lists, SlotLists, InService, OnlyRuns, NoneRuns, TotalLoad, NoDup;
    ListsPop(q.idle, q.workers, q.state, Runnable, Idle);
    SetWorkerStateKeepsLoad(q, q.idle[0], Runnable);
    OtherListsKeep(q, q.idle[0], Runnable);
    ListsAdd(q.runnable, q.workers, q.state, q.idle[0], Runnable);
  }

  lemma ScheduleYieldedKeeps(q: Queues)
    requires Parked(q)
    ensures q.yielded.Some? ==> q.yielded.value in q.state
    ensures Parked(ScheduleYielded(q)) && ScheduleYielded(q).yielded.None?
    ensures ScheduleYielded(q).runnable == q.runnable + (if q.yielded.Some? then [q.yielded.value] else [])
    ensures ScheduleYielded(q).idle == q.idle && ScheduleYielded(q).task == q.task
  {
    hide Lists, SlotLists, InService, OnlyRuns, NoneRuns, TotalLoad, NoDup;
    if q.yielded.Some? {
      var w := q.yielded.value;
      SlotFree(q.workers, q.state, w, Runnable);
      SetWorkerStateKeepsLoad(q, w, Runnable);
      OtherListsKeep(q, w, Runnable);
      ListsAdd(q.runnable, q.workers, q.state, w, Runnable);
    }
  }

  lemma ListsMembers(list: seq<Wid>, ws: seq<Wid>, state: map<Wid, WorkerState>, s: WorkerState)
    requires (forall x <- ws :: x in state) && Lists(list, ws, state, s)
    ensures forall w <- list :: w in ws && state[w] == s
  {
  }

  lemma ConcatNoDup(a: seq<Wid>, b: seq<Wid>)
    requires NoDup(a) && NoDup(b) && forall w <- a :: w !in b
    ensures NoDup(a + b) && forall w :: w in a + b <==> w in a || w in b
  {
    forall i, j | 0 <= i < j < |a + b| ensures (a + b)[i] != (a + b)[j] {
      if i < |a| <= j {
        assert a[i] in a && b[j - |a|] in b;
      }
    }
  }

  /** Some members of the list of state `s` become runnable together. */
  lemma ListsMove(list: seq<Wid>, runnable: seq<Wid>, ws: seq<Wid>, state: map<Wid, WorkerState>,
                  answers: seq<bool>, s: WorkerState, state': map<Wid, WorkerState>)
    requires (forall x <- ws :: x in state && x in state') && |list| == |answers| && s != Runnable
    requires Lists(list, ws, state, s) && Lists(runnable, ws, state, Runnable)
    requires forall w <- ws :: state'[w] == if w in Chosen(list, answers) then Runnable else state[w]
    ensures Lists(Others(list, answers), ws, state', s)
    ensures Lists(runnable + Chosen(list, answers), ws, state', Runnable)
  {
    hide Chosen, Others;
    PartitionFacts(list, answers);
    ConcatNoDup(runnable, Chosen(list, answers));
  }

  /** ... and the lists of the other states are as they were. */
  lemma ListsStay(list: seq<Wid>, moved: seq<Wid>, ws: seq<Wid>, state: map<Wid, WorkerState>,
                  s: WorkerState, state': map<Wid, WorkerState>)
    requires (forall x <- ws :: x in state && x in state') && s != Runnable
    requires forall w <- moved :: w in ws && state[w] != s
    requires forall w <- ws :: state'[w] == if w in moved then Runnable else state[w]
    ensures Lists(list, ws, state, s) ==> Lists(list, ws, state', s)
  {
  }

  lemma {:induction false} ParkAllRunnableFacts(q: Queues, ws: seq<Wid>)
    requires forall w <- ws :: w in q.state
    ensures var r := ParkAllRunnable(q, ws);
      && r == q.(runnable := q.runnable + ws, state := r.state, load := r.load)
      && r.state.Keys == q.state.Keys
      && forall w <- q.state :: r.state[w] == if w in ws then Runnable else q.state[w]
    decreases ws
  {
    if ws != [] {
      ParkAllRunnableFacts(ParkRunnable(q, ws[0]), ws[1..]);
      assert q.runnable + [ws[0]] + ws[1..] == q.runnable + ws;
    } else {
      assert q.runnable + ws == q.runnable;
    }
  }

  lemma {:induction false} ParkAllRunnableLoad(q: Queues, ws: seq<Wid>)
    requires Shape(q) && LoadCounted(q) && forall w <- ws :: w in q.state
    ensures Shape(ParkAllRunnable(q, ws)) && LoadCounted(ParkAllRunnable(q, ws))
    decreases ws
  {
    hide TotalLoad, NoDup;
    if ws == [] {
    } else {
      SetWorkerStateKeepsLoad(q, ws[0], Runnable);
      ParkAllRunnableLoad(ParkRunnable(q, ws[0]), ws[1..]);
    }
  }

  lemma {:induction false} PartitionFacts(s: seq<Wid>, answers: seq<bool>)
    requires |s| == |answers| && NoDup(s)
    ensures NoDup(Chosen(s, answers)) && NoDup(Others(s, answers))
    ensures forall w :: w in s <==> w in Chosen(s, answers) || w in Others(s, answers)
    ensures forall w :: !(w in Chosen(s, answers) && w in Others(s, answers))
  {
    if s == [] {
    } else {
      PartitionFacts(s[1..], answers[1..]);
      assert s[0] !in s[1..];
      assert forall w :: w in s <==> w == s[0] || w in s[1..];
    }
  }

  /** A scan of the list of state `s`: `p` is `q` with the rest of the list, `r` has the chosen ones runnable. */
  lemma ScanKeeps(q: Queues, list: seq<Wid>, s: WorkerState, answers: seq<bool>, p: Queues)
    requires Parked(q) && |answers| == |list| && Lists(list, q.workers, q.state, s)
    requires s == Waiting || s == PendingIo
    requires p == q.(waiting := p.waiting, pendingIo := p.pendingIo)
    ensures forall w <- Chosen(list, answers) :: w in q.state
    ensures var r := ParkAllRunnable(p, Chosen(list, answers));
      && r == p.(runnable := q.runnable + Chosen(list, answers), state := r.state, load := r.load)
      && Shape(r) && LoadCounted(r) && TasksHeld(r) && NoneRuns(r.workers, r.state) && InService(r.workers, r.state)
      && Lists(r.runnable, r.workers, r.state, Runnable) && Lists(r.idle, r.workers, r.state, Idle)
      && Lists(Others(list, answers), r.workers, r.state, s)
      && (s == Waiting ==> Lists(q.pendingIo, r.workers, r.state, PendingIo))
      && (s == PendingIo ==> Lists(q.waiting, r.workers, r.state, Waiting))
      && SlotLists(r.yielded, r.workers, r.state)
  {
    hide Lists, SlotLists, TotalLoad, NoDup, Chosen, Others, ParkAllRunnable;
    var ws := Chosen(list, answers);
    ListsMembers(list, q.workers, q.state, s);
    ChosenMembers(list, answers);
    ParkAllRunnableFacts(p, ws);
    ParkAllRunnableLoad(p, ws);
    var r := ParkAllRunnable(p, ws);
    ListsMove(list, q.runnable, q.workers, q.state, answers, s, r.state);
    ListsStay(q.idle, ws, q.workers, q.state, Idle, r.state);
    if s == Waiting {
      ListsStay(q.pendingIo, ws, q.workers, q.state, PendingIo, r.state);
    } else {
      ListsStay(q.waiting, ws, q.workers, q.state, Waiting, r.state);
    }
    SlotStays(q.yielded, ws, q.workers, q.state, r.state);
  }

  lemma ScheduleWaitingKeeps(q: Queues, over: seq<bool>)
    requires Parked(q) && |over| == |q.waiting|
    ensures forall w <- q.waiting :: w in q.state
    ensures Parked(ScheduleWaiting(q, over)) && ScheduleWaiting(q, over).yielded == q.yielded
    ensures ScheduleWaiting(q, over).runnable == q.runnable + Chosen(q.waiting, over)
    ensures ScheduleWaiting(q, over).waiting == Others(q.waiting, over) && ScheduleWaiting(q, over).pendingIo == q.pendingIo
    ensures ScheduleWaiting(q, over).idle == q.idle && ScheduleWaiting(q, over).task == q.task
  {
    hide Lists, SlotLists, TotalLoad, NoDup, Chosen, Others, ParkAllRunnable;
    ListsMembers(q.waiting, q.workers, q.state, Waiting);
    ScanKeeps(q, q.waiting, Waiting, over, q.(waiting := Others(q.waiting, over)));
  }

  lemma ScheduleIoKeeps(q: Queues, done: seq<bool>)
    requires Parked(q) && |done| == |q.pendingIo|
    ensures forall w <- q.pendingIo :: w in q.state
    ensures Parked(ScheduleIo(q, done)) && ScheduleIo(q, done).yielded == q.yielded
    ensures ScheduleIo(q, done).runnable == q.runnable + Chosen(q.pendingIo, done)
    ensures ScheduleIo(q, done).pendingIo == Others(q.pendingIo, done) && ScheduleIo(q, done).waiting == q.waiting
    ensures ScheduleIo(q, done).idle == q.idle && ScheduleIo(q, done).task == q.task
  {
    hide Lists, SlotLists, TotalLoad, NoDup, Chosen, Others, ParkAllRunnable;
    ListsMembers(q.pendingIo, q.workers, q.state, PendingIo);
    ScanKeeps(q, q.pendingIo, PendingIo, done, q.(pendingIo := Others(q.pendingIo, done)));
  }

  lemma SlotStays(slot: Option<Wid>, moved: seq<Wid>, ws: seq<Wid>,
                  state: map<Wid, WorkerState>, state': map<Wid, WorkerState>)
    requires forall x <- ws :: x in state && x in state'
    requires forall w <- moved :: w in ws && state[w] != Yielded
    requires forall w <- ws :: state'[w] == if w in moved then Runnable else state[w]
    ensures SlotLists(slot, ws, state) ==> SlotLists(slot, ws, state')
  {
  }

  /** The idle queue is last in, first out: a worker that finishes its task is the one to take the next. */
  lemma FinishedWorkerReused(q: Queues, t: Task)
    requires Executing(q)
    ensures q.current in q.state && Leave(q, Main).idle == [q.current] + q.idle
    ensures var r := StartTask(Leave(q, Main), t);
      r.idle == q.idle && r.runnable == q.runnable + [q.current] && r.load == q.load && r.task == q.task[q.current := Some(t)]
  {
    hide TotalLoad, Lists, SlotLists;
    var l := Leave(q, Main);
    assert l.idle == [q.current] + q.idle && l.idle[1..] == q.idle;
    assert l.task[q.current := Some(t)] == q.task[q.current := Some(t)];
  }

  // ---------- start-up ----------

  function Numbers(n: nat): (r: set<nat>)
    ensures forall w: nat :: w in r <==> w < n
  {
    if n == 0 then {} else Numbers(n - 1) + {n - 1}
  }

  /** `n` worker objects, the first `k` of them started and parked at the back of the idle queue. */
  function Started(n: nat, k: nat): Queues
    requires 0 < n && k <= n
  {
    Queues(seq(n, i => i), 0, [], seq(k, i => i), [], [], None,
           map w: nat | w in Numbers(n) :: if w < k then Idle else Initializing,
           map w: nat | w in Numbers(n) :: None, 0)
  }

  /** The workers start one after the other, each through the start-up branch of `park_worker`. */
  lemma StartOne(n: nat, k: nat)
    requires k < n
    ensures ParkWorker(Started(n, k), k, Main, true) == Started(n, k + 1)
  {
    var p, q := ParkWorker(Started(n, k), k, Main, true), Started(n, k + 1);
    assert p.idle == q.idle;
    assert p.state == q.state;
  }

  lemma {:induction false} NoLoad(ws: seq<Wid>, state: map<Wid, WorkerState>)
    requires forall w <- ws :: w in state && state[w] == Idle
    ensures TotalLoad(ws, state) == 0
  {
    if ws == [] {
    } else {
      NoLoad(ws[1..], state);
    }
  }

  /** Once all workers have started, they are all idle and hold no task. */
  lemma StartedParked(n: nat)
    requires n > 0
    ensures Parked(Started(n, n)) && Started(n, n).idle == Started(n, n).workers
  {
    hide TotalLoad, Lists, SlotLists;
    var q := Started(n, n);
    forall w: nat | w < n ensures w in q.workers { assert q.workers[w] == w; }
    assert Shape(q);
    NoLoad(q.workers, q.state);
    AllIdle(q.workers, q.state);
    assert q.idle == q.workers;
  }

  lemma AllIdle(ws: seq<Wid>, state: map<Wid, WorkerState>)
    requires NoDup(ws) && forall w <- ws :: w in state && state[w] == Idle
    ensures Lists(ws, ws, state, Idle) && SlotLists(None, ws, state)
    ensures forall s :: s != Idle ==> Lists([], ws, state, s)
  {
    assert forall w: Wid :: Option<Wid>.None != Some(w);
  }

  // ---------- bounded waiting ----------

  /** What a scheduler can do to its queues between two moments. */
  datatype QueueOp =
    | Park(ctx: SyncContext)
    | ScanIo(done: seq<bool>)
    | ScanWaiting(over: seq<bool>)
    | StartFresh(t: Task)
    | ScanYielded
    | Select

  /** The guards under which scheduler.cpp performs each operation. */
  ghost predicate Legal(q: Queues, op: QueueOp) {
    match op
    case Park(_) => Executing(q)
    case ScanIo(done) => Parked(q) && |done| == |q.pendingIo|
    case ScanWaiting(over) => Parked(q) && |over| == |q.waiting|
    case StartFresh(_) => Parked(q) && q.runnable == [] && q.idle != []
    case ScanYielded => Parked(q)
    case Select => Parked(q) && q.runnable != [] && q.yielded.None?
  }

  /** The members the operations rely on. */
  lemma Members(q: Queues)
    requires Wf(q)
    ensures q.current in q.state
    ensures forall w <- q.runnable :: w in q.state
    ensures forall w <- q.idle :: w in q.state
    ensures forall w <- q.waiting :: w in q.state
    ensures forall w <- q.pendingIo :: w in q.state
    ensures q.yielded.Some? ==> q.yielded.value in q.state
  {
  }

  lemma LegalWf(q: Queues, op: QueueOp)
    requires Legal(q, op)
    ensures Wf(q)
  {
    hide Wf;
  }

  ghost function Apply(q: Queues, op: QueueOp): Queues
    requires Legal(q, op)
  {
    LegalWf(q, op);
    Members(q);
    match op
    case Park(ctx) => Leave(q, ctx)
    case ScanIo(done) => ScheduleIo(q, done)
    case ScanWaiting(over) => ScheduleWaiting(q, over)
    case StartFresh(t) => StartTask(q, t)
    case ScanYielded => ScheduleYielded(q)
    case Select => PrepareNextWorker(q)
  }

  /** Arrivals only append to the runnable queue; a selection takes its front. */
  lemma ApplyFacts(q: Queues, op: QueueOp)
    requires Legal(q, op)
    ensures Parked(Apply(q, op)) || Executing(Apply(q, op))
    ensures op != Select ==> q.runnable <= Apply(q, op).runnable
    ensures op == Select ==> q.runnable != []
    ensures op == Select ==> Apply(q, op).current == q.runnable[0] && Apply(q, op).runnable == q.runnable[1..]
  {
    hide Parked, Executing, Chosen, Others, ParkAllRunnable, ScheduleIo, ScheduleWaiting, PrepareNextWorker;
    match op
    case Park(ctx) => LeaveParks(q, ctx);
    case ScanIo(done) => ScheduleIoKeeps(q, done);
    case ScanWaiting(over) => ScheduleWaitingKeeps(q, over);
    case StartFresh(t) => StartTaskKeeps(q, t);
    case ScanYielded => ScheduleYieldedKeeps(q);
    case Select =>
      PrepareNextRuns(q);
      SelectTakesFront(q);
  }

  lemma SelectTakesFront(q: Queues)
    requires Legal(q, Select)
    ensures q.runnable[0] in q.state && PrepareNextWorker(q).runnable == q.runnable[1..]
  {
    hide TotalLoad;
  }

  ghost predicate LegalRun(q: Queues, ops: seq<QueueOp>)
    decreases |ops|
  {
    ops == [] || (Legal(q, ops[0]) && LegalRun(Apply(q, ops[0]), ops[1..]))
  }

  ghost function ApplyAll(q: Queues, ops: seq<QueueOp>): Queues
    requires LegalRun(q, ops)
    decreases |ops|
  {
    if ops == [] then q else ApplyAll(Apply(q, ops[0]), ops[1..])
  }

  /** The workers resumed along a run, in order. */
  ghost function Resumed(q: Queues, ops: seq<QueueOp>): seq<Wid>
    requires LegalRun(q, ops)
    decreases |ops|
  {
    if ops == [] then []
    else (if ops[0].Select? then [Apply(q, ops[0]).current] else []) + Resumed(Apply(q, ops[0]), ops[1..])
  }

  /**
   Whatever happens in between, the worker at position `k` of the runnable queue is resumed by exactly the
   `k + 1`-th selection, and until then moves one place forward per selection.
   */
  lemma {:induction false} BoundedWaiting(q: Queues, ops: seq<QueueOp>, k: nat)
    requires LegalRun(q, ops) && k < |q.runnable|
    ensures var n := |Resumed(q, ops)|;
      if n > k then Resumed(q, ops)[k] == q.runnable[k]
      else k - n < |ApplyAll(q, ops).runnable| && ApplyAll(q, ops).runnable[k - n] == q.runnable[k]
    decreases |ops|
  {
    hide Executing, Parked, Apply;
    if ops == [] {
    } else {
      var r := Apply(q, ops[0]);
      ApplyFacts(q, ops[0]);
      if ops[0].Select? {
        if k > 0 { BoundedWaiting(r, ops[1..], k - 1); }
      } else {
        BoundedWaiting(r, ops[1..], k);
      }
    }
  }
}
