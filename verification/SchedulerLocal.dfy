/** What each program point of a scheduler's thread guarantees about that scheduler's own record. */
module SchedulerLocal {
  import opened Common
  import opened SchedulerQueues
  import opened SchedulerSystem

  /** Inside the critical section of `sleep`. */
  predicate Holding(pc: Pc) {
    match pc
    case SleepTasks | SleepExit | SleepKind | Conds(_, _) => true
    case IdleCount | IdleReport | IdleSignal | IdlePred | IdleBlock | IdleDone => true
    case _ => false
  }

  function PhaseOf(pc: Pc): Phase {
    match pc
    case WaitBlocked | WaitWoken => IdleWait
    case IdleCount | IdleReport | IdleSignal | IdlePred | IdleBlock | IdleBlocked | IdleWoken | IdleDone => IdleSleep
    case Exited => ExitingPhase
    case _ => RunningPhase
  }

  /** Every worker sits in a queue and none of them can run. */
  ghost predicate Stuck(q: Queues) {
    Parked(q) && q.yielded.None? && q.runnable == []
  }

  /** Every worker is idle. */
  ghost predicate AllAsleep(q: Queues) {
    Stuck(q) && q.pendingIo == [] && q.waiting == []
  }

  /** What holds of the queues at each program point. */
  ghost predicate QueuesOk(q: Queues, pc: Pc) {
    match pc
    case Exec | Pushing(_, _) | Notifying(_) | Signalling(_) | Checking => Executing(q)
    case IoScan | WaitScan | Fetch | YieldScan => Parked(q)
    case Pop => Parked(q) && q.runnable == [] && q.idle != []
    case Hand(_, stolen) => Parked(q) && q.runnable == [] && q.idle != [] && (stolen ==> q.yielded.None?)
    case Steal(_) | StealPop(_) => Stuck(q) && q.idle != []
    case Choose => Parked(q) && q.yielded.None?
    case SleepEntry | ShouldExit => Stuck(q)
    case SleepLock | SleepTasks | SleepExit | SleepKind => Stuck(q) && q.pendingIo == []
    case Conds(k, _) => Stuck(q) && q.pendingIo == [] && q.waiting != [] && k <= |q.waiting|
    case WaitBlocked | WaitWoken => Stuck(q) && q.pendingIo == [] && q.waiting != []
    case IdleCount | IdleReport | IdleSignal | IdlePred | IdleBlock | IdleBlocked | IdleWoken | IdleDone => AllAsleep(q)
    case Exited => Shape(q)
  }

  predicate TargetsOk(pc: Pc, n: nat, me: nat) {
    match pc
    case Pushing(d, _) => d < n
    case Notifying(d) => d < n
    case Signalling(d) => d < n
    case StealPop(k) => k < n && k != me
    case _ => true
  }

  ghost predicate LocalOk(sc: Sched, n: nat, me: nat) {
    && QueuesOk(sc.q, sc.pc)
    && TargetsOk(sc.pc, n, me)
    && sc.phase == PhaseOf(sc.pc)
    && (sc.mtx == Some(Own) <==> Holding(sc.pc))
  }

  lemma LocalWf(sc: Sched, n: nat, me: nat)
    requires LocalOk(sc, n, me) && sc.pc != Exited
    ensures Wf(sc.q)
  {
  }

  lemma UserStepKeepsLocal(sc: Sched, n: nat, me: nat, c: Choice, sc': Sched)
    requires LocalOk(sc, n, me) && Wf(sc.q) && UserStep(sc, c) == Some(sc')
    ensures LocalOk(sc', n, me)
  {
    hide Executing, Parked, Wf, Leave;
    match sc.pc
    case Exec =>
      LeaveParks(sc.q, Main);
      LeaveParks(sc.q, Yield);
      LeaveParks(sc.q, Io);
    case Checking => LeaveParks(sc.q, Wait);
  }

  lemma QueueStepKeepsLocal(sc: Sched, n: nat, me: nat, c: Choice, sc': Sched)
    requires LocalOk(sc, n, me) && Wf(sc.q) && QueueStep(sc, c) == Some(sc')
    ensures LocalOk(sc', n, me)
  {
    hide Executing, Parked, Wf, ScheduleIo, ScheduleWaiting, ScheduleYielded, StartTask, PrepareNextWorker;
    var q := sc.q;
    match sc.pc
    case IoScan => ScheduleIoKeeps(q, c.a);
    case WaitScan => ScheduleWaitingKeeps(q, c.a);
    case Hand(t, stolen) => StartTaskKeeps(q, t);
    case YieldScan => ScheduleYieldedKeeps(q);
    case Choose => if q.runnable != [] { PrepareNextRuns(q); }
  }

  lemma TestStepKeepsLocal(sc: Sched, n: nat, me: nat, c: Choice, worthIt: bool, sc': Sched)
    requires LocalOk(sc, n, me) && Wf(sc.q) && TestStep(sc, n, me, c, worthIt) == Some(sc')
    ensures LocalOk(sc', n, me)
  {
    hide Executing, Parked, Placed, TasksHeld, TotalLoad, NoDup;
    match sc.pc
    case Fetch => assert sc'.pc == Pop || sc'.pc == YieldScan;
    case Pop => assert sc'.pc.Hand? || sc'.pc == YieldScan;
    case Steal(k) => assert sc'.pc == Choose || sc'.pc.Steal? || sc'.pc.StealPop?;
    case SleepEntry => assert sc'.pc == ShouldExit || sc'.pc == SleepLock;
    case ShouldExit => assert sc'.pc == Exited || sc'.pc == IoScan;
  }

  lemma SleepStepKeepsLocal(sc: Sched, n: nat, me: nat, c: Choice, sc': Sched)
    requires LocalOk(sc, n, me) && SleepStep(sc, c) == Some(sc')
    ensures LocalOk(sc', n, me)
  {
    hide Executing, Parked;
    match sc.pc
    case SleepLock => assert sc'.pc == SleepTasks;
    case SleepTasks => assert sc'.pc == ShouldExit || sc'.pc == SleepExit;
    case SleepExit => assert sc'.pc == ShouldExit || sc'.pc == SleepKind;
    case SleepKind => assert sc'.pc == Conds(0, false) || sc'.pc == IdleCount;
    case Conds(k, _) => assert sc'.pc.Conds? || sc'.pc == ShouldExit || sc'.pc == WaitBlocked;
    case WaitBlocked => assert sc'.pc == WaitWoken;
    case WaitWoken => assert sc'.pc == ShouldExit || sc'.pc == WaitBlocked;
  }

  lemma IdleStepKeepsLocal(sc: Sched, n: nat, me: nat, last: bool, sc': Sched)
    requires LocalOk(sc, n, me) && IdleStep(sc, last) == Some(sc')
    ensures LocalOk(sc', n, me)
  {
    hide Executing, Parked;
    match sc.pc
    case IdleCount => assert sc'.pc == IdleReport || sc'.pc == IdlePred;
    case IdleReport => assert sc'.pc == IdleSignal;
    case IdlePred => assert sc'.pc == IdleDone || sc'.pc == IdleBlock;
    case IdleBlock => assert sc'.pc == IdleBlocked;
    case IdleBlocked => assert sc'.pc == IdleWoken;
    case IdleWoken => assert sc'.pc == IdlePred;
    case IdleDone => assert sc'.pc == ShouldExit;
  }

  /** Every own step, with the queue operation it performs, keeps the guarantees of the program points. */
  lemma OwnStepKeepsLocal(sc: Sched, n: nat, me: nat, c: Choice, worthIt: bool, last: bool, sc': Sched)
    requires LocalOk(sc, n, me) && Wf(sc.q)
    requires OwnStep(sc, n, me, c, worthIt, last) == Some(sc')
    ensures LocalOk(sc', n, me)
  {
    hide LocalOk, UserStep, QueueStep, TestStep, SleepStep, IdleStep, Wf, PartOf;
    match PartOf(sc.pc)
    case UserPart => UserStepKeepsLocal(sc, n, me, c, sc');
    case QueuePart => QueueStepKeepsLocal(sc, n, me, c, sc');
    case TestPart => TestStepKeepsLocal(sc, n, me, c, worthIt, sc');
    case SleepPart => SleepStepKeepsLocal(sc, n, me, c, sc');
    case IdlePart => IdleStepKeepsLocal(sc, n, me, last, sc');
  }

  // ---------- the wake-up handshake ----------

  /** A queued task could start here. */
  predicate Startable(sc: Sched) {
    sc.tasks != [] && sc.q.idle != []
  }

  /** Something a sleeping scheduler must not sleep through. */
  ghost predicate WorkReady(sc: Sched) {
    Startable(sc) || exists w :: w in sc.q.waiting && w in sc.cond
  }

  /**
   What the handshake guarantees, given whether some thread still has to enter this scheduler's `notify`
   (`owed`) and whether some thread is between its critical section and `notify_one` (`signal`).
   */
  ghost predicate WakeOk(sc: Sched, owed: bool, signal: bool) {
    match sc.pc
    case SleepExit | SleepKind => Startable(sc) ==> owed
    case Conds(k, found) =>
      && (Startable(sc) ==> owed)
      && forall j :: 0 <= j < k && j < |sc.q.waiting| && sc.q.waiting[j] in sc.cond ==> found || owed
    case WaitBlocked => (WorkReady(sc) ==> owed || sc.running) && (sc.running ==> signal)
    case WaitWoken => WorkReady(sc) ==> owed || sc.running
    case IdleBlock => sc.tasks != [] || sc.exit ==> owed
    case IdleBlocked => sc.tasks != [] || sc.exit ==> owed || signal
    case _ => true
  }

  lemma SleepStepKeepsWake(sc: Sched, n: nat, me: nat, c: Choice, sc': Sched, owed: bool, signal: bool)
    requires LocalOk(sc, n, me) && SleepStep(sc, c) == Some(sc') && WakeOk(sc, owed, signal)
    ensures WakeOk(sc', owed, signal)
  {
    hide Executing, Parked;
    match sc.pc
    case SleepLock => assert sc'.pc == SleepTasks;
    case SleepTasks => assert sc'.pc == ShouldExit || sc'.pc == SleepExit;
    case SleepExit => assert sc'.pc == ShouldExit || sc'.pc == SleepKind;
    case SleepKind => assert sc'.pc == Conds(0, false) || sc'.pc == IdleCount;
    case Conds(k, _) => assert sc'.pc.Conds? || sc'.pc == ShouldExit || sc'.pc == WaitBlocked;
    case WaitBlocked => assert sc'.pc == WaitWoken;
    case WaitWoken => assert sc'.pc == ShouldExit || sc'.pc == WaitBlocked;
  }

  lemma IdleStepKeepsWake(sc: Sched, last: bool, sc': Sched, owed: bool, signal: bool)
    requires IdleStep(sc, last) == Some(sc') && WakeOk(sc, owed, signal)
    ensures WakeOk(sc', owed, signal)
  {
    match sc.pc
    case IdleCount => assert sc'.pc == IdleReport || sc'.pc == IdlePred;
    case IdleReport => assert sc'.pc == IdleSignal;
    case IdlePred => assert sc'.pc == IdleDone || sc'.pc == IdleBlock;
    case IdleBlock => assert sc'.pc == IdleBlocked;
    case IdleBlocked => assert sc'.pc == IdleWoken;
    case IdleWoken => assert sc'.pc == IdlePred;
    case IdleDone => assert sc'.pc == ShouldExit;
  }

  /** Outside `sleep` a step never lands on a program point where a wake-up is due. */
  lemma OtherStepsKeepWake(sc: Sched, n: nat, me: nat, c: Choice, worthIt: bool, sc': Sched, owed: bool, signal: bool)
    requires Wf(sc.q)
    requires UserStep(sc, c) == Some(sc') || QueueStep(sc, c) == Some(sc') || TestStep(sc, n, me, c, worthIt) == Some(sc')
    ensures WakeOk(sc', owed, signal)
  {
    hide Wf, Leave, ScheduleIo, ScheduleWaiting, ScheduleYielded, StartTask, PrepareNextWorker, SetWorkerState;
    if UserStep(sc, c) == Some(sc') {
      assert sc'.pc == Checking || sc'.pc == Exec || sc'.pc == IoScan;
    } else if QueueStep(sc, c) == Some(sc') {
      assert sc'.pc == WaitScan || sc'.pc == Fetch || sc'.pc == Choose || sc'.pc == YieldScan || sc'.pc.Steal?
          || sc'.pc == Exec || sc'.pc == SleepEntry;
    } else {
      assert sc'.pc == Pop || sc'.pc == YieldScan || sc'.pc.Hand? || sc'.pc == Choose || sc'.pc.Steal? || sc'.pc.StealPop?
          || sc'.pc == ShouldExit || sc'.pc == SleepLock || sc'.pc == Exited || sc'.pc == IoScan;
    }
  }

  lemma OwnStepKeepsWake(sc: Sched, n: nat, me: nat, c: Choice, worthIt: bool, last: bool, sc': Sched, owed: bool, signal: bool)
    requires LocalOk(sc, n, me) && Wf(sc.q) && WakeOk(sc, owed, signal)
    requires OwnStep(sc, n, me, c, worthIt, last) == Some(sc')
    ensures WakeOk(sc', owed, signal)
  {
    hide LocalOk, WakeOk, UserStep, QueueStep, TestStep, SleepStep, IdleStep, Wf, PartOf;
    match PartOf(sc.pc)
    case UserPart => OtherStepsKeepWake(sc, n, me, c, worthIt, sc', owed, signal);
    case QueuePart => OtherStepsKeepWake(sc, n, me, c, worthIt, sc', owed, signal);
    case TestPart => OtherStepsKeepWake(sc, n, me, c, worthIt, sc', owed, signal);
    case SleepPart => SleepStepKeepsWake(sc, n, me, c, sc', owed, signal);
    case IdlePart => IdleStepKeepsWake(sc, last, sc', owed, signal);
  }

  // ---------- where tasks are ----------

  function HeldBy(ws: seq<Wid>, task: map<Wid, Option<Task>>): multiset<Task> {
    if ws == [] then multiset{}
    else (if ws[0] in task then OptBag(task[ws[0]]) else multiset{}) + HeldBy(ws[1..], task)
  }

  function OptBag(t: Option<Task>): multiset<Task> {
    if t.Some? then multiset{t.value} else multiset{}
  }

  function InHand(pc: Pc): multiset<Task> {
    if pc.Pushing? || pc.Hand? then multiset{pc.t} else multiset{}
  }

  /** Every task this scheduler has: queued, on its way to or from a deque, or with a worker. */
  function Bag(sc: Sched): multiset<Task> {
    multiset(sc.tasks) + InHand(sc.pc) + HeldBy(sc.q.workers, sc.q.task)
  }

  lemma {:induction false} HeldByUnchanged(ws: seq<Wid>, task: map<Wid, Option<Task>>, w: Wid, t: Option<Task>)
    requires w !in ws
    ensures HeldBy(ws, task[w := t]) == HeldBy(ws, task)
  {
    if ws == [] {
    } else {
      HeldByUnchanged(ws[1..], task, w, t);
    }
  }

  lemma {:induction false} HeldByUpdate(ws: seq<Wid>, task: map<Wid, Option<Task>>, w: Wid, t: Option<Task>)
    requires w in ws && w in task && NoDup(ws)
    ensures HeldBy(ws, task[w := t]) + OptBag(task[w]) == HeldBy(ws, task) + OptBag(t)
  {
    var rest, task' := ws[1..], task[w := t];
    if ws[0] == w {
      HeldByUnchanged(rest, task, w, t);
    } else {
      HeldByUpdate(rest, task, w, t);
      var h := if ws[0] in task then OptBag(task[ws[0]]) else multiset{};
      Regroup(h, HeldBy(rest, task'), OptBag(task[w]), HeldBy(rest, task), OptBag(t));
    }
  }

  lemma Regroup(h: multiset<Task>, a: multiset<Task>, b: multiset<Task>, c: multiset<Task>, d: multiset<Task>)
    requires a + b == c + d
    ensures (h + a) + b == (h + c) + d
  {
    assert (h + a) + b == h + (a + b);
    assert (h + c) + d == h + (c + d);
  }

  lemma LeaveTasks(q: Queues, ctx: SyncContext)
    requires q.current in q.state
    ensures Leave(q, ctx).workers == q.workers
    ensures Leave(q, ctx).task == if ctx == Main then q.task[q.current := None] else q.task
  {
  }

  lemma ScheduleIoTasks(q: Queues, a: seq<bool>)
    requires |a| == |q.pendingIo| && forall w <- q.pendingIo :: w in q.state
    ensures ScheduleIo(q, a).task == q.task && ScheduleIo(q, a).workers == q.workers
  {
    hide Chosen, Others, ParkAllRunnable;
    ChosenMembers(q.pendingIo, a);
    ParkAllRunnableFacts(q.(pendingIo := Others(q.pendingIo, a)), Chosen(q.pendingIo, a));
  }

  lemma ScheduleWaitingTasks(q: Queues, a: seq<bool>)
    requires |a| == |q.waiting| && forall w <- q.waiting :: w in q.state
    ensures ScheduleWaiting(q, a).task == q.task && ScheduleWaiting(q, a).workers == q.workers
  {
    hide Chosen, Others, ParkAllRunnable;
    ChosenMembers(q.waiting, a);
    ParkAllRunnableFacts(q.(waiting := Others(q.waiting, a)), Chosen(q.waiting, a));
  }

  /** The step moves no task into or out of a deque, a hand or a worker. */
  predicate SameStock(sc: Sched, sc': Sched) {
    && sc'.q.workers == sc.q.workers && sc'.q.task == sc.q.task && sc'.tasks == sc.tasks
    && !sc.pc.Pushing? && !sc.pc.Hand? && !sc'.pc.Pushing? && !sc'.pc.Hand?
  }

  lemma SameStockBag(sc: Sched, sc': Sched)
    requires SameStock(sc, sc')
    ensures Bag(sc') == Bag(sc)
  {
  }

  lemma CurrentHasTask(q: Queues)
    requires Wf(q)
    ensures q.current in q.task
  {
  }

  /** A user step parks the worker in some context, or leaves the queues alone. */
  lemma UserStepShape(sc: Sched, c: Choice, sc': Sched) returns (ctx: Option<SyncContext>)
    requires Wf(sc.q) && UserStep(sc, c) == Some(sc')
    ensures sc.pc == Exec || sc.pc == Checking
    ensures ctx.Some? ==> sc' == LeaveUser(sc, ctx.value)
    ensures ctx.None? ==> sc'.q == sc.q && sc'.tasks == sc.tasks && (sc'.pc == Exec || sc'.pc == Checking)
    ensures ctx == Some(Main) <==> sc.pc == Exec && c == TaskDone
  {
    hide Wf, LeaveUser;
    if sc.pc == Exec {
      ctx := match c case TaskDone => Some(Main) case YieldNow => Some(Yield) case BeginIo => Some(Io) case _ => None;
    } else {
      ctx := if sc.q.current in sc.cond || c == Flag(true) then None else Some(Wait);
    }
  }

  lemma UserStepStock(sc: Sched, c: Choice, sc': Sched)
    requires Wf(sc.q) && UserStep(sc, c) == Some(sc')
    ensures sc'.q.workers == sc.q.workers && sc'.tasks == sc.tasks && InHand(sc.pc) == InHand(sc'.pc) == multiset{}
    ensures sc.q.current in sc.q.task
    ensures sc'.q.task == if sc.pc == Exec && c == TaskDone then sc.q.task[sc.q.current := None] else sc.q.task
  {
    hide Wf, Leave, UserStep;
    Members(sc.q);
    CurrentHasTask(sc.q);
    var ctx := UserStepShape(sc, c, sc');
    if ctx.Some? { LeaveTasks(sc.q, ctx.value); }
  }

  lemma UserStepBag(sc: Sched, c: Choice, sc': Sched)
    requires Wf(sc.q) && UserStep(sc, c) == Some(sc')
    ensures Bag(sc') + OptBag(Completed(sc, c)) == Bag(sc)
  {
    hide UserStep, HeldBy, InHand;
    var q := sc.q;
    UserStepStock(sc, c, sc');
    HeldByUpdate(q.workers, q.task, q.current, None);
    Regroup(multiset(sc.tasks) + InHand(sc.pc), HeldBy(q.workers, q.task[q.current := None]), OptBag(q.task[q.current]),
            HeldBy(q.workers, q.task), multiset{});
  }

  /** A task leaves the hand exactly when it reaches a worker, and that worker had none. */
  lemma StartTaskBag(q: Queues, t: Task)
    requires Parked(q) && q.idle != []
    ensures q.idle[0] in q.state && StartTask(q, t).workers == q.workers
    ensures HeldBy(q.workers, StartTask(q, t).task) == HeldBy(q.workers, q.task) + multiset{t}
  {
    assert q.idle[0] in q.idle;
    assert q.idle[0] in q.workers && q.state[q.idle[0]] == Idle;
    assert q.task[q.idle[0]] == None;
    HeldByUpdate(q.workers, q.task, q.idle[0], Some(t));
  }

  lemma HandBag(sc: Sched, n: nat, me: nat, c: Choice, sc': Sched)
    requires QueuesOk(sc.q, sc.pc) && Wf(sc.q) && sc.pc.Hand? && QueueStep(sc, c) == Some(sc')
    ensures Bag(sc') == Bag(sc)
  {
    StartTaskBag(sc.q, sc.pc.t);
    hide HeldBy, Wf;
    var h := HeldBy(sc.q.workers, sc.q.task);
    assert !sc'.pc.Hand? && !sc'.pc.Pushing?;
    assert Bag(sc') == multiset(sc.tasks) + multiset{} + (h + multiset{sc.pc.t});
    assert Bag(sc) == multiset(sc.tasks) + multiset{sc.pc.t} + h;
  }

  lemma QueueStepStock(sc: Sched, c: Choice, sc': Sched)
    requires Wf(sc.q) && !sc.pc.Hand? && QueueStep(sc, c) == Some(sc')
    ensures SameStock(sc, sc')
  {
    hide Wf, ScheduleIo, ScheduleWaiting;
    var q := sc.q;
    match sc.pc
    case IoScan => Members(q); ScheduleIoTasks(q, c.a);
    case WaitScan => Members(q); ScheduleWaitingTasks(q, c.a);
    case YieldScan => assert sc'.pc == Choose || sc'.pc == Steal(0);
    case Choose => assert sc'.pc == Exec || sc'.pc == SleepEntry;
  }

  lemma PopBag(sc: Sched, n: nat, me: nat, c: Choice, worthIt: bool, sc': Sched)
    requires Wf(sc.q) && sc.pc == Pop && sc.tasks != [] && TestStep(sc, n, me, c, worthIt) == Some(sc')
    ensures Bag(sc') == Bag(sc)
  {
    hide HeldBy, Wf;
    assert sc.tasks == [sc.tasks[0]] + sc.tasks[1..];
  }

  lemma TestStepStock(sc: Sched, n: nat, me: nat, c: Choice, worthIt: bool, sc': Sched)
    requires Wf(sc.q) && TestStep(sc, n, me, c, worthIt) == Some(sc') && (sc.pc == Pop ==> sc.tasks == [])
    ensures SameStock(sc, sc')
  {
    hide Wf;
    assert sc'.pc == Pop || sc'.pc == YieldScan || sc'.pc == Choose || sc'.pc.Steal? || sc'.pc.StealPop?
        || sc'.pc == ShouldExit || sc'.pc == SleepLock || sc'.pc == Exited || sc'.pc == IoScan;
  }

  lemma SleepStepStock(sc: Sched, c: Choice, sc': Sched)
    requires SleepStep(sc, c) == Some(sc')
    ensures SameStock(sc, sc')
  {
    assert sc'.pc == SleepTasks || sc'.pc == SleepExit || sc'.pc == SleepKind || sc'.pc.Conds? || sc'.pc == IdleCount
        || sc'.pc == ShouldExit || sc'.pc == WaitWoken || sc'.pc == WaitBlocked;
  }

  lemma IdleStepStock(sc: Sched, last: bool, sc': Sched)
    requires IdleStep(sc, last) == Some(sc')
    ensures SameStock(sc, sc')
  {
    assert sc'.pc == IdleReport || sc'.pc == IdleSignal || sc'.pc == IdlePred || sc'.pc == IdleDone || sc'.pc == IdleBlock
        || sc'.pc == IdleBlocked || sc'.pc == IdleWoken || sc'.pc == ShouldExit;
  }

  /** An own step keeps all of a scheduler's tasks, except the one its worker has completed. */
  lemma OwnStepBag(sc: Sched, n: nat, me: nat, c: Choice, worthIt: bool, last: bool, sc': Sched)
    requires LocalOk(sc, n, me) && Wf(sc.q) && OwnStep(sc, n, me, c, worthIt, last) == Some(sc')
    ensures Bag(sc') + OptBag(Completed(sc, c)) == Bag(sc)
  {
    hide QueuesOk, UserStep, QueueStep, TestStep, SleepStep, IdleStep, PartOf, Bag, Wf, SameStock;
    ExecPart(sc.pc);
    match PartOf(sc.pc)
    case UserPart => UserStepBag(sc, c, sc');
    case QueuePart =>
      if sc.pc.Hand? { HandBag(sc, n, me, c, sc'); } else { QueueStepStock(sc, c, sc'); SameStockBag(sc, sc'); }
    case TestPart =>
      if sc.pc == Pop && sc.tasks != [] { PopBag(sc, n, me, c, worthIt, sc'); }
      else { TestStepStock(sc, n, me, c, worthIt, sc'); SameStockBag(sc, sc'); }
    case SleepPart => SleepStepStock(sc, c, sc'); SameStockBag(sc, sc');
    case IdlePart => IdleStepStock(sc, last, sc'); SameStockBag(sc, sc');
  }

  lemma ExecPart(pc: Pc)
    ensures PartOf(pc) != UserPart ==> pc != Exec
  {
  }

  // ---------- quiescence ----------

  /** Nothing queued, all workers idle, and the thread on its way between a sleep and its exit. */
  ghost predicate QuietOk(sc: Sched) {
    && sc.tasks == []
    && match sc.pc
       case IdlePred | IdleBlock | IdleBlocked | IdleWoken => true
       case IdleDone => sc.exit
       case Exited => sc.exit && forall w <- sc.q.workers :: w in sc.q.task && sc.q.task[w] == None
       case ShouldExit => sc.exit && AllAsleep(sc.q)
       case _ => false
  }

  lemma IdleStepKeepsQuiet(sc: Sched, last: bool, sc': Sched)
    requires QuietOk(sc) && QueuesOk(sc.q, sc.pc) && IdleStep(sc, last) == Some(sc')
    ensures QuietOk(sc')
  {
    hide Parked;
    match sc.pc
    case IdlePred => assert sc'.pc == IdleDone || sc'.pc == IdleBlock;
    case IdleBlock => assert sc'.pc == IdleBlocked;
    case IdleBlocked => assert sc'.pc == IdleWoken;
    case IdleWoken => assert sc'.pc == IdlePred;
    case IdleDone => assert sc'.pc == ShouldExit;
  }

  lemma ExitStepKeepsQuiet(sc: Sched, n: nat, me: nat, c: Choice, worthIt: bool, sc': Sched)
    requires Wf(sc.q) && QuietOk(sc) && TestStep(sc, n, me, c, worthIt) == Some(sc')
    ensures QuietOk(sc')
  {
    hide Wf, Parked, SetWorkerState;
    Members(sc.q);
    assert sc.pc == ShouldExit && sc'.pc == Exited;
    AsleepHoldsNothing(sc, sc');
  }

  lemma OwnStepKeepsQuiet(sc: Sched, n: nat, me: nat, c: Choice, worthIt: bool, last: bool, sc': Sched)
    requires LocalOk(sc, n, me) && Wf(sc.q) && QuietOk(sc) && OwnStep(sc, n, me, c, worthIt, last) == Some(sc')
    ensures QuietOk(sc')
  {
    hide Wf, QueuesOk, UserStep, QueueStep, TestStep, SleepStep, IdleStep;
    if sc.pc == ShouldExit {
      ExitStepKeepsQuiet(sc, n, me, c, worthIt, sc');
    } else {
      IdleStepKeepsQuiet(sc, last, sc');
    }
  }

  lemma AsleepHoldsNothing(sc: Sched, sc': Sched)
    requires AllAsleep(sc.q) && Wf(sc.q) && sc.q.current in sc.q.state && sc'.q == SetWorkerState(sc.q, sc.q.current, Exiting)
    ensures forall w <- sc'.q.workers :: w in sc'.q.task && sc'.q.task[w] == None
  {
    forall w | w in sc'.q.workers ensures w in sc'.q.task && sc'.q.task[w] == None {
      AllIdleWhenAsleep(sc.q, w);
    }
  }

  /** With all other queues empty and nobody running, each worker is idle and holds no task. */
  lemma AllIdleWhenAsleep(q: Queues, w: Wid)
    requires AllAsleep(q) && w in q.workers
    ensures w in q.state && w in q.task && q.state[w] == Idle && q.task[w] == None
  {
    assert w !in q.runnable && w !in q.waiting && w !in q.pendingIo;
    assert q.yielded != Some(w);
  }

  /** While main holds the mutex, a scheduler that is not exiting cannot change phase nor gain a task by itself. */
  lemma OwnStepFrozen(sc: Sched, n: nat, me: nat, c: Choice, worthIt: bool, last: bool, sc': Sched)
    requires LocalOk(sc, n, me) && Wf(sc.q) && sc.mtx == Some(MainThread) && !sc.exit
    requires OwnStep(sc, n, me, c, worthIt, last) == Some(sc')
    ensures sc'.mtx == sc.mtx && sc'.phase == sc.phase && (sc.tasks == [] ==> sc'.tasks == [])
  {
    hide Wf, QueuesOk, Leave, ScheduleIo, ScheduleWaiting, ScheduleYielded, StartTask, PrepareNextWorker, SetWorkerState;
    match PartOf(sc.pc)
    case UserPart =>
    case QueuePart =>
    case TestPart =>
    case SleepPart => assert sc.pc == SleepLock || sc.pc == WaitBlocked || sc.pc == WaitWoken;
    case IdlePart => assert sc.pc == IdleBlocked || sc.pc == IdleWoken;
  }

  // ---------- what an own step leaves alone ----------

  function NotifyOf(pc: Pc): Option<nat> {
    if pc.Notifying? then Some(pc.target) else None
  }

  function SignalOf(pc: Pc): Option<nat> {
    if pc.Signalling? then Some(pc.target) else None
  }

  /** Counted in `m_idle_schedulers`. */
  function Counted(pc: Pc): int {
    match pc
    case IdleReport | IdleSignal | IdlePred | IdleBlock | IdleBlocked | IdleWoken | IdleDone => 1
    case _ => 0
  }

  /** Effects a step never has by itself: calls of `notify` come and go only by steps on two schedulers. */
  predicate Contained(sc: Sched, sc': Sched) {
    && NotifyOf(sc.pc) == None && NotifyOf(sc'.pc) == None && SignalOf(sc.pc) == None && SignalOf(sc'.pc) == None
    && sc'.exit == sc.exit
    && (sc'.mtx == Some(MainThread) <==> sc.mtx == Some(MainThread))
    && Counted(sc'.pc) == Counted(sc.pc) + CountDelta(sc.pc)
  }

  lemma UserStepContained(sc: Sched, c: Choice, sc': Sched)
    requires Wf(sc.q) && UserStep(sc, c) == Some(sc')
    ensures Contained(sc, sc')
  {
    hide Wf, Leave;
    match sc.pc
    case Exec => assert sc'.pc == Checking || sc'.pc == IoScan;
    case Checking => assert sc'.pc == Exec || sc'.pc == IoScan;
  }

  lemma QueueStepContained(sc: Sched, c: Choice, sc': Sched)
    requires Wf(sc.q) && QueueStep(sc, c) == Some(sc')
    ensures Contained(sc, sc')
  {
    hide Wf, ScheduleIo, ScheduleWaiting, ScheduleYielded, StartTask, PrepareNextWorker;
    match sc.pc
    case IoScan => assert sc'.pc == WaitScan;
    case WaitScan => assert sc'.pc == Fetch;
    case Hand(_, _) => assert sc'.pc == Choose || sc'.pc == YieldScan;
    case YieldScan => assert sc'.pc == Choose || sc'.pc == Steal(0);
    case Choose => assert sc'.pc == Exec || sc'.pc == SleepEntry;
  }

  lemma TestStepContained(sc: Sched, n: nat, me: nat, c: Choice, worthIt: bool, sc': Sched)
    requires Wf(sc.q) && TestStep(sc, n, me, c, worthIt) == Some(sc')
    ensures Contained(sc, sc')
  {
    hide Wf, SetWorkerState;
    match sc.pc
    case Fetch => assert sc'.pc == Pop || sc'.pc == YieldScan;
    case Pop => assert sc'.pc.Hand? || sc'.pc == YieldScan;
    case Steal(k) => assert sc'.pc == Choose || sc'.pc.Steal? || sc'.pc.StealPop?;
    case SleepEntry => assert sc'.pc == ShouldExit || sc'.pc == SleepLock;
    case ShouldExit => assert sc'.pc == Exited || sc'.pc == IoScan;
  }

  lemma SleepStepContained(sc: Sched, n: nat, me: nat, c: Choice, sc': Sched)
    requires (sc.mtx == Some(Own) <==> Holding(sc.pc)) && SleepStep(sc, c) == Some(sc')
    ensures Contained(sc, sc')
  {
    match sc.pc
    case SleepLock => assert sc'.pc == SleepTasks;
    case SleepTasks => assert sc'.pc == ShouldExit || sc'.pc == SleepExit;
    case SleepExit => assert sc'.pc == ShouldExit || sc'.pc == SleepKind;
    case SleepKind => assert sc'.pc == Conds(0, false) || sc'.pc == IdleCount;
    case Conds(k, _) => assert sc'.pc.Conds? || sc'.pc == ShouldExit || sc'.pc == WaitBlocked;
    case WaitBlocked => assert sc'.pc == WaitWoken;
    case WaitWoken => assert sc'.pc == ShouldExit || sc'.pc == WaitBlocked;
  }

  lemma IdleStepContained(sc: Sched, last: bool, sc': Sched)
    requires (sc.mtx == Some(Own) <==> Holding(sc.pc)) && IdleStep(sc, last) == Some(sc')
    ensures Contained(sc, sc')
  {
    match sc.pc
    case IdleCount => assert sc'.pc == IdleReport || sc'.pc == IdlePred;
    case IdleReport => assert sc'.pc == IdleSignal;
    case IdlePred => assert sc'.pc == IdleDone || sc'.pc == IdleBlock;
    case IdleBlock => assert sc'.pc == IdleBlocked;
    case IdleBlocked => assert sc'.pc == IdleWoken;
    case IdleWoken => assert sc'.pc == IdlePred;
    case IdleDone => assert sc'.pc == ShouldExit;
  }

  lemma OwnStepContained(sc: Sched, n: nat, me: nat, c: Choice, worthIt: bool, last: bool, sc': Sched)
    requires LocalOk(sc, n, me) && Wf(sc.q) && OwnStep(sc, n, me, c, worthIt, last) == Some(sc')
    ensures Contained(sc, sc')
  {
    hide QueuesOk, UserStep, QueueStep, TestStep, SleepStep, IdleStep, PartOf, Wf, Contained;
    match PartOf(sc.pc)
    case UserPart => UserStepContained(sc, c, sc');
    case QueuePart => QueueStepContained(sc, c, sc');
    case TestPart => TestStepContained(sc, n, me, c, worthIt, sc');
    case SleepPart => SleepStepContained(sc, n, me, c, sc');
    case IdlePart => IdleStepContained(sc, last, sc');
  }
}
