/**
 The scheduler and its workers as objects: every method works on the fields in place, as scheduler.cpp does,
 and is proved to do to the abstract queues what `SchedulerQueues` says.
 */
module SchedulerClass {
  import opened Common
  import opened SchedulerQueues
  import opened TaskQueue

  /** A point in time; `None` is `Time_point::max()`. */
  type Deadline = Option<nat>

  class Worker {
    const id: Wid
    const scheduler: Scheduler
    var state: WorkerState
    var task: Option<Task>
    var cond: bool
    var until: Deadline

    constructor (id: Wid, scheduler: Scheduler)
      ensures this.id == id && this.scheduler == scheduler
      ensures state == Initializing && task == None && !cond && until == None
    {
      this.id, this.scheduler := id, scheduler;
      state, task, cond, until := Initializing, None, false, None;
    }

    method SetWaitInfo(c: bool, d: Deadline)
      modifies this`cond, this`until
      ensures cond == c && until == d
    {
      if c {
        cond := true;
      } else {
        cond := false;
      }
      until := d;
    }

    /** `check_wait_info` at time `now`, with the flag as `check_cond` has just loaded it. */
    predicate WaitOver(loaded: bool, now: nat)
      reads this
    {
      loaded || (until.Some? && now >= until.value)
    }

    /** The flag, and then the worker's scheduler, which might be asleep. */
    method NotifyWaiter()
      modifies this`cond, scheduler`running
      ensures cond && scheduler.running
    {
      cond := true;
      scheduler.Notify();
    }
  }

  /** The numbers of a sequence of workers. */
  ghost function Ids(ws: seq<Worker>): (r: seq<Wid>)
    ensures |r| == |ws| && forall i :: 0 <= i < |ws| ==> r[i] == ws[i].id
  {
    seq(|ws|, i requires 0 <= i < |ws| => ws[i].id)
  }

  lemma IdsConcat(a: seq<Worker>, b: seq<Worker>)
    ensures Ids(a + b) == Ids(a) + Ids(b)
  {
  }

  ghost function StateMap(ws: seq<Worker>): map<Wid, WorkerState>
    reads ws
  {
    map w: nat | w < |ws| :: ws[w].state
  }

  ghost function TaskMap(ws: seq<Worker>): map<Wid, Option<Task>>
    reads ws
  {
    map w: nat | w < |ws| :: ws[w].task
  }

  lemma IdsErase(a: seq<Worker>, i: nat)
    requires i < |a|
    ensures Ids(a[..i] + a[i + 1..]) == Ids(a)[..i] + Ids(a)[i + 1..]
  {
  }

  lemma IdsUpTo(a: seq<Worker>, i: nat)
    requires i < |a|
    ensures Ids(a)[..i + 1] == Ids(a)[..i] + [a[i].id]
  {
  }

  /** The unchecked rest of a scan, after one more check. */
  lemma ScanTail(a: seq<Worker>, i: nat, ws: seq<Worker>, k: nat)
    requires i < |a| && k < |ws| && a[i..] == ws[k..]
    ensures a[i] == ws[k] && a[i] in ws
    ensures (a[..i] + a[i + 1..])[i..] == ws[k + 1..] && a[i + 1..] == ws[k + 1..]
  {
    assert a[i..][0] == ws[k..][0];
    assert a[i..][1..] == ws[k..][1..];
    assert (a[..i] + a[i + 1..])[i..] == a[i + 1..];
  }

  lemma IdsOne(w: Worker)
    ensures Ids([w]) == [w.id]
  {
  }

  lemma IdsHead(a: seq<Worker>)
    requires a != []
    ensures Ids(a) != [] && Ids(a)[0] == a[0].id
  {
  }

  lemma IdsTail(a: seq<Worker>, k: nat)
    requires k <= |a|
    ensures Ids(a[k..]) == Ids(a)[k..] && Ids(a[..k]) == Ids(a)[..k]
  {
  }

  lemma {:induction false} ChosenNone(s: seq<Wid>, answers: seq<bool>)
    requires |s| == |answers|
    ensures Chosen(s, answers) == [] <==> forall k :: 0 <= k < |answers| ==> !answers[k]
  {
    if s == [] {
    } else {
      ChosenNone(s[1..], answers[1..]);
      assert forall k :: 0 < k < |answers| ==> answers[k] == answers[1..][k - 1];
      assert forall k :: 0 <= k < |answers[1..]| ==> answers[1..][k] == answers[k + 1];
    }
  }

  lemma {:induction false} PartitionStep(s: seq<Wid>, answers: seq<bool>, k: nat)
    requires |s| == |answers| && k < |s|
    ensures Chosen(s[..k + 1], answers[..k + 1]) == Chosen(s[..k], answers[..k]) + (if answers[k] then [s[k]] else [])
    ensures Others(s[..k + 1], answers[..k + 1]) == Others(s[..k], answers[..k]) + (if answers[k] then [] else [s[k]])
  {
    if k == 0 {
    } else {
      PartitionStep(s[1..], answers[1..], k - 1);
      assert s[..k + 1][1..] == s[1..][..k] && answers[..k + 1][1..] == answers[1..][..k];
      assert s[..k][1..] == s[1..][..k - 1] && answers[..k][1..] == answers[1..][..k - 1];
    }
  }

  lemma {:induction false} ParkOneMore(q: Queues, ws: seq<Wid>, w: Wid)
    requires w in q.state && forall x <- ws :: x in q.state
    ensures w in ParkAllRunnable(q, ws).state
    ensures ParkAllRunnable(q, ws + [w]) == ParkRunnable(ParkAllRunnable(q, ws), w)
    decreases ws
  {
    hide ParkRunnable;
    if ws == [] {
    } else {
      ParkKeepsKeys(q, ws[0]);
      ParkOneMore(ParkRunnable(q, ws[0]), ws[1..], w);
      assert (ws + [w])[1..] == ws[1..] + [w];
    }
  }

  lemma ParkKeepsKeys(q: Queues, w: Wid)
    requires w in q.state
    ensures ParkRunnable(q, w).state.Keys == q.state.Keys
  {
  }

  /** Parking workers as runnable and shortening the list they come from are independent. */
  lemma {:induction false} ParkAllRunnableApart(q: Queues, ws: seq<Wid>, list: seq<Wid>)
    requires forall x <- ws :: x in q.state
    ensures ParkAllRunnable(q.(waiting := list), ws) == ParkAllRunnable(q, ws).(waiting := list)
    ensures ParkAllRunnable(q.(pendingIo := list), ws) == ParkAllRunnable(q, ws).(pendingIo := list)
    decreases ws
  {
    if ws == [] {
    } else {
      ParkAllRunnableApart(ParkRunnable(q, ws[0]), ws[1..], list);
    }
  }

  /** After `k` checks of a scan: the chosen ones so far are parked, the scanned queue aside. */
  ghost predicate Scanned(before: Queues, ids: seq<Wid>, answers: seq<bool>, k: nat, now: Queues) {
    && k <= |ids| == |answers| && (forall w <- ids :: w in before.state)
    && (forall w <- Chosen(ids[..k], answers[..k]) :: w in before.state)
    && now == ParkAllRunnable(before, Chosen(ids[..k], answers[..k])).(waiting := now.waiting, pendingIo := now.pendingIo)
  }

  lemma ScannedNone(before: Queues, ids: seq<Wid>, answers: seq<bool>)
    requires |ids| == |answers| && forall w <- ids :: w in before.state
    ensures Scanned(before, ids, answers, 0, before)
    ensures Others(ids[..0], answers[..0]) == []
  {
  }

  lemma ScannedNo(before: Queues, ids: seq<Wid>, answers: seq<bool>, k: nat, now: Queues)
    requires Scanned(before, ids, answers, k, now) && k < |ids| && !answers[k]
    ensures Scanned(before, ids, answers, k + 1, now)
    ensures Others(ids[..k + 1], answers[..k + 1]) == Others(ids[..k], answers[..k]) + [ids[k]]
  {
    PartitionStep(ids, answers, k);
    assert Chosen(ids[..k + 1], answers[..k + 1]) == Chosen(ids[..k], answers[..k]);
  }

  lemma ScannedYes(before: Queues, ids: seq<Wid>, answers: seq<bool>, k: nat, now: Queues, erased: Queues)
    requires Scanned(before, ids, answers, k, now) && k < |ids| && answers[k]
    requires erased == now.(waiting := erased.waiting, pendingIo := erased.pendingIo)
    ensures ids[k] in erased.state && Scanned(before, ids, answers, k + 1, ParkRunnable(erased, ids[k]))
    ensures Others(ids[..k + 1], answers[..k + 1]) == Others(ids[..k], answers[..k])
  {
    hide ParkAllRunnable, Chosen, Others;
    PartitionStep(ids, answers, k);
    ParkOneMore(before, Chosen(ids[..k], answers[..k]), ids[k]);
  }

  lemma ScannedAll(before: Queues, ids: seq<Wid>, answers: seq<bool>, now: Queues)
    requires Scanned(before, ids, answers, |ids|, now)
    ensures ids == before.waiting && now.waiting == Others(ids, answers) && now.pendingIo == before.pendingIo
      ==> now == ScheduleWaiting(before, answers)
    ensures ids == before.pendingIo && now.pendingIo == Others(ids, answers) && now.waiting == before.waiting
      ==> now == ScheduleIo(before, answers)
  {
    hide ParkAllRunnable, Chosen, Others;
    assert ids[..|ids|] == ids && answers[..|ids|] == answers;
    ParkAllRunnableFacts(before, Chosen(ids, answers));
    ParkAllRunnableApart(before, Chosen(ids, answers), Others(ids, answers));
  }

  lemma ScheduleIoFrame(q: Queues, done: seq<bool>)
    requires |done| == |q.pendingIo| && forall w <- q.pendingIo :: w in q.state
    ensures var r := ScheduleIo(q, done);
      r == q.(pendingIo := r.pendingIo, runnable := q.runnable + Chosen(q.pendingIo, done), state := r.state, load := r.load)
  {
    hide Chosen, Others, ParkAllRunnable;
    ChosenMembers(q.pendingIo, done);
    ParkAllRunnableFacts(q.(pendingIo := Others(q.pendingIo, done)), Chosen(q.pendingIo, done));
  }

  lemma LeaveRunnable(q: Queues, ctx: SyncContext)
    requires Executing(q)
    ensures q.current in q.state && Leave(q, ctx).runnable == q.runnable
  {
  }

  lemma YieldedLast(q: Queues)
    requires q.yielded.Some? ==> q.yielded.value in q.state
    ensures ScheduleYielded(q).runnable == q.runnable + (if q.yielded.Some? then [q.yielded.value] else [])
    ensures ScheduleYielded(q).idle == q.idle
  {
  }

  /** Whatever the task, the idle worker at the front goes to the back of the runnable queue. */
  lemma StartKeeps(q: Queues)
    requires Parked(q) && q.idle != []
    ensures q.idle[0] in q.state
    ensures forall t :: Parked(StartTask(q, t))
    ensures forall t :: StartTask(q, t).yielded == q.yielded
    ensures forall t :: StartTask(q, t).runnable == q.runnable + [q.idle[0]]
  {
    hide Parked;
    forall t: Task
      ensures q.idle[0] in q.state && Parked(StartTask(q, t))
      ensures q.idle[0] in q.state && StartTask(q, t).yielded == q.yielded
      ensures q.idle[0] in q.state && StartTask(q, t).runnable == q.runnable + [q.idle[0]]
    {
      StartTaskKeeps(q, t);
    }
    var t: Task := 0;
    StartTaskKeeps(q, t);
  }

  /**
   One turn of the loop in `schedule` as the environment shapes it: what the `k`-th I/O update finds, what the `k`-th
   flag check loads, when it happens, what other thieves take from the `k`-th scheduler before it is stolen from, what
   arrives during the sleep, and whether exit is signalled after it.
   */
  datatype Turn = Turn(
    done: nat -> bool,
    loaded: nat -> bool,
    time: nat -> nat,
    gone: nat -> nat,
    arrivals: seq<Task>,
    exit: bool)

  datatype Outcome = Runs | Exits | Sleeps

  /** Task `t` is in the hands of the worker that was at the front of the idle queue, and that worker is next to run. */
  ghost predicate StartedFirst(q: Queues, t: Task, q': Queues) {
    && q.idle != [] && q'.idle == q.idle[1..] && q'.runnable != [] && q'.runnable[0] == q.idle[0]
    && q.idle[0] in q'.task && q'.task[q.idle[0]] == Some(t)
  }

  /** With nothing else to do, the task a thief gets is started, and without one nothing is. */
  ghost predicate Stole(q: Queues, before: seq<seq<Task>>, worth: seq<bool>, gone: nat -> nat, from: nat, taken: Option<Task>,
                        after: seq<seq<Task>>, q': Queues) {
    && Robbed(before, worth, gone, from, taken, after)
    && if taken.Some? then StartedFirst(q, taken.value, q') else q'.runnable == [] && q'.idle == q.idle
  }

  /** The worker that was at the front of the idle queue runs, on this task. */
  ghost predicate RunsWith(q: Queues, t: Task, q': Queues) {
    && q.idle != [] && q'.idle == q.idle[1..] && q'.current == q.idle[0]
    && q.idle[0] in q'.task && q'.task[q.idle[0]] == Some(t)
  }

  ghost predicate GotOne(q: Queues, before: seq<seq<Task>>, worth: seq<bool>, gone: nat -> nat, from: nat, taken: Option<Task>,
                         after: seq<seq<Task>>, q': Queues) {
    taken.Some? && Robbed(before, worth, gone, from, taken, after) && RunsWith(q, taken.value, q')
  }

  /** The first turn got a task from others, or they had none to take. */
  ghost predicate FirstTheft(q: Queues, before: seq<seq<Task>>, worth: seq<bool>, gone: nat -> nat, from: nat,
                             taken: Option<Task>, after: seq<seq<Task>>, q': Queues, got: bool) {
    if got then GotOne(q, before, worth, gone, from, taken, after, q') else NothingLeft(before, worth, gone)
  }

  /** The idle queue after the running worker has left in a context: one that has finished is at its front. */
  function NextIdle(q: Queues, ctx: SyncContext): seq<Wid> {
    if ctx == Main then [q.current] + q.idle else q.idle
  }

  lemma LeaveIdle(q: Queues, ctx: SyncContext)
    requires q.current in q.state
    ensures Leave(q, ctx).idle == NextIdle(q, ctx)
    ensures ctx == Yield ==> Leave(q, ctx).yielded == Some(q.current)
  {
  }

  /** Others have taken all tasks of every scheduler that was worth a theft. */
  ghost predicate NothingLeft(before: seq<seq<Task>>, worth: seq<bool>, gone: nat -> nat) {
    |worth| == |before| && forall k :: 0 <= k < |before| && worth[k] ==> gone(k) >= |before[k]|
  }

  lemma FirstFacts(q: Queues, q': Queues)
    ensures forall t :: StartedFirst(q, t, q') ==> q'.runnable != []
  {
  }

  lemma StoleFacts(q: Queues, q': Queues)
    ensures forall before, worth, gone, from, taken, after :: Stole(q, before, worth, gone, from, taken, after, q') ==>
      q'.runnable == [] ==> q'.idle == q.idle
  {
  }

  lemma FirstRuns(q: Queues, mid: Queues, q': Queues)
    requires mid.runnable != [] && q'.current == mid.runnable[0] && q'.task == mid.task && q'.idle == mid.idle
    ensures forall t :: StartedFirst(q, t, mid) ==> RunsWith(q, t, q')
  {
  }

  lemma StoleOrNot(q: Queues, before: seq<seq<Task>>, worth: seq<bool>, gone: nat -> nat, from: nat, taken: Option<Task>,
                   after: seq<seq<Task>>, mid: Queues)
    ensures Stole(q, before, worth, gone, from, taken, after, mid) && mid.runnable == [] ==> NothingLeft(before, worth, gone)
  {
  }

  lemma StoleRuns(q: Queues, before: seq<seq<Task>>, worth: seq<bool>, gone: nat -> nat, from: nat, taken: Option<Task>,
                  after: seq<seq<Task>>, mid: Queues, q': Queues)
    requires mid.runnable != [] && q'.current == mid.runnable[0] && q'.task == mid.task && q'.idle == mid.idle
    ensures Stole(q, before, worth, gone, from, taken, after, mid) ==> GotOne(q, before, worth, gone, from, taken, after, q')
  {
    hide Robbed;
  }

  lemma SameStart(q: Queues, mid: Queues, q': Queues)
    ensures mid.idle == q.idle ==> forall t :: StartedFirst(mid, t, q') == StartedFirst(q, t, q')
    ensures mid.idle == q.idle ==> forall before, worth, gone, from, taken, after ::
      Stole(mid, before, worth, gone, from, taken, after, q') == Stole(q, before, worth, gone, from, taken, after, q')
  {
  }

  lemma StartIsFirst(q: Queues, t: Task)
    requires q.runnable == [] && q.idle != [] && q.idle[0] in q.state
    ensures StartedFirst(q, t, StartTask(q, t))
  {
  }

  lemma YieldedBehindFirst(q: Queues, t: Task, q': Queues)
    requires StartedFirst(q, t, q') && (q'.yielded.Some? ==> q'.yielded.value in q'.state)
    ensures StartedFirst(q, t, ScheduleYielded(q'))
  {
  }

  /** A thief has been at the first `k` schedulers: those worth it have been emptied by others before it. */
  ghost predicate Passed(before: seq<seq<Task>>, worth: seq<bool>, gone: nat -> nat, k: nat, after: seq<seq<Task>>) {
    && k <= |before| == |worth| == |after|
    && (forall j :: 0 <= j < k ==> after[j] == if worth[j] then [] else before[j])
    && (forall j :: 0 <= j < k && worth[j] ==> gone(j) >= |before[j]|)
    && (forall j :: k <= j < |before| ==> after[j] == before[j])
  }

  /** ... and has taken the oldest task left at scheduler `from`, or found none anywhere. */
  ghost predicate Robbed(before: seq<seq<Task>>, worth: seq<bool>, gone: nat -> nat, from: nat, t: Option<Task>,
                         after: seq<seq<Task>>) {
    if t.None? then from == |before| && Passed(before, worth, gone, from, after)
    else
      && from < |before| == |worth| == |after| && worth[from] && gone(from) < |before[from]|
      && t.value == before[from][gone(from)] && after[from] == before[from][gone(from) + 1..]
      && Passed(before, worth, gone, from, after[from := before[from]])
  }

  lemma PassedNone(before: seq<seq<Task>>, worth: seq<bool>, gone: nat -> nat, k: nat)
    requires k <= |before| == |worth| && forall j :: 0 <= j < k ==> !worth[j]
    ensures Passed(before, worth, gone, k, before)
  {
  }

  lemma PassedOn(before: seq<seq<Task>>, worth: seq<bool>, gone: nat -> nat, k: nat, after: seq<seq<Task>>, next: nat)
    requires Passed(before, worth, gone, k, after) && k < next <= |before| && worth[k] && gone(k) >= |before[k]|
    requires forall j :: k < j < next ==> !worth[j]
    ensures Passed(before, worth, gone, next, after[k := []])
  {
  }

  lemma PassedHere(before: seq<seq<Task>>, worth: seq<bool>, gone: nat -> nat, k: nat, after: seq<seq<Task>>)
    requires Passed(before, worth, gone, k, after) && k < |before| && worth[k]
    ensures |after| == |before| && after[k] == before[k]
    ensures gone(k) < |before[k]| ==>
      Robbed(before, worth, gone, k, Some(before[k][gone(k)]), after[k := before[k][gone(k) + 1..]])
  {
    if gone(k) < |before[k]| {
      assert after[k := before[k][gone(k) + 1..]][k := before[k]] == after;
    }
  }

  lemma PassedAll(before: seq<seq<Task>>, worth: seq<bool>, gone: nat -> nat, after: seq<seq<Task>>)
    requires Passed(before, worth, gone, |before|, after)
    ensures Robbed(before, worth, gone, |before|, None, after)
  {
  }

  class Scheduler {
    var workers: seq<Worker>
    var current: Worker?
    var runnable: seq<Worker>
    var idle: seq<Worker>
    var waiting: seq<Worker>
    var pendingIo: seq<Worker>
    var yielded: Worker?
    var stateLoad: int
    var running: bool
    const tasks: Tasks

    /** Worker objects are numbered by position, and every reference is to one of them. */
    ghost predicate Valid()
      reads this
    {
      && (forall i :: 0 <= i < |workers| ==> workers[i].id == i && workers[i].scheduler == this)
      && current in workers
      && (yielded != null ==> yielded in workers)
      && (forall w <- runnable :: w in workers) && (forall w <- idle :: w in workers)
      && (forall w <- waiting :: w in workers) && (forall w <- pendingIo :: w in workers)
    }

    ghost function Abs(): Queues
      requires Valid()
      reads this, workers
    {
      Queues(Ids(workers), current.id, Ids(runnable), Ids(idle), Ids(waiting), Ids(pendingIo),
             if yielded == null then None else Some(yielded.id),
             StateMap(workers), TaskMap(workers), stateLoad)
    }

    /**
     The constructor: every worker thread parks idle, in the order of creation, and the first is started, finds
     nothing to do and goes to sleep; the constructor waits for that.
     */
    constructor (n: nat)
      requires n > 0
      ensures Valid() && fresh(workers) && fresh(tasks) && tasks.Valid()
      ensures Abs() == Started(n, n) && tasks.tasks == [] && !running
    {
      workers, current, runnable, idle, waiting, pendingIo, yielded := [], null, [], [], [], [], null;
      stateLoad, running := 0, true;
      tasks := new Tasks();
      new;
      hide Abs, Started, Ids, StateMap, TaskMap;
      var i := 0;
      while i < n
        invariant 0 <= i <= n && |workers| == i && idle == workers && fresh(workers)
        invariant runnable == [] && waiting == [] && pendingIo == [] && yielded == null && stateLoad == 0 && running
        invariant forall k :: 0 <= k < i ==>
          workers[k].id == k && workers[k].scheduler == this && workers[k].state == Idle && workers[k].task == None
        invariant tasks.Valid() && tasks.tasks == [] && fresh(tasks)
      {
        var w := new Worker(i, this);
        workers := workers + [w];
        idle := idle + [w];
        stateLoad := stateLoad + LoadOf(Idle) - LoadOf(w.state);
        w.state := Idle;
        i := i + 1;
      }
      current := idle[0];
      running := false;
      AllStarted(n);
    }

    lemma AllStarted(n: nat)
      requires Valid() && 0 < n == |workers| && current == workers[0]
      requires idle == workers && runnable == [] && waiting == [] && pendingIo == [] && yielded == null && stateLoad == 0
      requires forall k :: 0 <= k < n ==> workers[k].state == Idle && workers[k].task == None
      ensures Abs() == Started(n, n)
    {
      assert Ids(workers) == seq(n, i => i);
      assert Ids([]) == [];
      assert StateMap(workers) == Started(n, n).state;
      assert TaskMap(workers) == Started(n, n).task;
    }

    method SetWorkerStateInPlace(w: Worker, s: WorkerState)
      requires Valid() && w in workers
      modifies this`stateLoad, w`state
      ensures Valid() && w.id in old(Abs()).state && Abs() == SetWorkerState(old(Abs()), w.id, s)
    {
      hide Ids;
      StateMapHas(w);
      ghost var (states, tasks) := (StateMap(workers), TaskMap(workers));
      stateLoad := stateLoad + LoadOf(s) - LoadOf(w.state);
      w.state := s;
      assert StateMap(workers) == states[w.id := s];
      assert TaskMap(workers) == tasks;
    }

    lemma StateMapHas(w: Worker)
      requires Valid() && w in workers
      ensures w.id in StateMap(workers) && StateMap(workers)[w.id] == w.state && w.id < |workers| && workers[w.id] == w
    {
    }

    method ParkRunnableInPlace(w: Worker)
      requires Valid() && w in workers
      modifies this`runnable, this`stateLoad, w`state
      ensures Valid() && w.id in old(Abs()).state && Abs() == ParkRunnable(old(Abs()), w.id)
      ensures runnable == old(runnable) + [w]
    {
      hide Ids, StateMap, TaskMap;
      StateMapHas(w);
      IdsConcat(runnable, [w]);
      IdsOne(w);
      runnable := runnable + [w];
      SetWorkerStateInPlace(w, Runnable);
    }

    method ParkIdleInPlace(w: Worker, back: bool)
      requires Valid() && w in workers
      modifies this`idle, this`stateLoad, w`state
      ensures Valid() && w.id in old(Abs()).state && Abs() == ParkIdle(old(Abs()), w.id, back)
    {
      hide Ids, StateMap, TaskMap;
      StateMapHas(w);
      IdsOne(w);
      IdsConcat(idle, [w]);
      IdsConcat([w], idle);
      if back {
        idle := idle + [w];
      } else {
        idle := [w] + idle;
      }
      SetWorkerStateInPlace(w, Idle);
    }

    method ParkWorkerInPlace(w: Worker, ctx: SyncContext, initializing: bool)
      requires Valid() && w in workers
      modifies this`idle, this`waiting, this`pendingIo, this`yielded, this`stateLoad, w`state
      ensures Valid() && w.id in old(Abs()).state && Abs() == ParkWorker(old(Abs()), w.id, ctx, initializing)
      ensures waiting == old(waiting) + (if ctx == Wait then [w] else [])
      ensures pendingIo == old(pendingIo) + (if ctx == Io then [w] else [])
      ensures yielded == if ctx == Yield then w else old(yielded)
    {
      hide Ids, StateMap, TaskMap;
      StateMapHas(w);
      IdsOne(w);
      IdsConcat(waiting, [w]);
      IdsConcat(pendingIo, [w]);
      match ctx {
        case Main => ParkIdleInPlace(w, initializing);
        case Yield =>
          yielded := w;
          SetWorkerStateInPlace(w, Yielded);
        case Wait =>
          waiting := waiting + [w];
          SetWorkerStateInPlace(w, Waiting);
        case Io =>
          pendingIo := pendingIo + [w];
          SetWorkerStateInPlace(w, PendingIo);
      }
    }

    method PrepareNextWorkerInPlace()
      requires Valid() && runnable != []
      modifies this`current, this`runnable, this`stateLoad, runnable[..1]`state
      ensures Valid() && old(Abs()).runnable != [] && old(Abs()).runnable[0] in old(Abs()).state
      ensures Abs() == PrepareNextWorker(old(Abs()))
    {
      hide Ids, StateMap, TaskMap;
      StateMapHas(runnable[0]);
      IdsTail(runnable, 1);
      IdsHead(runnable);
      current := runnable[0];
      runnable := runnable[1..];
      SetWorkerStateInPlace(current, Running);
    }

    method Notify()
      modifies this`running
      ensures running
    {
      running := true;
    }

    lemma MembersKnown(ws: seq<Worker>)
      requires Valid() && forall w <- ws :: w in workers
      ensures forall x <- Ids(ws) :: x in StateMap(workers)
    {
      forall k | 0 <= k < |ws| ensures Ids(ws)[k] in StateMap(workers) {
        assert ws[k] in ws;
        StateMapHas(ws[k]);
      }
    }

    lemma AbsMembers()
      requires Valid()
      ensures forall w <- Abs().waiting :: w in Abs().state
      ensures forall w <- Abs().pendingIo :: w in Abs().state
      ensures Abs().yielded.Some? ==> Abs().yielded.value in Abs().state
      ensures Abs().idle != [] ==> Abs().idle[0] in Abs().state
    {
      hide Ids, StateMap, TaskMap;
      MembersKnown(waiting);
      MembersKnown(pendingIo);
      MembersKnown(idle);
      if yielded != null { StateMapHas(yielded); }
    }

    /** One load for each waiting worker; a flag that is up stays up while its worker is parked. */
    ghost predicate FlagsLoaded(loaded: seq<bool>)
      reads this, waiting
    {
      |loaded| == |waiting| && forall k :: 0 <= k < |waiting| && waiting[k].cond ==> loaded[k]
    }

    lemma MemberKnown(ws: seq<Worker>, i: nat)
      requires Valid() && i < |ws| && (ws == waiting || ws == pendingIo)
      ensures ws[i..i + 1] == [ws[i]] && ws[i] in workers
    {
      assert ws[i] in ws;
    }

    /** `erase` from the waiting queue, then `park_runnable`. */
    method WakeWaiting(i: nat)
      requires Valid() && i < |waiting|
      modifies this`waiting, this`runnable, this`stateLoad, waiting[i..i + 1]`state
      ensures Valid() && waiting == old(waiting[..i] + waiting[i + 1..])
      ensures old(waiting[i]).id in old(Abs()).state
      ensures Abs() == ParkRunnable(old(Abs()).(waiting := Ids(waiting)), old(waiting[i]).id)
    {
      hide Ids, StateMap, TaskMap, ParkRunnable;
      var w := waiting[i];
      assert w in waiting[i..i + 1];
      StateMapHas(w);
      waiting := waiting[..i] + waiting[i + 1..];
      ParkRunnableInPlace(w);
    }

    /**
     The scan over the waiting queue, erasing while it looks. The `k`-th check happens at time `nows[k]` and loads
     `loaded[k]` from the flag, which other threads may have raised during the scan.
     */
    method ScheduleWaitingInPlace(loaded: seq<bool>, nows: seq<nat>) returns (ghost over: seq<bool>)
      requires Valid() && |nows| == |waiting| && FlagsLoaded(loaded)
      modifies this`waiting, this`runnable, this`stateLoad, workers`state
      ensures Valid() && |over| == |nows| == |old(Abs()).waiting|
      ensures forall k :: 0 <= k < |over| ==>
        (over[k] <==> loaded[k] || (old(waiting[k].until).Some? && old(waiting[k].until.value) <= nows[k]))
      ensures forall w <- old(Abs()).waiting :: w in old(Abs()).state
      ensures Abs() == ScheduleWaiting(old(Abs()), over)
    {
      hide Valid, Scanned, ParkAllRunnable, Chosen, Others, StateMap, TaskMap, Ids, ParkRunnable, ScheduleWaiting;
      AbsMembers();
      ghost var (before, ws, ids) := (Abs(), waiting, Ids(waiting));
      over := seq(|ws|, k requires 0 <= k < |ws| reads ws => ws[k].WaitOver(loaded[k], nows[k]));
      ScannedNone(before, ids, over);
      var i, k := 0, 0;
      while i < |waiting|
        invariant Valid() && workers == old(workers) && 0 <= k <= |ws| && i <= |waiting| && |waiting| - i == |ws| - k
        invariant waiting[i..] == ws[k..] && |Ids(waiting)| == |waiting|
        invariant Ids(waiting)[..i] == Others(ids[..k], over[..k])
        invariant Scanned(before, ids, over, k, Abs())
        decreases |ws| - k
      {
        ScanTail(waiting, i, ws, k);
        if waiting[i].WaitOver(loaded[k], nows[k]) {
          ghost var now := Abs();
          IdsErase(waiting, i);
          MemberKnown(waiting, i);
          WakeWaiting(i);
          ScannedYes(before, ids, over, k, now, now.(waiting := Ids(waiting)));
        } else {
          ScannedNo(before, ids, over, k, Abs());
          IdsUpTo(waiting, i);
          i := i + 1;
        }
        k := k + 1;
      }
      assert ids[..k] == ids && over[..k] == over && Ids(waiting)[..i] == Ids(waiting);
      ScannedAll(before, ids, over, Abs());
    }

    /** `erase` from the pending I/O queue, then `park_runnable`. */
    method WakePendingIo(i: nat)
      requires Valid() && i < |pendingIo|
      modifies this`pendingIo, this`runnable, this`stateLoad, pendingIo[i..i + 1]`state
      ensures Valid() && pendingIo == old(pendingIo[..i] + pendingIo[i + 1..])
      ensures old(pendingIo[i]).id in old(Abs()).state
      ensures Abs() == ParkRunnable(old(Abs()).(pendingIo := Ids(pendingIo)), old(pendingIo[i]).id)
    {
      hide Ids, StateMap, TaskMap, ParkRunnable;
      var w := pendingIo[i];
      assert w in pendingIo[i..i + 1];
      StateMapHas(w);
      pendingIo := pendingIo[..i] + pendingIo[i + 1..];
      ParkRunnableInPlace(w);
    }

    /** The scan over the pending I/O queue; `done[k]` is what the `k`-th `update` finds. */
    method ScheduleIoInPlace(done: seq<bool>)
      requires Valid() && |done| == |pendingIo|
      modifies this`pendingIo, this`runnable, this`stateLoad, workers`state
      ensures Valid() && |done| == |old(Abs()).pendingIo|
      ensures forall w <- old(Abs()).pendingIo :: w in old(Abs()).state
      ensures Abs() == ScheduleIo(old(Abs()), done)
    {
      hide Valid, Scanned, ParkAllRunnable, Chosen, Others, StateMap, TaskMap, Ids, ParkRunnable, ScheduleIo;
      AbsMembers();
      ghost var (before, ws, ids) := (Abs(), pendingIo, Ids(pendingIo));
      ScannedNone(before, ids, done);
      var i, k := 0, 0;
      while i < |pendingIo|
        invariant Valid() && workers == old(workers) && 0 <= k <= |ws| && i <= |pendingIo| && |pendingIo| - i == |ws| - k
        invariant pendingIo[i..] == ws[k..] && |Ids(pendingIo)| == |pendingIo|
        invariant Ids(pendingIo)[..i] == Others(ids[..k], done[..k])
        invariant Scanned(before, ids, done, k, Abs())
        decreases |ws| - k
      {
        ScanTail(pendingIo, i, ws, k);
        if done[k] {
          ghost var now := Abs();
          IdsErase(pendingIo, i);
          MemberKnown(pendingIo, i);
          WakePendingIo(i);
          ScannedYes(before, ids, done, k, now, now.(pendingIo := Ids(pendingIo)));
        } else {
          ScannedNo(before, ids, done, k, Abs());
          IdsUpTo(pendingIo, i);
          i := i + 1;
        }
        k := k + 1;
      }
      assert ids[..k] == ids && done[..k] == done && Ids(pendingIo)[..i] == Ids(pendingIo);
      ScannedAll(before, ids, done, Abs());
    }

    method ScheduleYieldedInPlace()
      requires Valid()
      modifies this`yielded, this`runnable, this`stateLoad, workers`state
      ensures Valid() && yielded == null
      ensures old(Abs()).yielded.Some? ==> old(Abs()).yielded.value in old(Abs()).state
      ensures Abs() == ScheduleYielded(old(Abs()))
    {
      hide StateMap, TaskMap, Ids;
      AbsMembers();
      if yielded != null {
        ParkRunnableInPlace(yielded);
        yielded := null;
      }
    }

    method SetTask(w: Worker, t: Option<Task>)
      requires Valid() && w in workers
      modifies w`task
      ensures Valid() && Abs() == old(Abs()).(task := old(Abs()).task[w.id := t])
    {
      hide Ids;
      StateMapHas(w);
      ghost var (states, tasks) := (StateMap(workers), TaskMap(workers));
      w.task := t;
      assert TaskMap(workers) == tasks[w.id := t];
      assert StateMap(workers) == states;
    }

    /** The idle worker at the front takes the task and becomes runnable. */
    method StartTaskInPlace(t: Task)
      requires Valid() && idle != []
      modifies this`idle, this`runnable, this`stateLoad, idle[..1]`state, idle[..1]`task
      ensures Valid() && old(Abs()).idle != [] && old(Abs()).idle[0] in old(Abs()).state
      ensures Abs() == StartTask(old(Abs()), t)
    {
      hide StateMap, TaskMap, Ids, ParkRunnable;
      AbsMembers();
      IdsTail(idle, 1);
      IdsHead(idle);
      var w := idle[0];
      assert w in idle[..1];
      idle := idle[1..];
      SetTask(w, Some(t));
      ParkRunnableInPlace(w);
    }

    /** The worker the next task goes to. */
    ghost function Front(): seq<Worker>
      reads this
    {
      if idle == [] then [] else idle[..1]
    }

    /** `schedule_idle_worker`: the given task, or the next one of its own queue if there still is one. */
    method ScheduleIdleWorkerInPlace(given: Option<Task>)
      requires Valid() && tasks.Valid() && idle != []
      modifies this`idle, this`runnable, this`stateLoad, Front()`state, Front()`task, tasks
      ensures Valid() && tasks.Valid() && old(Abs()).idle != [] && old(Abs()).idle[0] in old(Abs()).state
      ensures given.Some? ==> Abs() == StartTask(old(Abs()), given.value) && tasks.tasks == old(tasks.tasks)
      ensures given.None? && old(tasks.tasks) != [] ==>
        Abs() == StartTask(old(Abs()), old(tasks.tasks)[0]) && tasks.tasks == old(tasks.tasks)[1..]
      ensures given.None? && old(tasks.tasks) == [] ==> Abs() == old(Abs()) && tasks.tasks == []
    {
      hide StateMap, TaskMap, Ids, StartTask;
      AbsMembers();
      IdsHead(idle);
      var t := given;
      if t == None {
        t := tasks.Deque();
      }
      if t != None {
        StartTaskInPlace(t.value);
      }
    }

    /** `schedule_idle_workers`: at most one fresh task, and only with no old one ready to go on. */
    method ScheduleIdleWorkersInPlace()
      requires Valid() && tasks.Valid()
      modifies this`idle, this`runnable, this`stateLoad, Front()`state, Front()`task, tasks
      ensures Valid() && tasks.Valid()
      ensures old(Abs()).idle != [] ==> old(Abs()).idle[0] in old(Abs()).state
      ensures var q := old(Abs());
        if q.runnable == [] && q.idle != [] && old(tasks.tasks) != []
        then Abs() == StartTask(q, old(tasks.tasks)[0]) && tasks.tasks == old(tasks.tasks)[1..]
        else Abs() == q && tasks.tasks == old(tasks.tasks)
    {
      hide StateMap, TaskMap, StartTask;
      AbsMembers();
      var none := tasks.Empty();
      if runnable == [] && idle != [] && !none {
        ScheduleIdleWorkerInPlace(None);
      }
    }

    /** Whether another scheduler may take a task: never the only one of a scheduler with nothing under way. */
    method HasStealableWork() returns (r: bool)
      requires tasks.Valid()
      ensures r <==> |tasks.tasks| > 1 || (|tasks.tasks| == 1 && stateLoad > 0)
    {
      if tasks.size == 0 {
        return false;
      }
      if tasks.size == 1 {
        return stateLoad > 0;
      }
      return true;
    }

    predicate Stealable()
      reads this, tasks
    {
      |tasks.tasks| > 1 || (|tasks.tasks| == 1 && stateLoad > 0)
    }

    /** The filtered view of the other schedulers: the next one, from `start` on, that has stealable work when looked at. */
    method NextStealable(others: seq<Scheduler>, start: nat) returns (k: nat)
      requires start <= |others| && forall o <- others :: o.tasks.Valid()
      ensures start <= k <= |others| && forall j :: start <= j < k ==> others[j] == this || !others[j].Stealable()
      ensures k < |others| ==> others[k] != this && others[k].Stealable()
    {
      k := start;
      while k < |others|
        invariant start <= k <= |others|
        invariant forall j :: start <= j < k ==> others[j] == this || !others[j].Stealable()
      {
        assert others[k] in others;
        if others[k] != this {
          var worthIt := others[k].HasStealableWork();
          if worthIt {
            return;
          }
        }
        k := k + 1;
      }
    }

    /** Different schedulers have different task deques. */
    ghost predicate OwnDeques(others: seq<Scheduler>) {
      && (forall o <- others :: o != this ==> o.tasks != tasks)
      && (forall i, j :: 0 <= i < j < |others| ==> others[i].tasks != others[j].tasks)
    }

    /** The deques of the others, and which of them are worth a theft. */
    ghost function DequesOf(others: seq<Scheduler>): (r: seq<seq<Task>>)
      reads set o <- others :: o.tasks
      ensures |r| == |others| && forall k :: 0 <= k < |others| ==> r[k] == others[k].tasks.tasks
    {
      if others == [] then [] else DequesOf(others[..|others| - 1]) + [others[|others| - 1].tasks.tasks]
    }

    ghost function WorthOf(others: seq<Scheduler>): (r: seq<bool>)
      reads others, set o <- others :: o.tasks
      ensures |r| == |others| && forall k :: 0 <= k < |others| ==> r[k] == (others[k] != this && others[k].Stealable())
    {
      if others == [] then []
      else WorthOf(others[..|others| - 1]) + [others[|others| - 1] != this && others[|others| - 1].Stealable()]
    }

    /** One theft: only the deque it is from changes. */
    method TakeFrom(others: seq<Scheduler>, k: nat, n: nat) returns (t: Option<Task>)
      requires OwnDeques(others) && k < |others| && others[k] != this && forall o <- others :: o.tasks.Valid()
      modifies others[k].tasks
      ensures forall o <- others :: o.tasks.Valid()
      ensures n >= |old(DequesOf(others))[k]| ==> t == None && DequesOf(others) == old(DequesOf(others))[k := []]
      ensures n < |old(DequesOf(others))[k]| ==> t == Some(old(DequesOf(others))[k][n])
      ensures n < |old(DequesOf(others))[k]| ==>
        DequesOf(others) == old(DequesOf(others))[k := old(DequesOf(others))[k][n + 1..]]
      ensures forall j :: 0 <= j < |others| && j != k ==> others[j].Stealable() == old(others[j].Stealable())
    {
      assert others[k] in others;
      t := others[k].tasks.DequeAfter(n);
      assert forall j :: 0 <= j < |others| && j != k ==> others[j].tasks != others[k].tasks;
    }

    /**
     The loop of `steal_work`. Between the test of scheduler `k` and the dequeue other thieves take `gone(k)` tasks.
     The task taken, if any, is the oldest one left at the first scheduler that was worth it and had any left; those
     before it are passed over, those behind it not touched.
     */
    method TakeFromOthers(others: seq<Scheduler>, gone: nat -> nat) returns (ghost from: nat, t: Option<Task>)
      requires OwnDeques(others) && forall o <- others :: o.tasks.Valid()
      modifies set o <- others | o != this :: o.tasks
      ensures from <= |others| && (t.Some? <==> from < |others|) && forall o <- others :: o.tasks.Valid()
      ensures Robbed(old(DequesOf(others)), old(WorthOf(others)), gone, from, t, DequesOf(others))
    {
      hide DequesOf, WorthOf, Stealable, OwnDeques, Valid, Passed, Robbed;
      ghost var (before, worth) := (DequesOf(others), WorthOf(others));
      from, t := |others|, None;
      var k := NextStealable(others, 0);
      PassedNone(before, worth, gone, k);
      while k < |others|
        invariant 0 <= k <= |others| && t == None && from == |others| && forall o <- others :: o.tasks.Valid()
        invariant forall j :: k <= j < |others| ==> worth[j] == (others[j] != this && others[j].Stealable())
        invariant k < |others| ==> worth[k] && others[k] != this
        invariant Passed(before, worth, gone, k, DequesOf(others))
        decreases |others| - k
      {
        ghost var (now, passed) := (DequesOf(others), k);
        PassedHere(before, worth, gone, k, now);
        t := TakeFrom(others, k, gone(k));
        if t != None {
          from := k;
          return;
        }
        k := NextStealable(others, k + 1);
        PassedOn(before, worth, gone, passed, now, k);
      }
      PassedAll(before, worth, gone, DequesOf(others));
    }

    /** `steal_work`: only with no worker runnable and one idle, and at most one task, which that worker takes. */
    method StealWork(others: seq<Scheduler>, gone: nat -> nat) returns (ghost from: nat, ghost taken: Option<Task>)
      requires Valid() && OwnDeques(others) && forall o <- others :: o.tasks.Valid()
      modifies this`idle, this`runnable, this`stateLoad, Front()`state, Front()`task
      modifies set o <- others | o != this :: o.tasks
      ensures Valid() && from <= |others| && forall o <- others :: o.tasks.Valid()
      ensures old(Abs()).idle != [] ==> old(Abs()).idle[0] in old(Abs()).state
      ensures old(runnable) != [] || old(idle) == [] ==> taken == None && DequesOf(others) == old(DequesOf(others))
      ensures old(runnable) == [] && old(idle) != [] ==>
        Robbed(old(DequesOf(others)), old(WorthOf(others)), gone, from, taken, DequesOf(others))
      ensures taken == None ==> Abs() == old(Abs())
      ensures taken.Some? ==> old(Abs()).idle != [] && Abs() == StartTask(old(Abs()), taken.value)
    {
      hide StateMap, TaskMap, StartTask, Ids, Robbed, Stealable, DequesOf, WorthOf, OwnDeques;
      AbsMembers();
      from, taken := |others|, None;
      if runnable != [] || idle == [] {
        return;
      }
      IdsHead(idle);
      var t: Option<Task>;
      from, t := TakeFromOthers(others, gone);
      taken := t;
      if t != None {
        StartTaskInPlace(t.value);
      }
    }

    /** `waiters_info`: whether any waiting worker's flag is up, and the earliest time any of them asked for. */
    method WaitersInfo() returns (cond: bool, earliest: Deadline)
      ensures cond <==> exists w :: w in waiting && w.cond
      ensures forall w <- waiting :: w.until.Some? ==> earliest.Some? && earliest.value <= w.until.value
      ensures earliest.Some? ==> exists w :: w in waiting && w.until == earliest
    {
      cond, earliest := false, None;
      var i := 0;
      while i < |waiting|
        invariant 0 <= i <= |waiting|
        invariant cond <==> exists w :: w in waiting[..i] && w.cond
        invariant forall w <- waiting[..i] :: w.until.Some? ==> earliest.Some? && earliest.value <= w.until.value
        invariant earliest.Some? ==> exists w :: w in waiting[..i] && w.until == earliest
      {
        var w := waiting[i];
        assert waiting[..i + 1] == waiting[..i] + [w];
        cond := cond || w.cond;
        if w.until.Some? && (earliest == None || w.until.value < earliest.value) {
          earliest := w.until;
        }
        i := i + 1;
      }
      assert waiting[..i] == waiting;
    }

    method HasWorkNow() returns (r: bool)
      requires Valid() && tasks.Valid()
      ensures r <==> HasWork(Abs(), tasks.tasks != [])
    {
      var none := tasks.Empty();
      return runnable != [] || waiting != [] || pendingIo != [] || !none || yielded != null;
    }

    /** `exit`: the current worker takes its leave. */
    method ExitInPlace()
      requires Valid()
      modifies this`stateLoad, workers`state
      ensures Valid() && old(Abs()).current in old(Abs()).state
      ensures Abs() == SetWorkerState(old(Abs()), old(Abs()).current, Exiting) && current.state == Exiting
    {
      SetWorkerStateInPlace(current, Exiting);
    }

    /** What the two scans make ready, in order. */
    ghost function Readied(q: Queues, done: seq<bool>, over: seq<bool>): seq<Wid>
      requires |done| == |q.pendingIo| && |over| == |q.waiting|
    {
      q.runnable + Chosen(q.pendingIo, done) + Chosen(q.waiting, over)
    }

    lemma FrontKnown()
      requires Valid()
      ensures |Front()| <= 1 && (Front() != [] ==> Front()[0] in workers)
      ensures forall k :: 0 <= k < |Front()| ==> Front()[k] in workers
    {
    }

    /** The first half of `schedule_workers`. */
    method ScanQueues(done: seq<bool>, loaded: seq<bool>, nows: seq<nat>) returns (ghost over: seq<bool>)
      requires Valid() && Parked(Abs()) && |done| == |pendingIo| && |nows| == |waiting| && FlagsLoaded(loaded)
      modifies this`waiting, this`pendingIo, this`runnable, this`stateLoad, workers`state
      ensures Valid() && Parked(Abs())
      ensures |done| == |old(Abs()).pendingIo| && |over| == |old(Abs()).waiting| == |nows|
      ensures forall k :: 0 <= k < |over| ==>
        (over[k] <==> loaded[k] || (old(waiting[k].until).Some? && old(waiting[k].until.value) <= nows[k]))
      ensures Abs().runnable == Readied(old(Abs()), done, over)
    {
      hide Parked, StateMap, TaskMap, Ids, Chosen, ScheduleIo, ScheduleWaiting;
      ghost var q0 := Abs();
      ScheduleIoInPlace(done);
      ScheduleIoKeeps(q0, done);
      ScheduleIoFrame(q0, done);
      ghost var q1 := Abs();
      over := ScheduleWaitingInPlace(loaded, nows);
      ScheduleWaitingKeeps(q1, over);
    }

    /** A fresh task of its own and the yielded worker. */
    method FillFromOwn()
      requires Valid() && tasks.Valid() && Parked(Abs())
      modifies this`idle, this`yielded, this`runnable, this`stateLoad, workers`state, workers`task, tasks
      ensures Valid() && tasks.Valid() && Parked(Abs()) && yielded == null
      ensures old(Abs()).runnable <= Abs().runnable
      ensures old(Abs()).runnable != [] ==> tasks.tasks == old(tasks.tasks) && Abs().idle == old(Abs()).idle
      ensures old(Abs()).runnable != [] ==>
        Abs().runnable == old(Abs()).runnable + (if old(yielded) == null then [] else [old(yielded).id])
      ensures old(Abs()).runnable == [] && old(Abs()).idle != [] && old(tasks.tasks) != [] ==>
        tasks.tasks == old(tasks.tasks)[1..] && StartedFirst(old(Abs()), old(tasks.tasks)[0], Abs())
      ensures old(Abs()).runnable == [] && (old(Abs()).idle == [] || old(tasks.tasks) == []) ==>
        tasks.tasks == old(tasks.tasks) && Abs().idle == old(Abs()).idle
      ensures old(Abs()).runnable == [] && (old(Abs()).idle == [] || old(tasks.tasks) == []) ==>
        Abs().runnable == if old(yielded) == null then [] else [old(yielded).id]
    {
      hide Parked, StateMap, TaskMap, Ids, StartTask, ScheduleYielded, StartedFirst;
      ghost var (q2, ts) := (Abs(), tasks.tasks);
      FrontKnown();
      ScheduleIdleWorkersInPlace();
      if q2.idle != [] {
        StartKeeps(q2);
        if q2.runnable == [] && ts != [] { StartIsFirst(q2, ts[0]); }
      }
      ghost var q3 := Abs();
      ScheduleYieldedInPlace();
      ScheduleYieldedKeeps(q3);
      YieldedLast(q3);
      if q2.runnable == [] && q2.idle != [] && ts != [] { YieldedBehindFirst(q2, ts[0], q3); }
    }

    /** Deques and their worth, seen from here, when nothing but this scheduler's own queues has changed. */
    lemma DequesSame(others: seq<Scheduler>, before: seq<seq<Task>>, worth: seq<bool>)
      requires |before| == |worth| == |others|
      requires forall k :: 0 <= k < |others| ==> others[k].tasks.tasks == before[k]
      requires forall k :: 0 <= k < |others| ==> worth[k] == (others[k] != this && others[k].Stealable())
      ensures DequesOf(others) == before && WorthOf(others) == worth
    {
      hide DequesOf, WorthOf, Stealable;
    }

    /** A stolen task, with nothing runnable. */
    method FillFromOthers(others: seq<Scheduler>, gone: nat -> nat) returns (ghost from: nat, ghost taken: Option<Task>)
      requires Valid() && tasks.Valid() && Parked(Abs()) && yielded == null
      requires OwnDeques(others) && forall o <- others :: o.tasks.Valid()
      modifies this`idle, this`runnable, this`stateLoad, workers`state, workers`task
      modifies set o <- others | o != this :: o.tasks
      ensures Valid() && Parked(Abs()) && yielded == null && forall o <- others :: o.tasks.Valid()
      ensures tasks.Valid() && tasks.tasks == old(tasks.tasks)
      ensures old(Abs()).runnable != [] || old(Abs()).idle == [] ==> Abs() == old(Abs())
      ensures old(Abs()).runnable == [] && old(Abs()).idle != [] ==>
        Stole(old(Abs()), old(DequesOf(others)), old(WorthOf(others)), gone, from, taken, DequesOf(others), Abs())
    {
      hide Parked, StateMap, TaskMap, Ids, StartTask, StartedFirst, Robbed, Stealable, DequesOf, WorthOf;
      ghost var q := Abs();
      FrontKnown();
      from, taken := StealWork(others, gone);
      if q.idle != [] {
        StartKeeps(q);
        if q.runnable == [] && taken.Some? { StartIsFirst(q, taken.value); }
      }
    }

    /** The second half: a fresh task, the yielded worker, a stolen task. */
    method FillQueues(others: seq<Scheduler>, gone: nat -> nat) returns (ghost from: nat, ghost taken: Option<Task>)
      requires Valid() && tasks.Valid() && Parked(Abs())
      requires OwnDeques(others) && forall o <- others :: o.tasks.Valid()
      modifies this`idle, this`yielded, this`runnable, this`stateLoad, workers`state, workers`task, tasks
      modifies set o <- others | o != this :: o.tasks
      ensures Valid() && tasks.Valid() && Parked(Abs()) && yielded == null && forall o <- others :: o.tasks.Valid()
      ensures old(Abs()).runnable <= Abs().runnable
      ensures old(Abs()).runnable != [] ==> tasks.tasks == old(tasks.tasks) && Abs().idle == old(Abs()).idle
      ensures old(Abs()).runnable != [] ==>
        Abs().runnable == old(Abs()).runnable + (if old(yielded) == null then [] else [old(yielded).id])
      ensures old(Abs()).runnable == [] && old(Abs()).idle != [] && old(tasks.tasks) != [] ==>
        tasks.tasks == old(tasks.tasks)[1..] && StartedFirst(old(Abs()), old(tasks.tasks)[0], Abs())
      ensures old(Abs()).runnable == [] && (old(Abs()).idle == [] || old(tasks.tasks) == []) ==>
        tasks.tasks == old(tasks.tasks)
      ensures old(Abs()).runnable == [] && (old(Abs()).idle == [] || old(tasks.tasks) == []) && old(yielded) != null ==>
        Abs().runnable == [old(yielded).id] && Abs().idle == old(Abs()).idle
      ensures old(Abs()).runnable == [] && old(Abs()).idle == [] && old(yielded) == null ==>
        Abs().runnable == [] && Abs().idle == []
      ensures old(Abs()).runnable == [] && old(Abs()).idle != [] && old(tasks.tasks) == [] && old(yielded) == null ==>
        Stole(old(Abs()), old(DequesOf(others)), old(WorthOf(others)), gone, from, taken, DequesOf(others), Abs())
    {
      hide Parked, Abs, StateMap, TaskMap, Ids, StartTask, StartedFirst, Robbed, Stole, DequesOf, WorthOf;
      ghost var (q, before, worth) := (Abs(), DequesOf(others), WorthOf(others));
      ghost var (own, slot) := (tasks.tasks, yielded);
      FillFromOwn();
      ghost var mid := Abs();
      FirstFacts(q, mid);
      if q.runnable == [] && own == [] { DequesSame(others, before, worth); }
      from, taken := FillFromOthers(others, gone);
      SameStart(q, mid, Abs());
    }

    /**
     `schedule_workers`, one pass: the worker partition is kept, the yielded slot is emptied, and old work comes
     first. Workers that were ready or became so keep their order at the front; with any of them ready no fresh
     task is started, its own or stolen, and the yielded worker goes last.
     */
    method ScheduleWorkersInPlace(done: seq<bool>, loaded: seq<bool>, nows: seq<nat>, others: seq<Scheduler>,
                                   gone: nat -> nat)
      returns (ghost over: seq<bool>, ghost from: nat, ghost taken: Option<Task>)
      requires Valid() && tasks.Valid() && Parked(Abs()) && |done| == |pendingIo|
      requires |nows| == |waiting| && FlagsLoaded(loaded)
      requires OwnDeques(others) && forall o <- others :: o.tasks.Valid()
      modifies this`idle, this`waiting, this`pendingIo, this`yielded, this`runnable, this`stateLoad
      modifies workers`state, workers`task, tasks
      modifies set o <- others | o != this :: o.tasks
      ensures Valid() && tasks.Valid() && Parked(Abs()) && yielded == null && forall o <- others :: o.tasks.Valid()
      ensures |done| == |old(Abs()).pendingIo| && |over| == |old(Abs()).waiting| == |nows|
      ensures forall k :: 0 <= k < |over| ==>
        (over[k] <==> loaded[k] || (old(waiting[k].until).Some? && old(waiting[k].until.value) <= nows[k]))
      ensures Readied(old(Abs()), done, over) <= Abs().runnable
      ensures Readied(old(Abs()), done, over) != [] ==> tasks.tasks == old(tasks.tasks) && Abs().idle == old(Abs()).idle
      ensures Readied(old(Abs()), done, over) != [] ==>
        Abs().runnable == Readied(old(Abs()), done, over) + (if old(yielded) == null then [] else [old(yielded).id])
      ensures var (q, own) := (old(Abs()), old(tasks.tasks));
        Readied(q, done, over) == [] && q.idle != [] && own != [] ==>
          tasks.tasks == own[1..] && StartedFirst(q, own[0], Abs())
      ensures var (q, own) := (old(Abs()), old(tasks.tasks));
        Readied(q, done, over) == [] && (q.idle == [] || own == []) ==> tasks.tasks == own
      ensures var (q, own) := (old(Abs()), old(tasks.tasks));
        Readied(q, done, over) == [] && (q.idle == [] || own == []) && old(yielded) != null ==>
          Abs().runnable == [old(yielded).id] && Abs().idle == q.idle
      ensures Readied(old(Abs()), done, over) == [] && old(Abs()).idle == [] && old(yielded) == null ==>
        Abs().runnable == [] && Abs().idle == []
      ensures Readied(old(Abs()), done, over) == [] && old(Abs()).idle != [] && old(tasks.tasks) == [] && old(yielded) == null ==>
        Stole(old(Abs()), old(DequesOf(others)), old(WorthOf(others)), gone, from, taken, DequesOf(others), Abs())
    {
      hide Parked, StateMap, TaskMap, Ids, Chosen, StartedFirst, Robbed, Stealable, OwnDeques, Readied;
      ghost var (q, before, worth) := (Abs(), DequesOf(others), WorthOf(others));
      over := ScanQueues(done, loaded, nows);
      DequesSame(others, before, worth);
      ghost var mid := Abs();
      assert mid.idle == q.idle;
      from, taken := FillQueues(others, gone);
      SameStart(q, mid, Abs());
    }

    /** `main_loop` has dropped a finished task, and the worker parks. */
    method LeaveInPlace(ctx: SyncContext)
      requires Valid() && Executing(Abs())
      modifies this`idle, this`waiting, this`pendingIo, this`yielded, this`stateLoad, workers`state, workers`task
      ensures Valid() && old(Abs()).current in old(Abs()).state && Abs() == Leave(old(Abs()), ctx) && Parked(Abs())
      ensures waiting == old(waiting) + (if ctx == Wait then [old(current)] else [])
      ensures pendingIo == old(pendingIo) + (if ctx == Io then [old(current)] else [])
      ensures yielded == if ctx == Yield then old(current) else old(yielded)
    {
      hide Parked, Executing, StateMap, TaskMap, Ids, ParkIdle, ParkYielded, ParkWaiting, ParkPendingIo;
      StateMapHas(current);
      LeaveParks(Abs(), ctx);
      if ctx == Main {
        SetTask(current, None);
      }
      ParkWorkerInPlace(current, ctx, false);
    }

    /** What the environment did while the thread slept: tasks that were enqueued. */
    method Arrive(arrivals: seq<Task>)
      requires tasks.Valid()
      modifies tasks
      ensures tasks.Valid() && tasks.tasks == old(tasks.tasks) + arrivals
    {
      var i := 0;
      while i < |arrivals|
        invariant 0 <= i <= |arrivals| && tasks.Valid() && tasks.tasks == old(tasks.tasks) + arrivals[..i]
      {
        tasks.Enque(arrivals[i]);
        i := i + 1;
      }
    }

    lemma AbsLengths()
      requires Valid()
      ensures |Abs().runnable| == |runnable| && |Abs().idle| == |idle|
      ensures |Abs().waiting| == |waiting| && |Abs().pendingIo| == |pendingIo|
    {
    }

    lemma DequesKept(others: seq<Scheduler>, after: seq<seq<Task>>)
      requires |after| == |others| && forall k :: 0 <= k < |others| ==> others[k].tasks.tasks == after[k]
      ensures DequesOf(others) == after
    {
      hide DequesOf;
    }

    lemma ReadiedFront(q: Queues, done: seq<bool>, over: seq<bool>)
      requires |done| == |q.pendingIo| && |over| == |q.waiting|
      ensures q.runnable <= Readied(q, done, over)
    {
    }

    /** No worker is runnable, no I/O is completed and no wait is over at its check in this turn. */
    ghost predicate NothingReady(now: Turn)
      reads this, waiting
    {
      && runnable == [] && (forall k :: 0 <= k < |pendingIo| ==> !now.done(k))
      && forall k :: 0 <= k < |waiting| ==> !WaitEnds(waiting[k], now, k)
    }

    ghost predicate WaitEnds(w: Worker, now: Turn, k: nat)
      reads w`cond, w`until
    {
      w.cond || now.loaded(k) || (w.until.Some? && w.until.value <= now.time(k))
    }

    /** The same for the moment after the running worker has parked. */
    ghost predicate NothingElseReady(ctx: SyncContext, now: Turn)
      requires Valid()
      reads this, waiting, current
    {
      && NothingReady(now) && ctx != Yield
      && (ctx == Io ==> !now.done(|pendingIo|)) && (ctx == Wait ==> !WaitEnds(current, now, |waiting|))
    }

    lemma OneMoreWaits(ctx: SyncContext, now: Turn, ws: seq<Worker>, ps: seq<Worker>, w: Worker)
      requires waiting == ws + (if ctx == Wait then [w] else []) && pendingIo == ps + (if ctx == Io then [w] else [])
      ensures NothingReady(now) <==>
        runnable == [] && (forall k :: 0 <= k < |ps| ==> !now.done(k)) && (forall k :: 0 <= k < |ws| ==> !WaitEnds(ws[k], now, k))
        && (ctx == Io ==> !now.done(|ps|)) && (ctx == Wait ==> !WaitEnds(w, now, |ws|))
    {
      hide WaitEnds;
      assert forall k :: 0 <= k < |ws| ==> waiting[k] == ws[k];
      assert ctx == Wait ==> waiting[|ws|] == w;
    }

    lemma NothingReadied(now: Turn, done: seq<bool>, over: seq<bool>)
      requires Valid() && |done| == |pendingIo| && |over| == |waiting|
      requires forall k :: 0 <= k < |done| ==> done[k] == now.done(k)
      requires forall k :: 0 <= k < |over| ==> (over[k] <==> WaitEnds(waiting[k], now, k))
      ensures |pendingIo| == |Abs().pendingIo| && |waiting| == |Abs().waiting|
      ensures NothingReady(now) <==> Readied(Abs(), done, over) == []
    {
      hide Chosen, WaitEnds;
      ChosenNone(Abs().pendingIo, done);
      ChosenNone(Abs().waiting, over);
    }

    /** The environment's answers for the queues as they are. */
    method Answers(now: Turn) returns (done: seq<bool>, loaded: seq<bool>, nows: seq<nat>)
      ensures |done| == |pendingIo| && |nows| == |waiting| && FlagsLoaded(loaded)
      ensures forall k :: 0 <= k < |done| ==> done[k] == now.done(k)
      ensures forall k :: 0 <= k < |nows| ==> nows[k] == now.time(k) && loaded[k] == (waiting[k].cond || now.loaded(k))
    {
      var ws := waiting;
      done := seq(|pendingIo|, k requires k >= 0 => now.done(k));
      loaded := seq(|ws|, k requires 0 <= k < |ws| reads ws => ws[k].cond || now.loaded(k));
      nows := seq(|ws|, k requires k >= 0 => now.time(k));
    }

    /** `schedule_workers` with the answers of this turn. */
    method ScheduleTurn(now: Turn, others: seq<Scheduler>) returns (ghost from: nat, ghost taken: Option<Task>)
      requires Valid() && tasks.Valid() && Parked(Abs())
      requires OwnDeques(others) && forall o <- others :: o.tasks.Valid()
      modifies this`idle, this`waiting, this`pendingIo, this`yielded, this`runnable, this`stateLoad
      modifies workers`state, workers`task, tasks, set o <- others | o != this :: o.tasks
      ensures Valid() && tasks.Valid() && Parked(Abs()) && yielded == null && forall o <- others :: o.tasks.Valid()
      ensures old(runnable) != [] ==> Abs().runnable != [] && Abs().runnable[0] == old(Abs()).runnable[0]
      ensures !old(NothingReady(now)) || old(yielded) != null ==> Abs().runnable != []
      ensures old(NothingReady(now)) && old(Abs()).idle != [] && old(tasks.tasks) != [] ==>
        tasks.tasks == old(tasks.tasks)[1..] && StartedFirst(old(Abs()), old(tasks.tasks)[0], Abs())
      ensures old(NothingReady(now)) && old(Abs()).idle != [] && old(tasks.tasks) == [] && old(yielded) == null ==>
        Stole(old(Abs()), old(DequesOf(others)), old(WorthOf(others)), now.gone, from, taken, DequesOf(others), Abs())
      ensures Abs().runnable == [] ==> (old(Abs()).idle == [] || old(tasks.tasks) == [])
      ensures Abs().runnable == [] ==> tasks.tasks == old(tasks.tasks) && Abs().idle == old(Abs()).idle
    {
      hide Parked, Abs, StateMap, TaskMap, Ids, Chosen, Readied, NothingReady, StartedFirst, Stole, DequesOf, WorthOf, OwnDeques;
      ghost var q := Abs();
      AbsLengths();
      var done, loaded, nows := Answers(now);
      ghost var ws := waiting;
      ghost var ends := seq(|ws|, k requires 0 <= k < |ws| reads ws => WaitEnds(ws[k], now, k));
      NothingReadied(now, done, ends);
      ghost var over;
      over, from, taken := ScheduleWorkersInPlace(done, loaded, nows, others, now.gone);
      assert over == ends;
      ReadiedFront(q, done, over);
      FirstFacts(q, Abs());
      StoleFacts(q, Abs());
    }

    /**
     One turn: schedule; go on with a runnable worker, or sleep, and leave if exit is signalled then. With nothing
     ready, an idle worker and a queued task it goes on with that worker on that task; with no task of its own either
     and no yielded worker, on a stolen one if there is one.
     */
    method TakeTurn(now: Turn, others: seq<Scheduler>) returns (outcome: Outcome, ghost from: nat, ghost taken: Option<Task>)
      requires Valid() && tasks.Valid() && Parked(Abs())
      requires OwnDeques(others) && forall o <- others :: o.tasks.Valid()
      modifies this`current, this`idle, this`waiting, this`pendingIo, this`yielded, this`runnable, this`stateLoad
      modifies workers`state, workers`task, tasks, set o <- others | o != this :: o.tasks
      ensures Valid() && tasks.Valid() && forall o <- others :: o.tasks.Valid()
      ensures outcome == Runs ==> Executing(Abs())
      ensures outcome != Runs ==> runnable == [] && yielded == null
      ensures outcome == Exits ==> now.exit && current.state == Exiting
      ensures outcome == Sleeps ==> !now.exit && Parked(Abs()) && Abs().idle == old(Abs()).idle
      ensures old(runnable) != [] ==> outcome == Runs && Abs().current == old(Abs()).runnable[0]
      ensures !old(NothingReady(now)) || old(yielded) != null ==> outcome == Runs
      ensures old(Abs()).idle != [] && old(tasks.tasks) != [] ==> outcome == Runs
      ensures old(NothingReady(now)) && old(Abs()).idle != [] && old(tasks.tasks) != [] ==>
        RunsWith(old(Abs()), old(tasks.tasks)[0], Abs()) && tasks.tasks == old(tasks.tasks)[1..]
      ensures old(NothingReady(now)) && old(Abs()).idle != [] && old(tasks.tasks) == [] && old(yielded) == null ==>
        if outcome == Runs
        then GotOne(old(Abs()), old(DequesOf(others)), old(WorthOf(others)), now.gone, from, taken, DequesOf(others), Abs())
        else NothingLeft(old(DequesOf(others)), old(WorthOf(others)), now.gone)
      ensures outcome != Runs ==> old(Abs()).idle == [] || tasks.tasks == now.arrivals
    {
      hide Parked, Executing, Abs, StateMap, TaskMap, Ids, NothingReady;
      hide StartedFirst, RunsWith, Stole, GotOne, NothingLeft, DequesOf, WorthOf, OwnDeques;
      ghost var (q, before, worth) := (Abs(), DequesOf(others), WorthOf(others));
      AbsLengths();
      from, taken := ScheduleTurn(now, others);
      AbsLengths();
      ghost var (mid, after) := (Abs(), DequesOf(others));
      FirstFacts(q, mid);
      StoleOrNot(q, before, worth, now.gone, from, taken, after, mid);
      if runnable != [] {
        GoOn();
        FirstRuns(q, mid, Abs());
        DequesKept(others, after);
        StoleRuns(q, before, worth, now.gone, from, taken, after, mid, Abs());
        return Runs, from, taken;
      }
      Arrive(now.arrivals);
      if now.exit {
        ExitInPlace();
        return Exits, from, taken;
      }
      return Sleeps, from, taken;
    }

    method GoOn()
      requires Valid() && Parked(Abs()) && runnable != [] && yielded == null
      modifies this`current, this`runnable, this`stateLoad, workers`state
      ensures Valid() && Executing(Abs()) && |old(Abs()).runnable| > 0 && Abs().current == old(Abs()).runnable[0]
      ensures Abs().task == old(Abs()).task && Abs().idle == old(Abs()).idle
    {
      hide Parked, Executing, StateMap, TaskMap, Ids;
      PrepareNextRuns(Abs());
      assert runnable[0] in runnable && runnable[0] in workers;
      PrepareNextWorkerInPlace();
    }

    /**
     `schedule`: turns of scheduling and sleeping until a worker is runnable or exit is signalled. `turn` is the
     turn at which it ended, or `|turns|` if it is asleep after all of them. What the first turn starts is as in
     `TakeTurn`; it never sleeps on, with a worker idle, after tasks have arrived.
     */
    method Schedule(turns: seq<Turn>, others: seq<Scheduler>)
      returns (outcome: Outcome, turn: nat, ghost from: nat, ghost taken: Option<Task>)
      requires Valid() && tasks.Valid() && Parked(Abs())
      requires OwnDeques(others) && forall o <- others :: o.tasks.Valid()
      modifies this`current, this`idle, this`waiting, this`pendingIo, this`yielded, this`runnable, this`stateLoad
      modifies workers`state, workers`task, tasks, set o <- others | o != this :: o.tasks
      ensures Valid() && tasks.Valid() && turn <= |turns| && forall x :: 0 <= x < turn ==> !turns[x].exit
      ensures outcome == Runs ==> turn < |turns| && Executing(Abs())
      ensures outcome == Exits ==> turn < |turns| && turns[turn].exit && current.state == Exiting
      ensures outcome == Exits ==> runnable == [] && yielded == null
      ensures outcome == Sleeps ==> turn == |turns| && Parked(Abs()) && (turns != [] ==> runnable == [] && yielded == null)
      ensures old(runnable) != [] && turns != [] ==> outcome == Runs && turn == 0 && Abs().current == old(Abs()).runnable[0]
      ensures turns != [] && (!old(NothingReady(turns[0])) || old(yielded) != null) ==> outcome == Runs && turn == 0
      ensures turns != [] && old(Abs()).idle != [] && old(tasks.tasks) != [] ==> outcome == Runs && turn == 0
      ensures turns != [] && old(NothingReady(turns[0])) && old(Abs()).idle != [] && old(tasks.tasks) != [] ==>
        RunsWith(old(Abs()), old(tasks.tasks)[0], Abs()) && tasks.tasks == old(tasks.tasks)[1..]
      ensures turns != [] && old(NothingReady(turns[0])) && old(Abs()).idle != [] ==>
        old(tasks.tasks) == [] && old(yielded) == null ==>
        FirstTheft(old(Abs()), old(DequesOf(others)), old(WorthOf(others)), turns[0].gone, from, taken, DequesOf(others), Abs(),
                   outcome == Runs && turn == 0)
      ensures old(Abs()).idle != [] ==> forall x :: 0 <= x && x + 1 < turn ==> turns[x].arrivals == []
      ensures old(Abs()).idle != [] && 0 < turn < |turns| && turns[turn - 1].arrivals != [] ==> outcome == Runs
    {
      hide Parked, Executing, Abs, StateMap, TaskMap, Ids, DequesOf, WorthOf, OwnDeques;
      hide NothingReady, RunsWith, GotOne, NothingLeft;
      turn, from, taken := 0, 0, None;
      ghost var (q, before, worth) := (Abs(), DequesOf(others), WorthOf(others));
      ghost var idleTurn := turns != [] && NothingReady(turns[0]);
      while turn < |turns|
        invariant 0 <= turn <= |turns| && Valid() && tasks.Valid() && Parked(Abs()) && workers == old(workers)
        invariant turn == 0 ==> Abs() == q && runnable == old(runnable) && yielded == old(yielded)
        invariant turn == 0 ==> tasks.tasks == old(tasks.tasks) && DequesOf(others) == before && WorthOf(others) == worth
        invariant turn == 0 && turns != [] ==> NothingReady(turns[0]) == idleTurn
        invariant turn > 0 ==> runnable == [] && yielded == null && old(runnable) == [] && old(yielded) == null
        invariant turn > 0 ==> idleTurn && (q.idle == [] || old(tasks.tasks) == [])
        invariant turn > 0 && q.idle != [] ==> NothingLeft(before, worth, turns[0].gone)
        invariant Abs().idle == q.idle && (turn > 0 ==> q.idle == [] || tasks.tasks == turns[turn - 1].arrivals)
        invariant q.idle != [] ==> forall x :: 0 <= x && x + 1 < turn ==> turns[x].arrivals == []
        invariant forall o <- others :: o.tasks.Valid()
        invariant forall x :: 0 <= x < turn ==> !turns[x].exit
      {
        outcome, from, taken := TakeTurn(turns[turn], others);
        if outcome != Sleeps {
          return;
        }
        turn := turn + 1;
      }
      outcome := Sleeps;
    }

    /**
     `sync` for the worker that runs: park it, schedule, and go on with the next worker when there is one. A worker
     that was runnable is preferred to all that become so; until one is runnable all workers stay parked. A worker
     that yields is never left waiting; with nothing else ready a worker that has finished takes the next task itself.
     */
    method Sync(ctx: SyncContext, turns: seq<Turn>, others: seq<Scheduler>) returns (outcome: Outcome, turn: nat)
      requires Valid() && tasks.Valid() && Executing(Abs())
      requires OwnDeques(others) && forall o <- others :: o.tasks.Valid()
      modifies this`current, this`idle, this`waiting, this`pendingIo, this`yielded, this`runnable, this`stateLoad
      modifies workers`state, workers`task, tasks, set o <- others | o != this :: o.tasks
      ensures Valid() && tasks.Valid() && turn <= |turns| && forall x :: 0 <= x < turn ==> !turns[x].exit
      ensures outcome == Runs ==> turn < |turns| && Executing(Abs())
      ensures outcome == Exits ==> turn < |turns| && turns[turn].exit && current.state == Exiting
      ensures outcome == Exits ==> runnable == [] && yielded == null
      ensures outcome == Sleeps ==> turn == |turns| && Parked(Abs()) && (turns != [] ==> runnable == [] && yielded == null)
      ensures old(runnable) != [] && turns != [] ==> outcome == Runs && turn == 0 && Abs().current == old(Abs()).runnable[0]
      ensures turns != [] && (ctx == Yield || !old(NothingReady(turns[0]))) ==> outcome == Runs && turn == 0
      ensures turns != [] && NextIdle(old(Abs()), ctx) != [] && old(tasks.tasks) != [] ==> outcome == Runs && turn == 0
      ensures turns != [] && old(NothingElseReady(ctx, turns[0])) && NextIdle(old(Abs()), ctx) != [] && old(tasks.tasks) != [] ==>
        && Abs().current == NextIdle(old(Abs()), ctx)[0] && Abs().current in Abs().task
        && Abs().task[Abs().current] == Some(old(tasks.tasks)[0]) && tasks.tasks == old(tasks.tasks)[1..]
    {
      hide Parked, Executing, Abs, StateMap, TaskMap, Ids, Leave, WaitEnds, DequesOf, WorthOf, OwnDeques, FirstTheft;
      ghost var q := Abs();
      LeaveRunnable(q, ctx);
      LeaveIdle(q, ctx);
      ghost var idleTurn := turns != [] && NothingElseReady(ctx, turns[0]);
      LeaveInPlace(ctx);
      if turns != [] && ctx != Yield { OneMoreWaits(ctx, turns[0], old(waiting), old(pendingIo), old(current)); }
      ghost var from, taken;
      outcome, turn, from, taken := Schedule(turns, others);
    }
  }
}
