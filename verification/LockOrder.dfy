/**
 The order in which the library's own locks are taken. Each operation is the script of acquisitions and
 releases its source performs, for every path through it; any number of threads run any such scripts.
 */
module LockOrder {
  import opened Common

  datatype Lock =
    | User(m: nat)          // a Mutex of the program, or the one inside a task, timed or shared mutex
    | Waiters(c: nat)       // the spinlock of a condition variable's waiter list
    | SchedMtx(i: nat)      // Scheduler::m_mtx
    | Global                // Schedulers::m_mtx
    | Queue(i: nat)         // the spinlock of a task queue
    | WorkersMtx(i: nat)    // Scheduler::m_workers_mtx

  datatype Act = Acq(l: Lock) | Rel(l: Lock)

  function Class(l: Lock): nat {
    match l
    case User(_) => 0
    case Waiters(_) => 1
    case SchedMtx(_) => 2
    case Global => 3
    case Queue(_) => 4
    case WorkersMtx(_) => 4
  }

  function Index(l: Lock): nat {
    match l
    case User(m) => m
    case Waiters(_) => 0
    case SchedMtx(i) => i
    case _ => 0
  }

  /** The rank order. Waiter spinlocks, task queues and worker mutexes are not ordered among themselves: they do not nest. */
  predicate Below(a: Lock, b: Lock) {
    Class(a) < Class(b) || (Class(a) == Class(b) && Index(a) < Index(b))
  }

  // ---------- the scripts of the source ----------

  function Brief(l: Lock): seq<Act> {
    [Acq(l), Rel(l)]
  }

  function Briefs(ls: seq<Lock>): seq<Act> {
    if ls == [] then [] else Brief(ls[0]) + Briefs(ls[1..])
  }

  /** `Scheduler::notify` for one scheduler after the other. */
  function NotifyAll(targets: seq<nat>): seq<Act> {
    if targets == [] then [] else Brief(SchedMtx(targets[0])) + NotifyAll(targets[1..])
  }

  /** How one pass through `sleep` ends. */
  datatype SleepPath =
    | NoSleep                              // pending I/O or idle spinning: no lock
    | Returns                              // a check under the lock says there is work
    | Blocks(signals: bool, wakes: nat)    // it blocks and is woken so often; the last to fall idle signals

  /** A wait on a standard condition variable gives the mutex up and takes it back each time it wakes. */
  function Wakes(l: Lock, k: nat): seq<Act> {
    if k == 0 then [] else [Rel(l), Acq(l)] + Wakes(l, k - 1)
  }

  /** A critical section that waits inside, woken `k` times. */
  function Waited(l: Lock, k: nat): seq<Act> {
    [Acq(l)] + Wakes(l, k) + [Rel(l)]
  }

  function SleepScript(i: nat, path: SleepPath): seq<Act> {
    match path
    case NoSleep => []
    case Returns => Brief(SchedMtx(i))
    case Blocks(signals, wakes) =>
      [Acq(SchedMtx(i))] + (if signals then Brief(Global) else []) + Wakes(SchedMtx(i), wakes) + [Rel(SchedMtx(i))]
  }

  /** One turn of the loop in `schedule`: dequeues from its own and from other queues, then `sleep`. */
  datatype Turn = Turn(queues: seq<nat>, sleep: SleepPath)

  function Dequeues(queues: seq<nat>): seq<Act> {
    if queues == [] then [] else Brief(Queue(queues[0])) + Dequeues(queues[1..])
  }

  function ScheduleScript(i: nat, turns: seq<Turn>): seq<Act> {
    if turns == [] then []
    else Dequeues(turns[0].queues) + SleepScript(i, turns[0].sleep) + ScheduleScript(i, turns[1..])
  }

  /** `switch`: a context switch to another worker, and how often this one's thread wakes until it is handed the token. */
  function SyncScript(i: nat, turns: seq<Turn>, switch: Option<nat>): seq<Act> {
    ScheduleScript(i, turns) + (if switch.Some? then Waited(WorkersMtx(i), switch.value) else [])
  }

  /** What code on a worker does with locks. `Wait` is on a condition variable with the innermost mutex. */
  datatype Op =
    | Start(i: nat, wakes: nat)                       // sync_init of a new worker's thread
    | Enqueue(target: nat)
    | Notify(c: nat, targets: seq<nat>)               // notify_one or notify_all, the schedulers of the flagged waiters
    | Reschedule(i: nat, turns: seq<Turn>, switch: Option<nat>)
    | Wait(c: nat, parks: bool, i: nat, turns: seq<Turn>, switch: Option<nat>)
    | Section(m: nat, body: seq<Op>)

  function Script(op: Op, inner: nat): seq<Act>
    decreases op
  {
    match op
    case Start(i, wakes) => Waited(WorkersMtx(i), wakes)
    case Enqueue(d) => Brief(Queue(d)) + Brief(SchedMtx(d))
    case Notify(c, targets) => [Acq(Waiters(c))] + NotifyAll(targets) + [Rel(Waiters(c))]
    case Reschedule(i, turns, switch) => SyncScript(i, turns, switch)
    case Wait(c, parks, i, turns, switch) =>
      Brief(Waiters(c)) + [Rel(User(inner))] + (if parks then SyncScript(i, turns, switch) else [])
      + [Acq(User(inner))] + Brief(Waiters(c))
    case Section(m, body) => [Acq(User(m))] + Scripts(body, m) + [Rel(User(m))]
  }

  function Scripts(ops: seq<Op>, inner: nat): seq<Act>
    decreases ops
  {
    if ops == [] then [] else Script(ops[0], inner) + Scripts(ops[1..], inner)
  }

  /** The user's part: mutexes nest in an order of the user's, and a wait gives up the innermost one. */
  predicate WellNested(op: Op, inner: Option<nat>)
    decreases op
  {
    match op
    case Wait(_, _, _, _, _) => inner.Some?
    case Section(m, body) => (inner.Some? ==> inner.value < m) && AllWellNested(body, Some(m))
    case _ => true
  }

  predicate AllWellNested(ops: seq<Op>, inner: Option<nat>)
    decreases ops
  {
    ops == [] || (WellNested(ops[0], inner) && AllWellNested(ops[1..], inner))
  }

  function LockAll(k: nat, n: nat): seq<Act>
    requires k <= n
    decreases n - k
  {
    if k == n then [] else [Acq(SchedMtx(k))] + LockAll(k + 1, n)
  }

  function UnlockAll(k: nat, n: nat): seq<Act>
    requires k <= n
    decreases n - k
  {
    if k == n then [] else [Rel(SchedMtx(k))] + UnlockAll(k + 1, n)
  }

  /** What `wait_exit` does between two evaluations: it blocks, or it has looked with its own mutex released. */
  datatype Look = Block | Early | Full

  function LookScript(look: Look, n: nat): seq<Act> {
    match look
    case Block => [Rel(Global), Acq(Global)]
    case Early => [Rel(Global), Acq(Global)]
    case Full => [Rel(Global)] + LockAll(0, n) + UnlockAll(0, n) + [Acq(Global)]
  }

  function Looks(looks: seq<Look>, n: nat): seq<Act> {
    if looks == [] then [] else LookScript(looks[0], n) + Looks(looks[1..], n)
  }

  /** The constructor of a scheduler: a wait for each worker's thread, the launch, and the wait for its sleep. */
  datatype Construction = Construction(i: nat, workers: seq<nat>, asleep: nat)

  function WorkersScript(i: nat, workers: seq<nat>): seq<Act> {
    if workers == [] then [] else Waited(WorkersMtx(i), workers[0]) + WorkersScript(i, workers[1..])
  }

  function StartScript(c: Construction): seq<Act> {
    WorkersScript(c.i, c.workers) + Brief(WorkersMtx(c.i)) + Waited(SchedMtx(c.i), c.asleep)
  }

  function StartScripts(cs: seq<Construction>): seq<Act> {
    if cs == [] then [] else StartScript(cs[0]) + StartScripts(cs[1..])
  }

  /** The main thread: construction, the first task, `wait_exit`, then exit signals and joins, scheduler by scheduler. */
  function MainScript(cs: seq<Construction>, d: nat, looks: seq<Look>, n: nat, exits: seq<Lock>): seq<Act> {
    StartScripts(cs) + Script(Enqueue(d), 0) + ([Acq(Global)] + Looks(looks, n) + [Rel(Global)]) + Briefs(exits)
  }

  /** A program for one thread. */
  datatype Program =
    | WorkerProgram(ops: seq<Op>)
    | MainProgram(cs: seq<Construction>, d: nat, looks: seq<Look>, n: nat, exits: seq<Lock>)

  predicate Legal(p: Program) {
    p.WorkerProgram? ==> AllWellNested(p.ops, None)
  }

  function ProgramScript(p: Program): seq<Act> {
    match p
    case WorkerProgram(ops) => Scripts(ops, 0)
    case MainProgram(cs, d, looks, n, exits) => MainScript(cs, d, looks, n, exits)
  }

  // ---------- the discipline ----------

  /** The locks held after the script, or `None` if it takes a lock out of order or releases one it does not hold. */
  ghost function Run(held: set<Lock>, script: seq<Act>): Option<set<Lock>>
    decreases script
  {
    if script == [] then Some(held)
    else match script[0]
    case Acq(l) => if forall h <- held :: Below(h, l) then Run(held + {l}, script[1..]) else None
    case Rel(l) => if l in held then Run(held - {l}, script[1..]) else None
  }

  lemma {:induction false} RunConcat(held: set<Lock>, a: seq<Act>, b: seq<Act>)
    requires Run(held, a).Some?
    ensures Run(held, a + b) == Run(Run(held, a).value, b)
    decreases a
  {
    if a == [] {
      assert a + b == b;
    } else {
      assert (a + b)[1..] == a[1..] + b;
      match a[0]
      case Acq(l) => RunConcat(held + {l}, a[1..], b);
      case Rel(l) => RunConcat(held - {l}, a[1..], b);
    }
  }

  /** The script can run with these locks held and gives back all it takes. */
  ghost predicate Neutral(held: set<Lock>, script: seq<Act>) {
    Run(held, script) == Some(held)
  }

  lemma NeutralConcat(held: set<Lock>, a: seq<Act>, b: seq<Act>)
    requires Neutral(held, a) && Neutral(held, b)
    ensures Neutral(held, a + b)
  {
    RunConcat(held, a, b);
  }

  lemma BriefNeutral(held: set<Lock>, l: Lock)
    requires forall h <- held :: Below(h, l)
    ensures Neutral(held, Brief(l))
  {
    EmptyNeutral(held + {l});
    WrapNeutral(held, l, []);
    assert [Acq(l)] + [] + [Rel(l)] == Brief(l);
  }

  /** A script wrapped in one lock. */
  lemma WrapNeutral(held: set<Lock>, l: Lock, s: seq<Act>)
    requires (forall h <- held :: Below(h, l)) && Neutral(held + {l}, s)
    ensures Neutral(held, [Acq(l)] + s + [Rel(l)])
  {
    assert l !in held;
    assert held + {l} - {l} == held;
    var t := s + [Rel(l)];
    RunConcat(held + {l}, s, [Rel(l)]);
    assert [Acq(l)] + s + [Rel(l)] == [Acq(l)] + t && ([Acq(l)] + t)[1..] == t;
    assert [Rel(l)][1..] == [];
  }

  /** A lock given up for the duration of a script that takes none below it. */
  lemma YieldNeutral(held: set<Lock>, l: Lock, s: seq<Act>)
    requires l in held && (forall h <- held :: h != l ==> Below(h, l)) && Neutral(held - {l}, s)
    ensures Neutral(held, [Rel(l)] + s + [Acq(l)])
  {
    assert held - {l} + {l} == held;
    var t := s + [Acq(l)];
    RunConcat(held - {l}, s, [Acq(l)]);
    assert [Rel(l)] + s + [Acq(l)] == [Rel(l)] + t && ([Rel(l)] + t)[1..] == t;
    assert [Acq(l)][1..] == [];
  }

  ghost predicate AllUser(held: set<Lock>) {
    forall h <- held :: h.User?
  }

  ghost predicate AtMostWaiters(held: set<Lock>) {
    forall h <- held :: h.User? || h.Waiters?
  }

  lemma {:induction false} NotifyAllNeutral(held: set<Lock>, targets: seq<nat>)
    requires AtMostWaiters(held)
    ensures Neutral(held, NotifyAll(targets))
  {
    if targets == [] {
    } else {
      BriefNeutral(held, SchedMtx(targets[0]));
      NotifyAllNeutral(held, targets[1..]);
      NeutralConcat(held, Brief(SchedMtx(targets[0])), NotifyAll(targets[1..]));
    }
  }

  lemma {:induction false} DequeuesNeutral(held: set<Lock>, queues: seq<nat>)
    requires AllUser(held)
    ensures Neutral(held, Dequeues(queues))
  {
    if queues == [] {
    } else {
      BriefNeutral(held, Queue(queues[0]));
      DequeuesNeutral(held, queues[1..]);
      NeutralConcat(held, Brief(Queue(queues[0])), Dequeues(queues[1..]));
    }
  }

  lemma {:induction false} WakesNeutral(held: set<Lock>, l: Lock, k: nat)
    requires forall h <- held :: Below(h, l)
    ensures Neutral(held + {l}, Wakes(l, k))
  {
    var h := held + {l};
    if k == 0 {
    } else {
      WakesNeutral(held, l, k - 1);
      YieldNeutral(h, l, []);
      assert [Rel(l)] + [] + [Acq(l)] == [Rel(l), Acq(l)];
      NeutralConcat(h, [Rel(l), Acq(l)], Wakes(l, k - 1));
    }
  }

  lemma WaitedNeutral(held: set<Lock>, l: Lock, k: nat)
    requires forall h <- held :: Below(h, l)
    ensures Neutral(held, Waited(l, k))
  {
    WakesNeutral(held, l, k);
    WrapNeutral(held, l, Wakes(l, k));
  }

  lemma SleepNeutral(held: set<Lock>, i: nat, path: SleepPath)
    requires AllUser(held)
    ensures Neutral(held, SleepScript(i, path))
  {
    match path
    case NoSleep =>
    case Returns => BriefNeutral(held, SchedMtx(i));
    case Blocks(signals, wakes) =>
      var h := held + {SchedMtx(i)};
      var report := if signals then Brief(Global) else [];
      if signals { BriefNeutral(h, Global); }
      var waits := Wakes(SchedMtx(i), wakes);
      WakesNeutral(held, SchedMtx(i), wakes);
      NeutralConcat(h, report, waits);
      WrapNeutral(held, SchedMtx(i), report + waits);
      assert [Acq(SchedMtx(i))] + report + waits + [Rel(SchedMtx(i))]
          == [Acq(SchedMtx(i))] + (report + waits) + [Rel(SchedMtx(i))];
  }

  lemma {:induction false} SyncNeutral(held: set<Lock>, i: nat, turns: seq<Turn>, switch: Option<nat>)
    requires AllUser(held)
    ensures Neutral(held, ScheduleScript(i, turns)) && Neutral(held, SyncScript(i, turns, switch))
  {
    hide Run;
    if turns != [] {
      DequeuesNeutral(held, turns[0].queues);
      SleepNeutral(held, i, turns[0].sleep);
      SyncNeutral(held, i, turns[1..], None);
      NeutralConcat(held, Dequeues(turns[0].queues), SleepScript(i, turns[0].sleep));
      NeutralConcat(held, Dequeues(turns[0].queues) + SleepScript(i, turns[0].sleep), ScheduleScript(i, turns[1..]));
    } else {
      EmptyNeutral(held);
    }
    if switch.Some? {
      WaitedNeutral(held, WorkersMtx(i), switch.value);
      NeutralConcat(held, ScheduleScript(i, turns), Waited(WorkersMtx(i), switch.value));
    } else {
      assert ScheduleScript(i, turns) + [] == ScheduleScript(i, turns);
    }
  }

  lemma EmptyNeutral(held: set<Lock>)
    ensures Neutral(held, [])
  {
  }

  /** The mutexes held inside the critical section of `inner`. */
  ghost predicate HeldIn(held: set<Lock>, inner: Option<nat>) {
    if inner.None? then held == {}
    else User(inner.value) in held && forall h <- held :: h.User? && h.m <= inner.value
  }

  lemma WaitNeutral(held: set<Lock>, inner: nat, op: Op)
    requires HeldIn(held, Some(inner)) && op.Wait?
    ensures Neutral(held, Script(op, inner))
  {
    hide Run;
    var s := if op.parks then SyncScript(op.i, op.turns, op.switch) else [];
    var (w, u) := (Brief(Waiters(op.c)), User(inner));
    BriefNeutral(held, Waiters(op.c));
    SyncNeutral(held - {u}, op.i, op.turns, op.switch);
    EmptyNeutral(held - {u});
    YieldNeutral(held, u, s);
    NeutralConcat(held, w, [Rel(u)] + s + [Acq(u)]);
    NeutralConcat(held, w + ([Rel(u)] + s + [Acq(u)]), w);
    assert Script(op, inner) == w + ([Rel(u)] + s + [Acq(u)]) + w;
  }

  function InnerOf(inner: Option<nat>): nat {
    if inner.Some? then inner.value else 0
  }

  /** Every operation takes locks upward only and gives back what it takes. */
  lemma {:induction false} ScriptNeutral(held: set<Lock>, inner: Option<nat>, op: Op)
    requires HeldIn(held, inner) && WellNested(op, inner)
    ensures Neutral(held, Script(op, InnerOf(inner)))
    decreases op
  {
    hide Run;
    match op
    case Start(i, wakes) => WaitedNeutral(held, WorkersMtx(i), wakes);
    case Enqueue(d) =>
      BriefNeutral(held, Queue(d));
      BriefNeutral(held, SchedMtx(d));
      NeutralConcat(held, Brief(Queue(d)), Brief(SchedMtx(d)));
    case Notify(c, targets) =>
      NotifyAllNeutral(held + {Waiters(c)}, targets);
      WrapNeutral(held, Waiters(c), NotifyAll(targets));
    case Reschedule(i, turns, switch) => SyncNeutral(held, i, turns, switch);
    case Wait(_, _, _, _, _) => WaitNeutral(held, inner.value, op);
    case Section(m, body) =>
      ScriptsNeutral(held + {User(m)}, Some(m), body);
      WrapNeutral(held, User(m), Scripts(body, m));
  }

  lemma {:induction false} ScriptsNeutral(held: set<Lock>, inner: Option<nat>, ops: seq<Op>)
    requires HeldIn(held, inner) && AllWellNested(ops, inner)
    ensures Neutral(held, Scripts(ops, InnerOf(inner)))
    decreases ops
  {
    hide Run;
    if ops == [] {
      EmptyNeutral(held);
    } else {
      ScriptNeutral(held, inner, ops[0]);
      ScriptsNeutral(held, inner, ops[1..]);
      NeutralConcat(held, Script(ops[0], InnerOf(inner)), Scripts(ops[1..], InnerOf(inner)));
    }
  }

  /** `all_idle` takes every scheduler's mutex, in the order of the schedulers. */
  lemma {:induction false} LockAllRun(k: nat, n: nat)
    requires k <= n
    ensures Run(set i: nat | i < k :: SchedMtx(i), LockAll(k, n)) == Some(set i: nat | i < n :: SchedMtx(i))
    decreases n - k
  {
    if k == n {
    } else {
      var held := set i: nat | i < k :: SchedMtx(i);
      LockAllRun(k + 1, n);
      assert held + {SchedMtx(k)} == set i: nat | i < k + 1 :: SchedMtx(i);
      assert LockAll(k, n)[1..] == LockAll(k + 1, n);
    }
  }

  lemma {:induction false} UnlockAllRun(k: nat, n: nat)
    requires k <= n
    ensures Run(set i: nat | k <= i < n :: SchedMtx(i), UnlockAll(k, n)) == Some({})
    decreases n - k
  {
    var held := set i: nat | k <= i < n :: SchedMtx(i);
    if k < n {
      UnlockAllRun(k + 1, n);
      assert SchedMtx(k) in held;
      assert held - {SchedMtx(k)} == set i: nat | k + 1 <= i < n :: SchedMtx(i);
      assert UnlockAll(k, n)[1..] == UnlockAll(k + 1, n);
    } else {
      assert held == {};
    }
  }

  lemma AllIdleNeutral(n: nat)
    ensures Neutral({}, LockAll(0, n) + UnlockAll(0, n))
  {
    LockAllRun(0, n);
    UnlockAllRun(0, n);
    assert (set i: nat | i < 0 :: SchedMtx(i)) == {};
    assert (set i: nat | 0 <= i < n :: SchedMtx(i)) == set i: nat | i < n :: SchedMtx(i);
    RunConcat({}, LockAll(0, n), UnlockAll(0, n));
  }

  /** The release before `all_idle` is what keeps the order: the global mutex ranks above the schedulers'. */
  lemma LookNeutral(look: Look, n: nat)
    ensures Neutral({Global}, LookScript(look, n))
  {
    var inside := if look == Full then LockAll(0, n) + UnlockAll(0, n) else [];
    assert {Global} - {Global} == {};
    AllIdleNeutral(n);
    EmptyNeutral({});
    YieldNeutral({Global}, Global, inside);
    assert LookScript(look, n) == [Rel(Global)] + inside + [Acq(Global)];
  }

  lemma {:induction false} LooksNeutral(looks: seq<Look>, n: nat)
    ensures Neutral({Global}, Looks(looks, n))
  {
    if looks == [] {
    } else {
      LookNeutral(looks[0], n);
      LooksNeutral(looks[1..], n);
      NeutralConcat({Global}, LookScript(looks[0], n), Looks(looks[1..], n));
    }
  }

  /** Without that release the main thread would take a scheduler's mutex below one it holds. */
  lemma UnreleasedGlobalBreaksOrder(n: nat)
    requires n > 0
    ensures Run({Global}, LockAll(0, n) + UnlockAll(0, n)) == None
  {
    var s := LockAll(0, n) + UnlockAll(0, n);
    assert s[0] == Acq(SchedMtx(0));
    assert Global in {Global} && !Below(Global, SchedMtx(0));
  }

  lemma {:induction false} BriefsNeutral(ls: seq<Lock>)
    ensures Neutral({}, Briefs(ls))
  {
    if ls == [] {
    } else {
      BriefNeutral({}, ls[0]);
      BriefsNeutral(ls[1..]);
      NeutralConcat({}, Brief(ls[0]), Briefs(ls[1..]));
    }
  }

  /** Every thread of a legal program keeps the rank order to its end and then holds nothing. */
  lemma ProgramNeutral(p: Program)
    requires Legal(p)
    ensures Neutral({}, ProgramScript(p))
  {
    hide Run;
    match p
    case WorkerProgram(ops) => ScriptsNeutral({}, None, ops);
    case MainProgram(cs, d, looks, n, exits) =>
      StartScriptsNeutral(cs);
      ScriptNeutral({}, None, Enqueue(d));
      LooksNeutral(looks, n);
      assert {} + {Global} == {Global};
      WrapNeutral({}, Global, Looks(looks, n));
      BriefsNeutral(exits);
      var (s, a) := (StartScripts(cs), Script(Enqueue(d), 0));
      var (b, c) := ([Acq(Global)] + Looks(looks, n) + [Rel(Global)], Briefs(exits));
      NeutralConcat({}, s, a);
      NeutralConcat({}, s + a, b);
      NeutralConcat({}, s + a + b, c);
  }

  lemma {:induction false} WorkersNeutral(i: nat, workers: seq<nat>)
    ensures Neutral({}, WorkersScript(i, workers))
  {
    hide Run;
    if workers == [] {
      EmptyNeutral({});
    } else {
      WaitedNeutral({}, WorkersMtx(i), workers[0]);
      WorkersNeutral(i, workers[1..]);
      NeutralConcat({}, Waited(WorkersMtx(i), workers[0]), WorkersScript(i, workers[1..]));
    }
  }

  lemma {:induction false} StartScriptsNeutral(cs: seq<Construction>)
    ensures Neutral({}, StartScripts(cs))
  {
    hide Run;
    if cs == [] {
      EmptyNeutral({});
    } else {
      var (c, w) := (cs[0], WorkersScript(cs[0].i, cs[0].workers));
      WorkersNeutral(c.i, c.workers);
      BriefNeutral({}, WorkersMtx(c.i));
      WaitedNeutral({}, SchedMtx(c.i), c.asleep);
      NeutralConcat({}, w, Brief(WorkersMtx(c.i)));
      NeutralConcat({}, w + Brief(WorkersMtx(c.i)), Waited(SchedMtx(c.i), c.asleep));
      StartScriptsNeutral(cs[1..]);
      NeutralConcat({}, StartScript(c), StartScripts(cs[1..]));
    }
  }

  // ---------- many threads ----------

  datatype Thread = Thread(held: set<Lock>, todo: seq<Act>)

  ghost predicate HeldBySome(s: seq<Thread>, l: Lock) {
    exists u :: 0 <= u < |s| && l in s[u].held
  }

  ghost predicate CanStep(s: seq<Thread>, t: nat)
    requires t < |s|
  {
    s[t].todo != [] && (s[t].todo[0].Acq? ==> !HeldBySome(s, s[t].todo[0].l))
  }

  function Stepped(th: Thread): Thread
    requires th.todo != []
  {
    match th.todo[0]
    case Acq(l) => Thread(th.held + {l}, th.todo[1..])
    case Rel(l) => Thread(th.held - {l}, th.todo[1..])
  }

  ghost predicate Next(s: seq<Thread>, s': seq<Thread>) {
    exists t: nat :: t < |s| && CanStep(s, t) && s' == s[t := Stepped(s[t])]
  }

  ghost predicate Init(s: seq<Thread>) {
    forall t :: 0 <= t < |s| ==> s[t].held == {} && IsProgram(s[t].todo)
  }

  ghost predicate IsProgram(todo: seq<Act>) {
    exists p :: Legal(p) && todo == ProgramScript(p)
  }

  ghost predicate Behaviour(b: seq<seq<Thread>>) {
    |b| > 0 && Init(b[0]) && forall i :: 0 <= i < |b| - 1 ==> Next(b[i], b[i + 1])
  }

  /** Every thread will end with nothing held if it keeps going, and no lock is held twice. */
  ghost predicate Inv(s: seq<Thread>) {
    && (forall t :: 0 <= t < |s| ==> Run(s[t].held, s[t].todo) == Some({}))
    && (forall t, u :: 0 <= t < |s| && 0 <= u < |s| && t != u ==> s[t].held !! s[u].held)
  }

  lemma InitInv(s: seq<Thread>)
    requires Init(s)
    ensures Inv(s)
  {
    hide IsProgram;
    forall t | 0 <= t < |s| ensures Run(s[t].held, s[t].todo) == Some({}) {
      TodoNeutral(s[t].todo);
    }
  }

  lemma TodoNeutral(todo: seq<Act>)
    requires IsProgram(todo)
    ensures Neutral({}, todo)
  {
    hide Run, Legal, ProgramScript;
    var p :| Legal(p) && todo == ProgramScript(p);
    ProgramNeutral(p);
  }

  lemma NextKeeps(s: seq<Thread>, s': seq<Thread>)
    requires Inv(s) && Next(s, s')
    ensures Inv(s')
  {
    var t: nat :| t < |s| && CanStep(s, t) && s' == s[t := Stepped(s[t])];
    forall u | 0 <= u < |s| && u != t ensures s'[t].held !! s[u].held {
    }
  }

  lemma {:induction false} BehaviourInv(b: seq<seq<Thread>>, i: nat)
    requires Behaviour(b) && i < |b|
    ensures Inv(b[i])
  {
    hide Init, Next, Inv;
    if i == 0 {
      InitInv(b[0]);
    } else {
      BehaviourInv(b, i - 1);
      assert Next(b[i - 1], b[i - 1 + 1]);
      NextKeeps(b[i - 1], b[i]);
    }
  }

  /** Thread `t` wants a lock thread `u` holds. */
  ghost predicate WaitsFor(s: seq<Thread>, t: nat, u: nat) {
    t < |s| && u < |s| && s[t].todo != [] && s[t].todo[0].Acq? && s[t].todo[0].l in s[u].held
  }

  lemma WaitsUpward(s: seq<Thread>, t: nat, u: nat)
    requires Inv(s) && WaitsFor(s, t, u) && s[u].todo != [] && s[u].todo[0].Acq?
    ensures Below(s[t].todo[0].l, s[u].todo[0].l)
  {
    assert Run(s[u].held, s[u].todo).Some?;
  }

  lemma {:induction false} ChainUpward(s: seq<Thread>, c: seq<nat>, k: nat)
    requires Inv(s) && 0 < k < |c|
    requires forall j :: 0 <= j < |c| - 1 ==> WaitsFor(s, c[j], c[j + 1])
    requires c[|c| - 1] < |s| && s[c[|c| - 1]].todo != [] && s[c[|c| - 1]].todo[0].Acq?
    ensures c[0] < |s| && c[k] < |s| && s[c[0]].todo != [] && s[c[k]].todo != []
    ensures Below(s[c[0]].todo[0].l, s[c[k]].todo[0].l)
  {
    assert WaitsFor(s, c[0], c[0 + 1]);
    assert WaitsFor(s, c[k - 1], c[k - 1 + 1]);
    if k < |c| - 1 { assert WaitsFor(s, c[k], c[k + 1]); }
    WaitsUpward(s, c[k - 1], c[k]);
    if k == 1 {
    } else {
      ChainUpward(s, c, k - 1);
    }
  }

  /** There is no cyclic wait among any number of threads. */
  lemma NoCyclicWait(b: seq<seq<Thread>>, i: nat, c: seq<nat>)
    requires Behaviour(b) && i < |b| && |c| > 1 && c[0] == c[|c| - 1]
    ensures exists j :: 0 <= j < |c| - 1 && !WaitsFor(b[i], c[j], c[j + 1])
  {
    hide Behaviour, Inv;
    BehaviourInv(b, i);
    if forall j :: 0 <= j < |c| - 1 ==> WaitsFor(b[i], c[j], c[j + 1]) {
      assert WaitsFor(b[i], c[0], c[0 + 1]);
      ChainUpward(b[i], c, |c| - 1);
    }
  }

  /** Among the blocked threads one waits for a lock of highest rank. */
  lemma {:induction false} HighestWaiter(s: seq<Thread>, t: nat, k: nat) returns (u: nat)
    requires t < |s| && k <= |s| && s[t].todo != []
    requires forall v :: 0 <= v < |s| && s[v].todo != [] ==> s[v].todo[0].Acq?
    ensures u < |s| && s[u].todo != []
    ensures forall v :: 0 <= v < k && s[v].todo != [] ==> !Below(s[u].todo[0].l, s[v].todo[0].l)
    decreases k
  {
    u := t;
    if k == 0 {
    } else {
      u := HighestWaiter(s, t, k - 1);
      if s[k - 1].todo != [] && Below(s[u].todo[0].l, s[k - 1].todo[0].l) { u := k - 1; }
    }
  }

  /** As long as some thread has something left to do, some thread can take its next step. */
  lemma NoDeadlock(b: seq<seq<Thread>>, i: nat, t: nat)
    requires Behaviour(b) && i < |b| && t < |b[i]| && b[i][t].todo != []
    ensures exists u: nat :: u < |b[i]| && CanStep(b[i], u)
  {
    hide Behaviour, Run;
    var s := b[i];
    BehaviourInv(b, i);
    if forall v: nat :: v < |s| ==> !CanStep(s, v) {
      forall v: nat | v < |s| && s[v].todo != [] ensures s[v].todo[0].Acq? {
        assert !CanStep(s, v);
      }
      var u := HighestWaiter(s, t, |s|);
      assert !CanStep(s, u);
      var h :| 0 <= h < |s| && s[u].todo[0].l in s[h].held;
      HolderGoesOn(s[h]);
      WaitsUpward(s, u, h);
    }
  }

  lemma HolderGoesOn(th: Thread)
    requires Run(th.held, th.todo) == Some({}) && th.held != {}
    ensures th.todo != []
  {
  }
}
