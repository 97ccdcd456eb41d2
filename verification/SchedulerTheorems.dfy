/** What holds in every behaviour of the system of schedulers. */
module SchedulerTheorems {
  import opened Common
  import opened SchedulerQueues
  import opened SchedulerSystem
  import opened SchedulerLocal
  import opened SchedulerInvariant
  import opened SchedulerProof

  lemma {:induction false} FreshSums(s: seq<Sched>)
    requires forall i :: 0 <= i < |s| ==> Fresh(s[i])
    ensures AllBags(s) == multiset{} && CountIdle(s) == |s|
  {
    hide Fresh, Bag;
    if s == [] {
    } else {
      FreshBag(s[0]);
      FreshSums(s[1..]);
    }
  }

  lemma FreshBag(sc: Sched)
    requires Fresh(sc)
    ensures Bag(sc) == multiset{} && Counted(sc.pc) == 1
  {
    forall w | w in sc.q.workers ensures w in sc.q.task && sc.q.task[w] == None {
      AllIdleWhenAsleep(sc.q, w);
    }
    hide Fresh, Parked;
    NothingHeld(sc.q.workers, sc.q.task);
  }

  lemma {:induction false} NothingHeld(ws: seq<Wid>, task: map<Wid, Option<Task>>)
    requires forall w <- ws :: w in task && task[w] == None
    ensures HeldBy(ws, task) == multiset{}
  {
    if ws == [] {
    } else {
      NothingHeld(ws[1..], task);
    }
  }

  lemma FreshFacts(sc: Sched, n: nat, me: nat)
    requires Fresh(sc)
    ensures LocalOk(sc, n, me) && sc.mtx == None && !sc.exit && forall o, s :: WakeOk(sc, o, s)
  {
    hide Parked;
  }

  lemma InitCore(g: Sys)
    requires Init(g)
    ensures Core(g) && Wakes(g)
  {
    hide Fresh, LocalOk, WakeOk, Owed, Signalled;
    forall i | 0 <= i < |g.s|
      ensures LocalOk(g.s[i], |g.s|, i) && g.s[i].mtx == None && !g.s[i].exit && forall o, s :: WakeOk(g.s[i], o, s)
    {
      FreshFacts(g.s[i], |g.s|, i);
    }
  }

  lemma InitInv(g: Sys)
    requires Init(g)
    ensures Inv(g)
  {
    InitCore(g);
    FreshSums(g.s);
    hide Fresh, Core, Wakes, AllBags, CountIdle;
    assert multiset(g.created) == multiset{g.main.t};
  }

  lemma InvIsTyped(g: Sys)
    requires Inv(g)
    ensures Typed(g)
  {
    InvTyped(g);
  }

  lemma LocalAt(g: Sys, d: nat)
    requires Inv(g) && d < |g.s|
    ensures LocalOk(g.s[d], |g.s|, d) && (g.s[d].pc != Exited ==> Wf(g.s[d].q))
  {
    hide Wakes, Census, MainLocks, Exits, Quiets, Inspected, Wf;
    if g.s[d].pc != Exited { LocalWf(g.s[d], |g.s|, d); }
  }

  lemma IdleScheduler(g: Sys, d: nat)
    requires Inv(g) && d < |g.s| && PartOf(g.s[d].pc) == IdlePart
    ensures AllAsleep(g.s[d].q)
  {
    hide Inv, AllAsleep;
    LocalAt(g, d);
  }

  lemma RemoteActKeeps(g: Sys, a: Action, g': Sys)
    requires Inv(g) && Typed(g) && Do(g, a) == Some(g') && !a.OwnAct? && !a.MainAct? && !a.StealTask? && !a.Report?
    ensures Inv(g')
  {
    hide Inv, Typed, OwnActStep, MainStep, WithPc, PushTo, AddCond, MarkRunning, Wake, PopFrom;
    match a
    case Create(i, d, t) => CreateKeeps(g, i, d, t, g');
    case SetCond(i, d, w) => SetCondKeeps(g, i, d, w, g');
    case Push(i) => PushKeeps(g, i, g');
    case Notify(i) => NotifyKeeps(g, i, g');
    case Signal(i) => SignalKeeps(g, i, g');
  }

  lemma StealActKeeps(g: Sys, i: nat, g': Sys)
    requires Inv(g) && Typed(g) && Do(g, StealTask(i)) == Some(g')
    ensures Inv(g')
  {
    hide Inv, Typed, OwnActStep, MainStep, WithPc, PopFrom;
    var k := g.s[i].pc.k;
    if g.s[k].tasks == [] { StealEmptyKeeps(g, i, k, g'); } else { StealTaskKeeps(g, i, k, g'); }
  }

  lemma StepKeepsInv(g: Sys, g': Sys)
    requires Inv(g) && Next(g, g')
    ensures Inv(g')
  {
    hide Inv, Typed, OwnActStep, MainStep;
    var a :| Do(g, a) == Some(g');
    match a
    case OwnAct(i, c) => OwnActKeeps(g, i, c, g');
    case StealTask(i) => StealActKeeps(g, i, g');
    case MainAct => MainStepKeeps(g, g');
    case Report(i) => ReportKeeps(g, i, g');
    case _ => RemoteActKeeps(g, a, g');
  }

  lemma {:induction false} BehaviourInv(b: seq<Sys>, i: nat)
    requires Behaviour(b) && i < |b|
    ensures Inv(b[i])
  {
    hide Init, Next, Inv;
    if i == 0 {
      InitInv(b[0]);
    } else {
      BehaviourInv(b, i - 1);
      assert Next(b[i - 1], b[i - 1 + 1]);
      StepKeepsInv(b[i - 1], b[i]);
    }
  }

  // ---------- no lost wake-up ----------

  /**
   A scheduler blocked in `sleep` never has work its wake-up has been lost for: if it has a task and an idle
   worker, a waiting worker whose flag is set, or its exit signal, then some other thread is still inside
   `notify` for it, or its critical section is done, `m_running` is set and the `notify_one` is still to come.
   */
  lemma NoLostWakeup(b: seq<Sys>, i: nat, d: nat)
    requires Behaviour(b) && i < |b| && d < |b[i].s|
    ensures var g, sc := b[i], b[i].s[d];
      && (sc.pc == WaitBlocked && WorkReady(sc) ==> Owed(g, d) || (sc.running && Signalled(g, d)))
      && (sc.pc == IdleBlocked && (sc.tasks != [] || sc.exit) ==> Owed(g, d) || Signalled(g, d))
  {
    BehaviourInv(b, i);
    WakeAt(b[i], d);
  }

  /** A thread inside `notify` can finish: two steps of it at most, and the blocked scheduler is awake. */
  lemma WakeupDelivered(b: seq<Sys>, i: nat, d: nat)
    requires Behaviour(b) && i < |b| && d < |b[i].s|
    requires b[i].s[d].pc == WaitBlocked || b[i].s[d].pc == IdleBlocked
    requires b[i].s[d].mtx == None && (Owed(b[i], d) || Signalled(b[i], d))
    ensures exists g', g'' :: (Next(b[i], g') || g' == b[i]) && Next(g', g'') && |g''.s| == |b[i].s|
                           && g''.s[d].pc == Woken(b[i].s[d].pc)
  {
    var g := b[i];
    BehaviourInv(b, i);
    if Signalled(g, d) {
      var g'' := SignalDelivered(g, d);
    } else {
      var g' := NotifyEntered(g, d);
      StepKeepsInv(g, g');
      var g'' := SignalDelivered(g', d);
    }
  }

  lemma ActionNext(g: Sys, a: Action, g': Sys)
    requires Typed(g) && Do(g, a) == Some(g')
    ensures Next(g, g')
  {
  }

  lemma MainNext(g: Sys, g': Sys)
    requires Typed(g) && MainStep(g) == Some(g')
    ensures Next(g, g')
  {
    hide MainStep;
    ActionNext(g, MainAct, g');
  }

  lemma SignalDelivered(g: Sys, d: nat) returns (g': Sys)
    requires Inv(g) && d < |g.s| && Signalled(g, d) && (g.s[d].pc == WaitBlocked || g.s[d].pc == IdleBlocked)
    ensures Next(g, g') && |g'.s| == |g.s| && g'.s[d] == g.s[d].(pc := Woken(g.s[d].pc))
  {
    hide Inv, Typed, Next, OwnActStep;
    InvIsTyped(g);
    var j: nat :| j <= |g.s| && SignalTarget(g, j) == Some(d);
    if j == |g.s| {
      g' := MainStep(g).value;
      MainNext(g, g');
    } else {
      g' := Wake(WithPc(g, j, Exec), d);
      SignalNext(g, j, g');
    }
  }

  lemma SignalNext(g: Sys, j: nat, g': Sys)
    requires Typed(g) && j < |g.s| && g.s[j].pc.Signalling? && g.s[j].pc.target < |g.s|
    requires g' == Wake(WithPc(g, j, Exec), g.s[j].pc.target)
    ensures Next(g, g')
  {
    hide Next, Typed, Wake, WithPc, OwnActStep, MainStep;
    ActionNext(g, Signal(j), g');
  }

  lemma NotifyNext(g: Sys, j: nat, g': Sys)
    requires Typed(g) && j < |g.s| && g.s[j].pc.Notifying? && g.s[j].pc.target < |g.s|
    requires g.s[g.s[j].pc.target].mtx == None
    requires g' == MarkRunning(WithPc(g, j, Signalling(g.s[j].pc.target)), g.s[j].pc.target)
    ensures Next(g, g')
  {
    hide Next, Typed, MarkRunning, WithPc, OwnActStep, MainStep;
    ActionNext(g, Notify(j), g');
  }

  lemma NotifyEntered(g: Sys, d: nat) returns (g': Sys)
    requires Inv(g) && d < |g.s| && Owed(g, d) && g.s[d].mtx == None
    requires g.s[d].pc == WaitBlocked || g.s[d].pc == IdleBlocked
    ensures Next(g, g') && |g'.s| == |g.s| && g'.s[d] == g.s[d].(running := true) && Signalled(g', d)
  {
    hide Inv, Typed, Next, Signalled, OwnActStep;
    InvIsTyped(g);
    var j: nat :| j <= |g.s| && NotifyTarget(g, j) == Some(d);
    if j == |g.s| {
      g' := MainStep(g).value;
      MainNext(g, g');
    } else {
      g' := MarkRunning(WithPc(g, j, Signalling(d)), d);
      NotifyNext(g, j, g');
    }
    Signals(g', j, d);
  }

  // ---------- termination detection ----------

  /** No thread of a quiet scheduler is in user code and no task is anywhere in it. */
  lemma QuietFacts(sc: Sched, n: nat, me: nat)
    requires LocalOk(sc, n, me) && QuietOk(sc)
    ensures sc.tasks == [] && PartOf(sc.pc) != UserPart && !sc.pc.Hand? && !sc.pc.Pushing?
    ensures sc.pc != Exited ==> AllAsleep(sc.q)
  {
    hide Parked;
  }

  lemma QuietBag(sc: Sched, n: nat, me: nat)
    requires LocalOk(sc, n, me) && QuietOk(sc)
    ensures Bag(sc) == multiset{}
  {
    QuietFacts(sc, n, me);
    if sc.pc != Exited {
      forall w | w in sc.q.workers ensures w in sc.q.task && sc.q.task[w] == None {
        AllIdleWhenAsleep(sc.q, w);
      }
    }
    NothingHeld(sc.q.workers, sc.q.task);
  }

  lemma {:induction false} NoBags(s: seq<Sched>)
    requires forall i :: 0 <= i < |s| ==> Bag(s[i]) == multiset{}
    ensures AllBags(s) == multiset{}
  {
    hide Bag;
    if s == [] {
    } else {
      NoBags(s[1..]);
    }
  }

  /**
   When `all_idle` returns true there is nothing left to do anywhere: every deque is empty, no enqueue is in
   flight, every worker of every scheduler that has not exited is idle, and every task ever created has run
   to completion.
   */
  lemma AllIdleSound(b: seq<Sys>, i: nat)
    requires Behaviour(b) && i < |b| && IdleSeen(b[i].main)
    ensures var g := b[i];
      && (forall d :: 0 <= d < |g.s| ==> g.s[d].tasks == [] && PartOf(g.s[d].pc) != UserPart && !g.s[d].pc.Hand?)
      && (forall d, w :: 0 <= d < |g.s| && g.s[d].pc != Exited && w in g.s[d].q.workers ==>
            w in g.s[d].q.state && g.s[d].q.state[w] == Idle)
      && multiset(g.finished) == multiset(g.created)
  {
    hide Behaviour, LocalOk, QuietOk, Bag;
    var g := b[i];
    BehaviourInv(b, i);
    forall d | 0 <= d < |g.s|
      ensures g.s[d].tasks == [] && PartOf(g.s[d].pc) != UserPart && !g.s[d].pc.Hand? && Bag(g.s[d]) == multiset{}
    {
      QuietFacts(g.s[d], |g.s|, d);
      QuietBag(g.s[d], |g.s|, d);
    }
    forall d, w | 0 <= d < |g.s| && g.s[d].pc != Exited && w in g.s[d].q.workers
      ensures w in g.s[d].q.state && g.s[d].q.state[w] == Idle
    {
      QuietFacts(g.s[d], |g.s|, d);
      AllIdleWhenAsleep(g.s[d].q, w);
    }
    NoBags(g.s);
  }

  /** ... and it stays so: no later step creates, starts or finishes a task. */
  lemma QuiescencePersists(b: seq<Sys>, i: nat, j: nat)
    requires Behaviour(b) && i <= j < |b| && IdleSeen(b[i].main)
    ensures IdleSeen(b[j].main) && b[j].created == b[i].created && b[j].finished == b[i].finished
    decreases j - i
  {
    hide Init, Next, Inv, IdleSeen;
    if i < j {
      QuiescencePersists(b, i, j - 1);
      BehaviourInv(b, j - 1);
      assert Next(b[j - 1], b[j - 1 + 1]);
      QuietStep(b[j - 1], b[j]);
    }
  }

  lemma QuietStep(g: Sys, g': Sys)
    requires Inv(g) && IdleSeen(g.main) && Next(g, g')
    ensures IdleSeen(g'.main) && g'.created == g.created && g'.finished == g.finished
  {
    hide Inv, Typed, MainStep, OwnActStep, IdleSeen;
    var a :| Do(g, a) == Some(g');
    match a
    case MainAct => QuietMain(g, g');
    case OwnAct(i, c) => QuietPc(g, i); QuietOwn(g, i, c, g');
    case Create(i, _, _) => QuietPc(g, i);
    case SetCond(i, _, _) => QuietPc(g, i);
    case Push(i) => QuietPc(g, i);
    case Notify(i) => QuietPc(g, i);
    case Signal(i) => QuietPc(g, i);
    case StealTask(i) =>
    case Report(i) => NotRoused(g);
  }

  lemma NotRoused(g: Sys)
    requires IdleSeen(g.main)
    ensures Roused(g.main) == g.main
  {
  }

  lemma QuietOwn(g: Sys, i: nat, c: Choice, g': Sys)
    requires Typed(g) && i < |g.s| && g.s[i].pc != Exited && g.s[i].pc != Exec && OwnActStep(g, i, c) == Some(g')
    ensures g'.main == g.main && g'.created == g.created && g'.finished == g.finished
  {
    hide OwnStep;
  }

  lemma QuietPc(g: Sys, i: nat)
    requires Inv(g) && IdleSeen(g.main) && i < |g.s|
    ensures g.s[i].pc != Exec && !g.s[i].pc.Pushing? && !g.s[i].pc.Notifying? && !g.s[i].pc.Signalling?
  {
    hide LocalOk;
    assert QuietOk(g.s[i]);
  }

  lemma QuietMain(g: Sys, g': Sys)
    requires Inv(g) && IdleSeen(g.main) && MainStep(g) == Some(g')
    ensures IdleSeen(g'.main) && g'.created == g.created && g'.finished == g.finished
  {
    hide Locals, Wakes, MainLocks, Exits, Quiets, Inspected, Census;
  }

  // ---------- exit ----------

  /** The assertion of `should_exit`: a scheduler that sees its exit signal has no work of any kind. */
  lemma ExitAssertion(b: seq<Sys>, i: nat, d: nat)
    requires Behaviour(b) && i < |b| && d < |b[i].s|
    requires b[i].s[d].pc == ShouldExit && b[i].s[d].exit
    ensures !HasWork(b[i].s[d].q, b[i].s[d].tasks != [])
    ensures b[i].s[d].tasks == [] && forall w <- b[i].s[d].q.workers :: w in b[i].s[d].q.task && b[i].s[d].q.task[w] == None
  {
    hide Behaviour, LocalOk;
    var g := b[i];
    BehaviourInv(b, i);
    assert IdleSeen(g.main);
    assert QuietOk(g.s[d]);
    QuietFacts(g.s[d], |g.s|, d);
    forall w | w in g.s[d].q.workers ensures w in g.s[d].q.task && g.s[d].q.task[w] == None {
      AllIdleWhenAsleep(g.s[d].q, w);
    }
  }

  // ---------- task conservation ----------

  /** In how many places task `t` is: deques, hands, workers and the list of completed tasks together. */
  function Places(g: Sys, t: Task): nat {
    (AllBags(g.s) + MainBag(g.main) + multiset(g.finished))[t]
  }

  /** Every task created is in exactly one place at any time, and no other task is anywhere. */
  lemma TaskConservation(b: seq<Sys>, i: nat, t: Task)
    requires Behaviour(b) && i < |b|
    ensures Places(b[i], t) == if t in b[i].created then 1 else 0
  {
    hide Behaviour;
    BehaviourInv(b, i);
  }

  lemma {:induction false} BagAt(s: seq<Sched>, d: nat)
    requires d < |s|
    ensures Bag(s[d]) <= AllBags(s)
  {
    hide Bag;
    if d == 0 {
    } else {
      BagAt(s[1..], d - 1);
    }
  }

  lemma {:induction false} TwoBagsAt(s: seq<Sched>, d: nat, e: nat)
    requires d < e < |s|
    ensures Bag(s[d]) + Bag(s[e]) <= AllBags(s)
  {
    hide Bag;
    if d == 0 {
      BagAt(s[1..], e - 1);
    } else {
      TwoBagsAt(s[1..], d - 1, e - 1);
    }
  }

  lemma {:induction false} HeldAt(ws: seq<Wid>, task: map<Wid, Option<Task>>, w: Wid)
    requires w in ws && w in task
    ensures OptBag(task[w]) <= HeldBy(ws, task)
  {
    if ws[0] != w { HeldAt(ws[1..], task, w); }
  }

  lemma {:induction false} HeldTwice(ws: seq<Wid>, task: map<Wid, Option<Task>>, w: Wid, v: Wid)
    requires w in ws && v in ws && w in task && v in task && w != v
    ensures OptBag(task[w]) + OptBag(task[v]) <= HeldBy(ws, task)
  {
    if ws[0] == w {
      HeldAt(ws[1..], task, v);
    } else if ws[0] == v {
      HeldAt(ws[1..], task, w);
    } else {
      HeldTwice(ws[1..], task, w, v);
    }
  }

  /** Worker `w` of scheduler `d` has the task. */
  ghost predicate Runs(g: Sys, d: nat, w: Wid, t: Task) {
    d < |g.s| && w in g.s[d].q.workers && w in g.s[d].q.task && g.s[d].q.task[w] == Some(t)
  }

  /**
   No task is run by two workers, run again after it has completed, completed twice, or still queued while
   it runs.
   */
  lemma NeverTwice(b: seq<Sys>, i: nat, t: Task)
    requires Behaviour(b) && i < |b|
    ensures var g := b[i];
      && (forall d: nat, w, e: nat, v :: Runs(g, d, w, t) && Runs(g, e, v, t) ==> d == e && w == v)
      && (forall d: nat, w :: Runs(g, d, w, t) ==> t !in g.finished && t in g.created)
      && (forall d: nat, w, e :: Runs(g, d, w, t) && 0 <= e < |g.s| ==> t !in g.s[e].tasks)
      && multiset(g.finished)[t] <= 1
  {
    hide Behaviour, AllBags, Bag, Runs;
    var g := b[i];
    TaskConservation(b, i, t);
    forall d: nat, w | Runs(g, d, w, t)
      ensures t !in g.finished && t in g.created && AllBags(g.s)[t] == 1
    {
      RunsInBag(g, d, w, t);
      BagAt(g.s, d);
    }
    forall d: nat, w, e: nat, v | Runs(g, d, w, t) && Runs(g, e, v, t)
      ensures d == e && w == v
    {
      RunsInBag(g, d, w, t);
      RunsInBag(g, e, v, t);
      if d < e { TwoBagsAt(g.s, d, e); }
      if e < d { TwoBagsAt(g.s, e, d); }
      if d == e && w != v { RunsTwice(g, d, w, v, t); BagAt(g.s, d); }
    }
    forall d: nat, w, e | Runs(g, d, w, t) && 0 <= e < |g.s|
      ensures t !in g.s[e].tasks
    {
      RunsInBag(g, d, w, t);
      if t in g.s[e].tasks {
        QueuedInBag(g, e, d, w, t);
        if d < e { TwoBagsAt(g.s, d, e); }
        if e < d { TwoBagsAt(g.s, e, d); }
        BagAt(g.s, d);
      }
    }
  }

  lemma RunsInBag(g: Sys, d: nat, w: Wid, t: Task)
    requires Runs(g, d, w, t)
    ensures d < |g.s| && Bag(g.s[d])[t] >= 1
  {
    HeldAt(g.s[d].q.workers, g.s[d].q.task, w);
  }

  lemma RunsTwice(g: Sys, d: nat, w: Wid, v: Wid, t: Task)
    requires Runs(g, d, w, t) && Runs(g, d, v, t) && w != v
    ensures Bag(g.s[d])[t] >= 2
  {
    HeldTwice(g.s[d].q.workers, g.s[d].q.task, w, v);
    assert (OptBag(Some(t)) + OptBag(Some(t)))[t] == 2;
  }

  lemma QueuedInBag(g: Sys, e: nat, d: nat, w: Wid, t: Task)
    requires Runs(g, d, w, t) && e < |g.s| && t in g.s[e].tasks
    ensures Bag(g.s[e])[t] >= if d == e then 2 else 1
  {
    assert multiset(g.s[e].tasks)[t] >= 1;
    if d == e { HeldAt(g.s[d].q.workers, g.s[d].q.task, w); }
  }

  // ---------- partition and counters ----------

  /**
   At every step each worker of a scheduler that has not exited is in exactly one place, its state names
   that place, it holds a task exactly when it is active, and the yielded slot is free while a worker runs.
   */
  lemma WorkerPartition(b: seq<Sys>, i: nat, d: nat)
    requires Behaviour(b) && i < |b| && d < |b[i].s| && b[i].s[d].pc != Exited
    ensures Wf(b[i].s[d].q)
    ensures PartOf(b[i].s[d].pc) == UserPart ==> Executing(b[i].s[d].q)
    ensures PartOf(b[i].s[d].pc) != UserPart ==> Parked(b[i].s[d].q)
  {
    hide Behaviour, Parked, Executing, Wf;
    BehaviourInv(b, i);
    LocalWf(b[i].s[d], |b[i].s|, d);
    UserPcOf(b[i], d);
  }

  lemma {:induction false} CountIdleBounds(s: seq<Sched>)
    ensures 0 <= CountIdle(s) <= |s|
  {
    if s == [] {
    } else {
      CountIdleBounds(s[1..]);
    }
  }

  /** `m_idle_schedulers` counts the schedulers in idle sleep: its decrement never wraps and it never exceeds their number. */
  lemma IdleCounter(b: seq<Sys>, i: nat)
    requires Behaviour(b) && i < |b|
    ensures b[i].idleCount == CountIdle(b[i].s) && 0 <= b[i].idleCount <= |b[i].s|
  {
    hide Behaviour;
    BehaviourInv(b, i);
    CountIdleBounds(b[i].s);
  }

  // ---------- the start ----------

  /** A scheduler of `n` workers as its constructor leaves it. */
  function Constructed(n: nat): Sched
    requires n > 0
  {
    Sched(Started(n, n), IdleBlocked, IdleSleep, [], {}, false, false, None)
  }

  /** The state in which `init_ums` enqueues the first task on scheduler `d`: all behaviours above start in states like this. */
  lemma StartUp(k: nat, n: nat, d: nat, t: Task)
    requires d < k && n > 0
    ensures Init(Sys(seq(k, i => Constructed(n)), MPushing(d, t), k, true, {t}, []))
  {
    StartedParked(n);
    hide Parked;
    assert Started(n, n).idle[0] == 0;
    assert Fresh(Constructed(n));
  }
}
