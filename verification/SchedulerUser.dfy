/**
 What user code sets off: where the running worker goes when it returns, yields, waits or begins I/O, and what an
 enqueued task or a notified waiter does to the scheduler it belongs to. All other threads stand still.
 */
module SchedulerUser {
  import opened Common
  import opened SchedulerQueues
  import opened SchedulerSystem
  import opened SchedulerLocal
  import opened SchedulerInvariant
  import opened SchedulerTheorems
  import opened SchedulerRuns

  // ---------- leaving user code ----------

  /** The queues after the running worker has left user code with this call. */
  ghost predicate LeftFor(q: Queues, c: Choice, q': Queues) {
    var w := q.current;
    && w in q'.task && w in q'.state && w in q.task
    && q'.task == (if c == TaskDone then q.task[w := None] else q.task)
    && q'.idle == (if c == TaskDone then [w] + q.idle else q.idle)
    && q'.yielded == (if c == YieldNow then Some(w) else None)
    && q'.pendingIo == (if c == BeginIo then q.pendingIo + [w] else q.pendingIo)
    && q'.waiting == (if c == BeginWait then q.waiting + [w] else q.waiting)
    && q'.runnable == q.runnable
  }

  /** The place for which the running worker leaves user code, its scheduler's thread then going on to schedule. */
  ghost predicate Left(g: Sys, d: nat, c: Choice, e: Sys)
    requires d < |g.s| == |e.s|
  {
    var q := g.s[d].q;
    && e.s[d].pc == IoScan && q.current in q.task && q.task[q.current].Some? && LeftFor(q, c, e.s[d].q)
    && e.finished == (if c == TaskDone then g.finished + [q.task[q.current].value] else g.finished)
    && e == g.(s := g.s[d := g.s[d].(q := e.s[d].q, cond := e.s[d].cond, pc := IoScan)], finished := e.finished)
  }

  lemma LeavesFor(q: Queues, c: Choice)
    requires Executing(q) && Wf(q) && q.current in q.state && q.current in q.task
    requires c == TaskDone || c == YieldNow || c == BeginIo || c == BeginWait
    ensures LeftFor(q, c, Leave(q, ContextOf(c)))
  {
    hide Wf;
  }

  function ContextOf(c: Choice): SyncContext {
    match c case TaskDone => Main case YieldNow => Yield case BeginIo => Io case _ => Wait
  }

  lemma RunsOnTask(g: Sys, d: nat)
    requires Inv(g) && d < |g.s| && (g.s[d].pc == Exec || g.s[d].pc == Checking)
    ensures Executing(g.s[d].q) && Wf(g.s[d].q) && g.s[d].pc != Exited
    ensures var q := g.s[d].q; q.current in q.state && q.current in q.task && q.task[q.current].Some?
  {
    hide Inv;
    LocalAt(g, d);
  }

  lemma LeavesUser(g: Sys, d: nat, c: Choice) returns (e: Sys)
    requires Inv(g) && d < |g.s| && g.s[d].pc == Exec && (c == TaskDone || c == YieldNow || c == BeginIo)
    ensures Reaches(g, d, e) && |e.s| == |g.s| && Left(g, d, c, e)
  {
    hide Inv, Reaches, Wf, Executing, Next, Leave, LeftFor;
    RunsOnTask(g, d);
    LeavesFor(g.s[d].q, c);
    var sc := LeaveUser(g.s[d], ContextOf(c));
    OwnGoes(g, d, c, sc);
    e := After(g, d, sc, c);
  }

  /** A wait checks the flag, freshly cleared, and the clock once before it parks. */
  lemma BeginsWait(g: Sys, d: nat, over: bool) returns (e: Sys)
    requires Inv(g) && d < |g.s| && g.s[d].pc == Exec
    ensures Reaches(g, d, e) && |e.s| == |g.s|
    ensures if over then e == g.(s := g.s[d := g.s[d].(cond := g.s[d].cond - {g.s[d].q.current})]) else Left(g, d, BeginWait, e)
  {
    hide Inv, Reaches, Wf, Executing, Next, Leave, LeftFor;
    RunsOnTask(g, d);
    var sc := g.s[d];
    var sc1 := sc.(cond := sc.cond - {sc.q.current}, pc := Checking);
    OwnGoes(g, d, BeginWait, sc1);
    var g1 := After(g, d, sc1, BeginWait);
    assert g1 == g.(s := g.s[d := sc1]);
    e := ChecksOnce(g1, d, over);
    GoesOn(g, d, g1, e);
  }

  lemma ChecksOnce(g: Sys, d: nat, over: bool) returns (e: Sys)
    requires Inv(g) && d < |g.s| && g.s[d].pc == Checking && g.s[d].q.current !in g.s[d].cond
    ensures Reaches(g, d, e) && |e.s| == |g.s|
    ensures if over then e == g.(s := g.s[d := g.s[d].(pc := Exec)]) else Left(g, d, BeginWait, e)
  {
    hide Inv, Reaches, Wf, Executing, Next, Leave, LeftFor;
    RunsOnTask(g, d);
    var sc := g.s[d];
    LeavesFor(sc.q, BeginWait);
    var sc' := if over then sc.(pc := Exec) else LeaveUser(sc, Wait);
    OwnGoes(g, d, Flag(over), sc');
    e := After(g, d, sc', Flag(over));
  }

  /** Wherever a worker leaves user code, it parks in the one place its call names; a finished task is recorded. */
  lemma UserLeaves(b: seq<Sys>, i: nat, d: nat, c: Choice)
    requires Behaviour(b) && i < |b| && d < |b[i].s| && b[i].s[d].pc == Exec
    requires c == TaskDone || c == YieldNow || c == BeginIo || c == BeginWait
    ensures exists e :: Reaches(b[i], d, e) && |e.s| == |b[i].s| && Left(b[i], d, c, e)
  {
    hide Behaviour, Inv, Reaches, Left;
    BehaviourInv(b, i);
    if c == BeginWait {
      var e := BeginsWait(b[i], d, false);
    } else {
      var e := LeavesUser(b[i], d, c);
    }
  }

  // ---------- reaching another scheduler ----------

  /** Scheduler `d` after a `notify`, with this deque and these flags. */
  function Reached(g: Sys, d: nat, ts: seq<Task>, cond: set<Wid>): Sys
    requires d < |g.s|
  {
    g.(s := g.s[d := g.s[d].(tasks := ts, cond := cond, running := true, pc := Woken(g.s[d].pc))])
  }

  /** The critical section of `notify` and the signal after it. */
  lemma Notifies(g: Sys, w: nat, d: nat)
    requires Inv(g) && w < |g.s| && g.s[w].pc == Notifying(d) && d < |g.s| && g.s[d].mtx == None
    ensures Reaches(g, w, Reached(WithPc(g, w, Exec), d, g.s[d].tasks, g.s[d].cond))
  {
    hide Inv, Reaches, Typed;
    InvIsTyped(g);
    var g1 := MarkRunning(WithPc(g, w, Signalling(d)), d);
    NotifyDoes(g, w, d);
    ActGoes(g, Notify(w), g1);
    InvIsTyped(g1);
    var g2 := Wake(WithPc(g1, w, Exec), d);
    SignalDoes(g1, w, d);
    ActGoes(g1, Signal(w), g2);
    GoesOn(g, w, g1, g2);
    assert g2.s == Reached(WithPc(g, w, Exec), d, g.s[d].tasks, g.s[d].cond).s;
  }

  lemma NotifyDoes(g: Sys, w: nat, d: nat)
    requires Typed(g) && w < |g.s| && g.s[w].pc == Notifying(d) && d < |g.s| && g.s[d].mtx == None
    ensures Do(g, Notify(w)) == Some(MarkRunning(WithPc(g, w, Signalling(d)), d))
  {
    hide Typed, OwnActStep, MainStep;
  }

  lemma SignalDoes(g: Sys, w: nat, d: nat)
    requires Typed(g) && w < |g.s| && g.s[w].pc == Signalling(d) && d < |g.s|
    ensures Do(g, Signal(w)) == Some(Wake(WithPc(g, w, Exec), d))
  {
    hide Typed, OwnActStep, MainStep;
  }

  /** The first step of an enqueue from user code, and of a notification. */
  lemma CreateDoes(g: Sys, w: nat, d: nat, t: Task)
    requires Typed(g) && w < |g.s| && g.s[w].pc == Exec && d < |g.s| && t !in g.created
    ensures Do(g, Create(w, d, t)) == Some(WithPc(g, w, Pushing(d, t)).(created := g.created + {t}))
  {
    hide Typed, OwnActStep, MainStep;
  }

  lemma PushDoes(g: Sys, w: nat, d: nat, t: Task)
    requires Typed(g) && w < |g.s| && g.s[w].pc == Pushing(d, t) && d < |g.s|
    ensures Do(g, Push(w)) == Some(PushTo(WithPc(g, w, Notifying(d)), d, t))
  {
    hide Typed, OwnActStep, MainStep;
  }

  lemma SetCondDoes(g: Sys, w: nat, d: nat, v: Wid)
    requires Typed(g) && w < |g.s| && g.s[w].pc == Exec && d < |g.s|
    ensures Do(g, SetCond(w, d, v)) == Some(AddCond(WithPc(g, w, Notifying(d)), d, v))
  {
    hide Typed, OwnActStep, MainStep;
  }

  lemma Enqueues(g: Sys, w: nat, d: nat, t: Task)
    requires Inv(g) && w < |g.s| && d < |g.s| && g.s[w].pc == Exec && t !in g.created && g.s[d].mtx == None
    ensures Reaches(g, w, Reached(g, d, g.s[d].tasks + [t], g.s[d].cond).(created := g.created + {t}))
  {
    hide Inv, Reaches, Typed;
    InvIsTyped(g);
    var g1 := WithPc(g, w, Pushing(d, t)).(created := g.created + {t});
    CreateDoes(g, w, d, t);
    ActGoes(g, Create(w, d, t), g1);
    InvIsTyped(g1);
    var g2 := PushTo(WithPc(g1, w, Notifying(d)), d, t);
    PushDoes(g1, w, d, t);
    ActGoes(g1, Push(w), g2);
    GoesOn(g, w, g1, g2);
    Notifies(g2, w, d);
    PushedState(g, w, d, t, g2);
    GoesOn(g, w, g2, Reached(g, d, g.s[d].tasks + [t], g.s[d].cond).(created := g.created + {t}));
  }

  lemma PushedState(g: Sys, w: nat, d: nat, t: Task, g2: Sys)
    requires w < |g.s| && d < |g.s| && g.s[w].pc == Exec
    requires g2 == PushTo(WithPc(WithPc(g, w, Pushing(d, t)).(created := g.created + {t}), w, Notifying(d)), d, t)
    ensures w < |g2.s| && d < |g2.s| && Reached(WithPc(g2, w, Exec), d, g2.s[d].tasks, g2.s[d].cond) ==
      Reached(g, d, g.s[d].tasks + [t], g.s[d].cond).(created := g.created + {t})
  {
    var x := Reached(WithPc(g2, w, Exec), d, g2.s[d].tasks, g2.s[d].cond).s;
    var y := Reached(g, d, g.s[d].tasks + [t], g.s[d].cond).s;
    assert forall i :: 0 <= i < |x| ==> x[i] == y[i];
  }

  /**
   A task enqueued from user code ends up last in the deque it is meant for, that scheduler's flag is up and its
   thread out of its wait if it was blocked; the caller goes on with its own work.
   */
  lemma EnqueueReaches(b: seq<Sys>, i: nat, w: nat, d: nat, t: Task)
    requires Behaviour(b) && i < |b| && w < |b[i].s| && d < |b[i].s|
    requires b[i].s[w].pc == Exec && t !in b[i].created && b[i].s[d].mtx == None
    ensures Reaches(b[i], w, Reached(b[i], d, b[i].s[d].tasks + [t], b[i].s[d].cond).(created := b[i].created + {t}))
  {
    hide Behaviour, Inv, Reaches, Reached;
    BehaviourInv(b, i);
    Enqueues(b[i], w, d, t);
  }

  lemma FlagsWaiter(g: Sys, w: nat, d: nat, v: Wid)
    requires Inv(g) && w < |g.s| && d < |g.s| && g.s[w].pc == Exec && g.s[d].mtx == None
    ensures Reaches(g, w, Reached(g, d, g.s[d].tasks, g.s[d].cond + {v}))
  {
    hide Inv, Reaches, Typed;
    InvIsTyped(g);
    var g1 := AddCond(WithPc(g, w, Notifying(d)), d, v);
    SetCondDoes(g, w, d, v);
    ActGoes(g, SetCond(w, d, v), g1);
    Notifies(g1, w, d);
    FlaggedState(g, w, d, v, g1);
    GoesOn(g, w, g1, Reached(g, d, g.s[d].tasks, g.s[d].cond + {v}));
  }

  lemma FlaggedState(g: Sys, w: nat, d: nat, v: Wid, g1: Sys)
    requires w < |g.s| && d < |g.s| && g.s[w].pc == Exec && g1 == AddCond(WithPc(g, w, Notifying(d)), d, v)
    ensures w < |g1.s| && d < |g1.s|
    ensures Reached(WithPc(g1, w, Exec), d, g1.s[d].tasks, g1.s[d].cond) == Reached(g, d, g.s[d].tasks, g.s[d].cond + {v})
  {
    var x := Reached(WithPc(g1, w, Exec), d, g1.s[d].tasks, g1.s[d].cond).s;
    var y := Reached(g, d, g.s[d].tasks, g.s[d].cond + {v}).s;
    assert forall i :: 0 <= i < |x| ==> x[i] == y[i];
  }

  /** A notified waiter has its flag up and its scheduler awake; the caller goes on. */
  lemma NotifyReaches(b: seq<Sys>, i: nat, w: nat, d: nat, v: Wid)
    requires Behaviour(b) && i < |b| && w < |b[i].s| && d < |b[i].s| && b[i].s[w].pc == Exec && b[i].s[d].mtx == None
    ensures Reaches(b[i], w, Reached(b[i], d, b[i].s[d].tasks, b[i].s[d].cond + {v}))
  {
    hide Behaviour, Inv, Reaches, Reached;
    BehaviourInv(b, i);
    FlagsWaiter(b[i], w, d, v);
  }

  /** The first task of the program gets to its scheduler the same way, and main goes on to `wait_exit`. */
  lemma FirstTaskReaches(b: seq<Sys>, i: nat, d: nat, t: Task)
    requires Behaviour(b) && i < |b| && b[i].main == MPushing(d, t) && d < |b[i].s| && b[i].s[d].mtx == None
    ensures Reaches(b[i], |b[i].s|, Reached(b[i], d, b[i].s[d].tasks + [t], b[i].s[d].cond).(main := WaitExit))
  {
    hide Behaviour, Inv, Reaches, Next;
    BehaviourInv(b, i);
    var (g, n) := (b[i], |b[i].s|);
    var g1 := PushTo(g, d, t).(main := MNotifying(d));
    MainGoes(g, g1);
    var g2 := MarkRunning(g1, d).(main := MSignalling(d));
    MainGoes(g1, g2);
    GoesOn(g, n, g1, g2);
    var g3 := Wake(g2, d).(main := WaitExit);
    MainGoes(g2, g3);
    GoesOn(g, n, g2, g3);
    assert g3 == Reached(g, d, g.s[d].tasks + [t], g.s[d].cond).(main := WaitExit);
  }
}
