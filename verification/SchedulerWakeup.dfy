/**
 A wake-up that is on its way can always be delivered, even to a scheduler whose mutex `all_idle` has taken: from
 every reachable state there is a run to the moment the blocked scheduler has left its wait.
 */
module SchedulerWakeup {
  import opened Common
  import opened SchedulerQueues
  import opened SchedulerSystem
  import opened SchedulerLocal
  import opened SchedulerInvariant
  import opened SchedulerTheorems

  predicate Blocked(pc: Pc) {
    pc == WaitBlocked || pc == IdleBlocked
  }

  ghost predicate Run(p: seq<Sys>) {
    |p| > 0 && forall i :: 0 <= i < |p| - 1 ==> Next(p[i], p[i + 1])
  }

  lemma Prepend(g: Sys, p: seq<Sys>)
    requires Run(p) && Next(g, p[0])
    ensures Run([g] + p)
  {
    hide Next;
    var q := [g] + p;
    forall i | 0 <= i < |q| - 1 ensures Next(q[i], q[i + 1]) {
      if i > 0 { assert Next(p[i - 1], p[i - 1 + 1]); }
    }
  }

  // ---------- the critical section of sleep ends ----------

  function Left(k: nat, n: nat): nat {
    if k <= n then n - k else 0
  }

  /** How many steps are left, at most, until the mutex is given up. */
  function SectionRank(sc: Sched): nat {
    match sc.pc
    case SleepTasks => |sc.q.waiting| + 10
    case SleepExit => |sc.q.waiting| + 9
    case SleepKind => |sc.q.waiting| + 8
    case Conds(k, _) => Left(k, |sc.q.waiting|) + 4
    case IdleCount => 6
    case IdleReport => 5
    case IdleSignal => 4
    case IdlePred => 3
    case IdleDone => 2
    case IdleBlock => 2
    case _ => 0
  }

  /** The thread inside the section can always go on, and gives the mutex up or comes closer to it. */
  lemma SectionStep(sc: Sched, n: nat, me: nat, last: bool) returns (sc': Sched)
    requires LocalOk(sc, n, me) && Wf(sc.q) && Holding(sc.pc) && sc.pc != IdleSignal
    ensures OwnStep(sc, n, me, Flag(false), false, last) == Some(sc') && SectionRank(sc) > 0
    ensures (sc'.mtx == None) || (sc'.mtx == sc.mtx && 0 < SectionRank(sc') < SectionRank(sc))
  {
    hide Wf, Parked, Executing;
    match PartOf(sc.pc)
    case SleepPart => sc' := SleepStep(sc, Flag(false)).value;
    case IdlePart => sc' := IdleStep(sc, last).value;
  }

  // ---------- all_idle ends ----------

  function Stage(m: MainPc, n: nat): nat {
    match m
    case LockAll(k) => 3 * (n + 2) + Left(k, n)
    case Inspect(k) => 2 * (n + 2) + Left(k, n)
    case UnlockAll(k, _) => n + 2 + Left(k, n)
    case _ => 0
  }

  /** The critical section main is waiting for, if it is waiting for one. */
  function Awaited(g: Sys): nat {
    if g.main.LockAll? && g.main.k < |g.s| && g.s[g.main.k].mtx == Some(Own) then SectionRank(g.s[g.main.k]) else 0
  }

  ghost predicate InAllIdle(g: Sys) {
    |g.s| > 0 && MainOk(g.main, |g.s|) && (g.main.LockAll? || g.main.Inspect? || g.main.UnlockAll?)
  }

  /** Main takes its next step, or the thread it waits for does; nobody else moves. */
  ghost predicate Closer(g: Sys, g': Sys) {
    && |g'.s| == |g.s|
    && (forall x :: 0 <= x < |g.s| && !Holding(g.s[x].pc) ==> g'.s[x].(mtx := None) == g.s[x].(mtx := None))
    && (Stage(g'.main, |g.s|) < Stage(g.main, |g.s|)
        || (Stage(g'.main, |g.s|) == Stage(g.main, |g.s|) && Awaited(g') < Awaited(g)))
  }

  lemma MainCloser(g: Sys, g': Sys)
    requires InAllIdle(g) && MainStep(g) == Some(g')
    ensures Closer(g, g')
  {
    hide HasStealable;
  }

  lemma MainCanStep(g: Sys)
    requires InAllIdle(g) && !(g.main.LockAll? && g.main.k < |g.s| && g.s[g.main.k].mtx != None)
    ensures MainStep(g).Some?
  {
  }

  lemma HolderCloser(g: Sys, k: nat) returns (g': Sys)
    requires Inv(g) && Typed(g) && g.main == LockAll(k) && k < |g.s| && g.s[k].mtx == Some(Own)
    ensures Next(g, g') && Closer(g, g') && g'.main == g.main
  {
    hide Inv, Typed, OwnStep, Do, Holding;
    SectionLocal(g, k);
    if g.s[k].pc == IdleSignal {
      g' := ReportCloser(g, k);
      return;
    }
    var sc' := SectionStep(g.s[k], |g.s|, k, g.idleCount + 1 >= |g.s|);
    g' := OwnActStep(g, k, Flag(false)).value;
    HolderAct(g, k, sc', g');
    ActionNext(g, OwnAct(k, Flag(false)), g');
  }

  /** The report that `wait_exit` may sleep for is one of the steps inside the section. */
  lemma ReportCloser(g: Sys, k: nat) returns (g': Sys)
    requires Typed(g) && g.main == LockAll(k) && k < |g.s| && g.s[k].mtx == Some(Own) && g.s[k].pc == IdleSignal
    ensures Next(g, g') && Closer(g, g') && g'.main == g.main
  {
    hide Typed, OwnActStep, MainStep;
    g' := WithPc(g, k, IdlePred);
    assert Do(g, Report(k)) == Some(g');
  }

  lemma SectionLocal(g: Sys, k: nat)
    requires Inv(g) && k < |g.s| && g.s[k].mtx == Some(Own)
    ensures LocalOk(g.s[k], |g.s|, k) && Holding(g.s[k].pc) && g.s[k].pc != Exited && Wf(g.s[k].q)
    ensures !g.s[k].pc.Steal? && g.s[k].pc != Exec
  {
    hide Wakes, Census, MainLocks, Exits, Quiets, Inspected, Wf;
    LocalWf(g.s[k], |g.s|, k);
  }

  lemma HolderAct(g: Sys, k: nat, sc': Sched, g': Sys)
    requires Typed(g) && k < |g.s| && g.s[k].pc != Exited && !g.s[k].pc.Steal? && g.s[k].pc != Exec && Holding(g.s[k].pc)
    requires g.main == LockAll(k) && g.s[k].mtx == Some(Own) && SectionRank(g.s[k]) > 0
    requires OwnStep(g.s[k], |g.s|, k, Flag(false), false, g.idleCount + 1 >= |g.s|) == Some(sc')
    requires (sc'.mtx == None) || (sc'.mtx == g.s[k].mtx && 0 < SectionRank(sc') < SectionRank(g.s[k]))
    ensures OwnActStep(g, k, Flag(false)).Some?
    requires Some(g') == OwnActStep(g, k, Flag(false))
    ensures Do(g, OwnAct(k, Flag(false))) == Some(g') && Closer(g, g') && g'.main == g.main
  {
    hide Typed, OwnStep, SectionRank, Holding;
  }

  /** While main holds the mutex of `d` it is inside `all_idle`, and something brings its end closer. */
  lemma AllIdleCloser(g: Sys, d: nat) returns (g': Sys)
    requires Inv(g) && d < |g.s| && g.s[d].mtx == Some(MainThread)
    ensures Next(g, g') && Closer(g, g')
  {
    hide Inv, Typed, Next, MainStep, OwnActStep, Closer;
    MainInside(g, d);
    InvIsTyped(g);
    if g.main.LockAll? && g.main.k < |g.s| && g.s[g.main.k].mtx != None {
      g' := HolderCloser(g, g.main.k);
    } else {
      MainCanStep(g);
      g' := MainStep(g).value;
      MainCloser(g, g');
      MainNext(g, g');
    }
  }

  lemma MainInside(g: Sys, d: nat)
    requires Inv(g) && d < |g.s| && g.s[d].mtx == Some(MainThread)
    ensures InAllIdle(g) && MainNotifies(g.main) == None && MainHolds(g.main, d)
    ensures g.main.LockAll? && g.main.k < |g.s| && g.s[g.main.k].mtx != None ==> g.s[g.main.k].mtx == Some(Own)
  {
    hide Locals, Wakes, Census, Exits, Quiets, Inspected;
    if g.main.LockAll? && g.main.k < |g.s| {
      assert g.s[g.main.k].mtx != Some(MainThread);
      HolderKinds(g.s[g.main.k].mtx);
    }
  }

  lemma HolderKinds(m: Option<Holder>)
    ensures m == None || m == Some(Own) || m == Some(MainThread)
  {
    if m.Some? {
      match m.value
      case Own =>
      case MainThread =>
    }
  }

  /** Nobody who is about to notify moves meanwhile. */
  lemma StillOwed(g: Sys, g': Sys, d: nat)
    requires Closer(g, g') && Owed(g, d) && MainNotifies(g.main) == None
    ensures Owed(g', d)
  {
    var j: nat :| j <= |g.s| && NotifyTarget(g, j) == Some(d);
    assert NotifyTarget(g', j) == Some(d);
  }

  // ---------- delivery ----------

  /** A run from `g` to the wake-up of `d`. */
  ghost predicate Delivers(p: seq<Sys>, g: Sys, d: nat) {
    && Run(p) && p[0] == g && d < |g.s| && |p[|p| - 1].s| == |g.s|
    && p[|p| - 1].s[d].(running := true, mtx := None) == g.s[d].(pc := Woken(g.s[d].pc), running := true, mtx := None)
  }

  lemma DeliverFrom(g: Sys, d: nat) returns (p: seq<Sys>)
    requires Inv(g) && d < |g.s| && Blocked(g.s[d].pc) && (Owed(g, d) || Signalled(g, d))
    ensures Delivers(p, g, d)
    decreases if Signalled(g, d) then 0 else 1, if g.s[d].mtx == Some(MainThread) then 1 else 0, Stage(g.main, |g.s|), Awaited(g)
  {
    hide Inv, Next, Owed, Signalled, Stage, Awaited, Closer;
    if Signalled(g, d) {
      var g' := SignalDelivered(g, d);
      p := [g, g'];
      assert Run(p);
    } else if g.s[d].mtx == Some(MainThread) {
      var g' := AllIdleCloser(g, d);
      StepKeepsInv(g, g');
      MainInside(g, d);
      StillOwed(g, g', d);
      BlockedStays(g, g', d);
      var q := DeliverFrom(g', d);
      Prepend(g, q);
      p := [g] + q;
    } else {
      NotHeldByItself(g, d);
      var g' := NotifyEntered(g, d);
      StepKeepsInv(g, g');
      var g'' := SignalDelivered(g', d);
      p := [g, g', g''];
      assert Run(p);
    }
  }

  lemma BlockedStays(g: Sys, g': Sys, d: nat)
    requires Closer(g, g') && d < |g.s| && Blocked(g.s[d].pc)
    ensures |g'.s| == |g.s| && g'.s[d].(mtx := None) == g.s[d].(mtx := None)
    ensures Stage(g'.main, |g'.s|) < Stage(g.main, |g.s|)
         || (Stage(g'.main, |g'.s|) == Stage(g.main, |g.s|) && Awaited(g') < Awaited(g))
  {
  }

  lemma NotHeldByItself(g: Sys, d: nat)
    requires Inv(g) && d < |g.s| && Blocked(g.s[d].pc) && g.s[d].mtx != Some(MainThread)
    ensures g.s[d].mtx == None
  {
    hide Wakes, Census, MainLocks, Exits, Quiets, Inspected, QueuesOk;
    assert LocalOk(g.s[d], |g.s|, d);
    assert !Holding(g.s[d].pc);
    HolderKinds(g.s[d].mtx);
  }

  /**
   No wake-up is lost to a held mutex either: whenever a blocked scheduler has something to do, a run leads from
   there to the moment it has left its wait.
   */
  lemma WorkGetsThrough(b: seq<Sys>, i: nat, d: nat)
    requires Behaviour(b) && i < |b| && d < |b[i].s|
    requires var sc := b[i].s[d];
      (sc.pc == WaitBlocked && WorkReady(sc)) || (sc.pc == IdleBlocked && (sc.tasks != [] || sc.exit))
    ensures exists p :: Delivers(p, b[i], d)
  {
    hide Behaviour, Inv, Owed, Signalled, WorkReady;
    NoLostWakeup(b, i, d);
    BehaviourInv(b, i);
    var p := DeliverFrom(b[i], d);
  }
}
