/**
 The end of a program: once `all_idle` has answered yes every scheduler exits and is joined, and the last scheduler
 to fall asleep sets all of that off.
 */
module SchedulerShutdown {
  import opened Common
  import opened SchedulerQueues
  import opened SchedulerSystem
  import opened SchedulerLocal
  import opened SchedulerInvariant
  import opened SchedulerTheorems
  import opened SchedulerWakeup
  import A = SchedulerAnswer
  import R = SchedulerRuns
  import S = SchedulerSleep

  // ---------- who has been joined ----------

  /** How many schedulers main has joined. */
  function JoinedBy(m: MainPc, n: nat): nat {
    match m
    case SetExit(k) => k
    case NotifyExit(k) => k
    case SignalExit(k) => k
    case Join(k) => k
    case Finished => n
    case _ => 0
  }

  ghost predicate Joined(g: Sys) {
    forall i :: 0 <= i < JoinedBy(g.main, |g.s|) && i < |g.s| ==> g.s[i].pc == Exited
  }

  lemma MainJoins(g: Sys, g': Sys)
    requires Inv(g) && Joined(g) && MainStep(g) == Some(g')
    ensures Joined(g')
  {
    hide Locals, Wakes, Census, MainLocks, Exits, Quiets, Inspected;
  }

  lemma OwnKeepsExited(g: Sys, i: nat, c: Choice, g': Sys)
    requires Typed(g) && i < |g.s| && g.s[i].pc != Exited && OwnActStep(g, i, c) == Some(g')
    ensures g'.main == g.main && |g'.s| == |g.s| && forall j :: 0 <= j < |g.s| && g.s[j].pc == Exited ==> g'.s[j].pc == Exited
  {
    hide OwnStep, Typed;
  }

  lemma OtherKeepsExited(g: Sys, a: Action, g': Sys)
    requires Typed(g) && Do(g, a) == Some(g') && !a.OwnAct? && !a.MainAct? && !a.Report?
    ensures g'.main == g.main && |g'.s| == |g.s| && forall j :: 0 <= j < |g.s| && g.s[j].pc == Exited ==> g'.s[j].pc == Exited
  {
    hide OwnActStep, MainStep, Typed;
  }

  lemma ReportJoins(g: Sys, g': Sys)
    requires Joined(g) && g'.main == Roused(g.main) && |g'.s| == |g.s|
    requires forall j :: 0 <= j < |g.s| && g.s[j].pc == Exited ==> g'.s[j].pc == Exited
    ensures Joined(g')
  {
  }

  lemma StepKeepsJoined(g: Sys, g': Sys)
    requires Inv(g) && Joined(g) && Next(g, g')
    ensures Joined(g')
  {
    hide Inv, Typed, OwnActStep, MainStep;
    var a :| Do(g, a) == Some(g');
    match a
    case MainAct => MainJoins(g, g');
    case OwnAct(i, c) => OwnKeepsExited(g, i, c, g');
    case Report(i) => ReportJoins(g, g');
    case _ => OtherKeepsExited(g, a, g');
  }

  lemma {:induction false} BehaviourJoined(b: seq<Sys>, i: nat)
    requires Behaviour(b) && i < |b|
    ensures Joined(b[i]) && Inv(b[i])
  {
    hide Next, Inv;
    if i == 0 {
      InitInv(b[0]);
    } else {
      BehaviourJoined(b, i - 1);
      assert Next(b[i - 1], b[i - 1 + 1]);
      StepKeepsJoined(b[i - 1], b[i]);
      StepKeepsInv(b[i - 1], b[i]);
    }
  }

  // ---------- the shutdown comes to its end ----------

  /** Everybody has exited, main is through, and all tasks ever created have been run. */
  ghost predicate Ended(g: Sys) {
    g.main == Finished && (forall i :: 0 <= i < |g.s| ==> g.s[i].pc == Exited) && multiset(g.finished) == multiset(g.created)
  }

  /** Steps of a scheduler until it gives its mutex up. */
  function ToRelease(pc: Pc): nat {
    match pc case IdlePred => 2 case IdleBlock => 1 case IdleDone => 1 case _ => 0
  }

  /** Steps of a woken scheduler until it has exited. */
  function ToExit(pc: Pc): nat {
    match pc case IdleWoken => 4 case IdlePred => 3 case IdleDone => 2 case ShouldExit => 1 case _ => 0
  }

  function Remaining(g: Sys): int {
    var n := |g.s|;
    match g.main
    case UnlockAll(k, _) => 20 * n + Left(k, n) + 2
    case SetExit(k) => 20 * (n - k) + 1
    case NotifyExit(k) => 20 * (n - k) - 5 + (if k < n then ToRelease(g.s[k].pc) else 0)
    case SignalExit(k) => 20 * (n - k) - 6
    case Join(k) => 20 * (n - k) - 16 + (if k < n then ToExit(g.s[k].pc) else 0)
    case _ => 0
  }

  /** The scheduler main waits for is about to give its mutex up, or to exit. */
  ghost predicate Waiting(g: Sys, k: nat) {
    k < |g.s| && ((g.main == NotifyExit(k) && g.s[k].mtx != None) || (g.main == Join(k) && g.s[k].pc != Exited))
  }

  lemma MainNearer(g: Sys)
    requires Inv(g) && IdleSeen(g.main) && g.main != Finished
    ensures (exists k :: Waiting(g, k)) || (MainStep(g).Some? && Remaining(MainStep(g).value) < Remaining(g))
    ensures Remaining(g) > 0
  {
    hide Locals, Wakes, Census, MainLocks, Exits, Quiets, Inspected, HasStealable;
    match g.main
    case NotifyExit(k) => assert Waiting(g, k) || g.s[k].mtx == None;
    case Join(k) => assert Waiting(g, k) || g.s[k].pc == Exited;
    case _ =>
  }

  /** Once a scheduler has its exit signal and nobody is still to notify it, it is not blocked. */
  lemma WokenForExit(g: Sys, k: nat)
    requires Inv(g) && g.main == Join(k) && k < |g.s|
    ensures g.s[k].pc != IdleBlocked && g.s[k].pc != IdleBlock && g.s[k].exit && QuietOk(g.s[k])
    ensures g.s[k].mtx != Some(MainThread)
  {
    hide Census, Inspected, LocalOk;
    assert ExitSet(g.main, k);
    assert forall j :: 0 <= j < |g.s| ==> QuietOk(g.s[j]);
    assert !Owed(g, k) && !Signalled(g, k);
  }

  lemma QuietAtNotify(g: Sys, k: nat)
    requires Inv(g) && g.main == NotifyExit(k) && k < |g.s|
    ensures g.s[k].exit && QuietOk(g.s[k]) && g.s[k].mtx != Some(MainThread)
  {
    hide Census, Inspected, LocalOk, Wakes;
    assert ExitSet(g.main, k);
  }

  /** One step of a scheduler that is wanted gone brings it nearer to that. */
  lemma ExitStep(sc: Sched, n: nat, me: nat, last: bool, held: bool) returns (sc': Sched)
    requires LocalOk(sc, n, me) && Wf(sc.q) && QuietOk(sc) && sc.exit && sc.mtx != Some(MainThread) && sc.pc != Exited
    requires if held then sc.mtx != None else sc.pc != IdleBlock && sc.pc != IdleBlocked
    ensures OwnStep(sc, n, me, Flag(false), false, last) == Some(sc')
    ensures if held then ToRelease(sc'.pc) < ToRelease(sc.pc) else ToExit(sc'.pc) < ToExit(sc.pc)
  {
    hide Wf, Parked;
    HolderKinds(sc.mtx);
    Members(sc.q);
    sc' := OwnStep(sc, n, me, Flag(false), false, last).value;
  }

  lemma WaitedNearer(g: Sys, k: nat) returns (g': Sys)
    requires Inv(g) && IdleSeen(g.main) && Waiting(g, k)
    ensures Next(g, g') && Inv(g') && g'.main == g.main && Remaining(g') < Remaining(g)
  {
    hide Inv, Next, QuietOk, OwnStep, LocalOk, Wf, R.Reaches;
    LocalAt(g, k);
    if g.main == Join(k) { WokenForExit(g, k); } else { QuietAtNotify(g, k); HeldRuns(g, k); }
    var sc := g.s[k];
    NoSteal(sc);
    var sc' := ExitStep(sc, |g.s|, k, g.idleCount + 1 >= |g.s|, g.main != Join(k));
    R.OwnGoes(g, k, Flag(false), sc');
    g' := R.After(g, k, sc', Flag(false));
  }

  lemma HeldRuns(g: Sys, k: nat)
    requires LocalOkAt(g, k) && g.s[k].mtx != None && g.s[k].mtx != Some(MainThread)
    ensures g.s[k].pc != Exited
  {
    hide QueuesOk;
    HolderKinds(g.s[k].mtx);
  }

  ghost predicate LocalOkAt(g: Sys, k: nat) {
    k < |g.s| && LocalOk(g.s[k], |g.s|, k)
  }

  lemma NoSteal(sc: Sched)
    requires QuietOk(sc)
    ensures !sc.pc.Steal?
  {
  }

  lemma SeenStays(g: Sys, g': Sys)
    requires Inv(g) && IdleSeen(g.main) && Next(g, g')
    ensures IdleSeen(g'.main)
  {
    hide Inv, Next, IdleSeen;
    QuietStep(g, g');
  }

  lemma EndsFrom(g: Sys) returns (e: Sys)
    requires Inv(g) && IdleSeen(g.main) && Joined(g)
    ensures R.Comes(g, e) && Inv(e) && Joined(e) && e.main == Finished
    decreases Remaining(g)
  {
    hide Inv, Next, R.Comes, Joined, Remaining, Waiting, MainStep;
    if g.main == Finished {
      R.ComesBack(g);
      e := g;
    } else {
      A.InMain(g);
      MainNearer(g);
      var g': Sys;
      if k :| Waiting(g, k) {
        g' := WaitedNearer(g, k);
      } else {
        g' := MainStep(g).value;
        R.MainGoes(g, g');
      }
      SeenStays(g, g');
      StepKeepsJoined(g, g');
      e := EndsFrom(g');
      R.ComesBy(g, g', e);
    }
  }

  lemma AllRun(g: Sys)
    requires Inv(g) && Joined(g) && g.main == Finished
    ensures Ended(g)
  {
    hide LocalOk, QuietOk, Bag;
    forall d | 0 <= d < |g.s| ensures Bag(g.s[d]) == multiset{} {
      QuietBag(g.s[d], |g.s|, d);
    }
    NoBags(g.s);
  }

  ghost predicate CanEnd(g: Sys) {
    exists e :: R.Comes(g, e) && Ended(e)
  }

  /** From a yes of `all_idle` on there always is a run in which every scheduler exits and main has joined them all. */
  lemma ShutdownCompletes(b: seq<Sys>, i: nat)
    requires Behaviour(b) && i < |b| && IdleSeen(b[i].main)
    ensures CanEnd(b[i])
  {
    hide Behaviour, Inv, Joined, Ended, R.Comes;
    BehaviourJoined(b, i);
    var e := EndsFrom(b[i]);
    AllRun(e);
  }

  // ---------- the last one to fall asleep ----------

  /** Scheduler `d` is the last one awake and has just found nothing to do; main sleeps in `wait_exit` or is about to look. */
  ghost predicate LastAwake(g: Sys, d: nat) {
    && d < |g.s| && (g.main == WaitExit || g.main == Asleep) && g.s[d].pc == IdleCount
    && forall i :: 0 <= i < |g.s| ==> g.s[i].tasks == [] && !g.s[i].exit && (i != d ==> g.s[i].pc == IdleBlocked)
  }

  lemma {:induction false} AllCounted(s: seq<Sched>)
    requires forall i :: 0 <= i < |s| ==> Counted(s[i].pc) == 1
    ensures CountIdle(s) == |s|
  {
    if s == [] {
    } else {
      AllCounted(s[1..]);
    }
  }

  lemma OneMissing(g: Sys, d: nat)
    requires Inv(g) && LastAwake(g, d)
    ensures g.idleCount == |g.s| - 1
  {
    hide Core, Wakes, Census;
    var x := g.s[d].(pc := IdlePred);
    CountIdleUpdate(g.s, d, x);
    AllCounted(g.s[d := x]);
  }

  /** Its own steps alone report to main and block. */
  lemma LastReports(g: Sys, d: nat)
    requires Inv(g) && LastAwake(g, d)
    ensures R.Reaches(g, d, S.IdleDown(g, d)) && Inv(S.IdleDown(g, d)) && S.IdleDown(g, d).checkIdle
  {
    hide Inv, R.Reaches;
    OneMissing(g, d);
    S.IdleBlocks(g, d);
    R.KeepsInv(g, d, S.IdleDown(g, d));
  }

  lemma AllQuiet(g: Sys, d: nat)
    requires Inv(g) && LastAwake(g, d)
    ensures A.Unlocked(S.IdleDown(g, d).s) && A.Quiet(S.IdleDown(g, d).s, 0)
  {
    hide Wakes, Census, Exits, Quiets, Inspected, QueuesOk;
    forall i | 0 <= i < |g.s| && i != d ensures g.s[i].mtx == None && g.s[i].phase == IdleSleep {
      assert LocalOk(g.s[i], |g.s|, i);
      assert !MainHolds(g.main, i);
      HolderKinds(g.s[i].mtx);
    }
    assert LocalOk(g.s[d], |g.s|, d);
    assert S.IdleDown(g, d).s[d].tasks == [];
  }

  /** The last scheduler to find nothing to do sets the end off: from there on a run leads to the end of everything. */
  lemma LastIdleEnds(b: seq<Sys>, i: nat, d: nat)
    requires Behaviour(b) && i < |b| && LastAwake(b[i], d)
    ensures CanEnd(b[i])
  {
    hide Behaviour, Inv, Joined, Ended, R.Comes, R.Reaches, LastAwake;
    var g := b[i];
    BehaviourJoined(b, i);
    LastMain(g, d);
    LastReports(g, d);
    OneMissing(g, d);
    AllQuiet(g, d);
    var g1 := S.IdleDown(g, d);
    A.EvaluatesTo(g1);
    var g2 := A.Answer(g1, true);
    R.KeepsInv(g1, |g1.s|, g2);
    NoneJoined(g2);
    var e := EndsFrom(g2);
    AllRun(e);
    R.SoloComes(g1, |g1.s|, g2, e);
    R.SoloComes(g, d, g1, e);
  }

  lemma LastMain(g: Sys, d: nat)
    requires LastAwake(g, d)
    ensures (g.main == WaitExit || g.main == Asleep) && d < |g.s|
  {
  }

  lemma NoneJoined(g: Sys)
    requires g.main == SetExit(0)
    ensures Joined(g)
  {
  }
}
