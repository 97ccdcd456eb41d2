/** A task queued for a sleeping scheduler can always be brought to run there, whoever holds the mutex at the moment. */
module SchedulerResume {
  import opened Common
  import opened SchedulerQueues
  import opened SchedulerSystem
  import opened SchedulerLocal
  import opened SchedulerInvariant
  import opened SchedulerTheorems
  import opened SchedulerWakeup
  import opened SchedulerRuns
  import opened SchedulerPass
  import S = SchedulerSleep

  lemma {:induction false} RunKeepsInv(p: seq<Sys>, i: nat)
    requires Run(p) && Inv(p[0]) && i < |p|
    ensures Inv(p[i])
  {
    hide Inv, Next;
    if i == 0 {
    } else {
      RunKeepsInv(p, i - 1);
      assert Next(p[i - 1], p[i - 1 + 1]);
      StepKeepsInv(p[i - 1], p[i]);
    }
  }

  /** The same scheduler but for its mutex and `m_running`. */
  predicate Alike(sc: Sched, sc': Sched) {
    sc'.(mtx := None, running := true) == sc.(mtx := None, running := true)
  }

  /** While a scheduler still has a task the exit signal has not been given. */
  lemma NoExitYet(g: Sys, d: nat)
    requires Inv(g) && d < |g.s| && g.s[d].tasks != []
    ensures !g.s[d].exit
  {
    hide LocalOk, Census, Wakes;
    assert IdleSeen(g.main) ==> QuietOk(g.s[d]);
    assert g.s[d].exit <==> ExitSet(g.main, d);
  }

  lemma OnlyMainHolds(g: Sys, d: nat)
    requires Inv(g) && d < |g.s| && g.s[d].pc == IdleWoken && g.s[d].mtx != None
    ensures g.s[d].mtx == Some(MainThread)
  {
    hide Inv, QueuesOk;
    LocalAt(g, d);
    HolderKinds(g.s[d].mtx);
  }

  lemma CloserKeeps(g: Sys, g': Sys, d: nat)
    requires Closer(g, g') && d < |g.s| && g.s[d].pc == IdleWoken
    ensures |g'.s| == |g.s| && Alike(g.s[d], g'.s[d])
    ensures Stage(g'.main, |g'.s|) < Stage(g.main, |g.s|)
         || (Stage(g'.main, |g'.s|) == Stage(g.main, |g.s|) && Awaited(g') < Awaited(g))
  {
    assert g'.s[d].(mtx := None) == g.s[d].(mtx := None);
    assert g'.s[d].(mtx := None).(running := true) == g.s[d].(mtx := None).(running := true);
  }

  /** Main gives the mutex of a woken scheduler back. */
  lemma Freed(g: Sys, d: nat) returns (g': Sys)
    requires Inv(g) && d < |g.s| && g.s[d].pc == IdleWoken
    ensures Comes(g, g') && Inv(g') && |g'.s| == |g.s| && Alike(g.s[d], g'.s[d]) && g'.s[d].mtx == None
    decreases Stage(g.main, |g.s|), Awaited(g)
  {
    hide Inv, Comes, Next, Closer, Stage, Awaited;
    if g.s[d].mtx == None {
      ComesBack(g);
      g' := g;
    } else {
      OnlyMainHolds(g, d);
      var g1 := AllIdleCloser(g, d);
      StepKeepsInv(g, g1);
      CloserKeeps(g, g1, d);
      assert g1.s[d].pc == g.s[d].(mtx := None, running := true).pc;
      g' := Freed(g1, d);
      ComesBy(g, g1, g');
    }
  }

  /** Out of the wait and back at the top of the loop. */
  lemma GetsUp(g: Sys, d: nat) returns (g': Sys)
    requires Inv(g) && d < |g.s| && g.s[d].pc == IdleWoken && g.s[d].mtx == None && g.s[d].tasks != []
    ensures Reaches(g, d, g') && Inv(g') && |g'.s| == |g.s|
    ensures g'.s[d] == g.s[d].(phase := RunningPhase, pc := IoScan)
  {
    hide Inv, Reaches, Wf;
    NoExitYet(g, d);
    var g1 := S.IdleWakes(g, d, false);
    KeepsInv(g, d, g1);
    LocalAt(g1, d);
    var sc := g1.s[d].(pc := IoScan);
    Goes(g1, d, Flag(false), sc);
    g' := At(g1, d, sc);
    GoesOn(g, d, g1, g');
  }

  /** The oldest task of `sc` runs on its front idle worker. */
  ghost predicate Started(sc: Sched, sc': Sched) {
    sc.tasks != [] && sc'.pc == Exec && Resumes(sc.q, sc.tasks[0], sc'.q) && sc'.tasks == sc.tasks[1..]
  }

  lemma StartsFrom(g: Sys, d: nat) returns (g': Sys)
    requires Inv(g) && d < |g.s| && g.s[d].pc == IdleWoken && g.s[d].mtx == None && g.s[d].tasks != []
    ensures Reaches(g, d, g') && d < |g'.s| && Started(g.s[d], g'.s[d])
  {
    hide Inv, Reaches, Parked, Turn, Resumes;
    IdleScheduler(g, d);
    S.SomebodyIdle(g.s[d].q);
    var g1 := GetsUp(g, d);
    g' := TakesTurn(g1, d, [], []);
    TurnStarts(g1, d, g');
    GoesOn(g, d, g1, g');
  }

  lemma TurnStarts(g: Sys, d: nat, g': Sys)
    requires d < |g.s| && g.s[d].q.runnable == [] && g.s[d].q.pendingIo == [] && g.s[d].q.waiting == []
    requires g.s[d].tasks != [] && g.s[d].q.idle != [] && Turn(g, d, [], [], g')
    ensures d < |g'.s| && Started(g.s[d], g'.s[d])
  {
    hide Resumes, NoneWorth, HasStealable;
    assert Ready(g.s[d].q, [], []) == [];
  }

  lemma RunComes(p: seq<Sys>, g: Sys, d: nat)
    requires Delivers(p, g, d)
    ensures p != [] && Comes(g, Last(p)) && d < |g.s| && |Last(p).s| == |g.s|
    ensures Alike(g.s[d].(pc := Woken(g.s[d].pc)), Last(p).s[d])
  {
    hide Next;
    var sc, sc' := g.s[d].(pc := Woken(g.s[d].pc)), Last(p).s[d];
    assert sc.(mtx := None, running := true) == g.s[d].(pc := Woken(g.s[d].pc), running := true, mtx := None);
    assert sc'.(mtx := None, running := true) == sc'.(running := true, mtx := None);
  }

  lemma {:induction false} ComesKeepsInv(g: Sys, g': Sys)
    requires Inv(g) && Comes(g, g')
    ensures Inv(g')
  {
    hide Inv, Next;
    var p :| Run(p) && p[0] == g && Last(p) == g';
    RunKeepsInv(p, |p| - 1);
  }

  /**
   A task queued for a scheduler that sleeps is not lost, and neither is its turn: some run leads from any such state
   to the moment the oldest queued task runs there, on the worker that was first in line.
   */
  lemma QueuedTaskRuns(b: seq<Sys>, i: nat, d: nat)
    requires Behaviour(b) && i < |b| && d < |b[i].s| && b[i].s[d].pc == IdleBlocked && b[i].s[d].tasks != []
    ensures exists g' :: Comes(b[i], g') && d < |g'.s| && Started(b[i].s[d], g'.s[d])
  {
    hide Behaviour, Inv, Owed, Signalled, WorkReady, Comes, Reaches, Delivers, Started;
    var g := b[i];
    NoLostWakeup(b, i, d);
    BehaviourInv(b, i);
    var p := DeliverFrom(g, d);
    RunComes(p, g, d);
    var g1 := Last(p);
    ComesKeepsInv(g, g1);
    AlikeFacts(g.s[d].(pc := IdleWoken), g1.s[d]);
    var g2 := Freed(g1, d);
    AlikeFacts(g1.s[d], g2.s[d]);
    var g3 := StartsFrom(g2, d);
    ComesBack(g3);
    SoloComes(g2, d, g3, g3);
    ComesOn(g1, g2, g3);
    ComesOn(g, g1, g3);
    SameStart(g2.s[d], g.s[d], g3.s[d]);
  }

  lemma AlikeFacts(sc: Sched, sc': Sched)
    requires Alike(sc, sc')
    ensures sc'.pc == sc.pc && sc'.q == sc.q && sc'.tasks == sc.tasks
  {
    var (x, x') := (sc.(mtx := None, running := true), sc'.(mtx := None, running := true));
    assert x'.pc == x.pc && x'.q == x.q && x'.tasks == x.tasks;
  }

  lemma SameStart(x: Sched, y: Sched, sc': Sched)
    requires x.q == y.q && x.tasks == y.tasks && Started(x, sc')
    ensures Started(y, sc')
  {
  }
}
