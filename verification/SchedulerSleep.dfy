/**
 Falling asleep and waking up again: what `sleep` comes to with all other threads standing still, and that a task
 queued for a sleeping scheduler can always be brought to run there.
 */
module SchedulerSleep {
  import opened Common
  import opened SchedulerQueues
  import opened SchedulerSystem
  import opened SchedulerLocal
  import opened SchedulerInvariant
  import opened SchedulerTheorems
  import opened SchedulerWakeup
  import opened SchedulerRuns
  import opened SchedulerPass

  // ---------- the idle wait ----------

  lemma IdleGoes(g: Sys, d: nat, sc': Sched) returns (g': Sys)
    requires Inv(g) && d < |g.s| && PartOf(g.s[d].pc) == IdlePart && IdleStep(g.s[d], g.idleCount + 1 >= |g.s|) == Some(sc')
    ensures Reaches(g, d, g') && Inv(g')
    ensures g' == g.(s := g.s[d := sc'], idleCount := g.idleCount + CountDelta(g.s[d].pc),
                     checkIdle := g.checkIdle || g.s[d].pc == IdleReport)
  {
    hide Inv, Reaches, Wf, Next;
    LocalAt(g, d);
    g' := After(g, d, sc', Flag(false));
    OwnGoes(g, d, Flag(false), sc');
  }

  /** Scheduler `d` blocked and counted; if it was the last one awake, the report is made and wakes `wait_exit` if it sleeps. */
  function IdleDown(g: Sys, d: nat): Sys
    requires d < |g.s|
  {
    g.(s := g.s[d := g.s[d].(phase := IdleSleep, running := false, mtx := None, pc := IdleBlocked)],
       idleCount := g.idleCount + 1, checkIdle := g.checkIdle || g.idleCount + 1 >= |g.s|,
       main := if g.idleCount + 1 >= |g.s| then Roused(g.main) else g.main)
  }

  lemma IdleBlocks(g: Sys, d: nat)
    requires Inv(g) && d < |g.s| && g.s[d].pc == IdleCount && g.s[d].tasks == [] && !g.s[d].exit
    ensures Reaches(g, d, IdleDown(g, d))
  {
    hide Inv, Reaches, IdleDown, LocalOk;
    LocalAt(g, d);
    var g1 := Counts(g, d);
    Blocks(g1, d);
    CountedDown(g, d, g1);
    GoesOn(g, d, g1, IdleDown(g, d));
  }

  lemma CountedDown(g: Sys, d: nat, g1: Sys)
    requires d < |g.s| && LocalOk(g.s[d], |g.s|, d) && g.s[d].pc == IdleCount
    requires g1 == At(g, d, g.s[d].(running := false, pc := IdlePred)).(
      idleCount := g.idleCount + 1, checkIdle := g.checkIdle || g.idleCount + 1 >= |g.s|,
      main := if g.idleCount + 1 >= |g.s| then Roused(g.main) else g.main)
    ensures At(g1, d, g1.s[d].(mtx := None, pc := IdleBlocked)) == IdleDown(g, d)
  {
    hide QueuesOk;
  }

  lemma Reports(g: Sys, d: nat) returns (g': Sys)
    requires Inv(g) && d < |g.s| && g.s[d].pc == IdleSignal
    ensures Reaches(g, d, g') && Inv(g') && g' == WithPc(g, d, IdlePred).(main := Roused(g.main))
  {
    hide Inv, Reaches, Typed;
    InvIsTyped(g);
    g' := WithPc(g, d, IdlePred).(main := Roused(g.main));
    ReportDoes(g, d);
    ActGoes(g, Report(d), g');
  }

  lemma ReportDoes(g: Sys, d: nat)
    requires Typed(g) && d < |g.s| && g.s[d].pc == IdleSignal
    ensures Do(g, Report(d)) == Some(WithPc(g, d, IdlePred).(main := Roused(g.main)))
  {
    hide Typed, OwnActStep, MainStep;
  }

  lemma Counts(g: Sys, d: nat) returns (g': Sys)
    requires Inv(g) && d < |g.s| && g.s[d].pc == IdleCount
    ensures Reaches(g, d, g') && Inv(g')
    ensures g' == At(g, d, g.s[d].(running := false, pc := IdlePred)).(
      idleCount := g.idleCount + 1, checkIdle := g.checkIdle || g.idleCount + 1 >= |g.s|,
      main := if g.idleCount + 1 >= |g.s| then Roused(g.main) else g.main)
  {
    hide Inv, Reaches;
    var x := g.s[d].(running := false, pc := IdlePred);
    if g.idleCount + 1 >= |g.s| {
      var g1 := IdleGoes(g, d, x.(pc := IdleReport));
      var g2 := IdleGoes(g1, d, x.(pc := IdleSignal));
      GoesOn(g, d, g1, g2);
      g' := Reports(g2, d);
      GoesOn(g, d, g2, g');
    } else {
      g' := IdleGoes(g, d, x);
    }
  }

  lemma Blocks(g: Sys, d: nat)
    requires Inv(g) && d < |g.s| && g.s[d].pc == IdlePred && g.s[d].tasks == [] && !g.s[d].exit
    ensures Reaches(g, d, At(g, d, g.s[d].(mtx := None, pc := IdleBlocked)))
  {
    hide Inv, Reaches, Wf;
    LocalAt(g, d);
    var sc := g.s[d];
    var (sc1, sc2) := (sc.(pc := IdleBlock), sc.(mtx := None, pc := IdleBlocked));
    Goes(g, d, Flag(false), sc1);
    AtTwice(g, d, sc1, sc2);
    Goes(At(g, d, sc1), d, Flag(false), sc2);
    GoesOnAt(g, d, sc1, sc2);
  }

  // ---------- falling asleep ----------

  /** After the last look at the flags of waiting workers: on with the loop, or into the bounded wait. */
  function Looked(sc: Sched, on: bool): Sched {
    if on then sc.(mtx := None, pc := ShouldExit)
    else sc.(phase := IdleWait, running := false, mtx := None, pc := WaitBlocked)
  }

  predicate FlagFrom(sc: Sched, k: nat) {
    exists j :: k <= j < |sc.q.waiting| && sc.q.waiting[j] in sc.cond
  }

  lemma {:induction false} ReadsFlags(g: Sys, d: nat, late: bool)
    requires Inv(g) && d < |g.s| && g.s[d].pc.Conds?
    ensures Reaches(g, d, At(g, d, Looked(g.s[d], g.s[d].pc.found || late || FlagFrom(g.s[d], g.s[d].pc.k))))
    decreases |g.s[d].q.waiting| - g.s[d].pc.k
  {
    hide Inv, Reaches, Wf;
    LocalAt(g, d);
    var sc := g.s[d];
    var (k, found) := (sc.pc.k, sc.pc.found);
    if k < |sc.q.waiting| {
      var sc1 := sc.(pc := Conds(k + 1, found || sc.q.waiting[k] in sc.cond));
      Goes(g, d, Flag(late), sc1);
      AtTwice(g, d, sc1, sc1);
      ReadsFlags(At(g, d, sc1), d, late);
      assert FlagFrom(sc, k) == (sc.q.waiting[k] in sc.cond || FlagFrom(sc1, k + 1));
      GoesOnAt(g, d, sc1, Looked(sc, found || late || FlagFrom(sc, k)));
    } else {
      Goes(g, d, Flag(late), Looked(sc, found || late));
    }
  }

  /** A waiting worker has been notified. */
  ghost predicate SomeFlag(sc: Sched) {
    exists w :: w in sc.q.waiting && w in sc.cond
  }

  lemma FlagAnywhere(sc: Sched)
    ensures FlagFrom(sc, 0) == SomeFlag(sc)
  {
    if FlagFrom(sc, 0) {
      var j :| 0 <= j < |sc.q.waiting| && sc.q.waiting[j] in sc.cond;
      assert sc.q.waiting[j] in sc.q.waiting;
    }
    if SomeFlag(sc) {
      var w :| w in sc.q.waiting && w in sc.cond;
      var j :| 0 <= j < |sc.q.waiting| && sc.q.waiting[j] == w;
    }
  }

  /** There is a reason to go round the loop again instead of sleeping; `late` tells whether some deadline has passed. */
  ghost predicate StaysUp(sc: Sched, late: bool) {
    || sc.q.pendingIo != [] || Startable(sc) || (sc.exit && sc.q.waiting == [] && sc.tasks == [])
    || (sc.q.waiting != [] && (late || SomeFlag(sc)))
  }

  lemma SomebodyIdle(q: Queues)
    requires AllAsleep(q)
    ensures q.idle != []
  {
    AllIdleWhenAsleep(q, q.current);
    assert q.current in q.idle;
  }

  /** What is left of the critical section once no reason to go on has been found but, perhaps, a raised flag. */
  ghost function KindEnd(g: Sys, d: nat, late: bool): Sys
    requires d < |g.s|
  {
    if g.s[d].q.waiting != [] then At(g, d, Looked(g.s[d], late || SomeFlag(g.s[d]))) else IdleDown(g, d)
  }

  lemma KindEnds(g: Sys, d: nat, late: bool)
    requires Inv(g) && d < |g.s| && g.s[d].pc == SleepKind
    requires g.s[d].q.waiting == [] ==> g.s[d].tasks == [] && !g.s[d].exit
    ensures Reaches(g, d, KindEnd(g, d, late))
  {
    hide Inv, Reaches, Wf, FlagFrom, SomeFlag;
    LocalAt(g, d);
    var sc := g.s[d];
    if sc.q.waiting != [] {
      var sc1 := sc.(pc := Conds(0, false));
      Goes(g, d, Flag(false), sc1);
      AtTwice(g, d, sc1, sc1);
      ReadsFlags(At(g, d, sc1), d, late);
      FlagAnywhere(sc1);
      SameFlags(sc1, sc);
      GoesOnAt(g, d, sc1, Looked(sc, late || SomeFlag(sc)));
    } else {
      var sc1 := sc.(phase := IdleSleep, pc := IdleCount);
      Goes(g, d, Flag(false), sc1);
      IdleBlocks(At(g, d, sc1), d);
      assert IdleDown(At(g, d, sc1), d) == IdleDown(g, d);
      GoesOn(g, d, At(g, d, sc1), IdleDown(g, d));
    }
  }

  lemma SameFlags(x: Sched, y: Sched)
    requires x.q == y.q && x.cond == y.cond
    ensures SomeFlag(x) == SomeFlag(y)
  {
  }

  lemma ExitEnds(g: Sys, d: nat, late: bool)
    requires Inv(g) && d < |g.s| && g.s[d].pc == SleepExit && !Startable(g.s[d])
    ensures var sc := g.s[d];
      Reaches(g, d, if sc.exit && sc.q.waiting == [] && sc.tasks == [] then At(g, d, Looked(sc, true)) else KindEnd(g, d, late))
  {
    hide Inv, Reaches, Wf, SomeFlag, IdleDown, NoneRuns;
    LocalAt(g, d);
    var sc := g.s[d];
    if sc.exit && sc.q.waiting == [] && sc.tasks == [] {
      Goes(g, d, Flag(false), Looked(sc, true));
    } else {
      var sc1 := sc.(pc := SleepKind);
      Goes(g, d, Flag(false), sc1);
      AtTwice(g, d, sc1, sc1);
      if sc.q.waiting == [] { SomebodyIdle(sc.q); }
      KindEnds(At(g, d, sc1), d, late);
      SameEnd(g, d, sc1, late);
      GoesOn(g, d, At(g, d, sc1), KindEnd(g, d, late));
    }
  }

  lemma SameEnd(g: Sys, d: nat, x: Sched, late: bool)
    requires d < |g.s| && x.(mtx := None, pc := SleepKind) == g.s[d].(mtx := None, pc := SleepKind)
    ensures KindEnd(At(g, d, x), d, late) == KindEnd(g, d, late)
  {
    hide SomeFlag;
    SameFlags(x, g.s[d]);
    AtTwice(g, d, x, Looked(x, late || SomeFlag(x)));
    AtTwice(g, d, x, x.(phase := IdleSleep, running := false, mtx := None, pc := IdleBlocked));
  }

  /** What `wait_cond_or_sleep` comes to. */
  ghost predicate Slept(g: Sys, d: nat, late: bool, g': Sys)
    requires d < |g.s|
  {
    var sc := g.s[d];
    if StaysUp(sc, late) then g' == At(g, d, sc.(pc := ShouldExit))
    else if sc.q.waiting != [] then g' == At(g, d, sc.(phase := IdleWait, running := false, pc := WaitBlocked))
    else g' == IdleDown(g, d)
  }

  lemma SectionEnds(g: Sys, d: nat, late: bool) returns (g': Sys)
    requires Inv(g) && d < |g.s| && g.s[d].pc == SleepTasks
    ensures Reaches(g, d, g') && Slept(At(g, d, g.s[d].(mtx := None)), d, late, g')
  {
    hide Inv, Reaches, Wf, SomeFlag, IdleDown;
    LocalAt(g, d);
    var sc := g.s[d];
    if Startable(sc) {
      g' := At(g, d, Looked(sc, true));
      Goes(g, d, Flag(false), Looked(sc, true));
    } else {
      var sc1 := sc.(pc := SleepExit);
      Goes(g, d, Flag(false), sc1);
      AtTwice(g, d, sc1, Looked(sc, true));
      ExitEnds(At(g, d, sc1), d, late);
      SameEnd(g, d, sc1, late);
      g' := if sc.exit && sc.q.waiting == [] && sc.tasks == [] then At(g, d, Looked(sc, true)) else KindEnd(g, d, late);
      GoesOn(g, d, At(g, d, sc1), g');
    }
    FromUnlocked(g, d, late, g');
  }

  lemma FromUnlocked(g: Sys, d: nat, late: bool, g': Sys)
    requires d < |g.s| && g.s[d].q.pendingIo == [] && g.s[d].phase == RunningPhase
    requires g' == if Startable(g.s[d]) || (g.s[d].exit && g.s[d].q.waiting == [] && g.s[d].tasks == [])
                   then At(g, d, Looked(g.s[d], true)) else KindEnd(g, d, late)
    ensures Slept(At(g, d, g.s[d].(mtx := None)), d, late, g')
  {
    hide SomeFlag;
    var sc := g.s[d];
    var x := sc.(mtx := None);
    SameFlags(sc, x);
    AtTwice(g, d, x, Looked(sc, true));
    AtTwice(g, d, x, Looked(sc, false));
  }

  lemma FallsAsleep(g: Sys, d: nat, late: bool) returns (g': Sys)
    requires Inv(g) && d < |g.s| && g.s[d].pc == SleepEntry && g.s[d].mtx == None
    ensures Reaches(g, d, g') && Slept(g, d, late, g')
  {
    hide Inv, Reaches, Wf, SomeFlag, Slept;
    LocalAt(g, d);
    var (sc, c) := (g.s[d], Flag(false));
    if sc.q.pendingIo != [] {
      g' := At(g, d, sc.(pc := ShouldExit));
      Goes(g, d, c, sc.(pc := ShouldExit));
      BusyWithIo(g, d, late);
    } else {
      var sc1 := sc.(pc := SleepLock);
      Goes(g, d, c, sc1);
      var sc2 := sc.(mtx := Some(Own), pc := SleepTasks);
      AtTwice(g, d, sc1, sc2);
      Goes(At(g, d, sc1), d, c, sc2);
      GoesOnAt(g, d, sc1, sc2);
      AtTwice(g, d, sc2, sc2.(mtx := None));
      g' := SectionEnds(At(g, d, sc2), d, late);
      GoesOn(g, d, At(g, d, sc2), g');
      FromEntry(g, d, late, g');
    }
  }

  lemma BusyWithIo(g: Sys, d: nat, late: bool)
    requires d < |g.s| && g.s[d].q.pendingIo != []
    ensures Slept(g, d, late, At(g, d, g.s[d].(pc := ShouldExit)))
  {
  }

  lemma FromEntry(g: Sys, d: nat, late: bool, g': Sys)
    requires d < |g.s| && g.s[d].mtx == None && Slept(At(g, d, g.s[d].(pc := SleepTasks)), d, late, g')
    ensures Slept(g, d, late, g')
  {
    hide SomeFlag;
    var x := g.s[d].(pc := SleepTasks);
    SameFlags(x, g.s[d]);
    AtTwice(g, d, x, x.(pc := ShouldExit));
    AtTwice(g, d, x, x.(phase := IdleWait, running := false, pc := WaitBlocked));
    AtTwice(g, d, x, x.(phase := IdleSleep, running := false, mtx := None, pc := IdleBlocked));
  }

  /**
   `wait_cond_or_sleep` of scheduler `d` in any reachable state with its mutex free: it goes round the loop again
   exactly if there is a reason to, and otherwise blocks, counted as idle only if no worker of it waits.
   */
  lemma SleepResult(b: seq<Sys>, i: nat, d: nat, late: bool)
    requires Behaviour(b) && i < |b| && d < |b[i].s| && b[i].s[d].pc == SleepEntry && b[i].s[d].mtx == None
    ensures exists g' :: Reaches(b[i], d, g') && Slept(b[i], d, late, g')
  {
    hide Behaviour, Inv, Reaches, Slept;
    BehaviourInv(b, i);
    var g' := FallsAsleep(b[i], d, late);
  }

  // ---------- waking up ----------

  /**
   What a thread out of its wait comes to: `m_running` or the clock ends the bounded wait, a queued task or the exit
   signal the idle one, and anything else leads back into it.
   */
  ghost predicate Awoke(g: Sys, d: nat, late: bool, e: Sys)
    requires d < |g.s|
  {
    var sc := g.s[d];
    if sc.pc == WaitWoken then
      e == At(g, d, if sc.running || late then sc.(running := true, phase := RunningPhase, pc := ShouldExit)
                    else sc.(pc := WaitBlocked))
    else if sc.tasks != [] || sc.exit then
      e == At(g, d, sc.(phase := RunningPhase, pc := ShouldExit)).(idleCount := g.idleCount - 1)
    else e == At(g, d, sc.(pc := IdleBlocked))
  }

  lemma WaitWakes(g: Sys, d: nat, late: bool) returns (e: Sys)
    requires Inv(g) && d < |g.s| && g.s[d].pc == WaitWoken && g.s[d].mtx == None
    ensures Reaches(g, d, e) && Awoke(g, d, late, e)
  {
    hide Inv, Reaches, Wf;
    LocalAt(g, d);
    var sc := g.s[d];
    var x := if sc.running || late then sc.(running := true, phase := RunningPhase, pc := ShouldExit) else sc.(pc := WaitBlocked);
    Goes(g, d, Flag(late), x);
    e := At(g, d, x);
  }

  lemma IdleWakes(g: Sys, d: nat, late: bool) returns (e: Sys)
    requires Inv(g) && d < |g.s| && g.s[d].pc == IdleWoken && g.s[d].mtx == None
    ensures Reaches(g, d, e) && Awoke(g, d, late, e)
  {
    hide Inv, Reaches, Wf;
    LocalAt(g, d);
    var sc := g.s[d];
    var sc1 := sc.(mtx := Some(Own), pc := IdlePred);
    Goes(g, d, Flag(false), sc1);
    var g1 := At(g, d, sc1);
    if sc.tasks != [] || sc.exit {
      e := GivesUpSleep(g1, d);
      AtTwice(g, d, sc1, sc.(phase := RunningPhase, pc := ShouldExit));
    } else {
      Blocks(g1, d);
      AtTwice(g, d, sc1, sc.(pc := IdleBlocked));
      e := At(g, d, sc.(pc := IdleBlocked));
    }
    GoesOn(g, d, g1, e);
  }

  lemma GivesUpSleep(g: Sys, d: nat) returns (e: Sys)
    requires Inv(g) && d < |g.s| && g.s[d].pc == IdlePred && (g.s[d].tasks != [] || g.s[d].exit)
    ensures Reaches(g, d, e)
    ensures e == At(g, d, g.s[d].(phase := RunningPhase, mtx := None, pc := ShouldExit)).(idleCount := g.idleCount - 1)
  {
    hide Inv, Reaches, Wf;
    LocalAt(g, d);
    var sc1 := g.s[d].(pc := IdleDone);
    Goes(g, d, Flag(false), sc1);
    AtTwice(g, d, sc1, g.s[d].(phase := RunningPhase, mtx := None, pc := ShouldExit));
    e := CountsDown(At(g, d, sc1), d);
    GoesOn(g, d, At(g, d, sc1), e);
  }

  lemma CountsDown(g: Sys, d: nat) returns (e: Sys)
    requires Inv(g) && d < |g.s| && g.s[d].pc == IdleDone
    ensures Reaches(g, d, e)
    ensures e == At(g, d, g.s[d].(phase := RunningPhase, mtx := None, pc := ShouldExit)).(idleCount := g.idleCount - 1)
  {
    hide Inv, Reaches;
    e := IdleGoes(g, d, g.s[d].(phase := RunningPhase, mtx := None, pc := ShouldExit));
  }

  lemma WakeResult(b: seq<Sys>, i: nat, d: nat, late: bool)
    requires Behaviour(b) && i < |b| && d < |b[i].s| && (b[i].s[d].pc == WaitWoken || b[i].s[d].pc == IdleWoken)
    requires b[i].s[d].mtx == None
    ensures exists e :: Reaches(b[i], d, e) && Awoke(b[i], d, late, e)
  {
    hide Behaviour, Inv, Reaches, Awoke;
    BehaviourInv(b, i);
    if b[i].s[d].pc == WaitWoken {
      var e := WaitWakes(b[i], d, late);
    } else {
      var e := IdleWakes(b[i], d, late);
    }
  }
}
