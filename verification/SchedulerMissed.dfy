/** A run in which the last report is missed: a program whose only task is over before main has gone to sleep. */
module SchedulerMissed {
  import opened Common
  import opened SchedulerQueues
  import opened SchedulerSystem
  import opened SchedulerLocal
  import opened SchedulerInvariant
  import opened SchedulerTheorems
  import opened SchedulerRuns
  import opened SchedulerPass
  import opened SchedulerSleep
  import opened SchedulerReport
  import U = SchedulerUser
  import W = SchedulerWaiting

  // ---------- the workers of a scheduler stay the same ----------

  lemma OwnStepWorkers(sc: Sched, n: nat, me: nat, c: Choice, worthIt: bool, last: bool, sc': Sched)
    requires LocalOk(sc, n, me) && Wf(sc.q) && OwnStep(sc, n, me, c, worthIt, last) == Some(sc')
    ensures sc'.q.workers == sc.q.workers
  {
    hide LocalOk, Wf, UserStep, QueueStep, TestStep, SleepStep, IdleStep;
    match PartOf(sc.pc)
    case UserPart => UserStepStock(sc, c, sc');
    case QueuePart => if sc.pc.Hand? { HandWorkers(sc, n, me, c, sc'); } else { QueueStepStock(sc, c, sc'); }
    case TestPart => TestWorkers(sc, n, me, c, worthIt, sc');
    case SleepPart => SleepStepStock(sc, c, sc');
    case IdlePart => IdleStepStock(sc, last, sc');
  }

  lemma HandWorkers(sc: Sched, n: nat, me: nat, c: Choice, sc': Sched)
    requires LocalOk(sc, n, me) && Wf(sc.q) && sc.pc.Hand? && QueueStep(sc, c) == Some(sc')
    ensures sc'.q.workers == sc.q.workers
  {
    hide Wf, Parked;
    StartTaskBag(sc.q, sc.pc.t);
  }

  lemma TestWorkers(sc: Sched, n: nat, me: nat, c: Choice, worthIt: bool, sc': Sched)
    requires Wf(sc.q) && TestStep(sc, n, me, c, worthIt) == Some(sc')
    ensures sc'.q.workers == sc.q.workers
  {
    hide Wf;
    Members(sc.q);
  }

  lemma NextWorkers(g: Sys, g': Sys, d: nat)
    requires Inv(g) && Next(g, g') && d < |g.s|
    ensures |g'.s| == |g.s| && g'.s[d].q.workers == g.s[d].q.workers
  {
    hide Inv, OwnStep, Typed;
    var a :| Do(g, a) == Some(g');
    if a.OwnAct? {
      if a.i == d {
        LocalAt(g, d);
        var sc := g.s[d];
        var worthIt := sc.pc.Steal? && sc.pc.k < |g.s| && HasStealable(g.s[sc.pc.k]);
        OwnStepWorkers(sc, |g.s|, d, a.c, worthIt, g.idleCount + 1 >= |g.s|, g'.s[d]);
      }
    } else {
      W.RemoteMoves(g, a, g', d);
    }
  }

  lemma {:induction false} SoloWorkers(p: seq<Sys>, w: nat, d: nat, i: nat)
    requires Solo(p, w) && Inv(p[0]) && d < |p[0].s| && i < |p|
    ensures Inv(p[i]) && |p[i].s| == |p[0].s| && p[i].s[d].q.workers == p[0].s[d].q.workers
  {
    hide Inv, StepOf, Next;
    if i == 0 {
    } else {
      SoloWorkers(p, w, d, i - 1);
      assert StepOf(p[i - 1], w, p[i - 1 + 1]);
      SoloIsNext(p[i - 1], w, p[i]);
      NextWorkers(p[i - 1], p[i], d);
      StepKeepsInv(p[i - 1], p[i]);
    }
  }

  lemma WorkersStay(g: Sys, w: nat, g': Sys, d: nat)
    requires Inv(g) && Reaches(g, w, g') && d < |g.s|
    ensures Inv(g') && |g'.s| == |g.s| && g'.s[d].q.workers == g.s[d].q.workers
  {
    hide Inv, StepOf;
    var p :| Solo(p, w) && p[0] == g && Last(p) == g';
    SoloWorkers(p, w, d, |p| - 1);
  }

  // ---------- one scheduler, one worker, one task ----------

  /** A single scheduler with a single worker, its thread at this point, its deque as given. */
  ghost predicate Alone(g: Sys, pc: Pc, ts: seq<Task>) {
    && Inv(g) && |g.s| == 1 && |g.s[0].q.workers| == 1 && g.s[0].pc == pc && g.s[0].tasks == ts && g.s[0].mtx == None
    && !g.s[0].exit
  }

  lemma OneWorker(q: Queues)
    requires Wf(q) && |q.workers| == 1 && q.idle != []
    ensures q.runnable == [] && q.waiting == [] && q.pendingIo == [] && q.yielded.None?
  {
    var w := q.workers[0];
    assert q.idle[0] in q.idle && q.state[w] == Idle;
    HeadIn(q.runnable);
    HeadIn(q.waiting);
    HeadIn(q.pendingIo);
  }

  lemma KeepsAlone(g: Sys, w: nat, g': Sys, pc: Pc, pc': Pc, ts: seq<Task>, ts': seq<Task>)
    requires Alone(g, pc, ts) && Reaches(g, w, g')
    requires |g'.s| == 1 ==> g'.s[0].pc == pc' && g'.s[0].tasks == ts' && g'.s[0].mtx == None && !g'.s[0].exit
    ensures Alone(g', pc', ts')
  {
    hide Inv, Reaches;
    WorkersStay(g, w, g', 0);
  }

  /** Up, and back at the top of the loop; the counter has gone down. */
  lemma Rises(g: Sys, t: Task) returns (e: Sys)
    requires Alone(g, IdleWoken, [t]) && g.idleCount == 1
    ensures Reaches(g, 0, e) && Alone(e, IoScan, [t]) && e.idleCount == 0 && e.main == g.main && e.checkIdle == g.checkIdle
    ensures AllAsleep(e.s[0].q) && e.finished == g.finished
  {
    hide Inv, Reaches, AllAsleep, Awoke, LocalOk, Wf;
    IdleScheduler(g, 0);
    var m := IdleWakes(g, 0, false);
    HasRisen(g, m);
    KeepsAlone(g, 0, m, IdleWoken, ShouldExit, [t], [t]);
    LocalAt(m, 0);
    var sc := m.s[0].(pc := IoScan);
    Goes(m, 0, Flag(false), sc);
    e := At(m, 0, sc);
    GoesOn(g, 0, m, e);
    KeepsAlone(g, 0, e, IdleWoken, IoScan, [t], [t]);
  }

  lemma HasRisen(g: Sys, m: Sys)
    requires |g.s| == 1 && g.s[0].pc == IdleWoken && g.s[0].tasks != [] && Awoke(g, 0, false, m)
    ensures m == At(g, 0, g.s[0].(phase := RunningPhase, pc := ShouldExit)).(idleCount := g.idleCount - 1)
  {
  }

  /** The task is started and over. */
  lemma RunsTask(g: Sys, t: Task) returns (e: Sys)
    requires Alone(g, IoScan, [t]) && AllAsleep(g.s[0].q)
    ensures Reaches(g, 0, e) && Alone(e, IoScan, []) && e.idleCount == g.idleCount && e.main == g.main
    ensures e.finished == g.finished + [t] && e.s[0].q.idle != [] && e.checkIdle == g.checkIdle
  {
    hide Inv, Reaches, Parked, Turn, U.Left;
    SomebodyIdle(g.s[0].q);
    var m := TakesTurn(g, 0, [], []);
    TurnRuns(g, m, t);
    KeepsAlone(g, 0, m, IoScan, Exec, [t], []);
    e := U.LeavesUser(m, 0, TaskDone);
    TaskOver(m, e, t);
    GoesOn(g, 0, m, e);
    KeepsAlone(g, 0, e, IoScan, IoScan, [t], []);
  }

  lemma TurnRuns(g: Sys, m: Sys, t: Task)
    requires |g.s| == 1 && g.s[0].q.runnable == [] && g.s[0].q.pendingIo == [] && g.s[0].q.waiting == [] && g.s[0].q.idle != []
    requires g.s[0].tasks == [t] && Turn(g, 0, [], [], m)
    ensures |m.s| == 1 && m.s[0].pc == Exec && m.s[0].tasks == [] && m.s[0].mtx == g.s[0].mtx && m.s[0].exit == g.s[0].exit
    ensures m.idleCount == g.idleCount && m.main == g.main && m.finished == g.finished && m.checkIdle == g.checkIdle
    ensures m.s[0].q.current in m.s[0].q.task && m.s[0].q.task[m.s[0].q.current] == Some(t)
  {
    assert Ready(g.s[0].q, [], []) == [];
  }

  lemma TaskOver(m: Sys, e: Sys, t: Task)
    requires |m.s| == |e.s| == 1 && U.Left(m, 0, TaskDone, e)
    requires m.s[0].q.current in m.s[0].q.task && m.s[0].q.task[m.s[0].q.current] == Some(t)
    ensures e.s[0].pc == IoScan && e.s[0].tasks == m.s[0].tasks && e.s[0].mtx == m.s[0].mtx && e.s[0].exit == m.s[0].exit
    ensures e.idleCount == m.idleCount && e.main == m.main && e.finished == m.finished + [t] && e.s[0].q.idle != []
    ensures e.checkIdle == m.checkIdle
  {
  }

  /** Nothing more to do: the report is made, and main, awake as it is, does not hear it. */
  lemma LiesDown(g: Sys) returns (e: Sys)
    requires Alone(g, IoScan, []) && g.s[0].q.idle != [] && g.idleCount == 0 && g.main == Answered
    ensures Reaches(g, 0, e) && Inv(e) && |e.s| == 1 && e.s[0].pc == IdleBlocked && e.s[0].tasks == [] && !e.s[0].exit
    ensures e.checkIdle && e.main == Answered && e.finished == g.finished
  {
    hide Inv, Reaches, Parked, Turn, Wf, HasStealable;
    LocalAt(g, 0);
    OneWorker(g.s[0].q);
    var m := TakesTurn(g, 0, [], []);
    TurnSleeps(g, m);
    KeepsAlone(g, 0, m, IoScan, SleepEntry, [], []);
    e := FallsAsleep(m, 0, false);
    GoesOn(g, 0, m, e);
    WorkersStay(g, 0, e, 0);
  }

  lemma TurnSleeps(g: Sys, m: Sys)
    requires |g.s| == 1 && g.s[0].q.runnable == [] && g.s[0].q.pendingIo == [] && g.s[0].q.waiting == []
    requires g.s[0].q.yielded.None? && g.s[0].tasks == [] && Turn(g, 0, [], [], m)
    ensures |m.s| == 1 && m == At(g, 0, m.s[0]) && m.s[0] == g.s[0].(q := m.s[0].q, pc := SleepEntry)
    ensures m.s[0].q.pendingIo == [] && m.s[0].q.waiting == []
  {
    hide HasStealable, Thief, Resumes;
    assert Ready(g.s[0].q, [], []) == [];
  }

  /** The program: one scheduler of one worker, and a first task. */
  function Program(t: Task): Sys {
    Sys([Constructed(1)], MPushing(0, t), 1, true, {t}, [])
  }

  lemma ProgramStarts(t: Task)
    ensures Init(Program(t)) && |Program(t).s[0].q.workers| == 1
  {
    StartUp(1, 1, 0, t);
    assert seq(1, i => Constructed(1)) == [Constructed(1)];
  }

  /** Main has enqueued the task and looks while the scheduler is already up. */
  lemma LooksAtWork(t: Task) returns (e: Sys)
    ensures Comes(Program(t), e) && Alone(e, IoScan, [t]) && e.idleCount == 0 && e.main == Answered && e.finished == []
    ensures AllAsleep(e.s[0].q)
  {
    hide Inv, Reaches, Next, Comes, AllAsleep, Init;
    var g := Program(t);
    ProgramStarts(t);
    InitInv(g);
    var g1 := U.Reached(g, 0, [t], {}).(main := WaitExit);
    assert [g][0] == g && g.s[0].tasks + [t] == [t];
    U.FirstTaskReaches([g], 0, 0, t);
    WorkersStay(g, 1, g1, 0);
    var g2 := g1.(checkIdle := false, main := ReadCount);
    MainGoes(g1, g2);
    WorkersStay(g1, 1, g2, 0);
    var g3 := Rises(g2, t);
    e := g3.(main := Answered);
    MainGoes(g3, e);
    ComesBack(e);
    SoloComes(g3, 1, e, e);
    SoloComes(g2, 0, g3, e);
    SoloComes(g1, 1, g2, e);
    SoloComes(g, 1, g1, e);
  }

  /**
   The last report can be missed: this program runs its task to the end and then sleeps for ever, the flag set for
   main to look, unless main wakes without a reason.
   */
  lemma ReportMissed(t: Task)
    ensures Init(Program(t))
    ensures exists e :: Comes(Program(t), e) && Doomed(e) && e.main == Asleep && e.checkIdle && e.finished == [t] && !EndsAwake(e)
  {
    hide Inv, Reaches, Next, Comes, AllAsleep, Init, EndsAwake;
    ProgramStarts(t);
    var g1 := LooksAtWork(t);
    var g2 := RunsTask(g1, t);
    var g3 := LiesDown(g2);
    var e := g3.(main := Asleep);
    MainGoes(g3, e);
    ComesBack(e);
    SoloComes(g3, 1, e, e);
    SoloComes(g2, 0, g3, e);
    SoloComes(g1, 0, g2, e);
    ComesOn(Program(t), g1, e);
    NeverEnds(e);
  }
}
