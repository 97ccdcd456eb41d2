/**
 When the report of the last scheduler to fall idle reaches `wait_exit`, and when it is missed. A report is missed if
 and only if it comes while the main thread, its mutex given up, has already decided to go on waiting.
 */
module SchedulerReport {
  import opened Common
  import opened SchedulerQueues
  import opened SchedulerSystem
  import opened SchedulerLocal
  import opened SchedulerInvariant
  import opened SchedulerTheorems
  import opened SchedulerWakeup
  import opened SchedulerRuns
  import A = SchedulerAnswer
  import D = SchedulerShutdown

  // ---------- nothing left to do ----------

  /** A scheduler that sleeps idle, is about to, or has woken for nothing. */
  predicate Resting(sc: Sched) {
    sc.tasks == [] && !sc.exit && Counted(sc.pc) == 1 && sc.pc != IdleDone
  }

  ghost predicate Settled(s: seq<Sched>) {
    forall i :: 0 <= i < |s| ==> Resting(s[i])
  }

  /** Main evaluates the predicate of `wait_exit` and has not said no. */
  predicate Looking(m: MainPc) {
    m == ReadCount || m.ReadTasks? || m.LockAll? || m.Inspect? || IdleSeen(m)
  }

  /** Some scheduler is about to set `m_check_idle`. */
  ghost predicate FlagComes(s: seq<Sched>) {
    exists i :: 0 <= i < |s| && s[i].pc == IdleReport
  }

  /** With nothing left to do anywhere main is told, has been told, or is looking. */
  ghost predicate Told(g: Sys) {
    Settled(g.s) && !g.main.MPushing? ==> g.checkIdle || Looking(g.main) || FlagComes(g.s)
  }

  lemma {:induction false} AllButOne(s: seq<Sched>, i: nat)
    requires i < |s| && Counted(s[i].pc) == 0 && forall j :: 0 <= j < |s| && j != i ==> Counted(s[j].pc) == 1
    ensures CountIdle(s) == |s| - 1
  {
    var x := s[i].(pc := IdlePred);
    CountIdleUpdate(s, i, x);
    D.AllCounted(s[i := x]);
  }

  // ---------- one step ----------

  lemma IdleStepRests(sc: Sched, last: bool, sc': Sched)
    requires Resting(sc) && IdleStep(sc, last) == Some(sc')
    ensures Resting(sc') && (sc.pc == IdleReport || sc'.pc != IdleReport) && sc'.exit == sc.exit
  {
  }

  lemma RestingPart(sc: Sched)
    requires Resting(sc)
    ensures PartOf(sc.pc) == IdlePart && sc.pc != Exited && CountDelta(sc.pc) == 0 && sc.pc != Exec
  {
  }

  lemma OwnRests(g: Sys, i: nat, c: Choice, g': Sys)
    requires Inv(g) && Typed(g) && i < |g.s| && Resting(g.s[i]) && g.s[i].pc != Exited && OwnActStep(g, i, c) == Some(g')
    ensures |g'.s| == |g.s| && g'.main == g.main && g'.s == g.s[i := g'.s[i]] && Resting(g'.s[i]) && g'.idleCount == g.idleCount
    ensures g'.checkIdle == (g.checkIdle || g.s[i].pc == IdleReport)
  {
    hide Inv, Typed, Resting, IdleStep;
    RestingPart(g.s[i]);
    IdleStepRests(g.s[i], g.idleCount + 1 >= |g.s|, g'.s[i]);
  }

  /** The only own step to rest is the one that counts; the last one to take it reports. */
  lemma OwnSettles(g: Sys, i: nat, c: Choice, g': Sys)
    requires Inv(g) && Typed(g) && i < |g.s| && !Resting(g.s[i]) && g.s[i].pc != Exited && OwnActStep(g, i, c) == Some(g')
    requires |g'.s| == |g.s| && Resting(g'.s[i]) && forall j :: 0 <= j < |g.s| && j != i ==> Resting(g.s[j])
    ensures g'.s[i].pc == IdleReport
  {
    hide Inv, Typed, OwnStep, Resting;
    LocalAt(g, i);
    var sc := g.s[i];
    var worthIt := sc.pc.Steal? && sc.pc.k < |g.s| && HasStealable(g.s[sc.pc.k]);
    RestsOnlyBy(sc, |g.s|, i, c, worthIt, g.idleCount + 1 >= |g.s|, g'.s[i]);
    OthersCounted(g.s, i);
    AllButOne(g.s, i);
    Tally(g);
  }

  lemma Tally(g: Sys)
    requires Inv(g)
    ensures g.idleCount == CountIdle(g.s)
  {
  }

  lemma OthersCounted(s: seq<Sched>, i: nat)
    requires forall j :: 0 <= j < |s| && j != i ==> Resting(s[j])
    ensures forall j :: 0 <= j < |s| && j != i ==> Counted(s[j].pc) == 1
  {
    forall j | 0 <= j < |s| && j != i ensures Counted(s[j].pc) == 1 { assert Resting(s[j]); }
  }

  lemma RestsOnlyBy(sc: Sched, n: nat, me: nat, c: Choice, worthIt: bool, last: bool, sc': Sched)
    requires LocalOk(sc, n, me) && Wf(sc.q) && OwnStep(sc, n, me, c, worthIt, last) == Some(sc') && !Resting(sc) && Resting(sc')
    ensures sc.pc == IdleCount && Counted(sc.pc) == 0 && sc'.pc == if last then IdleReport else IdlePred
  {
    hide LocalOk, Wf, UserStep, QueueStep, TestStep, SleepStep, IdleStep;
    OwnStepContained(sc, n, me, c, worthIt, last, sc');
    if PartOf(sc.pc) == IdlePart {
      IdleRestsBy(sc, last, sc');
    } else {
      NotCounted(sc.pc);
    }
  }

  lemma NotCounted(pc: Pc)
    requires PartOf(pc) != IdlePart
    ensures Counted(pc) == 0 && CountDelta(pc) == 0
  {
  }

  lemma IdleRestsBy(sc: Sched, last: bool, sc': Sched)
    requires PartOf(sc.pc) == IdlePart && IdleStep(sc, last) == Some(sc') && !Resting(sc) && Resting(sc')
    ensures sc.pc == IdleCount && Counted(sc.pc) == 0 && sc'.pc == if last then IdleReport else IdlePred
  {
  }

  lemma StillComes(s: seq<Sched>, s': seq<Sched>, i: nat)
    requires i < |s| == |s'| && s' == s[i := s'[i]] && FlagComes(s) && (s[i].pc == IdleReport ==> s'[i].pc == IdleReport)
    ensures FlagComes(s')
  {
    var j :| 0 <= j < |s| && s[j].pc == IdleReport;
    assert s'[j].pc == IdleReport;
  }

  lemma OwnTold(g: Sys, i: nat, c: Choice, g': Sys)
    requires Inv(g) && Typed(g) && Told(g) && i < |g.s| && g.s[i].pc != Exited && OwnActStep(g, i, c) == Some(g')
    ensures Told(g')
  {
    hide Inv, Typed, OwnStep, Resting, Looking;
    assert |g'.s| == |g.s| && g'.s == g.s[i := g'.s[i]] && g'.main == g.main;
    if Settled(g'.s) && !g'.main.MPushing? {
      forall j | 0 <= j < |g.s| && j != i ensures Resting(g.s[j]) { assert Resting(g'.s[j]); }
      if Resting(g.s[i]) {
        OwnRests(g, i, c, g');
        if FlagComes(g.s) && g.s[i].pc != IdleReport { StillComes(g.s, g'.s, i); }
      } else {
        OwnSettles(g, i, c, g');
      }
    }
  }

  // ---------- steps of main ----------

  /** With nothing left to do, whoever is looking goes on to a yes. */
  lemma LookGoesOn(g: Sys, g': Sys)
    requires Inv(g) && Settled(g.s) && Looking(g.main) && MainStep(g) == Some(g')
    ensures Looking(g'.main)
  {
    hide Locals, Wakes, Census, MainLocks, Exits, Quiets, Inspected, CountIdle;
    AllThere(g);
    if g.main.Inspect? && g.main.k < |g.s| { SleepsIdle(g, g.main.k); }
    if g.main.ReadTasks? && g.main.k < |g.s| { assert Resting(g.s[g.main.k]); }
  }

  lemma AllThere(g: Sys)
    requires Inv(g) && Settled(g.s)
    ensures g.idleCount == |g.s|
  {
    hide Core, Wakes, Census;
    forall i | 0 <= i < |g.s| ensures Counted(g.s[i].pc) == 1 { assert Resting(g.s[i]); }
    D.AllCounted(g.s);
  }

  lemma SleepsIdle(g: Sys, k: nat)
    requires Inv(g) && k < |g.s| && Settled(g.s)
    ensures g.s[k].phase == IdleSleep && g.s[k].tasks == []
  {
    hide Inv, QueuesOk;
    LocalAt(g, k);
    assert Resting(g.s[k]);
  }

  /** What main's step makes of the records: an exit signal apart, whoever rests afterwards did before. */
  lemma MainRests(g: Sys, g': Sys, i: nat)
    requires |g.s| > 0 && MainStep(g) == Some(g') && i < |g.s|
    ensures |g'.s| == |g.s| && (Resting(g'.s[i]) ==> Resting(g.s[i]))
    ensures !g.main.MPushing? && !g.main.SetExit? && Resting(g.s[i]) ==> Resting(g'.s[i])
  {
    hide Resting;
    MainTouches(g, g', i);
    RestsAlike(g.s[i], g'.s[i]);
  }

  /** Main adds tasks, marks and wakes, and takes and gives the mutex. */
  lemma MainTouches(g: Sys, g': Sys, i: nat)
    requires |g.s| > 0 && MainStep(g) == Some(g') && i < |g.s|
    ensures |g'.s| == |g.s| && (g'.s[i].pc == g.s[i].pc || g'.s[i].pc == Woken(g.s[i].pc))
    ensures g.s[i].tasks <= g'.s[i].tasks && (g.s[i].exit ==> g'.s[i].exit)
    ensures !g.main.MPushing? ==> g'.s[i].tasks == g.s[i].tasks
    ensures !g.main.SetExit? ==> g'.s[i].exit == g.s[i].exit
  {
    hide Woken;
  }

  lemma RestsAlike(sc: Sched, sc': Sched)
    requires sc'.pc == sc.pc || sc'.pc == Woken(sc.pc)
    requires sc.tasks <= sc'.tasks && (sc.exit ==> sc'.exit)
    ensures Resting(sc') ==> Resting(sc)
    ensures Resting(sc) && sc'.tasks == sc.tasks && sc'.exit == sc.exit ==> Resting(sc')
    ensures (sc'.pc == IdleReport <==> sc.pc == IdleReport) && (sc'.pc == IdleSignal <==> sc.pc == IdleSignal)
  {
  }

  lemma MainTold(g: Sys, g': Sys)
    requires Inv(g) && Told(g) && MainStep(g) == Some(g')
    ensures Told(g')
  {
    hide Inv, MainStep, Resting, Looking;
    A.InMain(g);
    MainRests(g, g', 0);
    if Settled(g'.s) && !g'.main.MPushing? {
      forall i | 0 <= i < |g.s| ensures Resting(g.s[i]) { MainRests(g, g', i); assert Resting(g'.s[i]); }
      if FlagComes(g.s) {
        var j :| 0 <= j < |g.s| && g.s[j].pc == IdleReport;
        MainTouches(g, g', j);
        RestsAlike(g.s[j], g'.s[j]);
        assert g'.s[j].pc == IdleReport;
      } else if Looking(g.main) {
        LookGoesOn(g, g');
      } else {
        NotLooking(g, g');
      }
    }
  }

  lemma NotLooking(g: Sys, g': Sys)
    requires Inv(g) && Settled(g'.s) && !Looking(g.main) && MainStep(g) == Some(g') && (g.main.MPushing? || g.checkIdle)
    ensures g'.checkIdle || Looking(g'.main)
  {
    hide Wakes, Census, Locals, MainLocks, Exits, Quiets, Inspected;
    PushUnsettles(g, g');
  }

  lemma PushUnsettles(g: Sys, g': Sys)
    requires |g.s| > 0 && MainStep(g) == Some(g')
    ensures g.main.MPushing? ==> !Settled(g'.s)
  {
    assert g.main.MPushing? ==> !Resting(g'.s[g.main.target]);
  }

  // ---------- the other steps ----------

  lemma ActsAwake(g: Sys, a: Action, g': Sys)
    requires Typed(g) && Do(g, a) == Some(g') && !a.OwnAct? && !a.MainAct? && !a.Report?
    ensures var i := ActorOf(a, |g.s|); i < |g.s| == |g'.s| && !Resting(g'.s[i]) && !Resting(g.s[i])
  {
    hide Typed, OwnActStep, MainStep;
  }

  lemma OthersBusy(g: Sys, a: Action, g': Sys)
    requires Typed(g) && Do(g, a) == Some(g') && !a.OwnAct? && !a.MainAct? && !a.Report?
    ensures !Settled(g.s)
  {
    hide Typed, Resting, Do;
    ActsAwake(g, a, g');
    assert !Resting(g.s[ActorOf(a, |g.s|)]);
  }

  lemma ReportTold(g: Sys, i: nat, g': Sys)
    requires Told(g) && i < |g.s| && g.s[i].pc == IdleSignal && g' == WithPc(g, i, IdlePred).(main := Roused(g.main))
    ensures Told(g')
  {
    hide Resting;
    if Settled(g'.s) {
      forall j | 0 <= j < |g.s| ensures Resting(g.s[j]) { assert Resting(g'.s[j]); SameRest(g.s[i], IdlePred); }
      if FlagComes(g.s) { StillComes(g.s, g'.s, i); }
    }
  }

  lemma SameRest(sc: Sched, pc: Pc)
    requires Counted(sc.pc) == Counted(pc) && sc.pc != IdleDone && pc != IdleDone
    ensures Resting(sc.(pc := pc)) == Resting(sc)
  {
  }

  lemma StepKeepsTold(g: Sys, g': Sys)
    requires Inv(g) && Told(g) && Next(g, g')
    ensures Told(g')
  {
    hide Inv, Typed, OwnActStep, MainStep, Told;
    InvIsTyped(g);
    var a :| Do(g, a) == Some(g');
    match a
    case OwnAct(i, c) => OwnTold(g, i, c, g');
    case MainAct => MainTold(g, g');
    case Report(i) => ReportTold(g, i, g');
    case _ => ActsAwake(g, a, g'); AwakeTold(g', ActorOf(a, |g.s|));
  }

  lemma AwakeTold(g: Sys, i: nat)
    requires i < |g.s| && !Resting(g.s[i])
    ensures Told(g)
  {
  }

  lemma {:induction false} BehaviourTold(b: seq<Sys>, i: nat)
    requires Behaviour(b) && i < |b|
    ensures Told(b[i]) && Inv(b[i])
  {
    hide Next, Inv;
    if i == 0 {
      InitInv(b[0]);
    } else {
      BehaviourTold(b, i - 1);
      assert Next(b[i - 1], b[i - 1 + 1]);
      StepKeepsTold(b[i - 1], b[i]);
      StepKeepsInv(b[i - 1], b[i]);
    }
  }

  // ---------- missed or not ----------

  /** Nobody is left to tell main anything. */
  ghost predicate AllReported(s: seq<Sched>) {
    forall i :: 0 <= i < |s| ==> s[i].pc != IdleReport && s[i].pc != IdleSignal
  }

  /** Main has answered no and is on its way to sleep, or asleep. */
  predicate GoesToSleep(m: MainPc) {
    m == Asleep || m == Answered || (m.UnlockAll? && !m.idle)
  }

  /** Main has enqueued the first task and called `wait_exit`. */
  predicate InWaitExit(m: MainPc) {
    !m.MPushing? && !m.MNotifying? && !m.MSignalling?
  }

  /** A step of anybody, spurious wake-ups of main apart. */
  ghost predicate Woke(g: Sys, g': Sys) {
    Typed(g) && exists a :: Do(g, a) == Some(g') && !(a == MainAct && g.main == Asleep)
  }

  ghost predicate RunOf(p: seq<Sys>) {
    |p| > 0 && forall i :: 0 <= i < |p| - 1 ==> Woke(p[i], p[i + 1])
  }

  /** Everybody can come to the end with no spurious wake-up of main. */
  ghost predicate EndsAwake(g: Sys) {
    exists p :: RunOf(p) && p[0] == g && D.Ended(Last(p))
  }

  ghost predicate Doomed(g: Sys) {
    Settled(g.s) && AllReported(g.s) && GoesToSleep(g.main)
  }

  lemma DoomedAct(g: Sys, a: Action, g': Sys)
    requires Inv(g) && Typed(g) && Doomed(g) && Do(g, a) == Some(g') && !(a == MainAct && g.main == Asleep)
    ensures Doomed(g')
  {
    hide Inv, Typed, OwnActStep, MainStep, Resting, GoesToSleep;
    match a
    case OwnAct(i, c) =>
      OwnRests(g, i, c, g');
      DoomedOwn(g, i, c, g');
    case MainAct => DoomedMain(g, g');
    case Report(i) =>
    case _ => OthersBusy(g, a, g');
  }

  lemma DoomedOwn(g: Sys, i: nat, c: Choice, g': Sys)
    requires Inv(g) && Typed(g) && Doomed(g) && i < |g.s| && g.s[i].pc != Exited && OwnActStep(g, i, c) == Some(g')
    requires |g'.s| == |g.s| && g'.s == g.s[i := g'.s[i]] && Resting(g'.s[i]) && g'.main == g.main
    ensures Doomed(g')
  {
    hide Inv, Typed, GoesToSleep;
    assert Resting(g.s[i]) && g.s[i].pc != IdleReport && g.s[i].pc != IdleSignal;
    RestingPart(g.s[i]);
    QuietIdleStep(g.s[i], g.idleCount + 1 >= |g.s|, g'.s[i]);
  }

  lemma QuietIdleStep(sc: Sched, last: bool, sc': Sched)
    requires Resting(sc) && sc.pc != IdleReport && sc.pc != IdleSignal && IdleStep(sc, last) == Some(sc')
    ensures sc'.pc != IdleReport && sc'.pc != IdleSignal
  {
  }

  lemma DoomedMain(g: Sys, g': Sys)
    requires Inv(g) && Doomed(g) && MainStep(g) == Some(g') && g.main != Asleep
    ensures Doomed(g')
  {
    hide Inv, Resting, MainStep;
    A.InMain(g);
    MainSleeps(g, g');
    MainTouches(g, g', 0);
    forall i | 0 <= i < |g.s| ensures Resting(g'.s[i]) && g'.s[i].pc != IdleReport && g'.s[i].pc != IdleSignal {
      assert Resting(g.s[i]);
      MainRests(g, g', i);
      MainTouches(g, g', i);
      RestsAlike(g.s[i], g'.s[i]);
    }
  }

  lemma MainSleeps(g: Sys, g': Sys)
    requires |g.s| > 0 && GoesToSleep(g.main) && g.main != Asleep && MainStep(g) == Some(g')
    ensures GoesToSleep(g'.main)
  {
  }

  lemma {:induction false} DoomedRun(p: seq<Sys>, i: nat)
    requires RunOf(p) && Inv(p[0]) && Doomed(p[0]) && i < |p|
    ensures Doomed(p[i]) && Inv(p[i])
  {
    hide Inv, Doomed, Typed, Do;
    if i == 0 {
    } else {
      DoomedRun(p, i - 1);
      assert Woke(p[i - 1], p[i - 1 + 1]);
      var a :| Do(p[i - 1], a) == Some(p[i]) && !(a == MainAct && p[i - 1].main == Asleep);
      DoomedAct(p[i - 1], a, p[i]);
      ActionNext(p[i - 1], a, p[i]);
      StepKeepsInv(p[i - 1], p[i]);
    }
  }

  lemma NeverEnds(g: Sys)
    requires Inv(g) && Doomed(g)
    ensures !EndsAwake(g)
  {
    hide Inv, Doomed, Woke;
    forall p | RunOf(p) && p[0] == g ensures !D.Ended(Last(p)) {
      DoomedRun(p, |p| - 1);
      NotEnded(Last(p));
    }
  }

  lemma NotEnded(g: Sys)
    requires Doomed(g)
    ensures !D.Ended(g)
  {
  }

  // ---------- the way to the end ----------

  /** With nothing left to do, looking leads to a yes and main never sleeps again. */
  ghost predicate WayOut(g: Sys) {
    Looking(g.main) && (IdleSeen(g.main) || Settled(g.s))
  }

  lemma WayOutStays(g: Sys, g': Sys)
    requires Inv(g) && WayOut(g) && Next(g, g')
    ensures WayOut(g') && g.main != Asleep
  {
    hide Inv, Typed, OwnActStep, MainStep, Resting, IdleSeen;
    InvIsTyped(g);
    Awake(g.main);
    if IdleSeen(g.main) {
      QuietStep(g, g');
      SeenLooks(g'.main);
    } else {
      var a :| Do(g, a) == Some(g');
      match a
      case OwnAct(i, c) => OwnRests(g, i, c, g');
      case MainAct =>
        LookGoesOn(g, g');
        MainKeepsRest(g, g');
      case Report(i) => ReportRests(g, i, g');
      case _ => OthersBusy(g, a, g');
    }
  }

  lemma Awake(m: MainPc)
    requires Looking(m)
    ensures m != Asleep && !m.MPushing? && (!IdleSeen(m) ==> !m.SetExit?) && Roused(m) == m
  {
  }

  lemma SeenLooks(m: MainPc)
    requires IdleSeen(m)
    ensures Looking(m)
  {
  }

  lemma MainKeepsRest(g: Sys, g': Sys)
    requires Inv(g) && Settled(g.s) && MainStep(g) == Some(g') && !g.main.MPushing? && !g.main.SetExit?
    ensures Settled(g'.s)
  {
    hide Inv, MainStep, Resting;
    A.InMain(g);
    MainRests(g, g', 0);
    forall i | 0 <= i < |g.s| ensures Resting(g'.s[i]) { assert Resting(g.s[i]); MainRests(g, g', i); }
  }

  lemma ReportRests(g: Sys, i: nat, g': Sys)
    requires Settled(g.s) && i < |g.s| && g.s[i].pc == IdleSignal && g' == WithPc(g, i, IdlePred).(main := Roused(g.main))
    ensures Settled(g'.s)
  {
    hide Resting;
    assert Resting(g.s[i]);
    SameRest(g.s[i], IdlePred);
  }

  lemma {:induction false} WayOutRun(p: seq<Sys>, i: nat)
    requires Run(p) && Inv(p[0]) && WayOut(p[0]) && i < |p|
    ensures WayOut(p[i]) && Inv(p[i]) && p[i].main != Asleep
  {
    hide Inv, WayOut, Next;
    if i == 0 {
      StaysAwake(p[0]);
    } else {
      WayOutRun(p, i - 1);
      assert Next(p[i - 1], p[i - 1 + 1]);
      WayOutStays(p[i - 1], p[i]);
      StepKeepsInv(p[i - 1], p[i]);
      StaysAwake(p[i]);
    }
  }

  lemma StaysAwake(g: Sys)
    requires WayOut(g)
    ensures g.main != Asleep && !g.main.Answered?
  {
  }

  /** A run in which main never sleeps has no spurious wake-up of it. */
  lemma AwakeRun(p: seq<Sys>)
    requires Run(p) && forall i :: 0 <= i < |p| ==> p[i].main != Asleep
    ensures RunOf(p)
  {
    hide Typed, Do;
    forall i | 0 <= i < |p| - 1 ensures Woke(p[i], p[i + 1]) { assert Next(p[i], p[i + 1]); }
  }

  /** How far main is from the locks. */
  function ToLocks(m: MainPc, n: nat): nat {
    match m case ReadCount => n + 2 case ReadTasks(k) => Left(k, n) + 1 case _ => 0
  }

  lemma LooksOn(g: Sys) returns (e: Sys)
    requires Inv(g) && WayOut(g)
    ensures Comes(g, e) && Inv(e) && WayOut(e) && IdleSeen(e.main)
    decreases ToLocks(g.main, |g.s|), Stage(g.main, |g.s|), Awaited(g)
  {
    hide Inv, WayOut, Next, Comes, Stage, Awaited, IdleSeen, Closer;
    if IdleSeen(g.main) {
      ComesBack(g);
      e := g;
    } else {
      var g' := LooksFurther(g);
      StepKeepsInv(g, g');
      WayOutStays(g, g');
      e := LooksOn(g');
      ComesBy(g, g', e);
    }
  }

  lemma LooksFurther(g: Sys) returns (g': Sys)
    requires Inv(g) && WayOut(g) && !IdleSeen(g.main)
    ensures Next(g, g') && |g'.s| == |g.s|
    ensures || ToLocks(g'.main, |g'.s|) < ToLocks(g.main, |g.s|)
            || (ToLocks(g'.main, |g'.s|) == ToLocks(g.main, |g.s|) && Stage(g'.main, |g'.s|) < Stage(g.main, |g.s|))
            || (ToLocks(g'.main, |g'.s|) == ToLocks(g.main, |g.s|) && Stage(g'.main, |g'.s|) == Stage(g.main, |g.s|)
                && Awaited(g') < Awaited(g))
  {
    hide Inv, WayOut, Next, Stage, Awaited, Typed, MainStep, Resting;
    A.InMain(g);
    InvIsTyped(g);
    ReadsOrLocks(g);
    if g.main == ReadCount || g.main.ReadTasks? {
      g' := ReadsOn(g);
      MainNext(g, g');
    } else {
      g' := A.OneCloser(g);
      PastReads(g, g');
    }
  }

  lemma ReadsOrLocks(g: Sys)
    requires WayOut(g) && !IdleSeen(g.main) && |g.s| > 0 && MainOk(g.main, |g.s|)
    ensures g.main == ReadCount || g.main.ReadTasks? || InAllIdle(g)
    ensures Settled(g.s)
  {
  }

  lemma ReadsOn(g: Sys) returns (g': Sys)
    requires Inv(g) && Settled(g.s) && |g.s| > 0 && (g.main == ReadCount || g.main.ReadTasks?)
    ensures MainStep(g) == Some(g') && |g'.s| == |g.s| && ToLocks(g'.main, |g.s|) < ToLocks(g.main, |g.s|)
  {
    hide Inv, Resting;
    AllThere(g);
    NoTasks(g.s);
    g' := ReadStep(g);
  }

  lemma NoTasks(s: seq<Sched>)
    requires Settled(s)
    ensures forall i :: 0 <= i < |s| ==> s[i].tasks == []
  {
    forall i | 0 <= i < |s| ensures s[i].tasks == [] { assert Resting(s[i]); }
  }

  lemma ReadStep(g: Sys) returns (g': Sys)
    requires |g.s| > 0 && g.idleCount == |g.s| && (g.main == ReadCount || g.main.ReadTasks?)
    requires forall i :: 0 <= i < |g.s| ==> g.s[i].tasks == []
    ensures MainStep(g) == Some(g') && |g'.s| == |g.s| && ToLocks(g'.main, |g.s|) < ToLocks(g.main, |g.s|)
  {
    g' := MainStep(g).value;
  }

  lemma PastReads(g: Sys, g': Sys)
    requires InAllIdle(g) && (InAllIdle(g') || g'.main == Answered || g'.main == SetExit(0))
    ensures ToLocks(g.main, |g.s|) == ToLocks(g'.main, |g'.s|) == 0
  {
  }

  /** Main wakes in time, or is looking already. */
  lemma InTime(g: Sys) returns (m: Sys)
    requires Inv(g) && Told(g) && Settled(g.s) && AllReported(g.s) && InWaitExit(g.main) && !GoesToSleep(g.main)
    ensures (m == g || Next(g, m)) && Inv(m) && WayOut(m) && g.main != Asleep
  {
    hide Inv, Next, Typed, Resting;
    A.InMain(g);
    InvIsTyped(g);
    if g.main == WaitExit {
      m := g.(checkIdle := false, main := ReadCount);
      MainNext(g, m);
      StepKeepsInv(g, m);
    } else {
      LooksAlready(g.main);
      m := g;
    }
  }

  lemma LooksAlready(m: MainPc)
    requires InWaitExit(m) && !GoesToSleep(m) && m != WaitExit
    ensures Looking(m)
  {
  }

  lemma {:induction false} RunJoined(p: seq<Sys>, i: nat)
    requires Run(p) && Inv(p[0]) && D.Joined(p[0]) && i < |p|
    ensures Inv(p[i]) && D.Joined(p[i])
  {
    hide Inv, Next, D.Joined;
    if i == 0 {
    } else {
      RunJoined(p, i - 1);
      assert Next(p[i - 1], p[i - 1 + 1]);
      D.StepKeepsJoined(p[i - 1], p[i]);
      StepKeepsInv(p[i - 1], p[i]);
    }
  }

  lemma OneBefore(g: Sys, m: Sys, q: seq<Sys>)
    requires (m == g || Next(g, m)) && g.main != Asleep && RunOf(q) && q[0] == m && D.Ended(Last(q))
    ensures EndsAwake(g)
  {
    hide Do, Typed, D.Ended;
    if m != g {
      var r := [g] + q;
      assert Woke(g, m);
      forall i | 0 <= i < |r| - 1 ensures Woke(r[i], r[i + 1]) {
        if i > 0 { assert Woke(q[i - 1], q[i - 1 + 1]); }
      }
      assert RunOf(r) && Last(r) == Last(q);
    }
  }

  lemma EndReached(g: Sys)
    requires Inv(g) && Told(g) && D.Joined(g) && Settled(g.s) && AllReported(g.s) && InWaitExit(g.main) && !GoesToSleep(g.main)
    ensures EndsAwake(g)
  {
    hide Inv, Next, WayOut, Settled, AllReported, Told, GoesToSleep, InWaitExit, D.Joined, D.Ended, IdleSeen, Woke;
    var m := InTime(g);
    if m != g { D.StepKeepsJoined(g, m); }
    var y := LooksOn(m);
    var p: seq<Sys> :| Run(p) && p[0] == m && Last(p) == y;
    RunJoined(p, |p| - 1);
    var e := D.EndsFrom(y);
    D.AllRun(e);
    RunsOn(p, e);
    var q: seq<Sys> :| Run(q) && q[0] == m && Last(q) == e;
    forall i | 0 <= i < |q| ensures q[i].main != Asleep { WayOutRun(q, i); }
    AwakeRun(q);
    OneBefore(g, m, q);
  }

  /**
   When every scheduler has gone to rest and all reports have been made, the program comes to its end without a
   spurious wake-up of the main thread if and only if main is not asleep, nor on its way to sleep with a no.
   */
  lemma EndsUnlessAsleep(b: seq<Sys>, i: nat)
    requires Behaviour(b) && i < |b| && Settled(b[i].s) && AllReported(b[i].s) && InWaitExit(b[i].main)
    ensures EndsAwake(b[i]) <==> !GoesToSleep(b[i].main)
  {
    hide Behaviour, Inv, Told, EndsAwake, D.Joined, GoesToSleep, Settled, AllReported, InWaitExit;
    BehaviourTold(b, i);
    D.BehaviourJoined(b, i);
    if GoesToSleep(b[i].main) {
      NeverEnds(b[i]);
    } else {
      EndReached(b[i]);
    }
  }

  /** The state once scheduler `d` has made its report. */
  function Reported(g: Sys, d: nat): Sys
    requires d < |g.s|
  {
    WithPc(g, d, IdlePred).(main := Roused(g.main))
  }

  /** The answer is no, and main is not asleep yet. */
  predicate BetweenNoAndSleep(m: MainPc) {
    m == Answered || (m.UnlockAll? && !m.idle)
  }

  lemma ReportDone(g: Sys, d: nat)
    requires Inv(g) && Settled(g.s) && d < |g.s| && g.s[d].pc == IdleSignal && InWaitExit(g.main)
    requires forall j :: 0 <= j < |g.s| && j != d ==> g.s[j].pc != IdleReport && g.s[j].pc != IdleSignal
    ensures Settled(Reported(g, d).s) && AllReported(Reported(g, d).s) && InWaitExit(Reported(g, d).main)
    ensures Next(g, Reported(g, d)) && (GoesToSleep(Reported(g, d).main) <==> BetweenNoAndSleep(g.main))
  {
    hide Inv, Typed, Resting, OwnActStep, MainStep;
    InvIsTyped(g);
    ReportRests(g, d, Reported(g, d));
    assert Do(g, Report(d)) == Some(Reported(g, d));
  }

  /** The last report is missed if and only if it comes between a no of main and its sleep; no other moment loses it. */
  lemma MissedIff(b: seq<Sys>, i: nat, d: nat)
    requires Behaviour(b) && i < |b| && Settled(b[i].s) && InWaitExit(b[i].main) && d < |b[i].s| && b[i].s[d].pc == IdleSignal
    requires forall j :: 0 <= j < |b[i].s| && j != d ==> b[i].s[j].pc != IdleReport && b[i].s[j].pc != IdleSignal
    ensures EndsAwake(Reported(b[i], d)) <==> !BetweenNoAndSleep(b[i].main)
  {
    hide Behaviour, Inv, Told, EndsAwake, D.Joined, GoesToSleep, Settled, AllReported, InWaitExit, Next, Reported;
    BehaviourTold(b, i);
    D.BehaviourJoined(b, i);
    ReportDone(b[i], d);
    var g' := Reported(b[i], d);
    StepKeepsTold(b[i], g');
    StepKeepsInv(b[i], g');
    D.StepKeepsJoined(b[i], g');
    if GoesToSleep(g'.main) {
      NeverEnds(g');
    } else {
      EndReached(g');
    }
  }
}
