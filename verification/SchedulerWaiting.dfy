/** Bounded waiting in the system of schedulers: every run works its queues by the guarded operations only. */
module SchedulerWaiting {
  import opened Common
  import opened SchedulerQueues
  import opened SchedulerSystem
  import opened SchedulerLocal
  import opened SchedulerInvariant
  import opened SchedulerTheorems

  /** The step with which a scheduler resumes the worker at the front of its runnable queue. */
  predicate Selects(sc: Sched, sc': Sched) {
    sc.pc == Choose && sc'.pc == Exec
  }

  /** The step acts on the queues as the guarded operation, or not at all. */
  ghost predicate ActsAs(q: Queues, op: Option<QueueOp>, q': Queues) {
    if op.None? then q' == q else Legal(q, op.value) && q' == Apply(q, op.value)
  }

  lemma UserStepOp(sc: Sched, n: nat, me: nat, c: Choice, sc': Sched) returns (op: Option<QueueOp>)
    requires LocalOk(sc, n, me) && Wf(sc.q) && UserStep(sc, c) == Some(sc')
    ensures ActsAs(sc.q, op, sc'.q) && op != Some(Select) && sc.pc != Choose
  {
    hide Executing, Leave;
    var ctx := UserStepShape(sc, c, sc');
    op := if ctx.Some? then Some(Park(ctx.value)) else None;
  }

  lemma QueueStepOp(sc: Sched, n: nat, me: nat, c: Choice, sc': Sched) returns (op: Option<QueueOp>)
    requires LocalOk(sc, n, me) && Wf(sc.q) && QueueStep(sc, c) == Some(sc')
    ensures ActsAs(sc.q, op, sc'.q) && (op == Some(Select) <==> Selects(sc, sc'))
  {
    hide Parked, Executing, Shape, Placed, TasksHeld, LoadCounted;
    hide ScheduleIo, ScheduleWaiting, ScheduleYielded, StartTask, PrepareNextWorker;
    Members(sc.q);
    match sc.pc
    case IoScan => op := Some(ScanIo(c.a));
    case WaitScan => op := Some(ScanWaiting(c.a));
    case Hand(t, _) => op := Some(StartFresh(t));
    case YieldScan => op := Some(ScanYielded);
    case Choose => op := if sc.q.runnable != [] then Some(Select) else None;
  }

  lemma TestStepQueues(sc: Sched, n: nat, me: nat, c: Choice, worthIt: bool, sc': Sched)
    requires Wf(sc.q) && TestStep(sc, n, me, c, worthIt) == Some(sc')
    ensures sc'.q.runnable == sc.q.runnable && (sc'.pc != Exited ==> sc'.q == sc.q)
  {
    hide Wf;
    Members(sc.q);
    match sc.pc
    case Fetch =>
    case Pop =>
    case Steal(_) =>
    case SleepEntry =>
    case ShouldExit =>
  }

  lemma SleepStepQueues(sc: Sched, c: Choice, sc': Sched)
    requires SleepStep(sc, c) == Some(sc')
    ensures sc'.q == sc.q && sc'.pc != Exited
  {
  }

  lemma IdleStepQueues(sc: Sched, last: bool, sc': Sched)
    requires IdleStep(sc, last) == Some(sc')
    ensures sc'.q == sc.q && sc'.pc != Exited
  {
  }

  lemma UserStepGoesOn(sc: Sched, c: Choice, sc': Sched)
    requires Wf(sc.q) && UserStep(sc, c) == Some(sc')
    ensures sc'.pc != Exited
  {
    hide Wf, Leave;
  }

  lemma QueueStepGoesOn(sc: Sched, c: Choice, sc': Sched)
    requires Wf(sc.q) && QueueStep(sc, c) == Some(sc')
    ensures sc'.pc != Exited
  {
    hide Wf, ScheduleIo, ScheduleWaiting, ScheduleYielded, StartTask, PrepareNextWorker;
    Members(sc.q);
  }

  lemma OnlyChooseSelects(sc: Sched, sc': Sched)
    requires PartOf(sc.pc) != QueuePart
    ensures !Selects(sc, sc')
  {
  }

  lemma SameQueues(q: Queues, q': Queues)
    requires q' == q
    ensures ActsAs(q, None, q')
  {
  }

  /** Every step of a scheduler's own thread but the last is an operation under its guard, or leaves the queues alone. */
  lemma OwnStepOp(sc: Sched, n: nat, me: nat, c: Choice, worthIt: bool, last: bool, sc': Sched) returns (op: Option<QueueOp>)
    requires LocalOk(sc, n, me) && Wf(sc.q) && OwnStep(sc, n, me, c, worthIt, last) == Some(sc') && sc'.pc != Exited
    ensures ActsAs(sc.q, op, sc'.q) && (op == Some(Select) <==> Selects(sc, sc'))
  {
    hide LocalOk, UserStep, QueueStep, TestStep, SleepStep, IdleStep, ActsAs, PartOf, Selects;
    op := None;
    match PartOf(sc.pc) {
      case UserPart => op := UserStepOp(sc, n, me, c, sc');
      case QueuePart => op := QueueStepOp(sc, n, me, c, sc');
      case TestPart => TestStepQueues(sc, n, me, c, worthIt, sc'); SameQueues(sc.q, sc'.q);
      case SleepPart => SleepStepQueues(sc, c, sc'); SameQueues(sc.q, sc'.q);
      case IdlePart => IdleStepQueues(sc, last, sc'); SameQueues(sc.q, sc'.q);
    }
    if PartOf(sc.pc) != QueuePart { OnlyChooseSelects(sc, sc'); }
  }

  /** The last step parks nobody and resumes nobody. */
  lemma LastStep(sc: Sched, n: nat, me: nat, c: Choice, worthIt: bool, last: bool, sc': Sched)
    requires LocalOk(sc, n, me) && Wf(sc.q) && OwnStep(sc, n, me, c, worthIt, last) == Some(sc') && sc'.pc == Exited
    ensures sc'.q.runnable == sc.q.runnable && !Selects(sc, sc')
  {
    hide LocalOk, Wf, UserStep, QueueStep, TestStep, SleepStep, IdleStep, PartOf;
    match PartOf(sc.pc)
    case UserPart => UserStepGoesOn(sc, c, sc');
    case QueuePart => QueueStepGoesOn(sc, c, sc');
    case TestPart => TestStepQueues(sc, n, me, c, worthIt, sc');
    case SleepPart => SleepStepQueues(sc, c, sc');
    case IdlePart => IdleStepQueues(sc, last, sc');
  }

  // ---------- steps of the system ----------

  /** Arrivals only append to the runnable queue; a selection resumes its front. */
  ghost predicate Moves(sc: Sched, sc': Sched) {
    if Selects(sc, sc')
    then sc.q.runnable != [] && sc'.q.current == sc.q.runnable[0] && sc'.q.runnable == sc.q.runnable[1..]
    else sc.q.runnable <= sc'.q.runnable
  }

  lemma OwnStepMoves(sc: Sched, n: nat, me: nat, c: Choice, worthIt: bool, last: bool, sc': Sched)
    requires LocalOk(sc, n, me) && Wf(sc.q) && OwnStep(sc, n, me, c, worthIt, last) == Some(sc')
    ensures Moves(sc, sc')
  {
    hide LocalOk, OwnStep, Wf, Legal, Apply;
    if sc'.pc == Exited {
      LastStep(sc, n, me, c, worthIt, last, sc');
    } else {
      var op := OwnStepOp(sc, n, me, c, worthIt, last, sc');
      if op.Some? { ApplyFacts(sc.q, op.value); }
    }
  }

  /** Steps of others, and of this thread on shared data, leave the queues alone. */
  lemma RemoteMoves(g: Sys, a: Action, g': Sys, d: nat)
    requires Typed(g) && Do(g, a) == Some(g') && !a.OwnAct? && d < |g.s|
    ensures |g'.s| == |g.s| && g'.s[d].q == g.s[d].q && !Selects(g.s[d], g'.s[d])
  {
    hide Typed, OwnActStep, MainStep;
    match a
    case MainAct => MainMoves(g, g', d);
    case Create(i, _, _) =>
    case SetCond(i, _, _) =>
    case Push(i) =>
    case Notify(i) =>
    case Signal(i) =>
    case StealTask(i) =>
    case Report(i) =>
  }

  lemma MainMoves(g: Sys, g': Sys, d: nat)
    requires |g.s| > 0 && MainStep(g) == Some(g') && d < |g.s|
    ensures |g'.s| == |g.s| && g'.s[d].q == g.s[d].q && !Selects(g.s[d], g'.s[d])
  {
  }

  lemma NextMoves(g: Sys, g': Sys, d: nat)
    requires Inv(g) && Next(g, g') && d < |g.s|
    ensures |g'.s| == |g.s| && Moves(g.s[d], g'.s[d])
  {
    hide Inv, Moves, OwnStep, Typed, Selects;
    var a :| Do(g, a) == Some(g');
    if a.OwnAct? {
      if a.i == d {
        LocalAt(g, d);
        var sc := g.s[d];
        var worthIt := sc.pc.Steal? && sc.pc.k < |g.s| && HasStealable(g.s[sc.pc.k]);
        OwnStepMoves(sc, |g.s|, d, a.c, worthIt, g.idleCount + 1 >= |g.s|, g'.s[d]);
      } else {
        Unmoved(g.s[d]);
      }
    } else {
      RemoteMoves(g, a, g', d);
      Idles(g.s[d], g'.s[d]);
    }
  }

  lemma Unmoved(sc: Sched)
    ensures Moves(sc, sc)
  {
  }

  lemma Idles(sc: Sched, sc': Sched)
    requires sc'.q == sc.q && !Selects(sc, sc')
    ensures Moves(sc, sc')
  {
  }

  // ---------- bounded waiting ----------

  /** How many selections scheduler `d` makes between moments `i` and `j`. */
  ghost function Selections(b: seq<Sys>, d: nat, i: nat, j: nat): nat
    requires i <= j < |b| && forall x :: 0 <= x < |b| ==> d < |b[x].s|
    decreases j - i
  {
    if i == j then 0 else Selections(b, d, i, j - 1) + if Selects(b[j - 1].s[d], b[j].s[d]) then 1 else 0
  }

  /** The number of schedulers never changes. */
  lemma {:induction false} SizeStays(b: seq<Sys>, i: nat)
    requires Behaviour(b) && i < |b|
    ensures |b[i].s| == |b[0].s|
  {
    hide Init, Next, Inv, Moves;
    if i == 0 {
    } else {
      SizeStays(b, i - 1);
      BehaviourInv(b, i - 1);
      assert Next(b[i - 1], b[i - 1 + 1]);
      SomeScheduler(b[i - 1]);
      NextMoves(b[i - 1], b[i], 0);
    }
  }

  lemma SomeScheduler(g: Sys)
    requires Inv(g)
    ensures |g.s| > 0
  {
  }

  lemma SizesStay(b: seq<Sys>)
    requires Behaviour(b)
    ensures forall x :: 0 <= x < |b| ==> |b[x].s| == |b[0].s|
  {
    hide Behaviour;
    forall x | 0 <= x < |b| ensures |b[x].s| == |b[0].s| { SizeStays(b, x); }
  }

  /**
   In every run a worker at position `k` of a runnable queue moves one place forward with each of the next `k`
   selections of its scheduler, and with nothing else.
   */
  lemma {:induction false} MovesForward(b: seq<Sys>, d: nat, i: nat, j: nat, k: nat)
    requires Behaviour(b) && i <= j < |b| && d < |b[0].s|
    ensures forall x :: 0 <= x < |b| ==> |b[x].s| == |b[0].s|
    ensures k < |b[i].s[d].q.runnable| && Selections(b, d, i, j) <= k ==>
      var p := k - Selections(b, d, i, j); p < |b[j].s[d].q.runnable| && b[j].s[d].q.runnable[p] == b[i].s[d].q.runnable[k]
    decreases j - i
  {
    hide Init, Next, Inv, Selects;
    SizesStay(b);
    if i == j {
    } else {
      MovesForward(b, d, i, j - 1, k);
      BehaviourInv(b, j - 1);
      assert Next(b[j - 1], b[j - 1 + 1]);
      NextMoves(b[j - 1], b[j], d);
    }
  }

  /** ... and the selection after those resumes it: the `k + 1`-th from then on, exactly. */
  lemma ResumedInTurn(b: seq<Sys>, d: nat, i: nat, j: nat, k: nat)
    requires Behaviour(b) && i <= j && j + 1 < |b| && d < |b[0].s|
    ensures forall x :: 0 <= x < |b| ==> |b[x].s| == |b[0].s|
    ensures k < |b[i].s[d].q.runnable| && Selections(b, d, i, j) == k && Selects(b[j].s[d], b[j + 1].s[d]) ==>
      b[j + 1].s[d].q.current == b[i].s[d].q.runnable[k]
  {
    MovesForward(b, d, i, j, k);
    hide Init, Next, Inv, Selects, Selections;
    BehaviourInv(b, j);
    assert Next(b[j], b[j + 1]);
    NextMoves(b[j], b[j + 1], d);
  }

  /** A task in hand, its own or stolen, means that no worker is runnable: fresh work never overtakes old work. */
  lemma FreshOnlyWhenNoneReady(b: seq<Sys>, i: nat, d: nat)
    requires Behaviour(b) && i < |b| && d < |b[i].s| && (b[i].s[d].pc.Hand? || b[i].s[d].pc == Pop || b[i].s[d].pc.StealPop?)
    ensures b[i].s[d].q.runnable == [] && b[i].s[d].q.idle != []
  {
    hide Behaviour, Inv, Parked, Executing, Shape, Wf;
    BehaviourInv(b, i);
    LocalAt(b[i], d);
  }
}
