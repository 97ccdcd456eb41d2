/**
 One turn of a scheduler's thread with all other threads standing still: which worker it resumes with which task, and
 when it goes to sleep instead.
 */
module SchedulerPass {
  import opened Common
  import opened SchedulerQueues
  import opened SchedulerSystem
  import opened SchedulerLocal
  import opened SchedulerInvariant
  import opened SchedulerTheorems
  import opened SchedulerRuns

  /** The system with the record of scheduler `d` exchanged. */
  function At(g: Sys, d: nat, sc: Sched): Sys
    requires d < |g.s|
  {
    g.(s := g.s[d := sc])
  }

  /** A scheduler is worth stealing from if one of its tasks can wait, since another is queued or a worker has one. */
  lemma WorthStealing(sc: Sched)
    requires Wf(sc.q)
    ensures HasStealable(sc) <==> |sc.tasks| > 1 || (|sc.tasks| == 1 && exists w :: w in sc.q.workers && sc.q.task[w].Some?)
  {
    LoadMeansActive(sc.q);
  }

  /** A step that touches neither the idle counter nor the report nor the list of completed tasks. */
  predicate Local(pc: Pc) {
    PartOf(pc) != UserPart && pc != Exited && CountDelta(pc) == 0 && pc != IdleReport
  }

  lemma Goes(g: Sys, d: nat, c: Choice, sc': Sched)
    requires Inv(g) && d < |g.s| && Local(g.s[d].pc) && Wf(g.s[d].q) && OwnGives(g, d, c, sc')
    ensures Reaches(g, d, At(g, d, sc')) && Inv(At(g, d, sc'))
  {
    hide Inv, Reaches, Wf, OwnGives, Next;
    OwnGoes(g, d, c, sc');
    assert After(g, d, sc', c) == At(g, d, sc');
  }

  lemma AtTwice(g: Sys, d: nat, x: Sched, y: Sched)
    requires d < |g.s|
    ensures At(At(g, d, x), d, y) == At(g, d, y) && At(g, d, x).s[d] == x && |At(g, d, x).s| == |g.s|
  {
  }

  lemma GoesOnAt(g: Sys, d: nat, x: Sched, y: Sched)
    requires d < |g.s| && Reaches(g, d, At(g, d, x)) && Reaches(At(g, d, x), d, At(At(g, d, x), d, y))
    ensures Reaches(g, d, At(g, d, y))
  {
    hide Reaches;
    AtTwice(g, d, x, y);
    GoesOn(g, d, At(g, d, x), At(g, d, y));
  }

  // ---------- the parts of a turn ----------

  /** The workers that are runnable after both scans, the front first. */
  function Ready(q: Queues, io: seq<bool>, over: seq<bool>): seq<Wid>
    requires |io| == |q.pendingIo| && |over| == |q.waiting|
  {
    q.runnable + Chosen(q.pendingIo, io) + Chosen(q.waiting, over)
  }

  /** The queues after both scans. */
  ghost predicate Scanned(q: Queues, io: seq<bool>, over: seq<bool>, q': Queues)
    requires |io| == |q.pendingIo| && |over| == |q.waiting|
  {
    && Parked(q') && q'.runnable == Ready(q, io, over) && q'.idle == q.idle && q'.yielded == q.yielded && q'.task == q.task
    && q'.pendingIo == Others(q.pendingIo, io) && q'.waiting == Others(q.waiting, over)
  }

  lemma ParkedAt(g: Sys, d: nat)
    requires Inv(g) && d < |g.s| && PartOf(g.s[d].pc) == QueuePart
    ensures Parked(g.s[d].q) && Wf(g.s[d].q)
  {
    hide Inv, Wf, NoneRuns;
    LocalAt(g, d);
  }

  lemma Scans(g: Sys, d: nat, io: seq<bool>, over: seq<bool>) returns (sc: Sched)
    requires Inv(g) && d < |g.s| && g.s[d].pc == IoScan && |io| == |g.s[d].q.pendingIo| && |over| == |g.s[d].q.waiting|
    ensures Reaches(g, d, At(g, d, sc)) && Inv(At(g, d, sc))
    ensures Scanned(g.s[d].q, io, over, sc.q) && sc == g.s[d].(q := sc.q, pc := Fetch)
  {
    hide Inv, Reaches, Parked, Wf, ScheduleIo, ScheduleWaiting, Chosen, Others;
    ParkedAt(g, d);
    var q := g.s[d].q;
    ScheduleIoKeeps(q, io);
    var q1 := ScheduleIo(q, io);
    var sc1 := g.s[d].(q := q1, pc := WaitScan);
    Goes(g, d, Answers(io), sc1);
    var g1 := At(g, d, sc1);
    ParkedAt(g1, d);
    ScheduleWaitingKeeps(q1, over);
    sc := sc1.(q := ScheduleWaiting(q1, over), pc := Fetch);
    Goes(g1, d, Answers(over), sc);
    GoesOnAt(g, d, sc1, sc);
    AtTwice(g, d, sc1, sc);
  }

  /** From the test of the own deque to the yielded slot: a task is started if no worker is ready and one is idle. */
  ghost predicate Filled(sc: Sched, sc': Sched) {
    if sc.q.runnable == [] && sc.q.idle != [] && sc.tasks != []
    then && Starts(sc.q, sc.tasks[0], sc'.q) && sc'.q.yielded == sc.q.yielded
         && sc' == sc.(q := sc'.q, tasks := sc.tasks[1..], pc := YieldScan)
    else sc' == sc.(pc := YieldScan)
  }

  /** The front idle worker is given this task and is the only one runnable. */
  ghost predicate Starts(q: Queues, t: Task, q': Queues) {
    && q.idle != [] && q'.idle == q.idle[1..] && q'.runnable == [q.idle[0]]
    && q.idle[0] in q'.task && q'.task[q.idle[0]] == Some(t)
  }

  lemma Fills(g: Sys, d: nat) returns (sc: Sched)
    requires Inv(g) && d < |g.s| && g.s[d].pc == Fetch
    ensures Reaches(g, d, At(g, d, sc)) && Inv(At(g, d, sc)) && Filled(g.s[d], sc) && sc.pc == YieldScan
  {
    hide Inv, Reaches, Parked, Wf, StartTask;
    LocalAt(g, d);
    var (sc0, c) := (g.s[d], Flag(false));
    if sc0.q.runnable == [] && sc0.q.idle != [] && sc0.tasks != [] {
      var sc1 := sc0.(pc := Pop);
      Goes(g, d, c, sc1);
      var sc2 := sc0.(tasks := sc0.tasks[1..], pc := Hand(sc0.tasks[0], false));
      var g1 := At(g, d, sc1);
      Goes(g1, d, c, sc2);
      GoesOnAt(g, d, sc1, sc2);
      AtTwice(g, d, sc1, sc2);
      sc := HandedOver(At(g, d, sc2), d);
      GoesOnAt(g, d, sc2, sc);
      AtTwice(g, d, sc2, sc);
    } else {
      sc := sc0.(pc := YieldScan);
      Goes(g, d, c, sc);
    }
  }

  lemma HandedOver(g: Sys, d: nat) returns (sc: Sched)
    requires Inv(g) && d < |g.s| && g.s[d].pc.Hand?
    ensures Reaches(g, d, At(g, d, sc)) && Inv(At(g, d, sc))
    ensures Starts(g.s[d].q, g.s[d].pc.t, sc.q) && sc.q.yielded == g.s[d].q.yielded && Parked(sc.q)
    ensures sc == g.s[d].(q := sc.q, pc := if g.s[d].pc.stolen then Choose else YieldScan)
  {
    hide Inv, Reaches, Parked, Wf, StartTask;
    LocalAt(g, d);
    ParkedAt(g, d);
    var q := g.s[d].q;
    StartTaskKeeps(q, g.s[d].pc.t);
    sc := g.s[d].(q := StartTask(q, g.s[d].pc.t), pc := if g.s[d].pc.stolen then Choose else YieldScan);
    Goes(g, d, Flag(false), sc);
  }

  /** The yielded worker, if there is one, has become the last runnable one. */
  ghost predicate Resumable(sc: Sched, sc': Sched) {
    && sc'.q.runnable == sc.q.runnable + (if sc.q.yielded.Some? then [sc.q.yielded.value] else [])
    && sc'.q.yielded.None? && sc'.q.idle == sc.q.idle && sc'.q.task == sc.q.task
    && (sc.q.yielded.None? ==> sc'.q == sc.q)
    && sc' == sc.(q := sc'.q, pc := if sc'.q.runnable != [] || sc.q.idle == [] then Choose else Steal(0))
  }

  lemma Yields(g: Sys, d: nat) returns (sc: Sched)
    requires Inv(g) && d < |g.s| && g.s[d].pc == YieldScan
    ensures Reaches(g, d, At(g, d, sc)) && Inv(At(g, d, sc)) && Resumable(g.s[d], sc)
  {
    hide Inv, Reaches, Parked, Wf;
    ParkedAt(g, d);
    var q := g.s[d].q;
    ScheduleYieldedKeeps(q);
    Members(q);
    var q' := ScheduleYielded(q);
    sc := g.s[d].(q := q', pc := if q'.runnable != [] || q'.idle == [] then Choose else Steal(0));
    Goes(g, d, Flag(false), sc);
  }

  /** The end of a turn: the front of the runnable queue runs, or there is nobody to run. */
  ghost predicate Picked(sc: Sched, sc': Sched) {
    if sc.q.runnable != []
    then && sc'.pc == Exec && sc'.q.current == sc.q.runnable[0] && sc'.q.runnable == sc.q.runnable[1..]
         && sc'.q.idle == sc.q.idle && sc'.q.task == sc.q.task && sc' == sc.(q := sc'.q, pc := Exec)
    else sc' == sc.(pc := SleepEntry)
  }

  lemma Picks(g: Sys, d: nat) returns (sc: Sched)
    requires Inv(g) && d < |g.s| && g.s[d].pc == Choose
    ensures Reaches(g, d, At(g, d, sc)) && Inv(At(g, d, sc)) && Picked(g.s[d], sc)
  {
    hide Inv, Reaches, Parked, Wf, PrepareNextWorker;
    ParkedAt(g, d);
    LocalAt(g, d);
    var q := g.s[d].q;
    Members(q);
    if q.runnable != [] {
      PrepareNextRuns(q);
      sc := g.s[d].(q := PrepareNextWorker(q), pc := Exec);
    } else {
      sc := g.s[d].(pc := SleepEntry);
    }
    Goes(g, d, Flag(false), sc);
  }

  // ---------- stealing ----------

  /** The first scheduler from `j` on, other than `d`, that is worth stealing from. */
  predicate FirstWorth(s: seq<Sched>, d: nat, j: nat, k: nat) {
    j <= k < |s| && k != d && HasStealable(s[k]) && forall i :: j <= i < k && i != d ==> !HasStealable(s[i])
  }

  predicate NoneWorth(s: seq<Sched>, d: nat, j: nat) {
    forall i :: j <= i < |s| && i != d ==> !HasStealable(s[i])
  }

  /** The oldest task of scheduler `k` went to the front idle worker of scheduler `d`. */
  ghost predicate Stolen(g: Sys, d: nat, k: nat, g': Sys) {
    && d < |g.s| && k < |g.s| && k != d && g.s[k].tasks != [] && |g'.s| == |g.s|
    && Starts(g.s[d].q, g.s[k].tasks[0], g'.s[d].q) && g'.s[d] == g.s[d].(q := g'.s[d].q, pc := Choose)
    && g' == At(PopFrom(g, k), d, g'.s[d])
  }

  /** The record of the thief itself does not matter. */
  lemma SameWorth(g: Sys, d: nat, x: Sched, j: nat)
    requires d < |g.s|
    ensures NoneWorth(At(g, d, x).s, d, j) == NoneWorth(g.s, d, j)
    ensures forall k :: FirstWorth(At(g, d, x).s, d, j, k) == FirstWorth(g.s, d, j, k)
  {
    hide HasStealable;
    var s := At(g, d, x).s;
    forall i | 0 <= i < |s| && i != d ensures HasStealable(s[i]) == HasStealable(g.s[i]) { assert s[i] == g.s[i]; }
    if NoneWorth(s, d, j) {
      forall i | j <= i < |s| && i != d ensures !HasStealable(g.s[i]) { assert !HasStealable(s[i]); }
    }
    forall k: nat ensures FirstWorth(s, d, j, k) == FirstWorth(g.s, d, j, k) {
      if FirstWorth(s, d, j, k) {
        forall i | j <= i < k && i != d ensures !HasStealable(g.s[i]) { assert !HasStealable(s[i]); }
      }
    }
  }

  lemma NextWorth(s: seq<Sched>, d: nat, j: nat)
    requires j < |s| && (j == d || !HasStealable(s[j]))
    ensures NoneWorth(s, d, j) == NoneWorth(s, d, j + 1)
    ensures forall k :: FirstWorth(s, d, j + 1, k) ==> FirstWorth(s, d, j, k)
  {
  }

  lemma {:induction false} Steals(g: Sys, d: nat) returns (k: nat, g': Sys)
    requires Inv(g) && d < |g.s| && g.s[d].pc.Steal?
    ensures Reaches(g, d, g') && Inv(g')
    ensures if NoneWorth(g.s, d, g.s[d].pc.k) then g' == At(g, d, g.s[d].(pc := Choose))
            else FirstWorth(g.s, d, g.s[d].pc.k, k) && Stolen(g, d, k, g')
    decreases |g.s| - g.s[d].pc.k
  {
    hide Inv, Reaches, Wf, Starts, HasStealable;
    LocalAt(g, d);
    var (sc, c) := (g.s[d], Flag(false));
    k := sc.pc.k;
    if k >= |g.s| {
      g' := At(g, d, sc.(pc := Choose));
      Goes(g, d, c, sc.(pc := Choose));
    } else if k == d || !HasStealable(g.s[k]) {
      var sc1 := sc.(pc := Steal(k + 1));
      Goes(g, d, c, sc1);
      var g1 := At(g, d, sc1);
      AtTwice(g, d, sc1, sc.(pc := Choose));
      var j, g2 := Steals(g1, d);
      SameWorth(g, d, sc1, k + 1);
      NextWorth(g.s, d, k);
      if !NoneWorth(g.s, d, k) { StolenEarlier(g, d, j, sc1, g2); }
      GoesOn(g, d, g1, g2);
      k, g' := j, g2;
    } else {
      g' := TakesFrom(g, d, k);
    }
  }

  lemma StolenEarlier(g: Sys, d: nat, j: nat, x: Sched, g': Sys)
    requires d < |g.s| && x == g.s[d].(pc := x.pc) && Stolen(At(g, d, x), d, j, g')
    ensures Stolen(g, d, j, g')
  {
    hide Starts;
    var g1 := At(g, d, x);
    assert g1.s[j] == g.s[j];
    assert PopFrom(g1, j).s[d := g'.s[d]] == PopFrom(g, j).s[d := g'.s[d]];
  }

  lemma TakesFrom(g: Sys, d: nat, k: nat) returns (g': Sys)
    requires Inv(g) && d < |g.s| && g.s[d].pc == Steal(k) && k < |g.s| && k != d && HasStealable(g.s[k])
    ensures Reaches(g, d, g') && Inv(g') && Stolen(g, d, k, g')
  {
    hide Inv, Reaches, Wf, Starts, Next, LocalOk, Typed, Stolen, Do;
    LocalAt(g, d);
    var sc1 := g.s[d].(pc := StealPop(k));
    Goes(g, d, Flag(false), sc1);
    var g1 := At(g, d, sc1);
    var g2 := WithPc(PopFrom(g1, k), d, Hand(g.s[k].tasks[0], true));
    InvIsTyped(g1);
    StealIsAct(g1, d, k, g2);
    ActGoes(g1, StealTask(d), g2);
    GoesOn(g, d, g1, g2);
    var sc := HandedOver(g2, d);
    g' := At(g2, d, sc);
    GoesOn(g, d, g2, g');
    HandedStolen(g, d, k, sc);
  }

  lemma HandedStolen(g: Sys, d: nat, k: nat, sc: Sched)
    requires d < |g.s| && k < |g.s| && k != d && g.s[k].tasks != []
    requires Starts(g.s[d].q, g.s[k].tasks[0], sc.q) && sc == g.s[d].(q := sc.q, pc := Choose)
    ensures var g2 := WithPc(PopFrom(At(g, d, g.s[d].(pc := StealPop(k))), k), d, Hand(g.s[k].tasks[0], true));
      |g2.s| == |g.s| && Stolen(g, d, k, At(g2, d, sc))
  {
    hide Starts;
    var g1 := At(g, d, g.s[d].(pc := StealPop(k)));
    assert g1.s[k] == g.s[k];
    assert PopFrom(g1, k).s[d := sc] == PopFrom(g, k).s[d := sc];
  }

  lemma StealIsAct(g: Sys, d: nat, k: nat, g': Sys)
    requires Typed(g) && d < |g.s| && g.s[d].pc == StealPop(k) && k < |g.s| && k != d && g.s[k].tasks != []
    requires g' == WithPc(PopFrom(g, k), d, Hand(g.s[k].tasks[0], true))
    ensures Do(g, StealTask(d)) == Some(g')
  {
    hide Typed, WithPc, PopFrom, OwnActStep, MainStep;
  }

  // ---------- a whole turn ----------

  /**
   What a turn comes to. A worker that was ready goes first; only then the oldest own task is started on the front
   idle worker; only then a yielded worker goes on; only then a task is stolen; and only then the thread goes to
   sleep.
   */
  ghost predicate Turn(g: Sys, d: nat, io: seq<bool>, over: seq<bool>, g': Sys)
    requires d < |g.s| && |io| == |g.s[d].q.pendingIo| && |over| == |g.s[d].q.waiting|
  {
    var sc := g.s[d];
    var ready := Ready(sc.q, io, over);
    && |g'.s| == |g.s|
    && var sc' := g'.s[d];
       if ready != [] then
         sc'.pc == Exec && sc'.q.current == ready[0] && g' == At(g, d, sc') && sc' == sc.(q := sc'.q, pc := Exec)
       else if sc.q.idle != [] && sc.tasks != [] then
         Resumes(sc.q, sc.tasks[0], sc'.q) && g' == At(g, d, sc') && sc' == sc.(q := sc'.q, tasks := sc.tasks[1..], pc := Exec)
       else if sc.q.yielded.Some? then
         sc'.pc == Exec && sc'.q.current == sc.q.yielded.value && g' == At(g, d, sc') && sc' == sc.(q := sc'.q, pc := Exec)
       else if sc.q.idle != [] && !NoneWorth(g.s, d, 0) then
         exists k: nat :: FirstWorth(g.s, d, 0, k) && Thief(g, d, k, g')
       else
         sc'.pc == SleepEntry && g' == At(g, d, sc') && sc' == sc.(q := sc'.q, pc := SleepEntry) && sc'.q.idle == sc.q.idle
         && sc'.q.runnable == [] && sc'.q.pendingIo == Others(sc.q.pendingIo, io) && sc'.q.waiting == Others(sc.q.waiting, over)
  }

  /** The front idle worker runs, with this task. */
  ghost predicate Resumes(q: Queues, t: Task, q': Queues) {
    && q.idle != [] && q'.idle == q.idle[1..] && q'.current == q.idle[0]
    && q.idle[0] in q'.task && q'.task[q.idle[0]] == Some(t)
  }

  ghost predicate Thief(g: Sys, d: nat, k: nat, g': Sys)
    requires d < |g.s| && |g'.s| == |g.s|
  {
    && k < |g.s| && k != d && g.s[k].tasks != [] && Resumes(g.s[d].q, g.s[k].tasks[0], g'.s[d].q)
    && g'.s[d] == g.s[d].(q := g'.s[d].q, pc := Exec) && g' == At(PopFrom(g, k), d, g'.s[d])
  }

  lemma PicksAt(g: Sys, d: nat, sc: Sched) returns (sc': Sched)
    requires d < |g.s| && Reaches(g, d, At(g, d, sc)) && Inv(At(g, d, sc)) && sc.pc == Choose
    ensures Reaches(g, d, At(g, d, sc')) && Picked(sc, sc')
  {
    hide Inv, Reaches, Picked;
    sc' := Picks(At(g, d, sc), d);
    GoesOnAt(g, d, sc, sc');
  }

  lemma TakesTurn(g: Sys, d: nat, io: seq<bool>, over: seq<bool>) returns (g': Sys)
    requires Inv(g) && d < |g.s| && g.s[d].pc == IoScan && |io| == |g.s[d].q.pendingIo| && |over| == |g.s[d].q.waiting|
    ensures Reaches(g, d, g') && Turn(g, d, io, over, g')
  {
    hide Inv, Reaches, Turn, Scanned, Filled, Resumable, Picked;
    var sc1 := Scans(g, d, io, over);
    var sc2 := Fills(At(g, d, sc1), d);
    GoesOnAt(g, d, sc1, sc2);
    AtTwice(g, d, sc1, sc2);
    var sc3 := Yields(At(g, d, sc2), d);
    GoesOnAt(g, d, sc2, sc3);
    AtTwice(g, d, sc2, sc3);
    if sc3.pc == Choose {
      var sc4 := PicksAt(g, d, sc3);
      g' := At(g, d, sc4);
      TurnOwn(g, d, io, over, sc1, sc2, sc3, sc4);
    } else {
      WhenStealing(sc2, sc3);
      g' := StealsAt(g, d, sc3);
      SameWorth(g, d, sc3, 0);
      TurnStolen(g, d, io, over, sc1, sc2, sc3, g');
    }
  }

  lemma WhenStealing(sc: Sched, sc': Sched)
    requires Resumable(sc, sc') && sc'.pc != Choose
    ensures sc'.pc == Steal(0) && sc'.q.runnable == []
  {
  }

  /** A turn that ends without looking at other schedulers. */
  lemma TurnOwn(g: Sys, d: nat, io: seq<bool>, over: seq<bool>, sc1: Sched, sc2: Sched, sc3: Sched, sc4: Sched)
    requires d < |g.s| && |io| == |g.s[d].q.pendingIo| && |over| == |g.s[d].q.waiting|
    requires Scanned(g.s[d].q, io, over, sc1.q) && sc1 == g.s[d].(q := sc1.q, pc := Fetch)
    requires Filled(sc1, sc2) && Resumable(sc2, sc3) && sc3.pc == Choose && Picked(sc3, sc4)
    ensures Turn(g, d, io, over, At(g, d, sc4))
  {
    hide Parked, HasStealable, Ready;
    var (sc, ready) := (g.s[d], Ready(g.s[d].q, io, over));
    var slot := if sc.q.yielded.Some? then [sc.q.yielded.value] else [];
    if ready != [] {
      assert sc3.q.runnable == ready + slot;
    } else if sc.q.idle != [] && sc.tasks != [] {
      assert sc3.q.runnable == [sc.q.idle[0]] + slot;
    } else {
      assert sc3.q.runnable == slot;
    }
  }

  lemma TurnStolen(g: Sys, d: nat, io: seq<bool>, over: seq<bool>, sc1: Sched, sc2: Sched, sc3: Sched, g': Sys)
    requires d < |g.s| && |io| == |g.s[d].q.pendingIo| && |over| == |g.s[d].q.waiting| && |g'.s| == |g.s|
    requires Scanned(g.s[d].q, io, over, sc1.q) && sc1 == g.s[d].(q := sc1.q, pc := Fetch)
    requires Filled(sc1, sc2) && Resumable(sc2, sc3) && sc3.pc == Steal(0)
    requires if NoneWorth(g.s, d, 0) then g' == At(g, d, sc3.(pc := SleepEntry))
             else exists k: nat :: FirstWorth(g.s, d, 0, k) && Thief(At(g, d, sc3), d, k, g')
    ensures Turn(g, d, io, over, g')
  {
    hide Parked, HasStealable, Ready, FirstWorth, NoneWorth;
    if !NoneWorth(g.s, d, 0) {
      var k: nat :| FirstWorth(g.s, d, 0, k) && Thief(At(g, d, sc3), d, k, g');
      assert At(PopFrom(At(g, d, sc3), k), d, g'.s[d]) == At(PopFrom(g, k), d, g'.s[d]);
      assert At(g, d, sc3).s[k] == g.s[k];
      assert Thief(g, d, k, g');
    }
  }

  lemma StealsAt(g: Sys, d: nat, x: Sched) returns (g': Sys)
    requires d < |g.s| && Reaches(g, d, At(g, d, x)) && Inv(At(g, d, x)) && x.pc == Steal(0) && x.q.runnable == []
    ensures Reaches(g, d, g') && |g'.s| == |g.s|
    ensures if NoneWorth(At(g, d, x).s, d, 0) then g' == At(g, d, x.(pc := SleepEntry))
            else exists k: nat :: FirstWorth(At(g, d, x).s, d, 0, k) && Thief(At(g, d, x), d, k, g')
  {
    hide Inv, Reaches, HasStealable;
    var g1 := At(g, d, x);
    var k, g2 := Steals(g1, d);
    GoesOn(g, d, g1, g2);
    var sc' := Picks(g2, d);
    g' := At(g2, d, sc');
    GoesOn(g, d, g2, g');
    if NoneWorth(g1.s, d, 0) {
      AtTwice(g, d, x, x.(pc := Choose));
      AtTwice(g, d, x.(pc := Choose), sc');
    } else {
      assert Thief(g1, d, k, g');
    }
  }

  /** One turn of scheduler `d` in any reachable state, for any answers of the two scans. */
  lemma TurnResult(b: seq<Sys>, i: nat, d: nat, io: seq<bool>, over: seq<bool>)
    requires Behaviour(b) && i < |b| && d < |b[i].s| && b[i].s[d].pc == IoScan
    requires |io| == |b[i].s[d].q.pendingIo| && |over| == |b[i].s[d].q.waiting|
    ensures exists g' :: Reaches(b[i], d, g') && Turn(b[i], d, io, over, g')
  {
    hide Behaviour, Inv, Reaches, Turn;
    BehaviourInv(b, i);
    var g' := TakesTurn(b[i], d, io, over);
  }
}
