/** Every step of the system of schedulers keeps its invariant. */
module SchedulerProof {
  import opened Common
  import opened SchedulerQueues
  import opened SchedulerSystem
  import opened SchedulerLocal
  import opened SchedulerInvariant

  /** A change of one record that what main knows survives. */
  ghost predicate Harmless(m: MainPc, sc: Sched, sc': Sched) {
    && sc'.exit == sc.exit
    && (sc'.mtx == Some(MainThread) <==> sc.mtx == Some(MainThread))
    && (IdleSeen(m) ==> QuietOk(sc'))
    && (m.Inspect? ==> sc'.phase == sc.phase)
  }

  lemma OneChangeCore(g: Sys, i: nat, sc': Sched, g': Sys)
    requires Core(g) && i < |g.s| && g'.s == g.s[i := sc'] && g'.main == g.main
    requires LocalOk(sc', |g.s|, i) && Harmless(g.main, g.s[i], sc')
    requires g.main.Inspect? && g.s[i].tasks == [] && sc'.tasks != [] ==> SomeBusy(g)
    ensures Core(g')
  {
    hide LocalOk, QuietOk;
    if g.main.Inspect? && SomeBusy(g) {
      var j :| 0 <= j < |g.s| && g.s[j].phase != IdleSleep;
      assert g'.s[j].phase != IdleSleep;
    }
  }

  lemma InspectLocked(g: Sys, i: nat)
    requires Core(g) && i < |g.s| && g.main.Inspect?
    ensures g.s[i].mtx == Some(MainThread) && !g.s[i].exit
  {
  }

  // ---------- own steps ----------

  lemma OwnActKeeps(g: Sys, i: nat, c: Choice, g': Sys)
    requires Inv(g) && Typed(g) && i < |g.s| && g.s[i].pc != Exited && OwnActStep(g, i, c) == Some(g')
    ensures Inv(g')
  {
    hide LocalOk, WakeOk, QuietOk, Bag, Wf, OwnStep, Counted, CountDelta, Completed;
    hide Owed, Signalled, SomeBusy, MainHolds, ExitSet, AllBags;
    var n, sc := |g.s|, g.s[i];
    var worthIt := sc.pc.Steal? && sc.pc.k < n && HasStealable(g.s[sc.pc.k]);
    var sc' := OwnStep(sc, n, i, c, worthIt, g.idleCount + 1 >= n).value;
    var last := g.idleCount + 1 >= n;
    assert g'.s == g.s[i := sc'];
    OwnStepKeepsLocal(sc, n, i, c, worthIt, last, sc');
    OwnStepContained(sc, n, i, c, worthIt, last, sc');
    if IdleSeen(g.main) { OwnStepKeepsQuiet(sc, n, i, c, worthIt, last, sc'); }
    if g.main.Inspect? { InspectLocked(g, i); OwnStepFrozen(sc, n, i, c, worthIt, last, sc'); }
    OneChangeCore(g, i, sc', g');
    OwnActWakes(g, i, c, worthIt, last, sc', g');
    OwnActCensus(g, i, c, worthIt, last, sc', g');
    CountIdleUpdate(g.s, i, sc');
  }

  lemma OwnActWakes(g: Sys, i: nat, c: Choice, worthIt: bool, last: bool, sc': Sched, g': Sys)
    requires Inv(g) && i < |g.s| && Wf(g.s[i].q) && OwnStep(g.s[i], |g.s|, i, c, worthIt, last) == Some(sc')
    requires g'.s == g.s[i := sc'] && g'.main == g.main
    ensures Wakes(g')
  {
    hide LocalOk, WakeOk, OwnStep, Owed, Signalled, Wf;
    OwnStepContained(g.s[i], |g.s|, i, c, worthIt, last, sc');
    OwnStepKeepsWake(g.s[i], |g.s|, i, c, worthIt, last, sc', Owed(g, i), Signalled(g, i));
    forall d | 0 <= d < |g'.s| ensures WakeOk(g'.s[d], Owed(g', d), Signalled(g', d)) {
      OwedKeeps(g, g', i, d);
      SignalledKeeps(g, g', i, d);
      WakeMore(g'.s[d], Owed(g, d), Signalled(g, d), Owed(g', d), Signalled(g', d));
    }
  }

  lemma OwnActCensus(g: Sys, i: nat, c: Choice, worthIt: bool, last: bool, sc': Sched, g': Sys)
    requires Inv(g) && i < |g.s| && Wf(g.s[i].q) && OwnStep(g.s[i], |g.s|, i, c, worthIt, last) == Some(sc')
    requires g'.s == g.s[i := sc'] && g'.main == g.main && g'.created == g.created
    requires g'.finished ==
      if Completed(g.s[i], c).Some? then g.finished + [Completed(g.s[i], c).value] else g.finished
    ensures Census(g')
  {
    hide LocalOk, Bag, OwnStep, Wf;
    OwnStepBag(g.s[i], |g.s|, i, c, worthIt, last, sc');
    AllBagsUpdate(g.s, i, sc');
    var done := OptBag(Completed(g.s[i], c));
    assert multiset(g'.finished) == multiset(g.finished) + done;
    Cancel(AllBags(g'.s), Bag(sc'), done, AllBags(g.s));
    assert AllBags(g'.s) + done == AllBags(g.s);
  }

  lemma Cancel(a: multiset<Task>, b: multiset<Task>, d: multiset<Task>, s: multiset<Task>)
    requires a + (b + d) == s + b
    ensures a + d == s
  {
    forall t ensures (a + d)[t] == s[t] {
      assert (a + (b + d))[t] == (s + b)[t];
    }
  }

  // ---------- steps of user code that reach another scheduler ----------

  /** A thread in user code moves to another point of user code. */
  lemma UserMoveCore(g: Sys, i: nat, pc: Pc, g': Sys)
    requires Core(g) && i < |g.s| && PartOf(g.s[i].pc) == UserPart && PartOf(pc) == UserPart
    requires TargetsOk(pc, |g.s|, i) && g'.s == g.s[i := g.s[i].(pc := pc)] && g'.main == g.main
    ensures Core(g') && !IdleSeen(g.main) && SomeBusy(g) && SomeBusy(g')
    ensures OthersNotify(g, g', i) && CountIdle(g'.s) == CountIdle(g.s)
  {
    hide LocalOk, QuietOk, Counted, PartOf;
    UserPcSwap(g.s[i], |g.s|, i, pc);
    OneChangeCore(g, i, g.s[i].(pc := pc), g');
    CountIdleUpdate(g.s, i, g.s[i].(pc := pc));
    assert g'.s[i].phase != IdleSleep;
  }

  lemma UserPcOf(g: Sys, i: nat)
    requires Core(g) && i < |g.s|
    ensures LocalOk(g.s[i], |g.s|, i) && TargetsOk(g.s[i].pc, |g.s|, i)
  {
  }

  /** Thread `i` stays in user code; the only other record that may change is that of `d`. */
  lemma RemoteWakes(g: Sys, g': Sys, i: nat, d: nat)
    requires Core(g) && Core(g') && Wakes(g) && i < |g.s| && d < |g.s| && OthersNotify(g, g', i)
    requires PartOf(g.s[i].pc) == UserPart && PartOf(g'.s[i].pc) == UserPart
    requires forall x :: 0 <= x < |g.s| && x != i && x != d ==> g'.s[x] == g.s[x]
    requires NotifyTarget(g, i) == None || NotifyTarget(g, i) == Some(d)
    requires SignalTarget(g, i) == None || SignalTarget(g, i) == Some(d)
    requires d != i ==> WakeOk(g'.s[d], Owed(g', d), Signalled(g', d))
    ensures Wakes(g')
  {
    hide LocalOk, WakeOk, QuietOk, Owed, Signalled, PartOf;
    forall x | 0 <= x < |g'.s| ensures WakeOk(g'.s[x], Owed(g', x), Signalled(g', x)) {
      if x == i {
        UserPcOf(g', i);
        UserPcSwap(g'.s[i], |g.s|, i, g'.s[i].pc);
        assert g'.s[i].(pc := g'.s[i].pc) == g'.s[i];
      } else if x != d {
        OwedKeeps(g, g', i, x);
        SignalledKeeps(g, g', i, x);
        WakeMore(g.s[x], Owed(g, x), Signalled(g, x), Owed(g', x), Signalled(g', x));
      }
    }
  }

  /** One record replaced: the sum of all tasks moves by the difference of the record's own. */
  lemma BagsSame(s: seq<Sched>, i: nat, x: Sched)
    requires i < |s| && Bag(x) == Bag(s[i])
    ensures AllBags(s[i := x]) == AllBags(s)
  {
    hide Bag;
    AllBagsUpdate(s, i, x);
    Cancel(AllBags(s[i := x]), Bag(x), multiset{}, AllBags(s));
  }

  lemma BagsMore(s: seq<Sched>, i: nat, x: Sched, t: Task)
    requires i < |s| && Bag(x) == Bag(s[i]) + multiset{t}
    ensures AllBags(s[i := x]) == AllBags(s) + multiset{t}
  {
    hide Bag;
    AllBagsUpdate(s, i, x);
    Gain(AllBags(s[i := x]), Bag(s[i]), AllBags(s), multiset{t});
  }

  lemma BagsLess(s: seq<Sched>, i: nat, x: Sched, t: Task)
    requires i < |s| && Bag(x) + multiset{t} == Bag(s[i])
    ensures AllBags(s[i := x]) + multiset{t} == AllBags(s)
  {
    hide Bag;
    AllBagsUpdate(s, i, x);
    Cancel(AllBags(s[i := x]), Bag(x), multiset{t}, AllBags(s));
  }

  lemma Gain(a: multiset<Task>, b: multiset<Task>, s: multiset<Task>, d: multiset<Task>)
    requires a + b == s + (b + d)
    ensures a == s + d
  {
    forall t ensures a[t] == (s + d)[t] {
      assert (a + b)[t] == (s + (b + d))[t];
    }
  }

  lemma PcBag(sc: Sched, pc: Pc)
    ensures sc.pc.Exec? && pc.Pushing? ==> Bag(sc.(pc := pc)) == Bag(sc) + multiset{pc.t}
    ensures sc.pc.StealPop? && pc.Hand? ==> Bag(sc.(pc := pc)) == Bag(sc) + multiset{pc.t}
    ensures sc.pc.Pushing? && pc.Notifying? ==> Bag(sc.(pc := pc)) + multiset{sc.pc.t} == Bag(sc)
    ensures InHand(sc.pc) == InHand(pc) ==> Bag(sc.(pc := pc)) == Bag(sc)
  {
    hide HeldBy;
    if sc.pc.Pushing? && pc.Notifying? {
      assert InHand(pc) == multiset{};
    }
  }

  lemma TasksBag(sc: Sched, t: Task)
    ensures Bag(sc.(tasks := sc.tasks + [t])) == Bag(sc) + multiset{t}
    ensures sc.tasks != [] ==> Bag(sc.(tasks := sc.tasks[1..])) + multiset{sc.tasks[0]} == Bag(sc)
  {
    hide HeldBy;
    if sc.tasks != [] { assert sc.tasks == [sc.tasks[0]] + sc.tasks[1..]; }
  }

  lemma CreateKeeps(g: Sys, i: nat, d: nat, t: Task, g': Sys)
    requires Inv(g) && i < |g.s| && d < |g.s| && g.s[i].pc == Exec && t !in g.created
    requires g' == WithPc(g, i, Pushing(d, t)).(created := g.created + {t})
    ensures Inv(g')
  {
    hide LocalOk, WakeOk, QuietOk, Core, Wakes, Owed, Signalled, AllBags, Bag, CountIdle;
    UserPcOf(g, i);
    UserMoveCore(g, i, Pushing(d, t), g');
    if d != i { CreateWakes(g, g', i, d); }
    RemoteWakes(g, g', i, d);
    PcBag(g.s[i], Pushing(d, t));
    BagsMore(g.s, i, g'.s[i], t);
    assert multiset(g'.created) == multiset(g.created) + multiset{t};
  }

  /** The record of `d` is untouched, so what it needed before is still there. */
  lemma CreateWakes(g: Sys, g': Sys, i: nat, d: nat)
    requires Wakes(g) && i < |g.s| && d < |g.s| && OthersNotify(g, g', i) && g'.s[d] == g.s[d]
    requires NotifyTarget(g, i) == None && SignalTarget(g, i) == None
    ensures WakeOk(g'.s[d], Owed(g', d), Signalled(g', d))
  {
    hide WakeOk, Owed, Signalled;
    OwedKeeps(g, g', i, d);
    SignalledKeeps(g, g', i, d);
    WakeMore(g.s[d], Owed(g, d), Signalled(g, d), Owed(g', d), Signalled(g', d));
  }

  lemma SetCondKeeps(g: Sys, i: nat, d: nat, w: Wid, g': Sys)
    requires Inv(g) && i < |g.s| && d < |g.s| && g.s[i].pc == Exec && g' == AddCond(WithPc(g, i, Notifying(d)), d, w)
    ensures Inv(g')
  {
    hide LocalOk, WakeOk, QuietOk, Core, Wakes, Owed, Signalled, AllBags, Bag, CountIdle;
    var m := WithPc(g, i, Notifying(d));
    var c := m.s[d].cond + {w};
    UserPcOf(g, i);
    UserMoveCore(g, i, Notifying(d), m);
    assert g'.s == m.s[d := m.s[d].(cond := c)];
    SetCondCore(m, d, c, g');
    SetCondWakes(g, i, d, c, g');
    UserMoveSums(g.s, i, Notifying(d));
    CondSums(m.s, d, c);
  }

  lemma SetCondCore(m: Sys, d: nat, c: set<Wid>, g': Sys)
    requires Core(m) && !IdleSeen(m.main) && d < |m.s| && g'.s == m.s[d := m.s[d].(cond := c)] && g'.main == m.main
    ensures Core(g')
  {
    hide LocalOk, QuietOk, Core;
    UserPcOf(m, d);
    CondChange(m.s[d], |m.s|, d, c);
    OneChangeCore(m, d, m.s[d].(cond := c), g');
  }

  lemma SetCondWakes(g: Sys, i: nat, d: nat, c: set<Wid>, g': Sys)
    requires Core(g) && Wakes(g) && Core(g') && i < |g.s| && d < |g.s| && g.s[i].pc == Exec && g'.main == g.main
    requires g'.s == (var s := g.s[i := g.s[i].(pc := Notifying(d))]; s[d := s[d].(cond := c)])
    ensures Wakes(g')
  {
    hide LocalOk, WakeOk, Core, Wakes, Owed, Signalled;
    assert OthersNotify(g, g', i);
    Notifies(g', i, d);
    if d != i {
      UserPcOf(g, d);
      CondChange(g.s[d], |g.s|, d, c);
      WakeAt(g, d);
      WakeMore(g.s[d], Owed(g, d), Signalled(g, d), true, Signalled(g, d));
      SignalledKeeps(g, g', i, d);
      WakeMore(g'.s[d], true, Signalled(g, d), true, Signalled(g', d));
    }
    RemoteWakes(g, g', i, d);
  }

  lemma WakeAt(g: Sys, d: nat)
    requires Wakes(g) && d < |g.s|
    ensures WakeOk(g.s[d], Owed(g, d), Signalled(g, d))
  {
  }

  lemma CondBag(sc: Sched, c: set<Wid>)
    ensures Bag(sc.(cond := c)) == Bag(sc) && Bag(sc.(running := true)) == Bag(sc)
  {
  }

  lemma PushKeeps(g: Sys, i: nat, g': Sys)
    requires Inv(g) && i < |g.s| && g.s[i].pc.Pushing? && g.s[i].pc.target < |g.s|
    requires g' == PushTo(WithPc(g, i, Notifying(g.s[i].pc.target)), g.s[i].pc.target, g.s[i].pc.t)
    ensures Inv(g')
  {
    hide LocalOk, WakeOk, QuietOk, Core, Wakes, Owed, Signalled, AllBags, Bag, CountIdle;
    var d, t := g.s[i].pc.target, g.s[i].pc.t;
    var m := WithPc(g, i, Notifying(d));
    var sc' := m.s[d].(tasks := m.s[d].tasks + [t]);
    UserPcOf(g, i);
    UserMoveCore(g, i, Notifying(d), m);
    UserPcOf(m, d);
    TasksChange(m.s[d], |g.s|, d, sc'.tasks);
    OneChangeCore(m, d, sc', g');
    Notifies(g', i, d);
    if d != i {
      assert m.s[d] == g.s[d];
      WakeAt(g, d);
      WakeMore(g.s[d], Owed(g, d), Signalled(g, d), true, Signalled(g, d));
      SignalledKeeps(g, g', i, d);
      WakeMore(sc', true, Signalled(g, d), true, Signalled(g', d));
    }
    RemoteWakes(g, g', i, d);
    PcBag(g.s[i], Notifying(d));
    BagsLess(g.s, i, m.s[i], t);
    TasksBag(m.s[d], t);
    BagsMore(m.s, d, sc', t);
    CountIdleUpdate(m.s, d, sc');
  }

  lemma NotifyKeeps(g: Sys, i: nat, g': Sys)
    requires Inv(g) && i < |g.s| && g.s[i].pc.Notifying? && g.s[i].pc.target < |g.s| && g.s[g.s[i].pc.target].mtx == None
    requires g' == MarkRunning(WithPc(g, i, Signalling(g.s[i].pc.target)), g.s[i].pc.target)
    ensures Inv(g')
  {
    hide LocalOk, WakeOk, QuietOk, Core, Wakes, Owed, Signalled, AllBags, Bag, CountIdle;
    var d := g.s[i].pc.target;
    var m := WithPc(g, i, Signalling(d));
    var sc' := m.s[d].(running := true);
    UserPcOf(g, i);
    UserMoveCore(g, i, Signalling(d), m);
    UserPcOf(m, d);
    RunningChange(m.s[d], |g.s|, d);
    OneChangeCore(m, d, sc', g');
    Signals(g', i, d);
    if d != i {
      assert m.s[d] == g.s[d];
      WakeAt(g, d);
    }
    RemoteWakes(g, g', i, d);
    UserMoveSums(g.s, i, Signalling(d));
    RunningSums(m.s, d);
  }

  lemma SignalKeeps(g: Sys, i: nat, g': Sys)
    requires Inv(g) && i < |g.s| && g.s[i].pc.Signalling? && g.s[i].pc.target < |g.s|
    requires g' == Wake(WithPc(g, i, Exec), g.s[i].pc.target)
    ensures Inv(g')
  {
    hide LocalOk, WakeOk, QuietOk, Core, Wakes, Owed, Signalled, AllBags, Bag, Woken, CountIdle;
    var d := g.s[i].pc.target;
    var m := WithPc(g, i, Exec);
    var sc' := m.s[d].(pc := Woken(m.s[d].pc));
    UserPcOf(g, i);
    UserMoveCore(g, i, Exec, m);
    UserPcOf(m, d);
    WokenKeeps(m.s[d], |g.s|, d);
    OneChangeCore(m, d, sc', g');
    WokenUser(g, i, d);
    if d != i {
      assert m.s[d] == g.s[d];
      WakeAt(g, d);
      OwedKeeps(g, g', i, d);
      WakeMore(sc', Owed(g, d), Signalled(g', d), Owed(g', d), Signalled(g', d));
    }
    RemoteWakes(g, g', i, d);
    UserMoveSums(g.s, i, Exec);
    WokenSums(m.s, d);
  }

  /** Waking a thread moves no task and leaves the idle count alone. */
  lemma WokenSums(s: seq<Sched>, d: nat)
    requires d < |s|
    ensures var s' := s[d := s[d].(pc := Woken(s[d].pc))];
      AllBags(s') == AllBags(s) && CountIdle(s') == CountIdle(s)
  {
    hide Bag;
    var x := s[d].(pc := Woken(s[d].pc));
    assert InHand(x.pc) == InHand(s[d].pc) && Counted(x.pc) == Counted(s[d].pc);
    PcBag(s[d], x.pc);
    BagsSame(s, d, x);
    CountIdleUpdate(s, d, x);
  }

  /** A thread that moves from one `notify` point to the next carries no task. */
  lemma UserMoveSums(s: seq<Sched>, i: nat, pc: Pc)
    requires i < |s| && InHand(s[i].pc) == InHand(pc) && Counted(s[i].pc) == Counted(pc)
    ensures AllBags(s[i := s[i].(pc := pc)]) == AllBags(s) && CountIdle(s[i := s[i].(pc := pc)]) == CountIdle(s)
  {
    hide Bag;
    PcBag(s[i], pc);
    BagsSame(s, i, s[i].(pc := pc));
    CountIdleUpdate(s, i, s[i].(pc := pc));
  }

  /** Flags change no task and no count. */
  lemma CondSums(s: seq<Sched>, d: nat, c: set<Wid>)
    requires d < |s|
    ensures AllBags(s[d := s[d].(cond := c)]) == AllBags(s) && CountIdle(s[d := s[d].(cond := c)]) == CountIdle(s)
  {
    hide Bag;
    CondBag(s[d], c);
    BagsSame(s, d, s[d].(cond := c));
    CountIdleUpdate(s, d, s[d].(cond := c));
  }

  lemma RunningSums(s: seq<Sched>, d: nat)
    requires d < |s|
    ensures AllBags(s[d := s[d].(running := true)]) == AllBags(s)
    ensures CountIdle(s[d := s[d].(running := true)]) == CountIdle(s)
  {
    hide Bag;
    CondBag(s[d], {});
    BagsSame(s, d, s[d].(running := true));
    CountIdleUpdate(s, d, s[d].(running := true));
  }

  lemma WokenUser(g: Sys, i: nat, d: nat)
    requires Core(g) && i < |g.s| && d < |g.s|
    ensures Woken(Exec) == Exec
    ensures OthersNotify(g, Wake(WithPc(g, i, Exec), d), i)
  {
    hide LocalOk;
  }

  lemma StealEmptyKeeps(g: Sys, i: nat, k: nat, g': Sys)
    requires Inv(g) && i < |g.s| && g.s[i].pc == StealPop(k) && g' == WithPc(g, i, Steal(k + 1))
    ensures Inv(g')
  {
    StealMove(g, i, k, Steal(k + 1), g');
    hide LocalOk, WakeOk, QuietOk, Core, Wakes, Owed, Signalled, AllBags, Bag, CountIdle;
    PcBag(g.s[i], Steal(k + 1));
    BagsSame(g.s, i, g'.s[i]);
  }

  /** The thief goes on to the next scheduler, or has a task in hand. */
  lemma StealMove(g: Sys, i: nat, k: nat, pc: Pc, g': Sys)
    requires Core(g) && Wakes(g) && i < |g.s| && g.s[i].pc == StealPop(k)
    requires pc == Steal(k + 1) || (pc.Hand? && pc.stolen)
    requires g' == WithPc(g, i, pc)
    ensures Core(g') && Wakes(g') && CountIdle(g'.s) == CountIdle(g.s)
  {
    hide QuietOk, Owed, Signalled, Parked;
    var sc' := g.s[i].(pc := pc);
    assert LocalOk(g.s[i], |g.s|, i);
    assert LocalOk(sc', |g.s|, i);
    StealNotQuiet(g, i);
    OneChangeCore(g, i, sc', g');
    forall d | 0 <= d < |g'.s| ensures WakeOk(g'.s[d], Owed(g', d), Signalled(g', d)) {
      OwedKeeps(g, g', i, d);
      SignalledKeeps(g, g', i, d);
      WakeAt(g, d);
      if d != i { WakeMore(g.s[d], Owed(g, d), Signalled(g, d), Owed(g', d), Signalled(g', d)); }
    }
    CountIdleUpdate(g.s, i, sc');
  }

  lemma StealNotQuiet(g: Sys, i: nat)
    requires Core(g) && i < |g.s| && g.s[i].pc.StealPop?
    ensures !IdleSeen(g.main)
  {
  }

  lemma StealTaskKeeps(g: Sys, i: nat, k: nat, g': Sys)
    requires Inv(g) && i < |g.s| && g.s[i].pc == StealPop(k) && k < |g.s| && k != i && g.s[k].tasks != []
    requires g' == WithPc(PopFrom(g, k), i, Hand(g.s[k].tasks[0], true))
    ensures Inv(g')
  {
    hide LocalOk, WakeOk, QuietOk, Core, Wakes, Owed, Signalled, AllBags, Bag, CountIdle;
    var m := PopFrom(g, k);
    var t := g.s[k].tasks[0];
    PopFromKeeps(g, k, m);
    StealNotQuiet(g, i);
    StealMove(m, i, k, Hand(t, true), g');
    PcBag(m.s[i], Hand(t, true));
    BagsMore(m.s, i, g'.s[i], t);
  }

  lemma PopFromKeeps(g: Sys, k: nat, m: Sys)
    requires Inv(g) && k < |g.s| && g.s[k].tasks != [] && m == PopFrom(g, k)
    ensures Core(m) && Wakes(m) && CountIdle(m.s) == CountIdle(g.s)
    ensures AllBags(m.s) + multiset{g.s[k].tasks[0]} == AllBags(g.s)
  {
    hide LocalOk, WakeOk, QuietOk, Owed, Signalled, AllBags, Bag;
    var sc' := g.s[k].(tasks := g.s[k].tasks[1..]);
    UserPcOf(g, k);
    TasksChange(g.s[k], |g.s|, k, sc'.tasks);
    QuietPop(g, k);
    OneChangeCore(g, k, sc', m);
    forall d | 0 <= d < |m.s| ensures WakeOk(m.s[d], Owed(m, d), Signalled(m, d)) {
      OwedKeeps(g, m, k, d);
      SignalledKeeps(g, m, k, d);
      WakeAt(g, d);
      WakeMore(m.s[d], Owed(g, d), Signalled(g, d), Owed(m, d), Signalled(m, d));
    }
    CountIdleUpdate(g.s, k, sc');
    TasksBag(g.s[k], 0);
    BagsLess(g.s, k, sc', g.s[k].tasks[0]);
  }

  lemma QuietPop(g: Sys, k: nat)
    requires Core(g) && k < |g.s| && g.s[k].tasks != []
    ensures !IdleSeen(g.main)
  {
  }

  // ---------- steps of main ----------

  /** Main moves on without touching a record. */
  lemma MainMoveKeeps(g: Sys, m: MainPc, check: bool, g': Sys)
    requires Inv(g) && MainOk(m, |g.s|) && g' == g.(main := m, checkIdle := check)
    requires MainNotifies(g.main) == None && MainSignals(g.main) == None && MainBag(g.main) == MainBag(m)
    requires forall i :: 0 <= i < |g.s| ==> MainHolds(m, i) == MainHolds(g.main, i) && ExitSet(m, i) == ExitSet(g.main, i)
    requires Quiets(g') && Inspected(g')
    ensures Inv(g')
  {
    hide LocalOk, WakeOk, QuietOk, Owed, Signalled, AllBags, SomeBusy;
    MainWakes(g, g', |g.s|);
  }

  /** Records other than `d` are unchanged and only main's place in `notify` moved. */
  lemma MainWakes(g: Sys, g': Sys, d: nat)
    requires Wakes(g) && |g'.s| == |g.s| && forall x :: 0 <= x < |g.s| && x != d ==> g'.s[x] == g.s[x]
    requires forall x :: 0 <= x < |g.s| ==>
      NotifyOf(g'.s[x].pc) == NotifyOf(g.s[x].pc) && SignalOf(g'.s[x].pc) == SignalOf(g.s[x].pc)
    requires MainNotifies(g.main) == None || MainNotifies(g.main) == Some(d)
    requires MainSignals(g.main) == None || MainSignals(g.main) == Some(d)
    requires d < |g.s| ==> WakeOk(g'.s[d], Owed(g', d), Signalled(g', d))
    ensures Wakes(g')
  {
    hide WakeOk, Owed, Signalled;
    assert OthersNotify(g, g', |g.s|);
    forall x | 0 <= x < |g'.s| ensures WakeOk(g'.s[x], Owed(g', x), Signalled(g', x)) {
      if x != d {
        OwedKeeps(g, g', |g.s|, x);
        SignalledKeeps(g, g', |g.s|, x);
        WakeMore(g.s[x], Owed(g, x), Signalled(g, x), Owed(g', x), Signalled(g', x));
      }
    }
  }

  /** The report of the last to fall idle moves its own thread on, and main if it sleeps. */
  lemma ReportKeeps(g: Sys, i: nat, g': Sys)
    requires Inv(g) && i < |g.s| && g.s[i].pc == IdleSignal && g' == WithPc(g, i, IdlePred).(main := Roused(g.main))
    ensures Inv(g')
  {
    hide Inv, MainStep;
    var m := WithPc(g, i, IdlePred);
    SignalDone(g, i, m);
    SomeThere(m);
    if g.main == Asleep {
      AsleepWakes(m);
      MainStepKeeps(m, g');
    } else {
      assert g' == m;
    }
  }

  lemma SomeThere(g: Sys)
    requires Inv(g)
    ensures |g.s| > 0
  {
  }

  lemma AsleepWakes(g: Sys)
    requires |g.s| > 0 && g.main == Asleep
    ensures MainStep(g) == Some(g.(main := WaitExit))
  {
  }

  lemma SignalDone(g: Sys, i: nat, m: Sys)
    requires Inv(g) && i < |g.s| && g.s[i].pc == IdleSignal && m == WithPc(g, i, IdlePred)
    ensures Inv(m)
  {
    hide AllBags, Bag, CountIdle, Owed, Signalled, SomeBusy, Executing, Parked;
    var sc' := g.s[i].(pc := IdlePred);
    assert LocalOk(g.s[i], |g.s|, i);
    assert IdleSeen(g.main) ==> QuietOk(g.s[i]);
    OneChangeCore(g, i, sc', m);
    SignalWakes(g, i, m);
    PcBag(g.s[i], IdlePred);
    BagsSame(g.s, i, sc');
    CountIdleUpdate(g.s, i, sc');
  }

  lemma SignalWakes(g: Sys, i: nat, m: Sys)
    requires Inv(g) && i < |g.s| && g.s[i].pc == IdleSignal && m == WithPc(g, i, IdlePred)
    ensures Wakes(m)
  {
    hide LocalOk, Owed, Signalled;
    assert OthersNotify(g, m, i);
    forall d | 0 <= d < |m.s| ensures WakeOk(m.s[d], Owed(m, d), Signalled(m, d)) {
      OwedKeeps(g, m, i, d);
      SignalledKeeps(g, m, i, d);
      if d != i { WakeMore(m.s[d], Owed(g, d), Signalled(g, d), Owed(m, d), Signalled(m, d)); }
    }
  }

  /** Main changes one record and moves on. */
  lemma MainChangeCore(g: Sys, d: nat, sc': Sched, g': Sys)
    requires Core(g) && d < |g.s| && g'.s == g.s[d := sc'] && MainOk(g'.main, |g.s|) && !g.main.Inspect? && !g'.main.Inspect?
    requires LocalOk(sc', |g.s|, d) && IdleSeen(g'.main) == IdleSeen(g.main) && (QuietOk(g.s[d]) ==> QuietOk(sc'))
    requires (sc'.mtx == Some(MainThread) <==> MainHolds(g'.main, d)) && (sc'.exit <==> ExitSet(g'.main, d))
    requires forall i :: 0 <= i < |g.s| && i != d ==>
      MainHolds(g'.main, i) == MainHolds(g.main, i) && ExitSet(g'.main, i) == ExitSet(g.main, i)
    ensures Core(g')
  {
    hide LocalOk, QuietOk;
  }

  lemma MainPushKeeps(g: Sys, d: nat, t: Task, g': Sys)
    requires Inv(g) && g.main == MPushing(d, t) && d < |g.s| && g' == PushTo(g, d, t).(main := MNotifying(d))
    ensures Inv(g')
  {
    hide LocalOk, WakeOk, QuietOk, Owed, Signalled, AllBags, Bag, Counted;
    var sc' := g'.s[d];
    UserPcOf(g, d);
    TasksChange(g.s[d], |g.s|, d, sc'.tasks);
    Notifies(g', |g.s|, d);
    WakeAt(g, d);
    WakeMore(g.s[d], Owed(g, d), Signalled(g, d), true, Signalled(g', d) || Signalled(g, d));
    MainSignalKeeps(g, g', d);
    MainWakes(g, g', d);
    TasksBag(g.s[d], t);
    BagsMore(g.s, d, sc', t);
    CountIdleUpdate(g.s, d, sc');
  }

  lemma MainSignalKeeps(g: Sys, g': Sys, d: nat)
    requires |g'.s| == |g.s| && MainSignals(g.main) == None
    requires forall x :: 0 <= x < |g.s| ==>
      NotifyOf(g'.s[x].pc) == NotifyOf(g.s[x].pc) && SignalOf(g'.s[x].pc) == SignalOf(g.s[x].pc)
    ensures Signalled(g, d) ==> Signalled(g', d)
  {
    assert OthersNotify(g, g', |g.s|);
    SignalledKeeps(g, g', |g.s|, d);
  }

  lemma MainOwedKeeps(g: Sys, g': Sys, d: nat)
    requires |g'.s| == |g.s| && MainNotifies(g.main) == None
    requires forall x :: 0 <= x < |g.s| ==>
      NotifyOf(g'.s[x].pc) == NotifyOf(g.s[x].pc) && SignalOf(g'.s[x].pc) == SignalOf(g.s[x].pc)
    ensures Owed(g, d) ==> Owed(g', d)
  {
    assert OthersNotify(g, g', |g.s|);
    OwedKeeps(g, g', |g.s|, d);
  }

  /** The critical section of `notify`, called by main for a task or for an exit. */
  lemma MainNotifyKeeps(g: Sys, d: nat, m: MainPc, g': Sys)
    requires Inv(g) && d < |g.s| && g.s[d].mtx == None && g' == MarkRunning(g, d).(main := m)
    requires (g.main == MNotifying(d) && m == MSignalling(d)) || (g.main == NotifyExit(d) && m == SignalExit(d))
    ensures Inv(g')
  {
    hide LocalOk, WakeOk, QuietOk, Owed, Signalled, AllBags, Bag, Counted;
    var sc' := g'.s[d];
    UserPcOf(g, d);
    RunningChange(g.s[d], |g.s|, d);
    Signals(g', |g.s|, d);
    WakeAt(g, d);
    MainWakes(g, g', d);
    RunningSums(g.s, d);
  }

  lemma LockAndExit(g: Sys, d: nat)
    requires Core(g) && d < |g.s|
    ensures g.s[d].mtx == Some(MainThread) <==> MainHolds(g.main, d)
    ensures g.s[d].exit <==> ExitSet(g.main, d)
  {
  }

  lemma MainWakeKeeps(g: Sys, d: nat, m: MainPc, g': Sys)
    requires Inv(g) && d < |g.s| && g' == Wake(g, d).(main := m)
    requires (g.main == MSignalling(d) && m == WaitExit) || (g.main == SignalExit(d) && m == Join(d))
    ensures Inv(g')
  {
    hide LocalOk, WakeOk, QuietOk, Core, Wakes, Owed, Signalled, AllBags, Bag, CountIdle, Woken;
    var sc' := g'.s[d];
    UserPcOf(g, d);
    WokenKeeps(g.s[d], |g.s|, d);
    LockAndExit(g, d);
    MainChangeCore(g, d, sc', g');
    WakeAt(g, d);
    MainOwedKeeps(g, g', d);
    WakeMore(sc', Owed(g, d), Signalled(g', d), Owed(g', d), Signalled(g', d));
    MainWakes(g, g', d);
    WokenSums(g.s, d);
  }

  lemma MtxChange(sc: Sched, n: nat, me: nat, m: Option<Holder>)
    requires LocalOk(sc, n, me) && sc.mtx != Some(Own) && m != Some(Own)
    ensures LocalOk(sc.(mtx := m), n, me) && (QuietOk(sc) ==> QuietOk(sc.(mtx := m)))
    ensures forall o, s :: WakeOk(sc, o, s) ==> WakeOk(sc.(mtx := m), o, s)
    ensures Bag(sc.(mtx := m)) == Bag(sc)
  {
    hide QueuesOk;
  }

  lemma MainMtxKeeps(g: Sys, k: nat, m: Option<Holder>, p: MainPc, g': Sys)
    requires Inv(g) && k < |g.s| && g' == SetMtx(g, k, m).(main := p)
    requires (g.main == LockAll(k) && g.s[k].mtx == None && m == Some(MainThread) && p == LockAll(k + 1))
          || (g.main.UnlockAll? && g.main.k == k && m == None && p == UnlockAll(k + 1, g.main.idle))
    ensures Inv(g')
  {
    hide LocalOk, WakeOk, QuietOk, Owed, Signalled, AllBags, Bag, Counted;
    var sc' := g'.s[k];
    UserPcOf(g, k);
    assert g.s[k].mtx != Some(Own);
    MtxChange(g.s[k], |g.s|, k, m);
    WakeAt(g, k);
    MainOwedKeeps(g, g', k);
    MainSignalKeeps(g, g', k);
    WakeMore(sc', Owed(g, k), Signalled(g, k), Owed(g', k), Signalled(g', k));
    MainWakes(g, g', k);
    BagsSame(g.s, k, sc');
    CountIdleUpdate(g.s, k, sc');
  }

  lemma ExitChange(sc: Sched, n: nat, me: nat)
    requires LocalOk(sc, n, me)
    ensures LocalOk(sc.(exit := true), n, me) && (QuietOk(sc) ==> QuietOk(sc.(exit := true)))
    ensures forall o, s :: WakeOk(sc, o, s) ==> WakeOk(sc.(exit := true), true, s)
    ensures Bag(sc.(exit := true)) == Bag(sc)
  {
    hide QueuesOk;
  }

  lemma MainExitKeeps(g: Sys, k: nat, g': Sys)
    requires Inv(g) && k < |g.s| && g.main == SetExit(k)
    requires g' == g.(s := g.s[k := g.s[k].(exit := true)], main := NotifyExit(k))
    ensures Inv(g')
  {
    hide LocalOk, WakeOk, QuietOk, Owed, Signalled, AllBags, Bag, Counted;
    var sc' := g'.s[k];
    UserPcOf(g, k);
    ExitChange(g.s[k], |g.s|, k);
    WakeAt(g, k);
    Notifies(g', |g.s|, k);
    MainSignalKeeps(g, g', k);
    WakeMore(sc', true, Signalled(g, k), true, Signalled(g', k));
    MainWakes(g, g', k);
    BagsSame(g.s, k, sc');
    CountIdleUpdate(g.s, k, sc');
  }

  /** Under all locks, a scheduler in idle sleep without tasks is quiet. */
  lemma SeenQuiet(sc: Sched, n: nat, me: nat)
    requires LocalOk(sc, n, me) && sc.mtx == Some(MainThread) && sc.phase == IdleSleep && sc.tasks == []
    ensures QuietOk(sc)
  {
    hide QueuesOk;
    assert !Holding(sc.pc);
  }

  /** `all_idle` has looked at every scheduler and found each in idle sleep: then all of them are quiet. */
  lemma AllSeenQuiet(g: Sys)
    requires Core(g) && g.main == Inspect(|g.s|)
    ensures forall i :: 0 <= i < |g.s| ==> QuietOk(g.s[i])
  {
    hide LocalOk, QuietOk;
    forall i | 0 <= i < |g.s| ensures QuietOk(g.s[i]) {
      SeenQuiet(g.s[i], |g.s|, i);
    }
  }

  lemma MainStepKeeps(g: Sys, g': Sys)
    requires Inv(g) && MainStep(g) == Some(g')
    ensures Inv(g')
  {
    hide LocalOk, WakeOk, QuietOk, Owed, Signalled, AllBags, SomeBusy;
    var n := |g.s|;
    match g.main
    case MPushing(d, t) => MainPushKeeps(g, d, t, g');
    case MNotifying(d) => MainNotifyKeeps(g, d, MSignalling(d), g');
    case MSignalling(d) => MainWakeKeeps(g, d, WaitExit, g');
    case WaitExit => MainMoveKeeps(g, g'.main, g'.checkIdle, g');
    case Answered => MainMoveKeeps(g, Asleep, g.checkIdle, g');
    case Asleep => MainMoveKeeps(g, WaitExit, g.checkIdle, g');
    case ReadCount => MainMoveKeeps(g, g'.main, g.checkIdle, g');
    case ReadTasks(k) => MainMoveKeeps(g, g'.main, g.checkIdle, g');
    case LockAll(k) =>
      if k < n { MainMtxKeeps(g, k, Some(MainThread), LockAll(k + 1), g'); }
      else { MainMoveKeeps(g, Inspect(0), g.checkIdle, g'); }
    case Inspect(k) => InspectKeeps(g, g');
    case UnlockAll(k, idle) =>
      if k < n { MainMtxKeeps(g, k, None, UnlockAll(k + 1, idle), g'); }
      else { MainMoveKeeps(g, g'.main, g.checkIdle, g'); }
    case _ => MainLastStepKeeps(g, g');
  }

  lemma MainLastStepKeeps(g: Sys, g': Sys)
    requires Inv(g) && MainStep(g) == Some(g') && (g.main.SetExit? || g.main.NotifyExit? || g.main.SignalExit? || g.main.Join?)
    ensures Inv(g')
  {
    hide LocalOk, WakeOk, QuietOk, Owed, Signalled, AllBags, SomeBusy;
    match g.main
    case SetExit(k) =>
      if k < |g.s| { MainExitKeeps(g, k, g'); } else { MainMoveKeeps(g, Finished, g.checkIdle, g'); }
    case NotifyExit(k) => MainNotifyKeeps(g, k, SignalExit(k), g');
    case SignalExit(k) => MainWakeKeeps(g, k, Join(k), g');
    case Join(k) => MainMoveKeeps(g, SetExit(k + 1), g.checkIdle, g');
  }

  lemma InspectKeeps(g: Sys, g': Sys)
    requires Inv(g) && g.main.Inspect? && MainStep(g) == Some(g')
    ensures Inv(g')
  {
    hide LocalOk, WakeOk, QuietOk, Owed, Signalled, AllBags;
    if g.main.k >= |g.s| {
      AllSeenQuiet(g);
    } else if g'.main == Inspect(g.main.k + 1) {
      assert SomeBusy(g) ==> SomeBusy(g');
    }
    MainMoveKeeps(g, g'.main, g.checkIdle, g');
  }
}
