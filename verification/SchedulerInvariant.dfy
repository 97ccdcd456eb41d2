/** The invariant of the system of schedulers, and how it follows single changes to the state. */
module SchedulerInvariant {
  import opened Common
  import opened SchedulerQueues
  import opened SchedulerSystem
  import opened SchedulerLocal

  // ---------- calls of notify under way ----------

  function MainNotifies(m: MainPc): Option<nat> {
    match m
    case MNotifying(d) => Some(d)
    case NotifyExit(k) => Some(k)
    case _ => None
  }

  function MainSignals(m: MainPc): Option<nat> {
    match m
    case MSignalling(d) => Some(d)
    case SignalExit(k) => Some(k)
    case _ => None
  }

  /** The scheduler that thread `i` is about to notify; thread `|g.s|` is main. */
  function NotifyTarget(g: Sys, i: nat): Option<nat>
    requires i <= |g.s|
  {
    if i == |g.s| then MainNotifies(g.main) else NotifyOf(g.s[i].pc)
  }

  function SignalTarget(g: Sys, i: nat): Option<nat>
    requires i <= |g.s|
  {
    if i == |g.s| then MainSignals(g.main) else SignalOf(g.s[i].pc)
  }

  /** Some thread still has to run the critical section of `notify` on scheduler `d`. */
  ghost predicate Owed(g: Sys, d: nat) {
    exists i: nat :: i <= |g.s| && NotifyTarget(g, i) == Some(d)
  }

  /** Some thread has run that critical section and still has to call `notify_one`. */
  ghost predicate Signalled(g: Sys, d: nat) {
    exists i: nat :: i <= |g.s| && SignalTarget(g, i) == Some(d)
  }

  // ---------- main ----------

  predicate MainHolds(m: MainPc, i: nat) {
    match m
    case LockAll(k) => i < k
    case Inspect(_) => true
    case UnlockAll(k, _) => k <= i
    case _ => false
  }

  predicate ExitSet(m: MainPc, i: nat) {
    match m
    case SetExit(k) => i < k
    case NotifyExit(k) => i <= k
    case SignalExit(k) => i <= k
    case Join(k) => i <= k
    case Finished => true
    case _ => false
  }

  /** `all_idle` has returned true. */
  predicate IdleSeen(m: MainPc) {
    match m
    case UnlockAll(_, idle) => idle
    case SetExit(_) => true
    case NotifyExit(_) => true
    case SignalExit(_) => true
    case Join(_) => true
    case Finished => true
    case _ => false
  }

  predicate MainOk(m: MainPc, n: nat) {
    match m
    case MPushing(d, _) => d < n
    case MNotifying(d) => d < n
    case MSignalling(d) => d < n
    case LockAll(k) => k <= n
    case Inspect(k) => k <= n
    case UnlockAll(k, _) => k <= n
    case SetExit(k) => k <= n
    case NotifyExit(k) => k < n
    case SignalExit(k) => k < n
    case Join(k) => k < n
    case _ => true
  }

  // ---------- sums over all schedulers ----------

  function AllBags(s: seq<Sched>): multiset<Task> {
    if s == [] then multiset{} else Bag(s[0]) + AllBags(s[1..])
  }

  function MainBag(m: MainPc): multiset<Task> {
    if m.MPushing? then multiset{m.t} else multiset{}
  }

  function CountIdle(s: seq<Sched>): int {
    if s == [] then 0 else Counted(s[0].pc) + CountIdle(s[1..])
  }

  lemma {:induction false} AllBagsUpdate(s: seq<Sched>, i: nat, x: Sched)
    requires i < |s|
    ensures AllBags(s[i := x]) + Bag(s[i]) == AllBags(s) + Bag(x)
  {
    hide Bag;
    var s' := s[i := x];
    if i == 0 {
      assert s'[1..] == s[1..];
    } else {
      AllBagsUpdate(s[1..], i - 1, x);
      assert s'[1..] == s[1..][i - 1 := x];
      Regroup(Bag(s[0]), AllBags(s'[1..]), Bag(s[i]), AllBags(s[1..]), Bag(x));
    }
  }

  lemma {:induction false} CountIdleUpdate(s: seq<Sched>, i: nat, x: Sched)
    requires i < |s|
    ensures CountIdle(s[i := x]) == CountIdle(s) + Counted(x.pc) - Counted(s[i].pc)
  {
    hide Counted;
    var s' := s[i := x];
    if i == 0 {
      assert s'[1..] == s[1..];
    } else {
      CountIdleUpdate(s[1..], i - 1, x);
      assert s'[1..] == s[1..][i - 1 := x];
    }
  }

  // ---------- the invariant ----------

  ghost predicate Locals(g: Sys) {
    forall i :: 0 <= i < |g.s| ==> LocalOk(g.s[i], |g.s|, i)
  }

  ghost predicate Wakes(g: Sys) {
    forall i :: 0 <= i < |g.s| ==> WakeOk(g.s[i], Owed(g, i), Signalled(g, i))
  }

  ghost predicate MainLocks(g: Sys) {
    forall i :: 0 <= i < |g.s| ==> (g.s[i].mtx == Some(MainThread) <==> MainHolds(g.main, i))
  }

  ghost predicate Exits(g: Sys) {
    forall i :: 0 <= i < |g.s| ==> (g.s[i].exit <==> ExitSet(g.main, i))
  }

  ghost predicate Quiets(g: Sys) {
    IdleSeen(g.main) ==> forall i :: 0 <= i < |g.s| ==> QuietOk(g.s[i])
  }

  ghost predicate SomeBusy(g: Sys) {
    exists j :: 0 <= j < |g.s| && g.s[j].phase != IdleSleep
  }

  /** What `all_idle` has seen under the locks so far is still so. */
  ghost predicate Inspected(g: Sys) {
    g.main.Inspect? ==>
      forall i :: 0 <= i < g.main.k && i < |g.s| ==> g.s[i].phase == IdleSleep && (g.s[i].tasks == [] || SomeBusy(g))
  }

  /** Each task ever created is in exactly one place, counted with multiplicity. */
  ghost predicate Census(g: Sys) {
    AllBags(g.s) + MainBag(g.main) + multiset(g.finished) == multiset(g.created)
  }

  ghost predicate Core(g: Sys) {
    && |g.s| > 0 && MainOk(g.main, |g.s|)
    && Locals(g) && MainLocks(g) && Exits(g) && Quiets(g) && Inspected(g)
  }

  ghost predicate Inv(g: Sys) {
    Core(g) && Wakes(g) && Census(g) && g.idleCount == CountIdle(g.s)
  }

  // ---------- helpers ----------

  lemma InvTyped(g: Sys)
    requires |g.s| > 0 && Locals(g)
    ensures Typed(g)
  {
    hide LocalOk, Wf;
    forall i | 0 <= i < |g.s| && g.s[i].pc != Exited ensures Wf(g.s[i].q) {
      LocalWf(g.s[i], |g.s|, i);
    }
  }

  lemma WakeMore(sc: Sched, o: bool, s: bool, o': bool, s': bool)
    requires WakeOk(sc, o, s) && (o ==> o') && (s ==> s')
    ensures WakeOk(sc, o', s')
  {
  }

  /** Only thread `i` changed its place in `notify`. */
  predicate OthersNotify(g: Sys, g': Sys, i: nat) {
    && |g'.s| == |g.s|
    && forall j: nat :: j <= |g.s| && j != i ==>
         NotifyTarget(g', j) == NotifyTarget(g, j) && SignalTarget(g', j) == SignalTarget(g, j)
  }

  lemma OwedKeeps(g: Sys, g': Sys, i: nat, d: nat)
    requires i <= |g.s| && OthersNotify(g, g', i)
    requires NotifyTarget(g, i) != Some(d) || NotifyTarget(g', i) == Some(d)
    ensures Owed(g, d) ==> Owed(g', d)
  {
    if Owed(g, d) {
      var j: nat :| j <= |g.s| && NotifyTarget(g, j) == Some(d);
      assert NotifyTarget(g', j) == Some(d);
    }
  }

  lemma SignalledKeeps(g: Sys, g': Sys, i: nat, d: nat)
    requires i <= |g.s| && OthersNotify(g, g', i)
    requires SignalTarget(g, i) != Some(d) || SignalTarget(g', i) == Some(d)
    ensures Signalled(g, d) ==> Signalled(g', d)
  {
    if Signalled(g, d) {
      var j: nat :| j <= |g.s| && SignalTarget(g, j) == Some(d);
      assert SignalTarget(g', j) == Some(d);
    }
  }

  lemma Notifies(g: Sys, i: nat, d: nat)
    requires i <= |g.s| && NotifyTarget(g, i) == Some(d)
    ensures Owed(g, d)
  {
  }

  lemma Signals(g: Sys, i: nat, d: nat)
    requires i <= |g.s| && SignalTarget(g, i) == Some(d)
    ensures Signalled(g, d)
  {
  }

  /** A program point of user code may be exchanged for another. */
  lemma UserPcSwap(sc: Sched, n: nat, me: nat, pc: Pc)
    requires LocalOk(sc, n, me) && PartOf(sc.pc) == UserPart && PartOf(pc) == UserPart && TargetsOk(pc, n, me)
    ensures LocalOk(sc.(pc := pc), n, me) && !QuietOk(sc) && sc.phase == RunningPhase
    ensures forall o, s :: WakeOk(sc.(pc := pc), o, s)
    ensures Counted(pc) == Counted(sc.pc) == 0
  {
    hide Executing, Parked;
    assert pc.Exec? || pc.Pushing? || pc.Notifying? || pc.Signalling? || pc.Checking?;
    assert sc.pc.Exec? || sc.pc.Pushing? || sc.pc.Notifying? || sc.pc.Signalling? || sc.pc.Checking?;
  }

  lemma TasksChange(sc: Sched, n: nat, me: nat, ts: seq<Task>)
    requires LocalOk(sc, n, me)
    ensures LocalOk(sc.(tasks := ts), n, me)
    ensures forall s :: WakeOk(sc, true, s) ==> WakeOk(sc.(tasks := ts), true, s)
    ensures forall o, s :: ts == [] || sc.tasks != [] ==> WakeOk(sc, o, s) ==> WakeOk(sc.(tasks := ts), o, s)
  {
    hide QueuesOk;
  }

  lemma CondChange(sc: Sched, n: nat, me: nat, c: set<Wid>)
    requires LocalOk(sc, n, me)
    ensures LocalOk(sc.(cond := c), n, me)
    ensures forall s :: WakeOk(sc, true, s) ==> WakeOk(sc.(cond := c), true, s)
  {
    hide QueuesOk;
  }

  lemma RunningChange(sc: Sched, n: nat, me: nat)
    requires LocalOk(sc, n, me)
    ensures LocalOk(sc.(running := true), n, me)
    ensures forall o, s, o' :: sc.mtx == None && WakeOk(sc, o, s) ==> WakeOk(sc.(running := true), o', true)
    ensures QuietOk(sc) ==> QuietOk(sc.(running := true))
  {
    hide QueuesOk;
  }

  lemma WokenKeeps(sc: Sched, n: nat, me: nat)
    requires LocalOk(sc, n, me)
    ensures LocalOk(sc.(pc := Woken(sc.pc)), n, me)
    ensures forall o, s, s' :: WakeOk(sc, o, s) ==> WakeOk(sc.(pc := Woken(sc.pc)), o, s')
    ensures QuietOk(sc) ==> QuietOk(sc.(pc := Woken(sc.pc)))
    ensures Counted(Woken(sc.pc)) == Counted(sc.pc)
    ensures NotifyOf(Woken(sc.pc)) == NotifyOf(sc.pc) && SignalOf(Woken(sc.pc)) == SignalOf(sc.pc)
    ensures InHand(Woken(sc.pc)) == InHand(sc.pc)
  {
    hide Parked, Executing;
    if sc.pc == WaitBlocked {
    } else if sc.pc == IdleBlocked {
    } else {
      assert Woken(sc.pc) == sc.pc;
      assert sc.(pc := sc.pc) == sc;
    }
  }
}
