/**
 Any number of workers, condition variables and a monotone clock: `sleep_until`, waits with and without a
 deadline, `notify_one` and `notify_all`, step by step. A notifier holds the list's spinlock while it sets
 flags; a worker's own accesses to its wait info are not locked.
 */
module Waiters {
  import opened Common

  type Tid = nat

  /** A point in time; `None` is `Time_point::max()`. */
  type Deadline = Option<nat>

  predicate Past(clock: nat, d: Deadline) {
    d.Some? && clock >= d.value
  }

  /** What a worker waits for: time only, or a condition variable. */
  datatype Op = Sleep | On(c: nat)

  datatype Pc =
    | Outside
    | Add(c: nat, d: Deadline)          // add_waiter
    | Clear(w: Op, d: Deadline)         // set_wait_info: the flag, then the time point
    | SetTime(w: Op, d: Deadline)
    | Check(w: Op, d: Deadline)         // wait_cond_or_sleep, before its first check
    | Parked(w: Op, d: Deadline)        // in the waiting queue, checked by the scheduler's scan
    | Remove(c: nat, d: Deadline)       // remove_waiter
    | Done(w: Op, d: Deadline)          // about to return
    | NotifyLock(c: nat, all: bool)
    | NotifyAt(c: nat, k: nat, all: bool)  // spinlock held, k waiters flagged

  datatype State = State(
    clock: nat,
    lists: seq<seq<Tid>>,
    locks: seq<Option<Tid>>,
    cond: seq<bool>,
    until: seq<Deadline>,
    pc: seq<Pc>)

  predicate Sized(s: State) {
    |s.lists| == |s.locks| && |s.cond| == |s.until| == |s.pc|
  }

  function At(s: State, t: Tid, pc: Pc): State
    requires t < |s.pc|
  {
    s.(pc := s.pc[t := pc])
  }

  predicate WaitOver(s: State, t: Tid)
    requires t < |s.pc| && Sized(s)
  {
    s.cond[t] || Past(s.clock, s.until[t])
  }

  function Over(w: Op, d: Deadline): Pc {
    if w == Sleep then Done(Sleep, d) else Remove(w.c, d)
  }

  function NotifyStep(s: State, t: Tid): Option<State>
    requires t < |s.pc| && Sized(s) && (s.pc[t].NotifyLock? || s.pc[t].NotifyAt?)
  {
    var c := s.pc[t].c;
    if c >= |s.lists| then None
    else if s.pc[t].NotifyLock? then
      (if s.locks[c] == None then Some(At(s.(locks := s.locks[c := Some(t)]), t, NotifyAt(c, 0, s.pc[t].all))) else None)
    else
      var k := s.pc[t].k;
      if k < |s.lists[c]| && (s.pc[t].all || k == 0) then
        (if s.lists[c][k] < |s.cond|
         then Some(At(s.(cond := s.cond[s.lists[c][k] := true]), t, NotifyAt(c, k + 1, s.pc[t].all)))
         else None)
      else Some(At(s.(locks := s.locks[c := None]), t, Outside))
  }

  /** One step of a worker, or of the scan on its behalf. */
  function Step(s: State, t: Tid): Option<State>
    requires t < |s.pc| && Sized(s)
  {
    match s.pc[t]
    case Outside => None
    case Add(c, d) =>
      if c < |s.lists| && s.locks[c] == None
      then Some(At(s.(lists := s.lists[c := s.lists[c] + [t]]), t, Clear(On(c), d))) else None
    case Clear(w, d) => Some(At(s.(cond := s.cond[t := false]), t, SetTime(w, d)))
    case SetTime(w, d) => Some(At(s.(until := s.until[t := d]), t, Check(w, d)))
    case Check(w, d) => Some(At(s, t, if WaitOver(s, t) then Over(w, d) else Parked(w, d)))
    case Parked(w, d) => if WaitOver(s, t) then Some(At(s, t, Over(w, d))) else None
    case Remove(c, d) =>
      if c < |s.lists| && s.locks[c] == None
      then Some(At(s.(lists := s.lists[c := RemoveNode(s.lists[c], t)]), t, Done(On(c), d))) else None
    case Done(_, _) => Some(At(s, t, Outside))
    case NotifyLock(_, _) => NotifyStep(s, t)
    case NotifyAt(_, _, _) => NotifyStep(s, t)
  }

  predicate MayCall(pc: Pc, call: Pc) {
    pc == Outside && (call.Add? || (call.Clear? && call.w == Sleep) || call.NotifyLock?)
  }

  ghost predicate ThreadNext(s: State, t: Tid, s': State) {
    && Sized(s) && t < |s.pc|
    && ((exists call :: MayCall(s.pc[t], call) && s' == At(s, t, call)) || Step(s, t) == Some(s'))
  }

  ghost predicate Next(s: State, s': State) {
    || (s'.clock >= s.clock && s' == s.(clock := s'.clock))
    || exists t: Tid :: ThreadNext(s, t, s')
  }

  ghost predicate Init(s: State) {
    && Sized(s)
    && (forall c :: 0 <= c < |s.lists| ==> s.lists[c] == [] && s.locks[c] == None)
    && (forall t :: 0 <= t < |s.pc| ==> s.pc[t] == Outside)
  }

  ghost predicate Behaviour(b: seq<State>) {
    |b| > 0 && Init(b[0]) && forall i :: 0 <= i < |b| - 1 ==> Next(b[i], b[i + 1])
  }

  // ---------- the invariant ----------

  /** The condition variable whose list holds a worker at this point. */
  function ListedOn(pc: Pc): Option<nat> {
    match pc
    case Clear(On(c), _) => Some(c)
    case SetTime(On(c), _) => Some(c)
    case Check(On(c), _) => Some(c)
    case Parked(On(c), _) => Some(c)
    case Remove(c, _) => Some(c)
    case _ => None
  }

  /** The list holds, once each, the workers whose position says so. */
  ghost predicate ListOk(list: seq<Tid>, c: nat, pc: seq<Pc>) {
    NoDup(list) && forall t: Tid :: t in list <==> t < |pc| && ListedOn(pc[t]) == Some(c)
  }

  ghost predicate ListsOk(s: State) {
    && (forall c: nat :: c < |s.lists| ==> ListOk(s.lists[c], c, s.pc))
    && (forall t: Tid :: t < |s.pc| && ListedOn(s.pc[t]).Some? ==> ListedOn(s.pc[t]).value < |s.lists|)
  }

  ghost predicate LocksOk(s: State)
    requires Sized(s)
  {
    forall c, t: Tid :: 0 <= c < |s.lists| && t < |s.pc| ==>
      (s.locks[c] == Some(t) <==> s.pc[t].NotifyAt? && s.pc[t].c == c)
  }

  /** What a worker knows about its own wait info. */
  predicate WaitInfoOk(clock: nat, cond: bool, until: Deadline, pc: Pc) {
    match pc
    case SetTime(w, d) => w == Sleep ==> !cond
    case Check(w, d) => until == d && (w == Sleep ==> !cond)
    case Parked(w, d) => until == d && (w == Sleep ==> !cond)
    case Remove(_, d) => cond || Past(clock, d)
    case Done(w, d) => w == Sleep ==> Past(clock, d)
    case _ => true
  }

  ghost predicate Inv(s: State) {
    && Sized(s) && ListsOk(s) && LocksOk(s)
    && forall t: Tid :: t < |s.pc| ==> WaitInfoOk(s.clock, s.cond[t], s.until[t], s.pc[t])
  }

  // ---------- every step keeps it ----------

  lemma ListKeeps(list: seq<Tid>, list': seq<Tid>, c: nat, pc: seq<Pc>, t: Tid, p: Pc)
    requires ListOk(list, c, pc) && t < |pc|
    requires || (list' == list && (ListedOn(p) == Some(c) <==> ListedOn(pc[t]) == Some(c)))
             || (list' == list + [t] && ListedOn(p) == Some(c) && ListedOn(pc[t]) != Some(c))
             || (list' == RemoveNode(list, t) && ListedOn(p) != Some(c))
    ensures ListOk(list', c, pc[t := p])
  {
    hide ListedOn, RemoveNode, NoDup;
    if list' == list + [t] && ListedOn(p) == Some(c) && ListedOn(pc[t]) != Some(c) {
      AppendFacts(list, t);
    } else if list' == RemoveNode(list, t) && ListedOn(p) != Some(c) {
      RemoveNodeFacts(list, t);
    }
  }

  /** Thread `t` stays on its list, joins list `c` or leaves it. */
  lemma ListsKeep(s: State, s': State, t: Tid, c: nat)
    requires ListsOk(s) && t < |s.pc| == |s'.pc| && s'.pc == s.pc[t := s'.pc[t]]
    requires || (s'.lists == s.lists && ListedOn(s'.pc[t]) == ListedOn(s.pc[t]))
             || (c < |s.lists| && s'.lists == s.lists[c := s.lists[c] + [t]]
                 && ListedOn(s.pc[t]) == None && ListedOn(s'.pc[t]) == Some(c))
             || (c < |s.lists| && s'.lists == s.lists[c := RemoveNode(s.lists[c], t)]
                 && ListedOn(s.pc[t]) == Some(c) && ListedOn(s'.pc[t]) == None)
    ensures ListsOk(s')
  {
    hide ListedOn, RemoveNode, ListOk;
    forall e: nat | e < |s'.lists| ensures ListOk(s'.lists[e], e, s'.pc) {
      ListKeeps(s.lists[e], s'.lists[e], e, s.pc, t, s'.pc[t]);
    }
  }

  /** A listed worker is not in a plain sleep, so a notifier cannot disturb one. */
  lemma ListedNotSleeping(s: State, c: nat, k: nat)
    requires Inv(s) && c < |s.lists| && k < |s.lists[c]|
    ensures s.lists[c][k] < |s.pc|
    ensures var u := s.lists[c][k]; WaitInfoOk(s.clock, true, s.until[u], s.pc[u])
  {
    var u := s.lists[c][k];
    assert ListOk(s.lists[c], c, s.pc) && u in s.lists[c];
  }

  lemma FlagKeeps(s: State, t: Tid, s': State)
    requires Inv(s) && t < |s.pc| && s.pc[t].NotifyAt? && NotifyStep(s, t) == Some(s')
    ensures Inv(s')
  {
    var (c, k) := (s.pc[t].c, s.pc[t].k);
    ListsKeep(s, s', t, c);
    hide ListsOk;
    if k < |s.lists[c]| && (s.pc[t].all || k == 0) {
      ListedNotSleeping(s, c, k);
      assert s'.locks == s.locks && s'.until == s.until;
      assert forall u: Tid :: u < |s.pc| && u != s.lists[c][k] ==> s'.cond[u] == s.cond[u];
      hide WaitInfoOk;
      FreeOfDuty(s'.clock, s'.cond[t], s'.until[t], s'.pc[t]);
    } else {
      assert s.locks[c] == Some(t);
      assert forall u: Tid :: u < |s.pc| && u != t ==> !(s.pc[u].NotifyAt? && s.pc[u].c == c);
    }
  }

  lemma FreeOfDuty(clock: nat, cond: bool, until: Deadline, pc: Pc)
    requires pc.NotifyAt?
    ensures WaitInfoOk(clock, cond, until, pc)
  {
  }

  lemma StepKeeps(s: State, t: Tid, s': State)
    requires Inv(s) && t < |s.pc| && Step(s, t) == Some(s')
    ensures Inv(s')
  {
    hide RemoveNode, NoDup, ListOk;
    if s.pc[t].NotifyAt? {
      FlagKeeps(s, t, s');
    } else {
      ListsKeep(s, s', t, match s.pc[t] case Add(c, _) => c case Remove(c, _) => c case _ => 0);
    }
  }

  lemma CallKeeps(s: State, t: Tid, call: Pc)
    requires Inv(s) && t < |s.pc| && MayCall(s.pc[t], call)
    ensures Inv(At(s, t, call))
  {
    ListsKeep(s, At(s, t, call), t, 0);
  }

  lemma NextKeeps(s: State, s': State)
    requires Inv(s) && Next(s, s')
    ensures Inv(s')
  {
    if t: Tid :| ThreadNext(s, t, s') {
      hide Inv, Step, At, MayCall;
      if Step(s, t) == Some(s') {
        StepKeeps(s, t, s');
      } else {
        var call :| MayCall(s.pc[t], call) && s' == At(s, t, call);
        CallKeeps(s, t, call);
      }
    }
  }

  lemma {:induction false} BehaviourInv(b: seq<State>, i: nat)
    requires Behaviour(b) && i < |b|
    ensures Inv(b[i])
  {
    hide Next;
    if i == 0 {
    } else {
      BehaviourInv(b, i - 1);
      assert Next(b[i - 1], b[i - 1 + 1]);
      NextKeeps(b[i - 1], b[i]);
    }
  }

  // ---------- what holds in every behaviour ----------

  /** A plain sleep never returns before its deadline, whatever notifications earlier waits of the worker left behind. */
  lemma SleepNeverEarly(b: seq<State>, i: nat, t: Tid, d: Deadline)
    requires Behaviour(b) && i < |b| && t < |b[i].pc| && b[i].pc[t] == Done(Sleep, d)
    ensures Past(b[i].clock, d)
  {
    hide Behaviour;
    BehaviourInv(b, i);
  }

  /** A worker is on at most one waiter list, once, and it is on one exactly between its `add_waiter` and `remove_waiter`. */
  lemma OnOneList(b: seq<State>, i: nat, t: Tid, c: nat, e: nat)
    requires Behaviour(b) && i < |b| && c < |b[i].lists| && e < |b[i].lists|
    requires t in b[i].lists[c] && t in b[i].lists[e]
    ensures c == e && NoDup(b[i].lists[c]) && t < |b[i].pc| && ListedOn(b[i].pc[t]) == Some(c)
  {
    hide Behaviour, Inv;
    BehaviourInv(b, i);
    ListedThere(b[i], c, t);
    ListedThere(b[i], e, t);
  }

  lemma ListedThere(s: State, c: nat, t: Tid)
    requires Inv(s) && c < |s.lists| && t in s.lists[c]
    ensures NoDup(s.lists[c]) && t < |s.pc| && ListedOn(s.pc[t]) == Some(c)
  {
    assert ListOk(s.lists[c], c, s.pc);
  }

  /** A flag is raised only while its worker is on the list of the condition variable being notified. */
  lemma FlaggedWhileListed(b: seq<State>, i: nat, t: Tid)
    requires Behaviour(b) && i + 1 < |b| && t < |b[i].pc|
    ensures Sized(b[i]) && Sized(b[i + 1]) && |b[i + 1].pc| == |b[i].pc|
    ensures !b[i].cond[t] && b[i + 1].cond[t] ==>
      exists c, u: Tid :: 0 <= c < |b[i].lists| && t in b[i].lists[c] && b[i].locks[c] == Some(u)
  {
    BehaviourInv(b, i);
    BehaviourInv(b, i + 1);
    assert Next(b[i], b[i + 1]);
    if !b[i].cond[t] && b[i + 1].cond[t] {
      var u: Tid :| ThreadNext(b[i], u, b[i + 1]);
      assert b[i].pc[u].NotifyAt?;
      var c := b[i].pc[u].c;
      assert b[i].lists[c][b[i].pc[u].k] == t;
      assert t in b[i].lists[c] && b[i].locks[c] == Some(u);
    }
  }

  /** The lists a notifier walks do not change under it. */
  lemma ListStaysWhileLocked(b: seq<State>, i: nat, c: nat)
    requires Behaviour(b) && i + 1 < |b| && c < |b[i].lists| && Sized(b[i]) && b[i].locks[c].Some?
    ensures |b[i + 1].lists| == |b[i].lists| && b[i + 1].lists[c] == b[i].lists[c]
  {
    hide Inv, Next;
    BehaviourInv(b, i);
    assert Next(b[i], b[i + 1]);
    LockedListStays(b[i], b[i + 1], c);
  }

  lemma LockedListStays(s: State, s': State, c: nat)
    requires Inv(s) && Next(s, s') && c < |s.lists| && s.locks[c].Some?
    ensures |s'.lists| == |s.lists| && s'.lists[c] == s.lists[c]
  {
    if t: Tid :| ThreadNext(s, t, s') {
    }
  }

  /** A wait without a deadline ends only because its worker was flagged. */
  lemma WaitEndsFlagged(b: seq<State>, i: nat, t: Tid, c: nat, d: Deadline)
    requires Behaviour(b) && i < |b| && t < |b[i].pc| && b[i].pc[t] == Remove(c, d)
    ensures Sized(b[i]) && (b[i].cond[t] || Past(b[i].clock, d))
    ensures d == None ==> b[i].cond[t]
  {
    hide Behaviour;
    BehaviourInv(b, i);
  }
}
