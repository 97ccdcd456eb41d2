/** The plain and the recursive mutex: invariant of every interleaving, and what follows from it. */
module SpinMutexProof {
  import opened Common
  import opened LockCount
  import opened SpinMutex

  /** Only thread `t` moved. */
  predicate Moved(s: State, s': State, t: Tid) {
    && t < |s.pc| && Sized(s) && Sized(s') && |s'.pc| == |s.pc| && s'.recursive == s.recursive
    && s'.pc == s.pc[t := s'.pc[t]] && s'.held == s.held[t := s'.held[t]] && s'.recorded == s.recorded[t := s'.recorded[t]]
  }

  /** A step that keeps ownership where it is, and changes id and count only if it owns. */
  lemma OwnKeeps(s: State, s': State, t: Tid)
    requires Inv(s) && Moved(s, s', t)
    requires var owns := Owns(s.pc[t], s.held[t]);
      && Owns(s'.pc[t], s'.held[t]) == owns && s'.flag == s.flag
      && (!owns ==> s'.tid == s.tid && s'.count == s.count)
      && (owns ==> s'.tid == if Stored(s.recursive, s'.recorded[t], s'.pc[t]) then Some(t) else None)
      && (owns && s.recursive ==> s'.count == s'.held[t])
    requires LocalOk(s.recursive, s'.count, s'.pc[t], s'.held[t]) && (s.recursive || s'.held[t] <= 1)
    requires s'.count < MAX_REC_LOCKS && (!s.recursive ==> s'.count == s.count)
    ensures Inv(s')
  {
    hide LocalOk, Stored, Owns;
    SameOwners(s, s', t);
    forall u: Tid | u < |s'.pc|
      ensures LocalOk(s'.recursive, s'.count, s'.pc[u], s'.held[u]) && (s'.recursive || s'.held[u] <= 1)
    {
      if u != t { LocalStays(s, s', u, t); }
    }
  }

  lemma SameOwners(s: State, s': State, t: Tid)
    requires Sized(s) && Moved(s, s', t) && Owns(s'.pc[t], s'.held[t]) == Owns(s.pc[t], s.held[t])
    ensures SomeOwner(s') <==> SomeOwner(s)
  {
    hide Owns;
    if SomeOwner(s) {
      var u: Tid :| u < |s.pc| && Owns(s.pc[u], s.held[u]);
      assert Owns(s'.pc[u], s'.held[u]);
    }
    if SomeOwner(s') {
      var u: Tid :| u < |s.pc| && Owns(s'.pc[u], s'.held[u]);
      assert Owns(s.pc[u], s.held[u]);
    }
  }

  /** Another thread that relies on the count owns the lock, so the count did not change under it. */
  lemma LocalStays(s: State, s': State, u: Tid, t: Tid)
    requires Inv(s) && Moved(s, s', t) && u < |s.pc| && u != t
    requires s'.count == s.count || Owns(s.pc[t], s.held[t]) || !s.flag
    ensures LocalOk(s'.recursive, s'.count, s'.pc[u], s'.held[u]) && (s'.recursive || s'.held[u] <= 1)
  {
  }

  lemma AcquireKeeps(s: State, t: Tid, try: bool)
    requires Inv(s) && t < |s.pc| && s.pc[t] == SpinExchange(try) && !s.flag
    ensures Inv(Acquired(s, t, try))
  {
    var s' := Acquired(s, t, try);
    assert !Owns(s.pc[t], s.held[t]);
    assert Owns(s'.pc[t], s'.held[t]);
  }

  lemma ClearKeeps(s: State, t: Tid)
    requires Inv(s) && t < |s.pc| && s.pc[t] == ClearFlag
    ensures Inv(At(s.(flag := false), t, Outside))
  {
  }

  /** The steps that only read, and the exchange that finds the flag set. */
  lemma ReadKeeps(s: State, t: Tid, s': State)
    requires Inv(s) && t < |s.pc| && Step(s, t) == Some(s') && s' == At(s, t, s'.pc[t])
    requires var pc := s.pc[t];
      pc.LoadTid? || pc.SpinLoad? || (pc.SpinExchange? && s.flag) || pc.ReadUp? || pc == ReadDown
    ensures Inv(s')
  {
    Local(s, t);
    hide Inv;
    OwnKeeps(s, s', t);
  }

  /** The steps of the owner that write. */
  lemma WriteKeeps(s: State, t: Tid, s': State)
    requires Inv(s) && t < |s.pc| && Step(s, t) == Some(s')
    requires s.pc[t].StoreTid? || s.pc[t].WriteUp? || s.pc[t].WriteDown? || s.pc[t] == StoreEmpty
    ensures Inv(s')
  {
    Local(s, t);
    hide Inv;
    match s.pc[t] {
      case StoreTid(try) =>
      case WriteUp(seen, again, try) => IncExact(seen);
      case WriteDown(seen) => IncExact(seen);
      case StoreEmpty =>
    }
    OwnKeeps(s, s', t);
  }

  lemma StepKeeps(s: State, t: Tid, s': State)
    requires Inv(s) && t < |s.pc| && Step(s, t) == Some(s')
    ensures Inv(s')
  {
    hide Inv, Acquired, StoreStep;
    match s.pc[t]
    case SpinExchange(try) =>
      if s.flag { ReadKeeps(s, t, s'); } else { AcquireKeeps(s, t, try); }
    case ClearFlag => ClearKeeps(s, t);
    case LoadTid(_) => ReadKeeps(s, t, s');
    case SpinLoad(_) => ReadKeeps(s, t, s');
    case ReadUp(_, _) => ReadKeeps(s, t, s');
    case ReadDown => ReadKeeps(s, t, s');
    case _ => WriteKeeps(s, t, s');
  }

  lemma Local(s: State, t: Tid)
    requires Inv(s) && t < |s.pc|
    ensures Sized(s) && LocalOk(s.recursive, s.count, s.pc[t], s.held[t]) && (s.recursive || s.held[t] <= 1)
    ensures s.count < MAX_REC_LOCKS
    ensures s.tid == Some(t) <==> Owns(s.pc[t], s.held[t]) && Stored(s.recursive, s.recorded[t], s.pc[t])
    ensures Owns(s.pc[t], s.held[t]) && s.recursive ==> s.count == s.held[t]
    ensures Owns(s.pc[t], s.held[t]) ==> s.flag && (s.tid == Some(t) || s.tid == None)
    ensures !s.recursive ==> s.count == 0
  {
    if Owns(s.pc[t], s.held[t]) && s.tid.Some? {
      assert Owns(s.pc[s.tid.value], s.held[s.tid.value]);
    }
  }

  lemma CallKeeps(s: State, t: Tid, call: Pc)
    requires Inv(s) && t < |s.pc| && MayCall(s, t, call)
    ensures Inv(At(s, t, call))
  {
    Local(s, t);
    hide Inv;
    OwnKeeps(s, At(s, t, call), t);
  }

  lemma NextKeeps(s: State, s': State)
    requires Inv(s) && Next(s, s')
    ensures Inv(s')
  {
    hide Inv, Step, At, MayCall;
    var t: Tid :| ThreadNext(s, t, s');
    if Step(s, t) == Some(s') {
      StepKeeps(s, t, s');
    } else {
      var call :| MayCall(s, t, call) && s' == At(s, t, call);
      CallKeeps(s, t, call);
    }
  }

  lemma {:induction false} BehaviourInv(b: seq<State>, i: nat)
    requires Behaviour(b) && i < |b|
    ensures Inv(b[i])
  {
    hide Next;
    if i == 0 {
    } else {
      BehaviourInv(b, i - 1);
      assert Next(b[i - 1], b[i - 1 + 1]);
      NextKeeps(b[i - 1], b[i]);
    }
  }

  // ---------- what holds in every behaviour ----------

  /**
   Exclusion: at most one thread has locked more often than it has unlocked, the flag is set for as long, and
   the id in `m_tid` is that of a thread inside or at the edge of its own critical section.
   */
  lemma Exclusion(b: seq<State>, i: nat, t: Tid, u: Tid)
    requires Behaviour(b) && i < |b| && t < |b[i].pc| && u < |b[i].pc|
    ensures Sized(b[i])
    ensures b[i].held[t] > 0 && b[i].held[u] > 0 ==> t == u
    ensures b[i].held[t] > 0 ==> b[i].flag
    ensures b[i].tid == Some(t) ==> b[i].flag && Owns(b[i].pc[t], b[i].held[t])
    ensures b[i].flag <==> SomeOwner(b[i])
  {
    hide Behaviour;
    BehaviourInv(b, i);
    Local(b[i], t);
  }

  /**
   The count of the recursive mutex, read and written without atomics, is never out of step: between calls it
   is the number of levels its holder has, and it stays below the value at which `++` would be refused.
   */
  lemma CountIsDepth(b: seq<State>, i: nat, t: Tid)
    requires Behaviour(b) && i < |b| && t < |b[i].pc| && b[i].recursive && Sized(b[i])
    ensures b[i].held[t] > 0 ==> b[i].count == b[i].held[t]
    ensures !b[i].flag ==> b[i].count == 0
    ensures b[i].count < MAX_REC_LOCKS
    ensures b[i].pc[t].WriteUp? || b[i].pc[t].WriteDown? ==> b[i].pc[t].seen == b[i].count == b[i].held[t]
  {
    hide Behaviour;
    BehaviourInv(b, i);
    Local(b[i], t);
  }

  /**
   Who a call takes for the holder. The recursive mutex recognises exactly the holder; `Mutex::lock` raises its
   deadlock error exactly for a holder that came in through `lock`.
   */
  lemma HolderRecognised(b: seq<State>, i: nat, t: Tid, try: bool)
    requires Behaviour(b) && i < |b| && t < |b[i].pc| && b[i].pc[t] == LoadTid(try)
    ensures Sized(b[i])
    ensures b[i].tid == Some(t) <==> b[i].held[t] > 0 && (b[i].recursive || b[i].recorded[t])
    ensures !b[i].recursive ==>
      (Step(b[i], t) == Some(At(b[i], t, Outside)) <==> b[i].held[t] > 0 && b[i].recorded[t])
    ensures b[i].recursive ==>
      (Step(b[i], t) == Some(At(b[i], t, ReadUp(true, try))) <==> b[i].held[t] > 0)
  {
    hide Behaviour;
    BehaviourInv(b, i);
    Local(b[i], t);
    assert At(b[i], t, Outside).pc[t] == Outside && At(b[i], t, SpinLoad(try)).pc[t] == SpinLoad(try);
    assert At(b[i], t, ReadUp(true, try)).pc[t] == ReadUp(true, try);
  }

  /** The one thread there is holds the lock, and spins for it. */
  predicate HolderSpins(s: State) {
    !s.recursive && Sized(s) && |s.pc| == 1 && s.held[0] > 0 && s.pc[0] == SpinLoad(false)
  }

  /** The condition cannot be dropped: after a successful `try_lock` the holder's own `lock` is not refused, but spins. */
  lemma TryLockUnrecorded()
    ensures exists b: seq<State> :: Behaviour(b) && |b| == 6 && HolderSpins(b[5])
  {
    var s0 := State(false, false, None, 0, [Outside], [0], [false]);
    var s1 := At(s0, 0, SpinLoad(true));
    var s2 := At(s1, 0, SpinExchange(true));
    var s3 := Acquired(s2, 0, true);
    var s4 := At(s3, 0, LoadTid(false));
    var s5 := At(s4, 0, SpinLoad(false));
    assert MayCall(s0, 0, SpinLoad(true)) && MayCall(s3, 0, LoadTid(false));
    assert ThreadNext(s0, 0, s1) && ThreadNext(s1, 0, s2) && ThreadNext(s2, 0, s3);
    assert ThreadNext(s3, 0, s4) && ThreadNext(s4, 0, s5);
    var b := [s0, s1, s2, s3, s4, s5];
    assert Behaviour(b);
    assert HolderSpins(s5);
  }

  /** The thread holds the mutex and spins for it. */
  predicate SelfDeadlocked(s: State, t: Tid) {
    Sized(s) && t < |s.pc| && s.held[t] > 0 && (s.pc[t] == SpinLoad(false) || s.pc[t] == SpinExchange(false))
  }

  /** ... for good: no step of any thread gets it out. */
  lemma {:induction false} SelfDeadlockLasts(b: seq<State>, i: nat, j: nat, t: Tid)
    requires Behaviour(b) && i <= j < |b| && SelfDeadlocked(b[i], t)
    ensures SelfDeadlocked(b[j], t)
    decreases j - i
  {
    hide Next, SelfDeadlocked;
    if i == j {
    } else {
      SelfDeadlockLasts(b, i, j - 1, t);
      BehaviourInv(b, j - 1);
      assert Next(b[j - 1], b[j - 1 + 1]);
      StillSpins(b[j - 1], b[j], t);
    }
  }

  lemma StillSpins(s: State, s': State, t: Tid)
    requires Inv(s) && Next(s, s') && SelfDeadlocked(s, t)
    ensures SelfDeadlocked(s', t)
  {
    Local(s, t);
    hide Inv;
    var u: Tid :| ThreadNext(s, u, s');
    assert Owns(s.pc[t], s.held[t]);
    if u != t {
      assert s'.pc[t] == s.pc[t] && s'.held[t] == s.held[t];
    }
  }

  /** How one thread's level count changes, as in a lock whose operations are single steps. */
  ghost predicate AtomicStep(recursive: bool, held: seq<nat>, held': seq<nat>) {
    || held' == held
    || (exists t: Tid :: LevelUp(recursive, held, held', t))
    || (exists t: Tid :: LevelDown(held, held', t))
  }

  ghost predicate LevelUp(recursive: bool, held: seq<nat>, held': seq<nat>, t: Tid) {
    && t < |held| && held' == held[t := held[t] + 1] && (held[t] > 0 ==> recursive)
    && held[t] < MAX_REC_LOCKS - 1 && forall u :: 0 <= u < |held| && u != t ==> held[u] == 0
  }

  ghost predicate LevelDown(held: seq<nat>, held': seq<nat>, t: Tid) {
    t < |held| && held[t] > 0 && held' == held[t := held[t] - 1]
  }

  /**
   The interleaved accesses behave like a lock with atomic operations: a step either changes nobody's level, or
   one thread locks while nobody else holds the lock, or a holder unlocks once.
   */
  lemma ActsAtomically(b: seq<State>, i: nat)
    requires Behaviour(b) && i + 1 < |b|
    ensures AtomicStep(b[i].recursive, b[i].held, b[i + 1].held)
  {
    hide Next, AtomicStep;
    BehaviourInv(b, i);
    assert Next(b[i], b[i + 1]);
    StepIsAtomic(b[i], b[i + 1]);
  }

  lemma StepIsAtomic(s: State, s': State)
    requires Inv(s) && Next(s, s')
    ensures AtomicStep(s.recursive, s.held, s'.held)
  {
    hide Inv;
    var t: Tid :| ThreadNext(s, t, s');
    Local(s, t);
    if s'.held != s.held {
      assert s.pc[t].SpinExchange? || s.pc[t].StoreTid? || s.pc[t].WriteUp? || s.pc[t].WriteDown? || s.pc[t] == StoreEmpty;
      if s.pc[t].WriteDown? || s.pc[t] == StoreEmpty {
        assert LevelDown(s.held, s'.held, t);
      } else {
        IncExact(s.count);
        OthersHoldNothing(s, t);
        assert LevelUp(s.recursive, s.held, s'.held, t);
      }
    }
  }

  lemma OthersHoldNothing(s: State, t: Tid)
    requires Inv(s) && t < |s.pc| && (Owns(s.pc[t], s.held[t]) || !s.flag)
    ensures forall u :: 0 <= u < |s.held| && u != t ==> s.held[u] == 0
    ensures !s.flag ==> s.held[t] == 0
  {
    forall u: Tid | u < |s.held| && s.held[u] > 0 ensures u == t && s.flag {
      assert Owns(s.pc[u], s.held[u]);
    }
  }

  /** The lock is given up exactly when unlocks balance locks: the flag is cleared with no level left anywhere. */
  lemma FreedWhenBalanced(b: seq<State>, i: nat, t: Tid)
    requires Behaviour(b) && i < |b| && t < |b[i].pc| && Sized(b[i])
    ensures b[i].pc[t] == ClearFlag ==> forall u: Tid :: u < |b[i].held| ==> b[i].held[u] == 0
    ensures b[i].pc[t].WriteDown? ==> (Step(b[i], t).value.pc[t] == StoreEmpty <==> b[i].held[t] == 1)
  {
    hide Behaviour;
    BehaviourInv(b, i);
    if b[i].pc[t] == ClearFlag { OthersHoldNothing(b[i], t); }
    Local(b[i], t);
    IncExact(b[i].count);
  }
}
