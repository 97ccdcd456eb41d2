/** Every step of the timed locks keeps their invariant, and what follows for every behaviour. */
module TimedLockProof {
  import opened Common
  import opened CondVarWait
  import opened LockCount
  import opened TimedLock

  /** Only thread `t` moved. */
  predicate Moved(s: State, s': State, t: Tid) {
    && t < |s.pc| && Sized(s) && Sized(s') && |s'.pc| == |s.pc| && s'.recursive == s.recursive
    && s'.pc == s.pc[t := s'.pc[t]] && s'.depth == s.depth[t := s'.depth[t]]
  }

  lemma MutexKeeps(s: State, s': State, t: Tid)
    requires Moved(s, s', t) && MutexOk(s)
    requires || (s'.mutex == s.mutex && Holds(s'.pc[t]) == Holds(s.pc[t]))
             || (s.mutex == None && s'.mutex == Some(t) && Holds(s'.pc[t]))
             || (s.mutex == Some(t) && s'.mutex == None && !Holds(s'.pc[t]))
    ensures MutexOk(s')
  {
    forall u: Tid | u < |s'.pc| ensures s'.mutex == Some(u) <==> Holds(s'.pc[u]) {
      assert s.mutex == Some(u) <==> Holds(s.pc[u]);
    }
  }

  lemma ListKeeps(s: State, s': State, t: Tid)
    requires Moved(s, s', t) && ListOk(s)
    requires || (s'.list == s.list && Listed(s'.pc[t]) == Listed(s.pc[t]))
             || (s'.list == s.list + [t] && Listed(s'.pc[t]) && !Listed(s.pc[t]))
             || (s'.list == RemoveNode(s.list, t) && !Listed(s'.pc[t]))
    ensures ListOk(s')
  {
    hide Listed;
    if s'.list == s.list + [t] && Listed(s'.pc[t]) && !Listed(s.pc[t]) {
      AppendFacts(s.list, t);
    } else if s'.list == RemoveNode(s.list, t) && !Listed(s'.pc[t]) {
      RemoveNodeFacts(s.list, t);
    }
  }

  lemma CommittedKeeps(s: State, s': State, t: Tid)
    requires Moved(s, s', t) && CommittedOk(s) && MutexOk(s)
    requires Free(s') ==> Free(s) || s.mutex == None
    requires s'.pc[t].AtCv? && Committed(s'.pc[t].ph) ==> !Free(s')
    ensures CommittedOk(s')
  {
    hide Free;
    forall u: Tid | u < |s'.pc| && s'.pc[u].AtCv? && Committed(s'.pc[u].ph) ensures !Free(s') {
      if u != t { assert Holds(s.pc[u]); }
    }
  }

  lemma ComingKeeps(s: State, s': State, t: Tid)
    requires Moved(s, s', t)
    ensures s'.pc[t] == Notify ==> Coming(s')
    ensures Coming(s) && s.pc[t] != Notify ==> Coming(s')
  {
    if Coming(s) {
      var u: Tid :| u < |s.pc| && s.pc[u] == Notify;
      if u != t { assert s'.pc[u] == Notify; }
    }
  }

  lemma AwakeKeeps(s: State, s': State, t: Tid)
    requires Moved(s, s', t) && forall u :: 0 <= u < |s.cond| && u != t && s.cond[u] ==> s'.cond[u]
    ensures Awake(s', t) ==> SomeAwake(s')
    ensures SomeAwake(s) && (Awake(s, t) ==> Awake(s', t)) ==> SomeAwake(s')
  {
    if SomeAwake(s) {
      var u: Tid :| Awake(s, u);
      if u != t { assert Awake(s', u); }
    }
  }

  /** A lock that is free with waiters keeps somebody responsible for them. */
  lemma HandOffKeeps(s: State, s': State, t: Tid)
    requires Moved(s, s', t) && HandOffOk(s) && MutexOk(s)
    requires forall u :: 0 <= u < |s.cond| && u != t && s.cond[u] ==> s'.cond[u]
    requires Free(s') && !Free(s) ==> s'.pc[t] == Notify
    requires s.pc[t] == Notify ==> s'.list == [] || !Free(s') || SomeAwake(s')
    requires s'.mutex == s.mutex || (s.mutex == Some(t) && (HolderLooks(s) ==> !Free(s'))) || s.mutex == None
    requires HolderLooks(s) && s.mutex == Some(t) ==> !Free(s')
    requires Free(s') && s'.list != [] && s.list == [] ==> false
    requires Awake(s, t) ==> Awake(s', t) || (s'.mutex == Some(t) && HolderLooks(s'))
    ensures HandOffOk(s')
  {
    ComingKeeps(s, s', t);
    AwakeKeeps(s, s', t);
    hide Coming, SomeAwake, Free;
    if Free(s') && s'.list != [] && Free(s) && HolderLooks(s) {
      assert s'.pc[s.mutex.value] == s.pc[s.mutex.value];
    }
  }

  lemma OwnerKeepsIdle(s: State, s': State, t: Tid)
    requires Moved(s, s', t) && OwnerOk(s)
    requires s'.locked == s.locked && s'.tid == s.tid && s'.count == s.count && s'.depth == s.depth
    requires s'.pc[t] == End ==> s.depth[t] > 0
    requires s'.pc[t].AtCv? || (!s.recursive && (s'.pc[t].Enter? || s'.pc[t] == Try)) ==> s.depth[t] == 0
    ensures OwnerOk(s')
  {
    if SomeHolder(s) {
      var u: Tid :| u < |s.pc| && s.depth[u] > 0;
      assert s'.depth[u] > 0;
    }
  }

  /** A step that leaves the lock's own fields alone. */
  lemma FrameKeeps(s: State, s': State, t: Tid)
    requires Inv(s) && Moved(s, s', t)
    requires s'.locked == s.locked && s'.tid == s.tid && s'.count == s.count && s'.depth == s.depth
    requires || (s'.mutex == s.mutex && Holds(s'.pc[t]) == Holds(s.pc[t]))
             || (s.mutex == None && s'.mutex == Some(t) && Holds(s'.pc[t]))
             || (s.mutex == Some(t) && s'.mutex == None && !Holds(s'.pc[t]))
    requires || (s'.list == s.list && Listed(s'.pc[t]) == Listed(s.pc[t]))
             || (s'.list == s.list + [t] && Listed(s'.pc[t]) && !Listed(s.pc[t]))
             || (s'.list == RemoveNode(s.list, t) && !Listed(s'.pc[t]))
    requires s'.pc[t].AtCv? && Committed(s'.pc[t].ph) ==> !Free(s)
    requires s'.pc[t] == End ==> s.depth[t] > 0
    requires s'.pc[t].AtCv? || (!s.recursive && (s'.pc[t].Enter? || s'.pc[t] == Try)) ==> s.depth[t] == 0
    ensures MutexOk(s') && ListOk(s') && CommittedOk(s') && OwnerOk(s')
  {
    hide MutexOk, ListOk, CommittedOk, OwnerOk, HandOffOk, Listed, Holds, RemoveNode;
    MutexKeeps(s, s', t);
    ListKeeps(s, s', t);
    CommittedKeeps(s, s', t);
    OwnerKeepsIdle(s, s', t);
  }

  lemma CallKeeps(s: State, t: Tid, call: Pc)
    requires Inv(s) && t < |s.pc| && MayCall(s, t, call)
    ensures Inv(At(s, t, call))
  {
    hide MutexOk, ListOk, CommittedOk, OwnerOk, HandOffOk;
    var s' := At(s, t, call);
    FrameKeeps(s, s', t);
    HandOffKeeps(s, s', t);
  }

  lemma Facts(s: State, t: Tid)
    requires Inv(s) && t < |s.pc|
    ensures Holds(s.pc[t]) <==> s.mutex == Some(t)
    ensures s.pc[t].AtCv? && Committed(s.pc[t].ph) ==> !Free(s)
    ensures s.pc[t].AtCv? ==> s.depth[t] == 0
    ensures s.pc[t] == End ==> s.depth[t] > 0
    ensures s.list == [t] ==> RemoveNode(s.list, t) == []
    ensures s.pc[t].AtCv? && InList(s.pc[t].ph) ==> s.list != []
  {
    if s.pc[t].AtCv? && InList(s.pc[t].ph) { assert Listed(s.pc[t]) && t in s.list; }
  }

  /** A step that does not take the lock: the thread moves through the wait loop. */
  predicate WaitMove(s: State, t: Tid, p: Pc, s': State)
    requires t < |s.pc| && Sized(s) && s.pc[t].AtCv?
  {
    (p.AtCv? ==> p.timed == s.pc[t].timed) &&
    match s.pc[t].ph
    case Eval => p.AtCv? && (p.ph == Last || p.ph == Add) && s' == At(s, t, p)
    case Add => p.AtCv? && p.ph == Clear && s' == At(s.(list := s.list + [t]), t, p)
    case Clear => p.AtCv? && p.ph == Release && s' == At(s.(cond := s.cond[t := false]), t, p)
    case Release => p.AtCv? && p.ph == Sleeping && s' == At(s.(mutex := None), t, p)
    case Sleeping => p.AtCv? && p.ph == Relock && s' == At(s, t, p)
    case Relock => p.AtCv? && p.ph == Remove && s.mutex == None && s' == At(s.(mutex := Some(t)), t, p)
    case Remove => p.AtCv? && (p.ph == Last || p.ph == Eval) && s' == At(s.(list := RemoveNode(s.list, t)), t, p)
    case Last => p == Outside && s' == At(s.(mutex := None), t, p)
  }

  lemma WaitMoves(s: State, t: Tid, chance: bool, s': State)
    requires t < |s.pc| && Sized(s) && s.pc[t].AtCv? && CvStep(s, t, chance) == Some(s')
    requires s.pc[t].ph == Eval || s.pc[t].ph == Last ==> !Free(s)
    ensures |s'.pc| == |s.pc| && WaitMove(s, t, s'.pc[t], s')
  {
    hide Free, RemoveNode, Take;
  }

  lemma WaitStepKeeps(s: State, t: Tid, s': State)
    requires Inv(s) && t < |s.pc| && s.pc[t].AtCv? && |s'.pc| == |s.pc| && WaitMove(s, t, s'.pc[t], s')
    requires s.pc[t].ph == Eval || s.pc[t].ph == Last ==> !Free(s)
    ensures Inv(s')
  {
    hide MutexOk, ListOk, CommittedOk, OwnerOk, HandOffOk, RemoveNode;
    Facts(s, t);
    assert Free(s') == Free(s);
    FrameKeeps(s, s', t);
    HandOffKeeps(s, s', t);
  }

  /** The lock is taken, or taken once more. */
  lemma OwnerKeepsTake(s: State, t: Tid)
    requires Inv(s) && t < |s.pc| && (Free(s) || (s.recursive && s.tid == Some(t)))
    ensures OwnerOk(Take(s, t)) && !Free(Take(s, t))
  {
    hide MutexOk, ListOk, CommittedOk, HandOffOk;
    IncExact(s.count);
    var s' := Take(s, t);
    if !s.recursive { assert s'.depth[t] > 0; }
  }

  lemma TakeKeeps(s: State, t: Tid)
    requires Inv(s) && t < |s.pc| && !Listed(s.pc[t]) && s.pc[t] != Notify
    requires s.mutex == if Holds(s.pc[t]) then Some(t) else None
    requires Free(s) || (s.recursive && s.tid == Some(t))
    ensures Inv(Take(s, t))
  {
    OwnerKeepsTake(s, t);
    hide MutexOk, ListOk, CommittedOk, OwnerOk, HandOffOk, Free;
    var s' := Take(s, t);
    MutexKeeps(s, s', t);
    ListKeeps(s, s', t);
    CommittedKeeps(s, s', t);
    HandOffKeeps(s, s', t);
  }

  lemma OwnerKeepsRelease(s: State, t: Tid)
    requires Inv(s) && t < |s.pc| && s.pc[t] == End
    ensures OwnerOk(Unlock(s, t))
  {
    hide MutexOk, ListOk, CommittedOk, HandOffOk;
    assert s.depth[t] > 0;
    IncExact(s.count);
  }

  lemma ReleaseKeeps(s: State, t: Tid)
    requires Inv(s) && t < |s.pc| && s.pc[t] == End && s.mutex == None
    ensures Inv(Unlock(s, t))
  {
    hide MutexOk, ListOk, CommittedOk, OwnerOk, HandOffOk;
    var s' := Unlock(s, t);
    OwnerKeepsRelease(s, t);
    MutexKeeps(s, s', t);
    ListKeeps(s, s', t);
    CommittedKeeps(s, s', t);
    HandOffKeeps(s, s', t);
  }

  /** The notification reaches the front of the list, which is asleep or awake, never about to sleep. */
  lemma NotifyKeeps(s: State, t: Tid)
    requires Inv(s) && t < |s.pc| && s.pc[t] == Notify
    ensures Inv(At(s.(cond := FlagFront(s.list, s.cond)), t, Outside))
  {
    hide MutexOk, ListOk, CommittedOk, OwnerOk, HandOffOk, Free;
    var s' := At(s.(cond := FlagFront(s.list, s.cond)), t, Outside);
    FrameKeeps(s, s', t);
    FrontWakes(s, t);
    assert Free(s') == Free(s) by { SameFree(s, s'); }
    HandOffKeeps(s, s', t);
  }

  lemma SameFree(s: State, s': State)
    requires s'.recursive == s.recursive && s'.locked == s.locked && s'.count == s.count
    ensures Free(s') == Free(s)
  {
  }

  lemma FrontWakes(s: State, t: Tid)
    requires Inv(s) && t < |s.pc| && s.pc[t] == Notify
    ensures var s' := At(s.(cond := FlagFront(s.list, s.cond)), t, Outside);
      Free(s) && s.list != [] ==> SomeAwake(s')
  {
    if Free(s) && s.list != [] {
      var s' := At(s.(cond := FlagFront(s.list, s.cond)), t, Outside);
      var f := s.list[0];
      assert f in s.list && Listed(s.pc[f]) && f != t;
      assert Awake(s', f);
    }
  }

  lemma StepKeeps(s: State, t: Tid, chance: bool, s': State)
    requires Inv(s) && t < |s.pc| && Step(s, t, chance) == Some(s')
    ensures Inv(s')
  {
    Facts(s, t);
    NoDepthOutside(s, t);
    hide MutexOk, ListOk, CommittedOk, OwnerOk, HandOffOk, Take, Unlock, CvStep, RemoveNode, WaitMove;
    match s.pc[t]
    case AtCv(timed, ph) =>
      if (ph == Eval || ph == Last) && Free(s) {
        assert s' == Take(s, t) by { TakenAtCv(s, t, chance); }
        TakeKeeps(s, t);
      } else {
        WaitMoves(s, t, chance, s');
        WaitStepKeeps(s, t, s');
      }
    case Enter(timed) =>
      if s.recursive && s.tid == Some(t) {
        TakeKeeps(s, t);
      } else {
        FrameKeeps(s, s', t);
        HandOffKeeps(s, s', t);
      }
    case Try =>
      if s.mutex == None && !chance && (Free(s) || (s.recursive && s.tid == Some(t))) {
        TakeKeeps(s, t);
      } else {
        FrameKeeps(s, s', t);
        HandOffKeeps(s, s', t);
      }
    case End => ReleaseKeeps(s, t);
    case Notify => NotifyKeeps(s, t);
  }

  lemma NoDepthOutside(s: State, t: Tid)
    requires Inv(s) && t < |s.pc|
    ensures (s.recursive && s.tid != Some(t)) || (!s.recursive && (s.pc[t].Enter? || s.pc[t] == Try)) ==> s.depth[t] == 0
  {
  }

  lemma TakenAtCv(s: State, t: Tid, chance: bool)
    requires t < |s.pc| && Sized(s) && s.pc[t].AtCv? && (s.pc[t].ph == Eval || s.pc[t].ph == Last) && Free(s)
    ensures CvStep(s, t, chance) == Some(Take(s, t))
  {
    hide Take;
  }

  lemma NextKeeps(s: State, s': State)
    requires Inv(s) && Next(s, s')
    ensures Inv(s')
  {
    hide Inv, Step, At, MayCall;
    var t: Tid :| ThreadNext(s, t, s');
    if Step(s, t, false) == Some(s') {
      StepKeeps(s, t, false, s');
    } else if Step(s, t, true) == Some(s') {
      StepKeeps(s, t, true, s');
    } else {
      var call :| MayCall(s, t, call) && s' == At(s, t, call);
      CallKeeps(s, t, call);
    }
  }

  lemma {:induction false} BehaviourInv(b: seq<State>, i: nat)
    requires Behaviour(b) && i < |b|
    ensures Inv(b[i])
  {
    hide Next;
    if i == 0 {
    } else {
      BehaviourInv(b, i - 1);
      assert Next(b[i - 1], b[i - 1 + 1]);
      NextKeeps(b[i - 1], b[i]);
    }
  }

  // ---------- what holds in every behaviour ----------

  /**
   Exclusion and counting: at most one thread has locked more often than it has unlocked, never twice for the
   plain kind, as often as the count says for the recursive kind, and the lock is free exactly when nobody has.
   */
  lemma Exclusion(b: seq<State>, i: nat, t: Tid, u: Tid)
    requires Behaviour(b) && i < |b| && t < |b[i].pc| && u < |b[i].pc|
    ensures |b[i].depth| == |b[i].pc|
    ensures b[i].depth[t] > 0 && b[i].depth[u] > 0 ==> t == u
    ensures !b[i].recursive ==> b[i].depth[t] <= 1
    ensures b[i].recursive && b[i].depth[t] > 0 ==> b[i].tid == Some(t) && b[i].count == b[i].depth[t] < MAX_REC_LOCKS
    ensures Sized(b[i]) && (Free(b[i]) <==> !SomeHolder(b[i]))
  {
    hide Behaviour;
    BehaviourInv(b, i);
    FreeMeansNobody(b[i]);
  }

  lemma FreeMeansNobody(s: State)
    requires Inv(s)
    ensures Free(s) <==> !SomeHolder(s)
  {
    hide MutexOk, ListOk, CommittedOk, HandOffOk;
    if s.recursive && s.count != 0 { assert s.depth[s.tid.value] > 0; }
  }

  /**
   No waiter is stranded, although `notify_one` leaves the thread it signals in the list and may signal it
   again, and although waits time out: with the inner mutex and the lock free, a waiter in the list means that
   an unlocker still owes its notification or that a waiter in the list has been signalled or is awake.
   */
  lemma NeverStrands(b: seq<State>, i: nat)
    requires Behaviour(b) && i < |b| && b[i].mutex == None && Free(b[i]) && b[i].list != []
    ensures Sized(b[i]) && (Coming(b[i]) || exists t: Tid :: t in b[i].list && Awake(b[i], t))
  {
    hide Behaviour;
    BehaviourInv(b, i);
    if SomeAwake(b[i]) {
      var t: Tid :| Awake(b[i], t);
      assert Listed(b[i].pc[t]);
    }
  }

  /** Nobody holds the lock and some thread is inside one of its operations: then some thread can move, without a timeout. */
  lemma NeverStuck(b: seq<State>, i: nat, t: Tid)
    requires Behaviour(b) && i < |b| && t < |b[i].pc| && b[i].pc[t] != Outside
    requires Sized(b[i]) && !SomeHolder(b[i])
    ensures exists u: Tid :: u < |b[i].pc| && Step(b[i], u, false) != None
  {
    hide Behaviour, Step, Free;
    var s := b[i];
    BehaviourInv(b, i);
    FreeMeansNobody(s);
    if s.mutex.Some? {
      HolderMoves(s, s.mutex.value);
    } else {
      var u := SomeoneAwake(s, t);
      FreeMoves(s, u);
    }
  }

  lemma SomeoneAwake(s: State, t: Tid) returns (u: Tid)
    requires Inv(s) && t < |s.pc| && s.pc[t] != Outside && s.mutex == None && Free(s)
    ensures u < |s.pc| && s.pc[u] != Outside && !Asleep(s, u)
  {
    hide Free;
    if !Asleep(s, t) {
      u := t;
    } else {
      assert Listed(s.pc[t]) && t in s.list;
      if Coming(s) {
        u :| u < |s.pc| && s.pc[u] == Notify;
      } else {
        u :| Awake(s, u);
      }
    }
  }

  predicate Asleep(s: State, t: Tid)
    requires Sized(s) && t < |s.pc|
  {
    s.pc[t].AtCv? && s.pc[t].ph == Sleeping && !s.cond[t]
  }

  lemma HolderMoves(s: State, u: Tid)
    requires Inv(s) && s.mutex == Some(u)
    ensures u < |s.pc| && Step(s, u, false) != None
  {
  }

  lemma FreeMoves(s: State, u: Tid)
    requires Inv(s) && s.mutex == None && u < |s.pc| && s.pc[u] != Outside && !Asleep(s, u)
    ensures Step(s, u, false) != None
  {
    assert !Holds(s.pc[u]);
  }

  /** The lock becomes free exactly when the holder's unlocks balance its locks. */
  lemma FreedWhenBalanced(b: seq<State>, i: nat, t: Tid, chance: bool)
    requires Behaviour(b) && i < |b| && t < |b[i].pc| && b[i].pc[t] == End && b[i].mutex == None
    ensures Sized(b[i]) && b[i].depth[t] > 0 && Step(b[i], t, chance).Some?
    ensures var s' := Step(b[i], t, chance).value;
      s'.depth == b[i].depth[t := b[i].depth[t] - 1] && (Free(s') <==> b[i].depth[t] == 1)
  {
    hide Behaviour;
    BehaviourInv(b, i);
    IncExact(b[i].count);
  }

  /**
   Locking once more by the holder is counted, and the count never wraps: at `max_rec_locks - 1` levels the
   call is refused (`lock` throws, the attempts return false) and the lock is as it was.
   */
  lemma LevelsAreCounted(b: seq<State>, i: nat, t: Tid)
    requires Behaviour(b) && i < |b| && t < |b[i].pc| && b[i].pc[t].Enter? && b[i].mutex == None
    requires b[i].recursive && b[i].tid == Some(t)
    ensures Sized(b[i]) && Step(b[i], t, false).Some?
    ensures var s' := Step(b[i], t, false).value;
      if b[i].depth[t] < MAX_REC_LOCKS - 1
      then s'.depth == b[i].depth[t := b[i].depth[t] + 1] && s'.count == b[i].depth[t] + 1 && s'.tid == Some(t)
      else s' == At(b[i], t, Outside)
  {
    hide Behaviour;
    BehaviourInv(b, i);
    IncExact(b[i].count);
  }
}
