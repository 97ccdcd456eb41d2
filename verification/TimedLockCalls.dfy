/**
 What each call on the timed locks comes to when its thread is the only one that moves: who takes the lock, who sleeps
 for it, who gives up at a deadline, and what an unlock sets off.
 */
module TimedLockCalls {
  import opened Common
  import opened CondVarWait
  import opened LockCount
  import opened TimedLock
  import opened TimedLockProof

  /** Steps of thread `t` alone; `late` tells whether its deadline has passed. */
  ghost predicate Alone(p: seq<State>, t: Tid, late: bool) {
    |p| > 0 && forall i :: 0 <= i < |p| - 1 ==> Sized(p[i]) && t < |p[i].pc| && Step(p[i], t, late) == Some(p[i + 1])
  }

  function Last(p: seq<State>): State
    requires p != []
  {
    p[|p| - 1]
  }

  /** The steps of `t` alone lead from one state to the other. */
  ghost predicate Comes(s: State, t: Tid, late: bool, e: State) {
    exists p :: Alone(p, t, late) && p[0] == s && Last(p) == e
  }

  lemma StaysHere(s: State, t: Tid, late: bool)
    ensures Comes(s, t, late, s)
  {
    assert Alone([s], t, late) && Last([s]) == s;
  }

  /** One step more. */
  lemma Go(s: State, t: Tid, late: bool, m: State) returns (e: State)
    requires Comes(s, t, late, m) && Inv(m) && t < |m.pc| && Sized(m) && Step(m, t, late).Some?
    ensures Comes(s, t, late, e) && Step(m, t, late) == Some(e) && Inv(e)
  {
    hide Inv, Step;
    var p :| Alone(p, t, late) && p[0] == s && Last(p) == m;
    e := Step(m, t, late).value;
    var q := p + [e];
    assert Alone(q, t, late) && Last(q) == e;
    StepKeeps(m, t, late, e);
  }

  lemma Mine(s: State, t: Tid)
    requires Inv(s) && t < |s.pc|
    ensures Sized(s) && (Free(s) ==> s.depth[t] == 0 && (s.recursive ==> s.tid == None))
    ensures s.recursive && s.tid == Some(t) ==> 0 < s.depth[t] == s.count < MAX_REC_LOCKS
    ensures s.recursive && s.tid != Some(t) ==> s.depth[t] == 0
    ensures !s.recursive ==> s.depth[t] <= 1
    ensures s.depth[t] > 0 ==> !Free(s)
  {
  }

  /** One level more, if the limit allows it. */
  function OneMore(levels: nat): nat {
    if levels < MAX_REC_LOCKS - 1 then levels + 1 else levels
  }

  /** The call is over, the lock is held on so many levels by `t`, and nobody else is affected. */
  ghost predicate Taken(s: State, t: Tid, levels: nat, list: seq<Tid>, e: State)
    requires t < |s.pc| && Sized(s)
  {
    && e.pc == s.pc[t := Outside] && e.depth == s.depth[t := levels] && e.mutex == None && e.list == list && e.cond == s.cond
    && !Free(e) && (e.recursive ==> e.tid == Some(t))
  }

  lemma TakeTakes(s: State, t: Tid)
    requires Inv(s) && t < |s.pc| && (Free(s) || (s.recursive && s.tid == Some(t)))
    ensures Sized(s) && Taken(s, t, if Free(s) then 1 else OneMore(s.depth[t]), s.list, Take(s, t))
  {
    Mine(s, t);
    IncExact(s.count);
    hide Inv;
    assert s.depth[t := s.depth[t]] == s.depth;
  }

  /** A free lock is taken by every kind of call whose thread finds the inner mutex free; one level is held then. */
  lemma FreeLockIsTaken(b: seq<State>, i: nat, t: Tid, late: bool)
    requires Behaviour(b) && i < |b| && t < |b[i].pc| && Sized(b[i]) && Free(b[i]) && b[i].mutex == None
    requires b[i].pc[t].Enter? || (b[i].pc[t] == Try && !late)
    ensures exists e :: Comes(b[i], t, late, e) && Taken(b[i], t, 1, b[i].list, e)
  {
    hide Behaviour, Inv, Comes, Taken;
    BehaviourInv(b, i);
    var s := b[i];
    StaysHere(s, t, late);
    Mine(s, t);
    TakeTakes(s, t);
    var e := Go(s, t, late, s);
    if s.pc[t].Enter? {
      assert e == At(s.(mutex := Some(t)), t, AtCv(s.pc[t].timed, Eval));
      TakeTakes(e, t);
      var e' := Go(s, t, late, e);
      SameTaken(s, e, t, e');
    }
  }

  lemma SameTaken(s: State, m: State, t: Tid, e: State)
    requires t < |s.pc| && Sized(s) && m == At(s.(mutex := m.mutex), t, if t < |m.pc| then m.pc[t] else Outside)
    requires Taken(m, t, 1, m.list, e)
    ensures Taken(s, t, 1, s.list, e)
  {
    assert m.pc[t := Outside] == s.pc[t := Outside];
  }

  /** The holder of the recursive lock takes it once more, up to the limit, where nothing changes. */
  lemma HolderLocksAgain(b: seq<State>, i: nat, t: Tid)
    requires Behaviour(b) && i < |b| && t < |b[i].pc| && Sized(b[i]) && b[i].mutex == None
    requires b[i].recursive && b[i].depth[t] > 0 && (b[i].pc[t].Enter? || b[i].pc[t] == Try)
    ensures exists e :: Comes(b[i], t, false, e) && Taken(b[i], t, OneMore(b[i].depth[t]), b[i].list, e)
  {
    hide Behaviour, Inv, Comes, Taken;
    BehaviourInv(b, i);
    var s := b[i];
    Mine(s, t);
    TakeTakes(s, t);
    StaysHere(s, t, false);
    var e := Go(s, t, false, s);
  }

  /** A lock somebody else holds refuses `try_lock`, and a timed attempt whose deadline has passed; nothing changes. */
  lemma BusyIsRefused(b: seq<State>, i: nat, t: Tid, late: bool)
    requires Behaviour(b) && i < |b| && t < |b[i].pc| && Sized(b[i]) && !Free(b[i]) && b[i].depth[t] == 0
    requires b[i].pc[t] == Try || (b[i].pc[t] == Enter(true) && late && b[i].mutex == None)
    ensures Comes(b[i], t, late, At(b[i], t, Outside))
  {
    hide Behaviour, Inv, Comes;
    BehaviourInv(b, i);
    var s := b[i];
    Mine(s, t);
    StaysHere(s, t, late);
    var e := Go(s, t, late, s);
    if s.pc[t] != Try {
      assert e == At(s.(mutex := Some(t)), t, AtCv(true, Eval));
      e := Go(s, t, late, e);
      assert e == At(s.(mutex := Some(t)), t, AtCv(true, CondVarWait.Last));
      e := Go(s, t, late, e);
      assert e == At(s, t, Outside);
    }
  }

  /** Otherwise the caller goes to sleep as the last in the list, its flag down and the inner mutex free. */
  function Asleep(s: State, t: Tid, timed: bool): State
    requires t < |s.pc| && Sized(s)
  {
    At(s.(list := s.list + [t], cond := s.cond[t := false], mutex := None), t, AtCv(timed, Sleeping))
  }

  lemma BusyIsWaitedFor(b: seq<State>, i: nat, t: Tid)
    requires Behaviour(b) && i < |b| && t < |b[i].pc| && Sized(b[i]) && !Free(b[i]) && b[i].depth[t] == 0
    requires b[i].pc[t].Enter? && b[i].mutex == None
    ensures Comes(b[i], t, false, Asleep(b[i], t, b[i].pc[t].timed))
  {
    hide Behaviour, Inv, Comes;
    BehaviourInv(b, i);
    var s := b[i];
    Mine(s, t);
    StaysHere(s, t, false);
    var e := Go(s, t, false, s);
    assert e == At(s.(mutex := Some(t)), t, AtCv(s.pc[t].timed, Eval));
    e := FallsAsleep(s, t, false, e, s.pc[t].timed);
    assert e == Asleep(s, t, s.pc[t].timed);
  }

  lemma FallsAsleep(s: State, t: Tid, late: bool, m: State, timed: bool) returns (e: State)
    requires Comes(s, t, late, m) && Inv(m) && t < |m.pc| && Sized(m) && !Free(m) && m.pc[t] == AtCv(timed, Eval)
    requires !(timed && late)
    ensures Comes(s, t, late, e) && e == Asleep(m, t, timed)
  {
    hide Inv, Comes;
    e := Go(s, t, late, m);
    assert e == At(m, t, AtCv(timed, Add));
    e := Go(s, t, late, e);
    assert e == At(m.(list := m.list + [t]), t, AtCv(timed, Clear));
    e := Go(s, t, late, e);
    assert e == At(m.(list := m.list + [t], cond := m.cond[t := false]), t, AtCv(timed, Release));
    e := Go(s, t, late, e);
  }

  /**
   A sleeper that has been flagged, or whose deadline has passed, takes the lock if it is free, gives up if it is not
   and the deadline has passed, and else sleeps on, now as the last in the list.
   */
  lemma SleeperGoesOn(b: seq<State>, i: nat, t: Tid, late: bool)
    requires Behaviour(b) && i < |b| && t < |b[i].pc| && Sized(b[i]) && b[i].mutex == None
    requires b[i].pc[t].AtCv? && b[i].pc[t].ph == Sleeping && (b[i].cond[t] || (b[i].pc[t].timed && late))
    ensures var s, rest := b[i], RemoveNode(b[i].list, t);
      if Free(s) then exists e :: Comes(s, t, late, e) && Taken(s, t, 1, rest, e)
      else if s.pc[t].timed && late then Comes(s, t, late, At(s.(list := rest), t, Outside))
      else Comes(s, t, late, Asleep(s.(list := rest), t, s.pc[t].timed))
  {
    hide Behaviour, Inv, Comes, Taken, RemoveNode;
    BehaviourInv(b, i);
    var (s, timed) := (b[i], b[i].pc[t].timed);
    Mine(s, t);
    var rest := RemoveNode(s.list, t);
    var e := WakesUp(s, t, late);
    if Free(s) {
      TakeTakes(e, t);
      var e' := Go(s, t, late, e);
      SameTaken(s.(list := rest), e, t, e');
      AnyList(s, t, rest, e');
    } else if timed && late {
      e := Go(s, t, late, e);
      assert e == At(s.(list := rest), t, Outside);
    } else {
      e := FallsAsleep(s, t, late, e, timed);
      assert e == Asleep(s.(list := rest), t, timed);
    }
  }

  /** Out of its sleep and out of the list, the inner mutex taken again. */
  lemma WakesUp(s: State, t: Tid, late: bool) returns (e: State)
    requires Inv(s) && t < |s.pc| && Sized(s) && s.mutex == None
    requires s.pc[t].AtCv? && s.pc[t].ph == Sleeping && (s.cond[t] || (s.pc[t].timed && late))
    ensures Comes(s, t, late, e) && Inv(e)
    ensures e == At(s.(mutex := Some(t), list := RemoveNode(s.list, t)), t,
                    AtCv(s.pc[t].timed, if s.pc[t].timed && late then CondVarWait.Last else Eval))
  {
    hide Inv, Comes, RemoveNode;
    var timed := s.pc[t].timed;
    StaysHere(s, t, late);
    e := Go(s, t, late, s);
    assert e == At(s, t, AtCv(timed, Relock));
    e := Go(s, t, late, e);
    assert e == At(s.(mutex := Some(t)), t, AtCv(timed, Remove));
    e := Go(s, t, late, e);
  }

  lemma AnyList(s: State, t: Tid, list: seq<Tid>, e: State)
    requires t < |s.pc| && Sized(s) && Taken(s.(list := list), t, 1, list, e)
    ensures Taken(s, t, 1, list, e)
  {
  }

  /** An unlock gives one level back; with the last one the lock is free and the first waiter is flagged, nobody else. */
  lemma UnlockGivesBack(b: seq<State>, i: nat, t: Tid)
    requires Behaviour(b) && i < |b| && t < |b[i].pc| && Sized(b[i]) && b[i].pc[t] == End && b[i].mutex == None
    ensures b[i].depth[t] > 0 && exists e :: Comes(b[i], t, false, e) && Given(b[i], t, e)
  {
    hide Behaviour, Inv, Comes;
    BehaviourInv(b, i);
    var s := b[i];
    Facts(s, t);
    Mine(s, t);
    IncExact(s.count);
    StaysHere(s, t, false);
    var e := Go(s, t, false, s);
    if s.depth[t] == 1 {
      assert e.pc == s.pc[t := Notify];
      e := Go(s, t, false, e);
    }
    assert e.pc == s.pc[t := Outside];
    assert Given(s, t, e);
  }

  ghost predicate Given(s: State, t: Tid, e: State)
    requires t < |s.pc| && Sized(s) && s.depth[t] > 0
  {
    && e.pc == s.pc[t := Outside] && e.depth == s.depth[t := s.depth[t] - 1] && e.mutex == None && e.list == s.list
    && (Free(e) <==> s.depth[t] == 1) && |e.cond| == |s.cond|
    && forall u :: 0 <= u < |s.cond| ==> e.cond[u] == (s.cond[u] || (s.depth[t] == 1 && s.list != [] && u == s.list[0]))
  }
}
