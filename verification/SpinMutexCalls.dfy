/**
 What each call on the plain and the recursive mutex comes to when its thread is the only one that moves: a free lock
 is taken, a holder counts one level more, a busy lock refuses `try_lock`, and an unlock gives one level back.
 */
module SpinMutexCalls {
  import opened Common
  import opened LockCount
  import opened SpinMutex
  import opened SpinMutexProof

  /** Steps of thread `t` alone. */
  ghost predicate Alone(p: seq<State>, t: Tid) {
    |p| > 0 && forall i :: 0 <= i < |p| - 1 ==> Sized(p[i]) && t < |p[i].pc| && Step(p[i], t) == Some(p[i + 1])
  }

  function Last(p: seq<State>): State
    requires p != []
  {
    p[|p| - 1]
  }

  /** The call is over; the thread has this many levels, and the flag is as given. */
  ghost predicate EndsWith(p: seq<State>, s: State, t: Tid, levels: nat, flag: bool) {
    && Alone(p, t) && p[0] == s && t < |s.pc| == |Last(p).pc| && t < |s.held|
    && Last(p).pc == s.pc[t := Outside] && Last(p).held == s.held[t := levels] && Last(p).flag == flag
    && Inv(Last(p))
  }

  /** The steps of `t` alone can end the call like this. */
  ghost predicate CanEnd(s: State, t: Tid, levels: nat, flag: bool) {
    exists p :: EndsWith(p, s, t, levels, flag)
  }

  /** One level more, if the limit allows it. */
  function OneMore(levels: nat): nat {
    if levels < MAX_REC_LOCKS - 1 then levels + 1 else levels
  }

  lemma Start(s: State, t: Tid) returns (p: seq<State>)
    ensures Alone(p, t) && p == [s]
  {
    p := [s];
  }

  lemma Go(p: seq<State>, t: Tid) returns (p': seq<State>)
    requires Alone(p, t) && Inv(Last(p)) && t < |Last(p).pc| && Step(Last(p), t).Some?
    ensures Alone(p', t) && p'[0] == p[0] && Step(Last(p), t) == Some(Last(p')) && Inv(Last(p'))
  {
    hide Inv, Step;
    InvSized(Last(p));
    p' := p + [Step(Last(p), t).value];
    StepKeeps(Last(p), t, Last(p'));
  }

  lemma InvSized(s: State)
    requires Inv(s)
    ensures Sized(s)
  {
  }

  lemma FreeFacts(s: State, t: Tid)
    requires Inv(s) && t < |s.pc| && !s.flag
    ensures Sized(s) && s.held[t] == 0 && s.tid != Some(t) && s.count == 0
  {
    Local(s, t);
    assert !Owns(s.pc[t], s.held[t]);
  }

  /** From the first load of a free flag. */
  lemma SpinsIn(s: State, t: Tid, try: bool) returns (p: seq<State>)
    requires Inv(s) && t < |s.pc| && s.pc[t] == SpinLoad(try) && !s.flag
    ensures EndsWith(p, s, t, 1, true)
    ensures !s.recursive ==> t < |Last(p).recorded| && Last(p).recorded[t] == !try
  {
    hide Inv;
    FreeFacts(s, t);
    IncExact(0);
    p := Start(s, t);
    p := Go(p, t);
    assert Last(p) == At(s, t, SpinExchange(try));
    p := Go(p, t);
    var a := Acquired(s, t, try);
    assert Last(p).pc == a.pc && Last(p).held == a.held && Last(p).count == 0 && Last(p).flag;
    if s.recursive {
      p := Go(p, t);
      p := Go(p, t);
      p := Go(p, t);
    } else if !try {
      p := Go(p, t);
    }
  }

  /** A free lock is taken by `lock` and by `try_lock`, of both kinds, from the beginning of the call. */
  lemma FreeLockIsTaken(b: seq<State>, i: nat, t: Tid, try: bool)
    requires Behaviour(b) && i < |b| && t < |b[i].pc| && !b[i].flag
    requires b[i].pc[t] == LoadTid(try) || b[i].pc[t] == SpinLoad(try)
    ensures CanEnd(b[i], t, 1, true)
  {
    hide Behaviour, Inv, Step, EndsWith;
    var s := b[i];
    BehaviourInv(b, i);
    var p := TakesIn(s, t, try);
  }

  lemma TakesIn(s: State, t: Tid, try: bool) returns (p: seq<State>)
    requires Inv(s) && t < |s.pc| && !s.flag && (s.pc[t] == LoadTid(try) || s.pc[t] == SpinLoad(try))
    ensures EndsWith(p, s, t, 1, true)
  {
    hide Inv, EndsWith;
    if s.pc[t] == SpinLoad(try) {
      p := SpinsIn(s, t, try);
    } else {
      FreeFacts(s, t);
      var q := Start(s, t);
      q := Go(q, t);
      var s1 := Last(q);
      assert s1 == At(s, t, SpinLoad(try));
      var r := SpinsIn(s1, t, try);
      p := FirstStep(s, s1, t, r, 1, true);
    }
  }

  /** One step before a run. */
  lemma FirstStep(s: State, s1: State, t: Tid, r: seq<State>, levels: nat, flag: bool) returns (p: seq<State>)
    requires Sized(s) && t < |s.pc| && Step(s, t) == Some(s1) && s1 == At(s, t, s1.pc[t]) && EndsWith(r, s1, t, levels, flag)
    ensures EndsWith(p, s, t, levels, flag)
  {
    hide Step, Inv;
    p := [s] + r;
    assert forall i :: 0 < i < |p| ==> p[i] == r[i - 1];
    assert s1.pc[t := Outside] == s.pc[t := Outside];
  }

  /** The holder of the recursive mutex locks it once more, up to the limit, where nothing changes. */
  lemma HolderLocksAgain(b: seq<State>, i: nat, t: Tid, try: bool)
    requires Behaviour(b) && i < |b| && t < |b[i].pc| && b[i].recursive && b[i].pc[t] == LoadTid(try)
    requires Sized(b[i]) && b[i].held[t] > 0
    ensures CanEnd(b[i], t, OneMore(b[i].held[t]), true)
  {
    hide Behaviour, Inv, Step, EndsWith;
    BehaviourInv(b, i);
    var p := AgainIn(b[i], t, try);
  }

  lemma AgainIn(s: State, t: Tid, try: bool) returns (p: seq<State>)
    requires Inv(s) && Sized(s) && t < |s.pc| && s.recursive && s.pc[t] == LoadTid(try) && s.held[t] > 0
    ensures EndsWith(p, s, t, OneMore(s.held[t]), true)
  {
    Local(s, t);
    hide Inv, Step;
    p := Start(s, t);
    ReadsItsId(s, t, try);
    p := Go(p, t);
    ReadsCount(s, t, try);
    p := Go(p, t);
    WritesCount(s, t, try);
    p := Go(p, t);
    assert s.held[t := s.held[t]] == s.held;
  }

  lemma ReadsItsId(s: State, t: Tid, try: bool)
    requires Sized(s) && t < |s.pc| && s.recursive && s.pc[t] == LoadTid(try) && s.tid == Some(t)
    ensures Step(s, t) == Some(At(s, t, ReadUp(true, try)))
  {
  }

  lemma ReadsCount(s: State, t: Tid, try: bool)
    requires Sized(s) && t < |s.pc|
    ensures Step(At(s, t, ReadUp(true, try)), t) == Some(At(s, t, WriteUp(s.count, true, try)))
  {
    var w := WriteUp(s.count, true, try);
    assert s.pc[t := ReadUp(true, try)][t := w] == s.pc[t := w];
  }

  lemma WritesCount(s: State, t: Tid, try: bool)
    requires Sized(s) && t < |s.pc| && 0 < s.held[t] == s.count < MAX_REC_LOCKS
    ensures var r := Step(At(s, t, WriteUp(s.count, true, try)), t);
      && r.Some? && r.value.pc == s.pc[t := Outside] && r.value.flag == s.flag
      && r.value.held == s.held[t := OneMore(s.held[t])]
  {
    IncExact(s.count);
    assert s.held[t := s.held[t]] == s.held;
  }

  /** `try_lock` on a lock that somebody else holds returns at once and changes nothing. */
  lemma BusyIsRefused(b: seq<State>, i: nat, t: Tid)
    requires Behaviour(b) && i < |b| && t < |b[i].pc| && b[i].pc[t] == SpinLoad(true) && b[i].flag && Sized(b[i])
    ensures exists p :: EndsWith(p, b[i], t, b[i].held[t], true) && Last(p) == At(b[i], t, Outside)
  {
    hide Behaviour, Inv;
    BehaviourInv(b, i);
    var s := b[i];
    var p := Start(s, t);
    p := Go(p, t);
    assert s.held[t := s.held[t]] == s.held;
  }

  /** An unlock gives one level back, and the flag is clear afterwards exactly if it was the last. */
  lemma UnlockGivesBack(b: seq<State>, i: nat, t: Tid)
    requires Behaviour(b) && i < |b| && t < |b[i].pc| && Sized(b[i]) && b[i].held[t] > 0
    requires b[i].pc[t] == if b[i].recursive then ReadDown else StoreEmpty
    ensures CanEnd(b[i], t, b[i].held[t] - 1, b[i].held[t] > 1)
  {
    hide Behaviour, Inv, Step, EndsWith;
    BehaviourInv(b, i);
    var p := UnlockIn(b[i], t);
  }

  lemma UnlockIn(s: State, t: Tid) returns (p: seq<State>)
    requires Inv(s) && Sized(s) && t < |s.pc| && s.held[t] > 0 && s.pc[t] == if s.recursive then ReadDown else StoreEmpty
    ensures EndsWith(p, s, t, s.held[t] - 1, s.held[t] > 1)
  {
    Local(s, t);
    hide Inv, Step;
    p := Start(s, t);
    if s.recursive {
      CountsDown(s, t);
      p := Go(p, t);
      p := Go(p, t);
    }
    if !s.recursive || s.held[t] == 1 {
      var e := Last(p);
      ClearsUp(e, t);
      p := Go(p, t);
      ClearsFlag(Last(p), t);
      p := Go(p, t);
    }
  }

  lemma CountsDown(s: State, t: Tid)
    requires Sized(s) && t < |s.pc| && s.recursive && s.pc[t] == ReadDown && 0 < s.held[t] == s.count
    ensures var s1 := At(s, t, WriteDown(s.count));
      && Step(s, t) == Some(s1) && Step(s1, t).Some?
      && var s2 := Step(s1, t).value;
      && Sized(s2) && s2.recursive && s2.flag == s.flag && s2.held == s.held[t := s.held[t] - 1]
      && s2.pc == s.pc[t := if s.held[t] == 1 then StoreEmpty else Outside]
  {
    IncExact(s.count);
  }

  lemma ClearsUp(s: State, t: Tid)
    requires Sized(s) && t < |s.pc| && s.pc[t] == StoreEmpty && (s.recursive ==> s.held[t] == 0)
    ensures var r := Step(s, t);
      r.Some? && Sized(r.value) && r.value.pc == s.pc[t := ClearFlag] && r.value.held == s.held[t := 0]
  {
    assert s.recursive ==> s.held[t := 0] == s.held;
  }

  lemma ClearsFlag(s: State, t: Tid)
    requires Sized(s) && t < |s.pc| && s.pc[t] == ClearFlag
    ensures Step(s, t) == Some(At(s.(flag := false), t, Outside))
  {
  }
}
