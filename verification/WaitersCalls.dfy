/**
 What a wait and a notification come to when one thread moves alone: a worker parks exactly while it has neither been
 flagged nor reached its deadline, a released one leaves its list, and a notifier flags just those it should.
 */
module WaitersCalls {
  import opened Common
  import opened Waiters

  /** Steps of thread `t` alone, at one point in time. */
  ghost predicate Alone(p: seq<State>, t: Tid) {
    |p| > 0 && forall i :: 0 <= i < |p| - 1 ==> Sized(p[i]) && t < |p[i].pc| && Step(p[i], t) == Some(p[i + 1])
  }

  function Last(p: seq<State>): State
    requires p != []
  {
    p[|p| - 1]
  }

  ghost predicate Comes(s: State, t: Tid, e: State) {
    exists p :: Alone(p, t) && p[0] == s && Last(p) == e
  }

  lemma StaysHere(s: State, t: Tid)
    ensures Comes(s, t, s)
  {
    assert Alone([s], t) && Last([s]) == s;
  }

  /** One step more. */
  lemma Go(s: State, t: Tid, m: State) returns (e: State)
    requires Comes(s, t, m) && Inv(m) && t < |m.pc| && Sized(m) && Step(m, t).Some?
    ensures Comes(s, t, e) && Step(m, t) == Some(e) && Inv(e)
  {
    hide Inv, Step;
    var p :| Alone(p, t) && p[0] == s && Last(p) == m;
    e := Step(m, t).value;
    var q := p + [e];
    assert Alone(q, t) && Last(q) == e;
    StepKeeps(m, t, e);
  }

  // ---------- waits ----------

  lemma OwnDeadline(s: State, t: Tid)
    requires Inv(s) && t < |s.pc| && s.pc[t].Parked?
    ensures s.until[t] == s.pc[t].d && (s.pc[t].w.On? ==> s.pc[t].w.c < |s.lists|)
    ensures s.pc[t].w == Sleep ==> !s.cond[t]
  {
    assert WaitInfoOk(s.clock, s.cond[t], s.until[t], s.pc[t]);
    if s.pc[t].w.On? { assert ListedOn(s.pc[t]) == Some(s.pc[t].w.c); }
  }

  /** A parked worker stays so exactly while it has not been flagged and its deadline is still to come. */
  lemma ParkedUntil(b: seq<State>, i: nat, t: Tid)
    requires Behaviour(b) && i < |b| && t < |b[i].pc| && Sized(b[i]) && b[i].pc[t].Parked?
    ensures Step(b[i], t) == None <==> !b[i].cond[t] && !Past(b[i].clock, b[i].pc[t].d)
  {
    hide Behaviour, Inv;
    BehaviourInv(b, i);
    OwnDeadline(b[i], t);
  }

  function Departed(s: State, t: Tid, c: nat): State
    requires t < |s.pc| && c < |s.lists|
  {
    At(s.(lists := s.lists[c := RemoveNode(s.lists[c], t)]), t, Outside)
  }

  /** A released worker leaves its list, wherever it is in it, and returns; nothing else changes. */
  lemma ReleasedReturns(b: seq<State>, i: nat, t: Tid)
    requires Behaviour(b) && i < |b| && t < |b[i].pc| && Sized(b[i]) && b[i].pc[t].Parked?
    requires b[i].cond[t] || Past(b[i].clock, b[i].pc[t].d)
    ensures b[i].pc[t].w == Sleep ==> Comes(b[i], t, At(b[i], t, Outside))
    ensures b[i].pc[t].w.On? ==> b[i].pc[t].w.c < |b[i].lists|
    ensures b[i].pc[t].w.On? && b[i].locks[b[i].pc[t].w.c] == None ==> Comes(b[i], t, Departed(b[i], t, b[i].pc[t].w.c))
  {
    hide Behaviour, Inv, Comes, RemoveNode;
    BehaviourInv(b, i);
    var s := b[i];
    OwnDeadline(s, t);
    StaysHere(s, t);
    var e := Go(s, t, s);
    if s.pc[t].w == Sleep {
      e := Go(s, t, e);
      assert e == At(s, t, Outside);
    } else {
      var c := s.pc[t].w.c;
      if s.locks[c] == None {
        e := Go(s, t, e);
        e := Go(s, t, e);
        assert e == Departed(s, t, c);
      }
    }
  }

  /** The wait info as `set_wait_info` leaves it, the worker last in the list of what it waits for. */
  function Begun(s: State, t: Tid, w: Op, d: Deadline): State
    requires t < |s.pc| && Sized(s) && (w.On? ==> w.c < |s.lists|)
  {
    var lists := if w.On? then s.lists[w.c := s.lists[w.c] + [t]] else s.lists;
    s.(lists := lists, cond := s.cond[t := false], until := s.until[t := d])
  }

  /** A wait, or a plain sleep, parks the worker, unless its deadline has passed already. */
  lemma WaitParks(b: seq<State>, i: nat, t: Tid)
    requires Behaviour(b) && i < |b| && t < |b[i].pc| && Sized(b[i])
    requires || (b[i].pc[t].Add? && b[i].pc[t].c < |b[i].lists| && b[i].locks[b[i].pc[t].c] == None)
             || (b[i].pc[t].Clear? && b[i].pc[t].w == Sleep)
    ensures var (w, d) := (if b[i].pc[t].Add? then On(b[i].pc[t].c) else Sleep, b[i].pc[t].d);
      Comes(b[i], t, At(Begun(b[i], t, w, d), t, if Past(b[i].clock, d) then Over(w, d) else Parked(w, d)))
  {
    hide Behaviour, Inv, Comes;
    BehaviourInv(b, i);
    var s := b[i];
    var (w, d) := (if s.pc[t].Add? then On(s.pc[t].c) else Sleep, s.pc[t].d);
    StaysHere(s, t);
    var e := s;
    if s.pc[t].Add? { e := Go(s, t, s); }
    assert e.pc[t] == Clear(w, d);
    e := Go(s, t, e);
    e := Go(s, t, e);
    assert e == At(Begun(s, t, w, d), t, Check(w, d));
    e := Go(s, t, e);
    assert e == At(Begun(s, t, w, d), t, if Past(s.clock, d) then Over(w, d) else Parked(w, d));
  }

  // ---------- notifications ----------

  lemma MembersKnown(s: State, c: nat, k: nat)
    requires Inv(s) && c < |s.lists| && k < |s.lists[c]|
    ensures Sized(s) && s.lists[c][k] < |s.pc| && ListedOn(s.pc[s.lists[c][k]]) == Some(c)
  {
    assert ListOk(s.lists[c], c, s.pc) && s.lists[c][k] in s.lists[c];
  }

  lemma {:induction false} Flags(s: State, t: Tid, m: State) returns (e: State)
    requires Comes(s, t, m) && Inv(m) && t < |m.pc| && Sized(m) && m.pc[t].NotifyAt? && m.pc[t].c < |m.lists|
    requires m.pc[t].k <= if m.pc[t].all || m.lists[m.pc[t].c] == [] then |m.lists[m.pc[t].c]| else 1
    ensures var (c, n) := (m.pc[t].c, if m.pc[t].all || m.lists[m.pc[t].c] == [] then |m.lists[m.pc[t].c]| else 1);
      && Comes(s, t, e) && |e.cond| == |m.cond|
      && e == At(m.(cond := e.cond, locks := m.locks[c := None]), t, Outside)
      && forall u :: 0 <= u < |m.cond| ==> e.cond[u] == (m.cond[u] || u in m.lists[c][m.pc[t].k..n])
    decreases |m.lists[m.pc[t].c]| - m.pc[t].k
  {
    hide Inv, Comes;
    var (c, k, all) := (m.pc[t].c, m.pc[t].k, m.pc[t].all);
    var n := if all || m.lists[c] == [] then |m.lists[c]| else 1;
    if k == n {
      e := Go(s, t, m);
    } else {
      MembersKnown(m, c, k);
      var m' := Go(s, t, m);
      assert m' == At(m.(cond := m.cond[m.lists[c][k] := true]), t, NotifyAt(c, k + 1, all));
      e := Flags(s, t, m');
      assert m.lists[c][k..n] == [m.lists[c][k]] + m.lists[c][k + 1..n];
    }
  }

  /** `notify_one` flags the front of the list and `notify_all` every member, nobody else, and the list stays as it is. */
  lemma NotifyFlags(b: seq<State>, i: nat, t: Tid)
    requires Behaviour(b) && i < |b| && t < |b[i].pc| && Sized(b[i]) && b[i].pc[t].NotifyLock?
    requires b[i].pc[t].c < |b[i].lists| && b[i].locks[b[i].pc[t].c] == None
    ensures exists e :: Comes(b[i], t, e) && Notified(b[i], t, e)
  {
    hide Behaviour, Inv, Comes;
    BehaviourInv(b, i);
    var s := b[i];
    var c := s.pc[t].c;
    StaysHere(s, t);
    var m := Go(s, t, s);
    assert m == At(s.(locks := s.locks[c := Some(t)]), t, NotifyAt(c, 0, s.pc[t].all));
    var e := Flags(s, t, m);
    assert e == At(s.(cond := e.cond), t, Outside);
    assert s.lists[c][0..|s.lists[c]|] == s.lists[c];
    assert Notified(s, t, e);
  }

  ghost predicate Notified(s: State, t: Tid, e: State)
    requires Sized(s) && t < |s.pc| && s.pc[t].NotifyLock? && s.pc[t].c < |s.lists|
  {
    var list := s.lists[s.pc[t].c];
    && |e.cond| == |s.cond| && e == At(s.(cond := e.cond), t, Outside)
    && forall u :: 0 <= u < |s.cond| ==>
         e.cond[u] == (s.cond[u] || if s.pc[t].all then u in list else list != [] && u == list[0])
  }
}
