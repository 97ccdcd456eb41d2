/**
 Whom a call of `notify_one` reaches, over all runs of workers, condition variables and notifiers: the call wakes
 somebody new exactly when the flag of the front is down, and the front is the same until it has removed itself.
 */
module NotifyOne {
  import opened Common
  import opened Waiters

  /** The notifier holds the list's spinlock and is about to flag the front of a list with waiters. */
  predicate AboutToFlag(s: State, t: Tid, c: nat) {
    t < |s.pc| && c < |s.lists| && s.pc[t] == NotifyAt(c, 0, false) && s.lists[c] != []
  }

  /** Some flag that was down is up. */
  ghost predicate Raises(s: State, s': State) {
    exists u: Tid :: u < |s.cond| && u < |s'.cond| && !s.cond[u] && s'.cond[u]
  }

  /**
   A call of `notify_one` with waiters in the list raises a flag if and only if the flag of the front is down; it
   touches no other flag and leaves the front in the list.
   */
  lemma RaisesIffFrontDown(b: seq<State>, i: nat, t: Tid, c: nat)
    requires Behaviour(b) && i < |b| && AboutToFlag(b[i], t, c)
    ensures Sized(b[i]) && b[i].lists[c][0] < |b[i].pc| && Step(b[i], t).Some?
    ensures var (s, s') := (b[i], Step(b[i], t).value);
      s'.cond == s.cond[s.lists[c][0] := true] && s'.lists == s.lists && (Raises(s, s') <==> !s.cond[s.lists[c][0]])
  {
    hide Behaviour, Inv;
    BehaviourInv(b, i);
    ListedThere(b[i], c, b[i].lists[c][0]);
    FlagsFront(b[i], t, c);
  }

  lemma FlagsFront(s: State, t: Tid, c: nat)
    requires Inv(s) && AboutToFlag(s, t, c) && s.lists[c][0] < |s.pc|
    ensures Sized(s) && Step(s, t).Some?
    ensures var s' := Step(s, t).value;
      s'.cond == s.cond[s.lists[c][0] := true] && s'.lists == s.lists && (Raises(s, s') <==> !s.cond[s.lists[c][0]])
  {
    hide ListsOk, LocksOk, WaitInfoOk;
    var (f, s') := (s.lists[c][0], Step(s, t).value);
    assert s'.cond == s.cond[f := true];
    assert s'.cond[f];
  }

  /** One step: only the front itself can give up its place. */
  lemma FrontStep(s: State, s': State, c: nat, u: Tid)
    requires Inv(s) && Next(s, s') && c < |s.lists| && s.lists[c] != [] && s.lists[c][0] == u
    requires u < |s'.pc| && ListedOn(s'.pc[u]) == Some(c)
    ensures |s'.lists| == |s.lists| && s'.lists[c] != [] && s'.lists[c][0] == u
  {
    hide ListsOk, LocksOk, WaitInfoOk;
    if t: Tid :| ThreadNext(s, t, s') {
      if s.pc[t].Remove? && t != u && Step(s, t) == Some(s') {
        RemoveBehindFront(s.lists[c], t);
      }
    }
  }

  lemma RemoveBehindFront(list: seq<Tid>, t: Tid)
    requires list != [] && list[0] != t
    ensures RemoveNode(list, t) != [] && RemoveNode(list, t)[0] == list[0]
  {
    assert IndexOf(list, t) > 0;
  }

  /** A waiter that is at the front stays there for as long as it is listed, whatever other waiters and notifiers do. */
  lemma {:induction false} FrontStays(b: seq<State>, i: nat, j: nat, c: nat, u: Tid)
    requires Behaviour(b) && i <= j < |b| && c < |b[i].lists| && b[i].lists[c] != [] && b[i].lists[c][0] == u
    requires forall x :: i <= x <= j ==> u < |b[x].pc| && ListedOn(b[x].pc[u]) == Some(c)
    ensures |b[j].lists| == |b[i].lists| && b[j].lists[c] != [] && b[j].lists[c][0] == u
    decreases j - i
  {
    hide Next, Inv, ListedOn;
    if i == j {
    } else {
      FrontStays(b, i, j - 1, c, u);
      BehaviourInv(b, j - 1);
      assert Next(b[j - 1], b[j - 1 + 1]);
      FrontStep(b[j - 1], b[j], c, u);
    }
  }

  /** ... so a later call reaches another waiter only once the former front has gone through its `remove_waiter`. */
  lemma OtherOnlyAfterRemoval(b: seq<State>, i: nat, j: nat, c: nat, u: Tid)
    requires Behaviour(b) && i <= j < |b| && c < |b[i].lists| && b[i].lists[c] != [] && b[i].lists[c][0] == u
    requires c < |b[j].lists| && b[j].lists[c] != [] && b[j].lists[c][0] != u
    ensures exists x :: i <= x <= j && !(u < |b[x].pc| && ListedOn(b[x].pc[u]) == Some(c))
  {
    hide Behaviour, ListedOn;
    if forall x :: i <= x <= j ==> u < |b[x].pc| && ListedOn(b[x].pc[u]) == Some(c) {
      FrontStays(b, i, j, c, u);
    }
  }

  // ---------- a run with two waiters and two calls ----------

  function Last(b: seq<State>): State
    requires b != []
  {
    b[|b| - 1]
  }

  lemma Extend(b: seq<State>, t: Tid, s': State) returns (b': seq<State>)
    requires Behaviour(b) && ThreadNext(Last(b), t, s')
    ensures Behaviour(b') && b' == b + [s'] && Last(b') == s'
  {
    hide Init;
    b' := b + [s'];
    assert Next(Last(b), s') by { hide ThreadNext; }
    forall i | 0 <= i < |b'| - 1 ensures Next(b'[i], b'[i + 1]) {
      if i < |b| - 1 { assert Next(b[i], b[i + 1]); }
    }
  }

  lemma Call(b: seq<State>, t: Tid, call: Pc) returns (b': seq<State>)
    requires b != [] && Behaviour(b) && Sized(Last(b)) && t < |Last(b).pc| && MayCall(Last(b).pc[t], call)
    ensures Behaviour(b') && b' == b + [Last(b')] && Last(b') == At(Last(b), t, call)
  {
    hide Behaviour, Step;
    b' := Extend(b, t, At(Last(b), t, call));
  }

  lemma Move(b: seq<State>, t: Tid) returns (b': seq<State>)
    requires b != [] && Behaviour(b) && Sized(Last(b)) && t < |Last(b).pc| && Step(Last(b), t).Some?
    ensures Behaviour(b') && b' == b + [Last(b')] && Some(Last(b')) == Step(Last(b), t)
  {
    hide Behaviour, Step, MayCall, At;
    b' := Extend(b, t, Step(Last(b), t).value);
  }

  /** One condition variable, workers 0 and 1 that wait, and worker 2 that notifies. */
  predicate Scene(s: State) {
    |s.lists| == |s.locks| == 1 && s.locks[0] == None && |s.cond| == |s.until| == |s.pc| == 3 && s.pc[2] == Outside
  }

  /** A worker comes to wait without a deadline and parks. */
  lemma Park(b: seq<State>, t: Tid) returns (b': seq<State>)
    requires b != [] && Behaviour(b) && Scene(Last(b)) && t < 2 && Last(b).pc[t] == Outside
    ensures Behaviour(b') && Scene(Last(b')) && b <= b'
    ensures Last(b').lists == [Last(b).lists[0] + [t]] && Last(b').cond == Last(b).cond[t := false]
    ensures Last(b').pc == Last(b).pc[t := Parked(On(0), None)]
  {
    hide Behaviour;
    b' := Call(b, t, Add(0, None));
    b' := Move(b', t);
    b' := Move(b', t);
    b' := Move(b', t);
    b' := Move(b', t);
  }

  /** Worker 2 calls `notify_one`; `at` is the moment of its flag step. */
  lemma Notify(b: seq<State>) returns (b': seq<State>, at: nat)
    requires b != [] && Behaviour(b) && Scene(Last(b)) && Last(b).lists[0] != [] && Last(b).lists[0][0] < 2
    ensures Behaviour(b') && Scene(Last(b')) && b <= b' && |b| <= at < |b'| && AboutToFlag(b'[at], 2, 0)
    ensures b'[at].lists == Last(b).lists
    ensures Last(b').lists == Last(b).lists && Last(b').pc == Last(b).pc
    ensures Last(b').cond == Last(b).cond[Last(b).lists[0][0] := true]
  {
    hide Behaviour;
    b' := Call(b, 2, NotifyLock(0, false));
    b' := Move(b', 2);
    at := |b'| - 1;
    b' := Move(b', 2);
    b' := Move(b', 2);
  }

  /** Two waiters, two calls, and the second waiter is left parked with its flag down. */
  lemma TwoCallsWakeOne() returns (b: seq<State>, first: nat, second: nat)
    ensures Behaviour(b) && first < second < |b| && AboutToFlag(b[first], 2, 0) && AboutToFlag(b[second], 2, 0)
    ensures b[first].lists[0] == [0, 1] && Last(b).lists == [[0, 1]]
    ensures Last(b).pc == [Parked(On(0), None), Parked(On(0), None), Outside] && Last(b).cond == [true, false, false]
  {
    var s := State(0, [[]], [None], [false, false, false], [None, None, None], [Outside, Outside, Outside]);
    b := [s];
    hide Behaviour, AboutToFlag;
    b := Park(b, 0);
    assert s.lists[0] + [0] == [0];
    b := Park(b, 1);
    assert [0] + [1] == [0, 1];
    var b0 := b;
    b, first := Notify(b0);
    var b1 := b;
    b, second := Notify(b1);
    assert b[first] == b1[first];
  }
}
