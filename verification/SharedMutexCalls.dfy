/**
 What each call on the reader/writer lock comes to when its thread is the only one that moves: who gets in, who sleeps
 at which gate, who gives up at a deadline with the write request taken back, and whom an unlock notifies.
 */
module SharedMutexCalls {
  import opened Common
  import opened CondVarWait
  import opened SharedMutexState
  import opened SharedMutex
  import opened SharedMutexProof

  /** Steps of thread `t` alone; `late` tells whether its deadline has passed. */
  ghost predicate Alone(p: seq<State>, t: Tid, late: bool) {
    |p| > 0 && forall i :: 0 <= i < |p| - 1 ==> Sized(p[i]) && t < |p[i].pc| && Step(p[i], t, late) == Some(p[i + 1])
  }

  function Last(p: seq<State>): State
    requires p != []
  {
    p[|p| - 1]
  }

  /** The steps of `t` alone lead from one state to the other. */
  ghost predicate Comes(s: State, t: Tid, late: bool, e: State) {
    exists p :: Alone(p, t, late) && p[0] == s && Last(p) == e
  }

  lemma StaysHere(s: State, t: Tid, late: bool)
    ensures Comes(s, t, late, s)
  {
    assert Alone([s], t, late) && Last([s]) == s;
  }

  /** One step more. */
  lemma Go(s: State, t: Tid, late: bool, m: State) returns (e: State)
    requires Comes(s, t, late, m) && Inv(m) && t < |m.pc| && Sized(m) && Step(m, t, late).Some?
    ensures Comes(s, t, late, e) && Step(m, t, late) == Some(e) && Inv(e)
  {
    hide Inv, Step;
    var p :| Alone(p, t, late) && p[0] == s && Last(p) == m;
    e := Step(m, t, late).value;
    var q := p + [e];
    assert Alone(q, t, late) && Last(q) == e;
    StepKeeps(m, t, late, e);
  }

  // ---------- what an acquisition comes to ----------

  /** Asleep at a gate as the last in its list, the flag down and the internal mutex free. */
  function Asleep(s: State, t: Tid, g: Gate, k: Kind): State
    requires t < |s.pc| && Sized(s)
  {
    At(WithList(s, g, ListOf(s, g) + [t]).(cond := s.cond[t := false], mutex := None), t, AtGate(g, k, Sleeping))
  }

  /** The word has one more reader, or the write bit up, and is otherwise as before. */
  predicate OneReaderMore(w: Word, w': Word) {
    Readers(w') == Readers(w) + 1 && HasWrite(w') == HasWrite(w)
  }

  predicate Marked(w: Word, w': Word) {
    Readers(w') == Readers(w) && HasWrite(w')
  }

  predicate Unmarked(w: Word, w': Word) {
    Readers(w') == Readers(w) && !HasWrite(w')
  }

  /** A writer past the first gate: in, asleep behind the readers, or out again with all waiters of gate 1 flagged. */
  ghost predicate Second(s: State, t: Tid, k: Kind, late: bool, e: State)
    requires t < |s.pc| && Sized(s)
  {
    if !HasReaders(s.word) then Marked(s.word, e.word) && e == At(s.(word := e.word, mutex := None), t, Writing)
    else if k.timed && late then
      && Unmarked(s.word, e.word) && |e.cond| == |s.cond|
      && e == At(s.(word := e.word, mutex := None, cond := e.cond), t, Outside)
      && forall u :: 0 <= u < |s.cond| ==> e.cond[u] == (s.cond[u] || u in s.gate1)
    else Marked(s.word, e.word) && e == Asleep(s.(word := e.word), t, G2, k)
  }

  /** A caller at the first gate: stopped there, or on to the readers or to the second gate. */
  ghost predicate First(s: State, t: Tid, k: Kind, late: bool, e: State)
    requires t < |s.pc| && Sized(s)
  {
    if HasWrite(s.word) || (!k.write && MaxReaders(s.word)) then
      e == if k.timed && late then At(s.(mutex := None), t, Outside) else Asleep(s, t, G1, k)
    else if k.write then Second(s, t, k, late, e)
    else OneReaderMore(s.word, e.word) && e == At(s.(word := e.word, mutex := None), t, Reading)
  }

  lemma FallsAsleep(s: State, t: Tid, late: bool, m: State, g: Gate, k: Kind)
    requires Comes(s, t, late, m) && Inv(m) && t < |m.pc| && Sized(m) && m.pc[t] == AtGate(g, k, Eval)
    requires !Open(g, k, m.word) && !(k.timed && late)
    ensures Comes(s, t, late, Asleep(m, t, g, k))
  {
    hide Inv, Comes, Open;
    var e := Go(s, t, late, m);
    assert e == At(m, t, AtGate(g, k, Add));
    e := Go(s, t, late, e);
    var m' := WithList(m, g, ListOf(m, g) + [t]);
    assert e == At(m', t, AtGate(g, k, Clear));
    e := Go(s, t, late, e);
    assert e == At(m'.(cond := m.cond[t := false]), t, AtGate(g, k, Release));
    e := Go(s, t, late, e);
    assert e == Asleep(m, t, g, k);
  }

  /** The evaluation at the second gate, or the last one there after a timeout. */
  lemma SecondGate(s: State, t: Tid, late: bool, m: State, k: Kind, ph: Phase) returns (e: State)
    requires Comes(s, t, late, m) && Inv(m) && t < |m.pc| && Sized(m) && m.pc[t] == AtGate(G2, k, ph)
    requires ph == Eval || (ph == CondVarWait.Last && k.timed && late)
    ensures Comes(s, t, late, e) && Second(m, t, k, late, e)
  {
    hide Inv, Comes, Second, Open, Asleep, FlagAll;
    WriteMarked(m, t);
    AtSecond(m, t, k, late);
    if !HasReaders(m.word) {
      e := Go(s, t, late, m);
      PassesIn(m, t, k, ph, late, e);
    } else if k.timed && late {
      if ph == Eval {
        e := Go(s, t, late, m);
        assert e == At(m, t, AtGate(G2, k, CondVarWait.Last));
        e := RollsBack(s, t, late, e, k);
      } else {
        e := RollsBack(s, t, late, m, k);
      }
      assert e == At(m.(word := UnsetWrite(m.word), mutex := None, cond := FlagAll(m.gate1, m.cond)), t, Outside);
    } else {
      FallsAsleep(s, t, late, m, G2, k);
      e := Asleep(m, t, G2, k);
    }
  }

  lemma PassesIn(m: State, t: Tid, k: Kind, ph: Phase, late: bool, e: State)
    requires t < |m.pc| && Sized(m) && m.pc[t] == AtGate(G2, k, ph) && (ph == Eval || ph == CondVarWait.Last)
    requires !HasReaders(m.word) && HasWrite(m.word) && Step(m, t, late) == Some(e)
    ensures e == At(m.(mutex := None), t, Writing)
  {
  }

  /** The three outcomes behind the first gate. */
  lemma AtSecond(m: State, t: Tid, k: Kind, late: bool)
    requires t < |m.pc| && Sized(m) && HasWrite(m.word)
    ensures Open(G2, k, m.word) == !HasReaders(m.word)
    ensures !HasReaders(m.word) ==> Second(m, t, k, late, At(m.(mutex := None), t, Writing))
    ensures HasReaders(m.word) && k.timed && late ==>
      Second(m, t, k, late, At(m.(word := UnsetWrite(m.word), mutex := None, cond := FlagAll(m.gate1, m.cond)), t, Outside))
    ensures HasReaders(m.word) && !(k.timed && late) ==> Second(m, t, k, late, Asleep(m, t, G2, k))
  {
    WriteOpsKeepReaders(m.word);
  }

  /** The write request is taken back, and those it has kept out are told. */
  lemma RollsBack(s: State, t: Tid, late: bool, m: State, k: Kind) returns (e: State)
    requires Comes(s, t, late, m) && Inv(m) && t < |m.pc| && Sized(m) && m.pc[t] == AtGate(G2, k, CondVarWait.Last)
    requires HasReaders(m.word)
    ensures Comes(s, t, late, e)
    ensures e == At(m.(word := UnsetWrite(m.word), mutex := None, cond := FlagAll(m.gate1, m.cond)), t, Outside)
  {
    hide Inv, Comes;
    e := Go(s, t, late, m);
    assert e == At(m.(word := UnsetWrite(m.word), mutex := None), t, Notify(AllAtGate1));
    e := Go(s, t, late, e);
  }

  lemma WriteMarked(s: State, t: Tid)
    requires Inv(s) && t < |s.pc| && s.pc[t].AtGate? && s.pc[t].g == G2
    ensures HasWrite(s.word)
  {
    assert Entered(s.pc[t]);
  }

  lemma FirstGate(s: State, t: Tid, late: bool, m: State, k: Kind, ph: Phase) returns (e: State)
    requires Comes(s, t, late, m) && Inv(m) && t < |m.pc| && Sized(m) && m.pc[t] == AtGate(G1, k, ph)
    requires ph == Eval || (ph == CondVarWait.Last && k.timed && late)
    ensures Comes(s, t, late, e) && First(m, t, k, late, e)
  {
    hide Inv, Comes, Second;
    WriteOpsKeepReaders(m.word);
    IncExact(m.word);
    if !Open(G1, k, m.word) {
      if k.timed && late {
        e := m;
        if ph == Eval {
          e := Go(s, t, late, e);
          assert e == At(m, t, AtGate(G1, k, CondVarWait.Last));
        }
        e := Go(s, t, late, e);
      } else {
        FallsAsleep(s, t, late, m, G1, k);
        e := Asleep(m, t, G1, k);
      }
    } else {
      e := Go(s, t, late, m);
      if k.write {
        var m' := e;
        assert m' == At(m.(word := SetWrite(m.word)), t, AtGate(G2, k, Eval));
        e := SecondGate(s, t, late, m', k, Eval);
        SecondOf(m, m', t, k, late, e);
      }
    }
  }

  lemma SecondOf(m: State, m': State, t: Tid, k: Kind, late: bool, e: State)
    requires t < |m.pc| && Sized(m) && Marked(m.word, m'.word) && m' == At(m.(word := m'.word), t, AtGate(G2, k, Eval))
    requires Second(m', t, k, late, e)
    ensures Second(m, t, k, late, e)
  {
  }

  /**
   A call of `lock`, `lock_shared` or a timed variant, its deadline passed or not, in any reachable state with the
   internal mutex free.
   */
  lemma EntersOrWaits(b: seq<State>, i: nat, t: Tid, late: bool)
    requires Behaviour(b) && i < |b| && t < |b[i].pc| && Sized(b[i]) && b[i].pc[t].Enter? && b[i].mutex == None
    ensures exists e :: Comes(b[i], t, late, e) && First(b[i], t, b[i].pc[t].k, late, e)
  {
    hide Behaviour, Inv, Comes, First;
    BehaviourInv(b, i);
    var (s, k) := (b[i], b[i].pc[t].k);
    StaysHere(s, t, late);
    var m := Go(s, t, late, s);
    assert m == At(s.(mutex := Some(t)), t, AtGate(G1, k, Eval));
    var e := FirstGate(s, t, late, m, k, Eval);
    FirstOf(s, m, t, k, late, e);
  }

  /** Where the thread stood, and whether it held the internal mutex, makes no difference. */
  lemma FirstOf(s: State, m: State, t: Tid, k: Kind, late: bool, e: State)
    requires t < |s.pc| && Sized(s) && |m.pc| == |s.pc| && m == At(s.(mutex := m.mutex), t, m.pc[t]) && First(m, t, k, late, e)
    ensures First(s, t, k, late, e)
  {
  }

  lemma SecondSame(s: State, m: State, t: Tid, k: Kind, late: bool, e: State)
    requires t < |s.pc| && Sized(s) && |m.pc| == |s.pc| && m == At(s.(mutex := m.mutex), t, m.pc[t]) && Second(m, t, k, late, e)
    ensures Second(s, t, k, late, e)
  {
  }

  /** Out of its sleep and out of the list, the internal mutex taken again. */
  lemma WakesUp(s: State, t: Tid, late: bool) returns (e: State)
    requires Inv(s) && t < |s.pc| && Sized(s) && s.mutex == None
    requires s.pc[t].AtGate? && s.pc[t].ph == Sleeping && (s.cond[t] || (s.pc[t].k.timed && late))
    ensures var (g, k) := (s.pc[t].g, s.pc[t].k);
      && Comes(s, t, late, e) && Inv(e)
      && e == At(WithList(s, g, RemoveNode(ListOf(s, g), t)).(mutex := Some(t)), t,
                 AtGate(g, k, if k.timed && late then CondVarWait.Last else Eval))
  {
    hide Inv, Comes, RemoveNode;
    var (g, k) := (s.pc[t].g, s.pc[t].k);
    StaysHere(s, t, late);
    e := Go(s, t, late, s);
    assert e == At(s, t, AtGate(g, k, Relock));
    e := Go(s, t, late, e);
    assert e == At(s.(mutex := Some(t)), t, AtGate(g, k, Remove));
    e := Go(s, t, late, e);
  }

  /** A sleeper that has been flagged, or whose deadline has passed, leaves its list and tries again from its gate. */
  lemma SleeperGoesOn(b: seq<State>, i: nat, t: Tid, late: bool)
    requires Behaviour(b) && i < |b| && t < |b[i].pc| && Sized(b[i]) && b[i].mutex == None
    requires b[i].pc[t].AtGate? && b[i].pc[t].ph == Sleeping && (b[i].cond[t] || (b[i].pc[t].k.timed && late))
    ensures var (g, k) := (b[i].pc[t].g, b[i].pc[t].k);
      exists e :: Comes(b[i], t, late, e) && TriedAgain(WithList(b[i], g, RemoveNode(ListOf(b[i], g), t)), t, g, k, late, e)
  {
    hide Behaviour, Inv, Comes, First, Second, RemoveNode;
    BehaviourInv(b, i);
    var (s, g, k) := (b[i], b[i].pc[t].g, b[i].pc[t].k);
    var m := WakesUp(s, t, late);
    var s' := WithList(s, g, RemoveNode(ListOf(s, g), t));
    if g == G1 {
      var e := FirstGate(s, t, late, m, k, if k.timed && late then CondVarWait.Last else Eval);
      FirstOf(s', m, t, k, late, e);
      assert TriedAgain(s', t, g, k, late, e);
    } else {
      var e := SecondGate(s, t, late, m, k, if k.timed && late then CondVarWait.Last else Eval);
      SecondSame(s', m, t, k, late, e);
      assert TriedAgain(s', t, g, k, late, e);
    }
  }

  ghost predicate TriedAgain(s: State, t: Tid, g: Gate, k: Kind, late: bool, e: State) {
    t < |s.pc| && Sized(s) && if g == G1 then First(s, t, k, late, e) else Second(s, t, k, late, e)
  }

  // ---------- try and unlock ----------

  /** `try_lock` gets in exactly on an empty word, `try_lock_shared` exactly with no writer and room left. */
  lemma TriesOnce(b: seq<State>, i: nat, t: Tid)
    requires Behaviour(b) && i < |b| && t < |b[i].pc| && Sized(b[i]) && b[i].mutex == None
    requires b[i].pc[t] == TryWrite || b[i].pc[t] == TryRead
    ensures var (s, write) := (b[i], b[i].pc[t] == TryWrite);
      exists e :: Comes(s, t, false, e) &&
        if write && s.word == 0 then Marked(s.word, e.word) && e == At(s.(word := e.word), t, Writing)
        else if !write && !HasWrite(s.word) && !MaxReaders(s.word)
        then OneReaderMore(s.word, e.word) && e == At(s.(word := e.word), t, Reading)
        else e == At(s, t, Outside)
  {
    hide Behaviour, Inv, Comes;
    BehaviourInv(b, i);
    var s := b[i];
    WriteOpsKeepReaders(s.word);
    IncExact(s.word);
    StaysHere(s, t, false);
    var e := Go(s, t, false, s);
  }

  /** `unlock` takes the write bit back and flags all waiters of the first gate, and nobody else. */
  lemma WriterLeaves(b: seq<State>, i: nat, t: Tid)
    requires Behaviour(b) && i < |b| && t < |b[i].pc| && Sized(b[i]) && b[i].mutex == None && b[i].pc[t] == EndWrite
    ensures exists e :: Comes(b[i], t, false, e) && Left(b[i], t, e) && Unmarked(b[i].word, e.word)
                     && forall u :: 0 <= u < |b[i].cond| ==> e.cond[u] == (b[i].cond[u] || u in b[i].gate1)
  {
    hide Behaviour, Inv, Comes;
    BehaviourInv(b, i);
    var s := b[i];
    WriteOpsKeepReaders(s.word);
    StaysHere(s, t, false);
    var e := Go(s, t, false, s);
    assert e == At(s.(word := UnsetWrite(s.word)), t, Notify(AllAtGate1));
    e := Go(s, t, false, e);
    assert e == At(s.(word := UnsetWrite(s.word), cond := FlagAll(s.gate1, s.cond)), t, Outside);
  }

  ghost predicate Left(s: State, t: Tid, e: State)
    requires t < |s.pc|
  {
    |e.cond| == |s.cond| && e == At(s.(word := e.word, cond := e.cond), t, Outside)
  }

  /** `unlock_shared` takes one reader off; the last one flags the writer at the second gate, if one has entered. */
  lemma ReaderLeaves(b: seq<State>, i: nat, t: Tid)
    requires Behaviour(b) && i < |b| && t < |b[i].pc| && Sized(b[i]) && b[i].mutex == None && b[i].pc[t] == EndRead
    ensures exists e :: Comes(b[i], t, false, e) && Left(b[i], t, e) && ReaderGone(b[i], e)
  {
    hide Behaviour, Inv, Comes;
    BehaviourInv(b, i);
    var s := b[i];
    ReaderFacts(s, t);
    DecExact(s.word);
    StaysHere(s, t, false);
    var e := Go(s, t, false, s);
    if e.pc[t] != Outside {
      assert e == At(s.(word := e.word), t, Notify(OneAtGate2));
      var e' := Go(s, t, false, e);
      assert e' == At(s.(word := e.word, cond := FlagFront(s.gate2, s.cond)), t, Outside);
      assert ReaderGone(s, e');
    } else {
      assert ReaderGone(s, e);
    }
  }

  ghost predicate ReaderGone(s: State, e: State) {
    && Readers(e.word) == Readers(s.word) - 1 && HasWrite(e.word) == HasWrite(s.word) && |e.cond| == |s.cond|
    && forall u :: 0 <= u < |s.cond| ==>
         e.cond[u] == (s.cond[u] || (HasWrite(s.word) && Readers(s.word) == 1 && s.gate2 != [] && u == s.gate2[0]))
  }
}
