/** Every step of the reader/writer lock keeps its invariant. */
module SharedMutexProof {
  import opened Common
  import opened CondVarWait
  import opened SharedMutexState
  import opened SharedMutex

  lemma {:induction false} CountSharesUpdate(pc: seq<Pc>, t: Tid, p: Pc)
    requires t < |pc|
    ensures CountShares(pc[t := p]) == CountShares(pc) - (if Shares(pc[t]) then 1 else 0) + (if Shares(p) then 1 else 0)
  {
    var pc' := pc[t := p];
    if t == 0 {
      assert pc'[1..] == pc[1..];
    } else {
      CountSharesUpdate(pc[1..], t - 1, p);
      assert pc'[1..] == pc[1..][t - 1 := p];
    }
  }

  lemma {:induction false} CountSharesBound(pc: seq<Pc>)
    ensures CountShares(pc) <= |pc|
    ensures CountShares(pc) == 0 ==> forall t :: 0 <= t < |pc| ==> !Shares(pc[t])
  {
    if pc == [] {
    } else {
      CountSharesBound(pc[1..]);
    }
  }

  /** Only thread `t` moved. */
  predicate Moved(s: State, s': State, t: Tid) {
    t < |s.pc| && |s'.pc| == |s.pc| && s'.pc == s.pc[t := s'.pc[t]] && |s.cond| == |s'.cond| == |s.pc|
  }

  lemma MutexKeeps(s: State, s': State, t: Tid)
    requires Moved(s, s', t) && MutexOk(s)
    requires || (s'.mutex == s.mutex && Holds(s'.pc[t]) == Holds(s.pc[t]))
             || (s.mutex == None && s'.mutex == Some(t) && Holds(s'.pc[t]))
             || (s.mutex == Some(t) && s'.mutex == None && !Holds(s'.pc[t]))
    ensures MutexOk(s')
  {
    forall u: Tid | u < |s'.pc| ensures s'.mutex == Some(u) <==> Holds(s'.pc[u]) {
      assert s.mutex == Some(u) <==> Holds(s.pc[u]);
    }
  }

  lemma ListKeeps(s: State, s': State, t: Tid, g: Gate)
    requires Moved(s, s', t) && ListOk(s, g)
    requires || (ListOf(s', g) == ListOf(s, g) && Listed(s'.pc[t], g) == Listed(s.pc[t], g))
             || (ListOf(s', g) == ListOf(s, g) + [t] && Listed(s'.pc[t], g) && !Listed(s.pc[t], g))
             || (ListOf(s', g) == RemoveNode(ListOf(s, g), t) && !Listed(s'.pc[t], g))
    ensures ListOk(s', g)
  {
    hide Listed;
    var list := ListOf(s, g);
    if ListOf(s', g) == list + [t] && Listed(s'.pc[t], g) && !Listed(s.pc[t], g) {
      AppendFacts(list, t);
    } else if ListOf(s', g) == RemoveNode(list, t) && !Listed(s'.pc[t], g) {
      RemoveNodeFacts(list, t);
    }
  }

  lemma SomeEnteredKeeps(s: State, s': State, t: Tid)
    requires Moved(s, s', t)
    ensures Entered(s'.pc[t]) ==> SomeEntered(s')
    ensures SomeEntered(s) && (Entered(s.pc[t]) ==> Entered(s'.pc[t])) ==> SomeEntered(s')
    ensures SomeEntered(s') && !Entered(s'.pc[t]) ==> SomeEntered(s)
  {
    hide Entered;
    if SomeEntered(s) {
      var u: Tid :| u < |s.pc| && Entered(s.pc[u]);
      if u != t { assert Entered(s'.pc[u]); }
    }
    if SomeEntered(s') && !Entered(s'.pc[t]) {
      var u: Tid :| u < |s'.pc| && Entered(s'.pc[u]);
      assert Entered(s.pc[u]);
    }
  }

  /** The write request comes, goes, or stays where it is. */
  lemma WriterKeeps(s: State, s': State, t: Tid)
    requires Moved(s, s', t) && WriterOk(s)
    requires || (Entered(s'.pc[t]) == Entered(s.pc[t]) && HasWrite(s'.word) == HasWrite(s.word))
             || (!HasWrite(s.word) && HasWrite(s'.word) && Entered(s'.pc[t]))
             || (Entered(s.pc[t]) && !Entered(s'.pc[t]) && !HasWrite(s'.word))
    requires Readers(s'.word) <= Readers(s.word) || !HasWrite(s'.word)
    requires s'.pc[t] == Writing && s.pc[t] != Writing ==> Readers(s'.word) == 0
    requires s'.pc[t] == EndWrite ==> s.pc[t] == Writing
    ensures WriterOk(s')
  {
    SomeEnteredKeeps(s, s', t);
    if !HasWrite(s'.word) {
      if !SomeEntered(s) { NoneEntered(s); }
      assert forall u: Tid :: u < |s'.pc| ==> !Entered(s'.pc[u]);
      NoneEntered(s');
    } else if Entered(s'.pc[t]) && !Entered(s.pc[t]) {
      NoneEntered(s);
    }
  }

  lemma NoneEntered(s: State)
    requires !SomeEntered(s)
    ensures forall u: Tid :: u < |s.pc| ==> !Entered(s.pc[u]) && s.pc[u] != Writing && s.pc[u] != EndWrite
  {
  }

  lemma CommittedKeeps(s: State, s': State, t: Tid)
    requires Moved(s, s', t) && CommittedOk(s) && MutexOk(s)
    requires s'.word == s.word || s.mutex == None || s.mutex == Some(t)
    requires s'.pc[t].AtGate? && Committed(s'.pc[t].ph) ==> !Open(s'.pc[t].g, s'.pc[t].k, s'.word)
    ensures CommittedOk(s')
  {
    hide Open;
    forall u: Tid | u < |s'.pc| && s'.pc[u].AtGate? && Committed(s'.pc[u].ph)
      ensures !Open(s'.pc[u].g, s'.pc[u].k, s'.word)
    {
      if u != t {
        assert Holds(s.pc[u]);
        assert s.mutex == Some(u);
      }
    }
  }

  lemma ComingKeeps(s: State, s': State, t: Tid, what: Notice)
    requires Moved(s, s', t)
    ensures s'.pc[t] == Notify(what) ==> Coming(s', what)
    ensures Coming(s, what) && s.pc[t] != Notify(what) ==> Coming(s', what)
  {
    if Coming(s, what) {
      var u: Tid :| u < |s.pc| && s.pc[u] == Notify(what);
      if u != t { assert s'.pc[u] == Notify(what); }
    }
  }

  /** Nobody falls asleep past an open gate, and an opening gate comes with its notification. */
  lemma HandOffKeeps(s: State, s': State, t: Tid)
    requires Moved(s, s', t) && HandOffOk(s) && s'.cond == s.cond[t := s'.cond[t]]
    requires s.pc[t] != Notify(AllAtGate1) && s.pc[t] != Notify(OneAtGate2)
    requires HasWrite(s.word) && !HasWrite(s'.word) ==> s'.pc[t] == Notify(AllAtGate1)
    requires HasReaders(s.word) && !HasReaders(s'.word) ==>
      s'.pc[t] == Notify(OneAtGate2) || forall u: Tid :: u < |s'.pc| ==> !Unsignalled(s', u, G2)
    requires s'.pc[t].AtGate? && s'.pc[t].ph == Sleeping ==>
      (s'.pc[t].g == G1 ==> HasWrite(s'.word)) && (s'.pc[t].g == G2 ==> HasReaders(s'.word))
    ensures HandOffOk(s')
  {
    ComingKeeps(s, s', t, AllAtGate1);
    ComingKeeps(s, s', t, OneAtGate2);
    hide Coming, HasWrite, HasReaders;
    forall u: Tid | u < |s'.pc| && Unsignalled(s', u, G1) && !HasWrite(s'.word) ensures Coming(s', AllAtGate1) {
      if u != t { assert Unsignalled(s, u, G1); }
    }
    forall u: Tid | u < |s'.pc| && Unsignalled(s', u, G2) && !HasReaders(s'.word) ensures Coming(s', OneAtGate2) {
      if u != t { assert Unsignalled(s, u, G2); }
    }
  }

  /** Everything but the hand-off, for a step that moves thread `t`. */
  lemma FrameKeeps(s: State, s': State, t: Tid)
    requires Inv(s) && Moved(s, s', t)
    requires || (s'.mutex == s.mutex && Holds(s'.pc[t]) == Holds(s.pc[t]))
             || (s.mutex == None && s'.mutex == Some(t) && Holds(s'.pc[t]))
             || (s.mutex == Some(t) && s'.mutex == None && !Holds(s'.pc[t]))
    requires forall g ::
             || (ListOf(s', g) == ListOf(s, g) && Listed(s'.pc[t], g) == Listed(s.pc[t], g))
             || (ListOf(s', g) == ListOf(s, g) + [t] && Listed(s'.pc[t], g) && !Listed(s.pc[t], g))
             || (ListOf(s', g) == RemoveNode(ListOf(s, g), t) && !Listed(s'.pc[t], g))
    requires s'.word == s.word || s.mutex == None || s.mutex == Some(t)
    requires s'.pc[t].AtGate? && Committed(s'.pc[t].ph) ==> !Open(s'.pc[t].g, s'.pc[t].k, s'.word)
    requires Readers(s'.word) == Readers(s.word) - (if Shares(s.pc[t]) then 1 else 0) + (if Shares(s'.pc[t]) then 1 else 0)
    ensures MutexOk(s') && ListOk(s', G1) && ListOk(s', G2) && CommittedOk(s') && Readers(s'.word) == CountShares(s'.pc)
  {
    hide MutexOk, ListOk, CommittedOk, HandOffOk, WriterOk, CountShares, Listed, Holds, Shares;
    MutexKeeps(s, s', t);
    ListKeeps(s, s', t, G1);
    ListKeeps(s, s', t, G2);
    CommittedKeeps(s, s', t);
    CountSharesUpdate(s.pc, t, s'.pc[t]);
  }

  lemma CallKeeps(s: State, t: Tid, call: Pc)
    requires Inv(s) && t < |s.pc| && MayCall(s.pc[t], call)
    ensures Inv(At(s, t, call))
  {
    hide MutexOk, ListOk, CommittedOk, HandOffOk, WriterOk, CountShares;
    var s' := At(s, t, call);
    FrameKeeps(s, s', t);
    WriterKeeps(s, s', t);
    HandOffKeeps(s, s', t);
  }

  lemma GateFacts(s: State, t: Tid)
    requires Inv(s) && t < |s.pc| && s.pc[t].AtGate?
    ensures HasMutex(s.pc[t].ph) <==> s.mutex == Some(t)
    ensures Committed(s.pc[t].ph) ==> !Open(s.pc[t].g, s.pc[t].k, s.word)
    ensures !MaxReaders(s.word)
    ensures s.pc[t].g == G2 ==> HasWrite(s.word)
  {
    CountSharesBound(s.pc);
    if s.pc[t].g == G2 { assert Entered(s.pc[t]); }
  }

  lemma PassKeeps(s: State, t: Tid, g: Gate, k: Kind)
    requires Inv(s) && t < |s.pc| && (s.pc[t] == AtGate(g, k, Eval) || s.pc[t] == AtGate(g, k, Last)) && Open(g, k, s.word)
    ensures Inv(Pass(s, t, g, k))
  {
    hide MutexOk, ListOk, CommittedOk, HandOffOk, WriterOk, CountShares;
    var s' := Pass(s, t, g, k);
    GateFacts(s, t);
    WriteOpsKeepReaders(s.word);
    IncExact(s.word);
    FrameKeeps(s, s', t);
    WriterKeeps(s, s', t);
    HandOffKeeps(s, s', t);
  }

  lemma FailKeeps(s: State, t: Tid, g: Gate, k: Kind)
    requires Inv(s) && t < |s.pc| && s.pc[t] == AtGate(g, k, Last) && !Open(g, k, s.word)
    ensures Inv(Fail(s, t, g))
  {
    hide MutexOk, ListOk, CommittedOk, HandOffOk, WriterOk, CountShares;
    var s' := Fail(s, t, g);
    GateFacts(s, t);
    WriteOpsKeepReaders(s.word);
    FrameKeeps(s, s', t);
    WriterKeeps(s, s', t);
    HandOffKeeps(s, s', t);
  }

  /** A step that neither passes nor fails: the thread moves through the wait loop, the word untouched. */
  predicate WaitMove(s: State, t: Tid, p: Pc, s': State)
    requires t < |s.pc| && Sized(s) && s.pc[t].AtGate?
  {
    var (g, ph) := (s.pc[t].g, s.pc[t].ph);
    p.AtGate? && p.g == g && p.k == s.pc[t].k &&
    match ph
    case Eval => (p.ph == Last || p.ph == Add) && s' == At(s, t, p)
    case Add => p.ph == Clear && s' == At(WithList(s, g, ListOf(s, g) + [t]), t, p)
    case Clear => p.ph == Release && s' == At(s.(cond := s.cond[t := false]), t, p)
    case Release => p.ph == Sleeping && s' == At(s.(mutex := None), t, p)
    case Sleeping => p.ph == Relock && s' == At(s, t, p)
    case Relock => p.ph == Remove && s.mutex == None && s' == At(s.(mutex := Some(t)), t, p)
    case Remove => (p.ph == Last || p.ph == Eval) && s' == At(WithList(s, g, RemoveNode(ListOf(s, g), t)), t, p)
    case Last => false
  }

  lemma WaitMoves(s: State, t: Tid, late: bool, s': State)
    requires t < |s.pc| && Sized(s) && s.pc[t].AtGate? && GateStep(s, t, late) == Some(s')
    requires s.pc[t].ph != Last && (s.pc[t].ph == Eval ==> !Open(s.pc[t].g, s.pc[t].k, s.word))
    ensures |s'.pc| == |s.pc| && WaitMove(s, t, s'.pc[t], s')
  {
    hide Open, RemoveNode, Pass, Fail;
  }

  lemma WaitStepKeeps(s: State, t: Tid, s': State)
    requires Inv(s) && t < |s.pc| && s.pc[t].AtGate? && |s'.pc| == |s.pc| && WaitMove(s, t, s'.pc[t], s')
    requires s.pc[t].ph == Eval ==> !Open(s.pc[t].g, s.pc[t].k, s.word)
    ensures Inv(s')
  {
    hide MutexOk, ListOk, CommittedOk, HandOffOk, WriterOk, CountShares, Open, RemoveNode;
    GateFacts(s, t);
    SleepClosed(s, t);
    assert s'.word == s.word;
    FrameKeeps(s, s', t);
    WriterKeeps(s, s', t);
    HandOffKeeps(s, s', t);
  }

  lemma SizedFacts(s: State)
    requires Inv(s)
    ensures Sized(s)
  {
  }

  lemma GateStepKeeps(s: State, t: Tid, late: bool, s': State)
    requires Inv(s) && t < |s.pc| && s.pc[t].AtGate? && GateStep(s, t, late) == Some(s')
    ensures Inv(s')
  {
    hide Inv, Pass, Fail, Open, WaitMove;
    SizedFacts(s);
    var (g, k, ph) := (s.pc[t].g, s.pc[t].k, s.pc[t].ph);
    if (ph == Eval || ph == Last) && Open(g, k, s.word) {
      PassKeeps(s, t, g, k);
    } else if ph == Last {
      FailKeeps(s, t, g, k);
    } else {
      WaitMoves(s, t, late, s');
      WaitStepKeeps(s, t, s');
    }
  }

  /** A thread that is about to release the mutex has seen its gate closed. */
  lemma SleepClosed(s: State, t: Tid)
    requires Inv(s) && t < |s.pc| && s.pc[t].AtGate?
    ensures s.pc[t].ph == Release && s.pc[t].g == G1 ==> HasWrite(s.word)
    ensures s.pc[t].ph == Release && s.pc[t].g == G2 ==> HasReaders(s.word)
  {
    GateFacts(s, t);
  }

  lemma EnterKeeps(s: State, t: Tid, s': State)
    requires Inv(s) && t < |s.pc| && (s.pc[t].Enter? || s.pc[t] == TryWrite || s.pc[t] == TryRead)
    requires exists late :: Step(s, t, late) == Some(s')
    ensures Inv(s')
  {
    hide MutexOk, ListOk, CommittedOk, HandOffOk, WriterOk, CountShares;
    WriteOpsKeepReaders(s.word);
    IncExact(s.word);
    FrameKeeps(s, s', t);
    WriterKeeps(s, s', t);
    HandOffKeeps(s, s', t);
  }

  lemma EndWriteKeeps(s: State, t: Tid, s': State)
    requires Inv(s) && t < |s.pc| && s.pc[t] == EndWrite && s.mutex == None
    requires s' == At(s.(word := UnsetWrite(s.word)), t, Notify(AllAtGate1))
    ensures Inv(s')
  {
    hide MutexOk, ListOk, CommittedOk, HandOffOk, WriterOk, CountShares;
    WriteOpsKeepReaders(s.word);
    FrameKeeps(s, s', t);
    WriterKeeps(s, s', t);
    HandOffKeeps(s, s', t);
  }

  lemma ReaderFacts(s: State, t: Tid)
    requires Inv(s) && t < |s.pc| && Shares(s.pc[t])
    ensures HasReaders(s.word) && !MaxReaders(s.word)
    ensures !HasWrite(s.word) ==> forall u: Tid :: u < |s.pc| ==> !Unsignalled(s, u, G2)
  {
    CountSharesBound(s.pc);
    if !HasWrite(s.word) { NoneEntered(s); }
  }

  lemma EndReadKeeps(s: State, t: Tid, s': State)
    requires Inv(s) && t < |s.pc| && s.pc[t] == EndRead && s.mutex == None
    requires s' == At(s.(word := DecReaders(s.word)), t, AfterNotice(UnlockSharedNotice(s.word)))
    ensures Inv(s')
  {
    hide MutexOk, ListOk, CommittedOk, HandOffOk, WriterOk, CountShares;
    ReaderFacts(s, t);
    DecExact(s.word);
    FrameKeeps(s, s', t);
    WriterKeeps(s, s', t);
    forall u: Tid | u < |s'.pc| && !HasWrite(s.word) ensures !Unsignalled(s', u, G2) {
      assert !Unsignalled(s, u, G2);
    }
    HandOffKeeps(s, s', t);
  }

  /** The second gate never has more than one waiter: only the thread whose write request is set goes there. */
  lemma Gate2Single(s: State)
    requires ListOk(s, G2) && WriterOk(s)
    ensures |s.gate2| <= 1
    ensures forall t <- s.gate2 :: t < |s.pc| && Entered(s.pc[t]) && HasWrite(s.word)
  {
    forall t | t in s.gate2 ensures t < |s.pc| && Entered(s.pc[t]) {
      assert t in ListOf(s, G2);
    }
    var list := s.gate2;
    forall t, u | t in list && u in list ensures t == u { OneAtGate(s, t, u); }
    if list != [] {
      forall i | 0 <= i < |list| ensures list[i] == list[0] && i == 0 {
        assert list[i] in list && list[0] in list;
      }
      assert list[|list| - 1] == list[0];
    }
  }

  lemma OneAtGate(s: State, t: Tid, u: Tid)
    requires ListOk(s, G2) && WriterOk(s) && t in s.gate2 && u in s.gate2
    ensures t == u
  {
    assert t in ListOf(s, G2) && u in ListOf(s, G2);
  }

  lemma NotifyKeeps(s: State, t: Tid, what: Notice, s': State, late: bool)
    requires Inv(s) && t < |s.pc| && s.pc[t] == Notify(what) && Step(s, t, late) == Some(s')
    ensures Inv(s')
  {
    hide MutexOk, ListOk, CommittedOk, HandOffOk, WriterOk, CountShares;
    FrameKeeps(s, s', t);
    WriterKeeps(s, s', t);
    NotifyHandOff(s, t, what, s', late);
  }

  lemma NotifyHandOff(s: State, t: Tid, what: Notice, s': State, late: bool)
    requires Inv(s) && t < |s.pc| && s.pc[t] == Notify(what) && Step(s, t, late) == Some(s')
    ensures HandOffOk(s')
  {
    hide MutexOk, CommittedOk, WriterOk, CountShares, HasWrite, HasReaders, Coming;
    Gate2Single(s);
    ComingKeeps(s, s', t, AllAtGate1);
    ComingKeeps(s, s', t, OneAtGate2);
    forall u: Tid | u < |s'.pc| && Unsignalled(s', u, G1) && !HasWrite(s'.word) ensures Coming(s', AllAtGate1) {
      assert Unsignalled(s, u, G1) && u in ListOf(s, G1);
    }
    forall u: Tid | u < |s'.pc| && Unsignalled(s', u, G2) && !HasReaders(s'.word) ensures Coming(s', OneAtGate2) {
      assert Unsignalled(s, u, G2) && u in ListOf(s, G2);
    }
  }

  lemma StepKeeps(s: State, t: Tid, late: bool, s': State)
    requires Inv(s) && t < |s.pc| && Step(s, t, late) == Some(s')
    ensures Inv(s')
  {
    hide Inv, GateStep;
    match s.pc[t]
    case AtGate(_, _, _) => GateStepKeeps(s, t, late, s');
    case EndWrite => EndWriteKeeps(s, t, s');
    case EndRead => EndReadKeeps(s, t, s');
    case Notify(what) => NotifyKeeps(s, t, what, s', late);
    case _ => EnterKeeps(s, t, s');
  }

  lemma NextKeeps(s: State, s': State)
    requires Inv(s) && Next(s, s')
    ensures Inv(s')
  {
    hide Inv, Step, At, MayCall;
    var t: Tid :| ThreadNext(s, t, s');
    if Step(s, t, false) == Some(s') {
      StepKeeps(s, t, false, s');
    } else if Step(s, t, true) == Some(s') {
      StepKeeps(s, t, true, s');
    } else {
      var call :| MayCall(s.pc[t], call) && s' == At(s, t, call);
      CallKeeps(s, t, call);
    }
  }

  lemma {:induction false} BehaviourInv(b: seq<State>, i: nat)
    requires Behaviour(b) && i < |b|
    ensures Inv(b[i])
  {
    hide Next;
    if i == 0 {
      NoSharesHere(b[0].pc);
    } else {
      BehaviourInv(b, i - 1);
      assert Next(b[i - 1], b[i - 1 + 1]);
      NextKeeps(b[i - 1], b[i]);
    }
  }

  // ---------- what holds in every behaviour ----------

  /** A thread holds the lock until its unlock has gone through: `Writing`/`Reading`, or in the unlock call. */
  predicate HoldsWrite(pc: Pc) { pc == Writing || pc == EndWrite }

  /**
   Exclusion, through every interleaving and every timeout: with an exclusive holder there is no other holder
   of either kind, and the reader count in the word is the number of shared holders.
   */
  lemma Exclusion(b: seq<State>, i: nat, t: Tid)
    requires Behaviour(b) && i < |b| && t < |b[i].pc|
    ensures HoldsWrite(b[i].pc[t]) ==>
      forall u: Tid :: u < |b[i].pc| && u != t ==> !HoldsWrite(b[i].pc[u]) && !Shares(b[i].pc[u])
    ensures Readers(b[i].word) == CountShares(b[i].pc)
    ensures HasWrite(b[i].word) <==> SomeEntered(b[i])
    ensures Entered(b[i].pc[t]) ==> forall u: Tid :: u < |b[i].pc| && Entered(b[i].pc[u]) ==> u == t
  {
    hide Behaviour, CountShares;
    BehaviourInv(b, i);
    CountSharesBound(b[i].pc);
  }

  /** The gates strand nobody: a sleeper whose gate is open has been signalled, or its notification is on the way. */
  lemma NoStrandedWaiter(b: seq<State>, i: nat, t: Tid)
    requires Behaviour(b) && i < |b| && t < |b[i].pc|
    ensures |b[i].gate2| <= 1 && |b[i].cond| == |b[i].pc|
    ensures Unsignalled(b[i], t, G1) && !HasWrite(b[i].word) ==> Coming(b[i], AllAtGate1)
    ensures Unsignalled(b[i], t, G2) && !HasReaders(b[i].word) ==> Coming(b[i], OneAtGate2)
  {
    hide Behaviour;
    BehaviourInv(b, i);
    Gate2Single(b[i]);
  }

  /**
   The lock alone never gets stuck: while no thread holds it and some thread is inside one of its operations,
   some thread can take a step, without the help of a timeout.
   */
  lemma NeverStuck(b: seq<State>, i: nat, t: Tid)
    requires Behaviour(b) && i < |b| && t < |b[i].pc| && b[i].pc[t] != Outside
    requires forall u: Tid :: u < |b[i].pc| ==> b[i].pc[u] != Writing && b[i].pc[u] != Reading
    ensures |b[i].cond| == |b[i].pc| && exists u: Tid :: u < |b[i].pc| && Step(b[i], u, false) != None
  {
    hide Behaviour, Step;
    var s := b[i];
    BehaviourInv(b, i);
    if s.mutex.Some? {
      HolderMoves(s, s.mutex.value);
    } else {
      var u := SomeoneAwake(s, t);
      FreeMoves(s, u);
    }
  }

  predicate Asleep(s: State, t: Tid)
    requires t < |s.pc| && Sized(s)
  {
    s.pc[t].AtGate? && s.pc[t].ph == Sleeping && !s.cond[t]
  }

  /** A sleeper at an open gate has its notification on the way, and without holders some gate with a sleeper is open. */
  lemma SomeoneAwake(s: State, t: Tid) returns (u: Tid)
    requires Inv(s) && t < |s.pc| && s.pc[t] != Outside
    requires forall v: Tid :: v < |s.pc| ==> s.pc[v] != Writing && s.pc[v] != Reading
    ensures u < |s.pc| && s.pc[u] != Outside && !Asleep(s, u)
  {
    hide Open;
    if !Asleep(s, t) {
      u := t;
    } else if v: Tid :| v < |s.pc| && Shares(s.pc[v]) {
      u := v;
    } else {
      NoSharesHere(s.pc);
      if HasWrite(s.word) {
        u :| u < |s.pc| && Entered(s.pc[u]);
        if Asleep(s, u) {
          assert Unsignalled(s, u, G2);
          u :| u < |s.pc| && s.pc[u] == Notify(OneAtGate2);
        }
      } else {
        NoneEntered(s);
        assert Unsignalled(s, t, G1);
        u :| u < |s.pc| && s.pc[u] == Notify(AllAtGate1);
      }
    }
  }

  lemma HolderMoves(s: State, u: Tid)
    requires Inv(s) && s.mutex == Some(u)
    ensures u < |s.pc| && Step(s, u, false) != None
  {
  }

  lemma FreeMoves(s: State, u: Tid)
    requires Inv(s) && s.mutex == None && u < |s.pc| && s.pc[u] != Outside && s.pc[u] != Writing && s.pc[u] != Reading
    requires !Asleep(s, u)
    ensures Step(s, u, false) != None
  {
    assert !Holds(s.pc[u]);
  }

  lemma {:induction false} NoSharesHere(pc: seq<Pc>)
    requires forall t :: 0 <= t < |pc| ==> !Shares(pc[t])
    ensures CountShares(pc) == 0
  {
    if pc == [] {
    } else {
      NoSharesHere(pc[1..]);
    }
  }
}
