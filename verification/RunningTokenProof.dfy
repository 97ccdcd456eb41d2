/** The running token is never duplicated and never lost. */
module RunningTokenProof {
  import opened Common
  import opened RunningToken

  /** During construction the newest thread parks, which releases its constructor. */
  lemma BuildingStartKeeps(s: State, t: Tid, v: Tid, s': State)
    requires Inv(s) && Building(s.main) && t < |s.pc| && s.pc[t] == Starting && Step(s, t, v) == Some(s')
    ensures Inv(s')
  {
  }

  lemma BuildingOtherKeeps(s: State, t: Tid, v: Tid, s': State)
    requires Inv(s) && Building(s.main) && t < |s.pc| && s.pc[t] != Starting && Step(s, t, v) == Some(s')
    ensures Inv(s')
  {
    hide NotifyWorker, Resume;
    assert s' == At(s, t, s'.pc[t]) && InInit(s'.pc[t]);
  }

  lemma BuildingThreadKeeps(s: State, t: Tid, v: Tid, s': State)
    requires Inv(s) && Building(s.main) && t < |s.pc| && Step(s, t, v) == Some(s')
    ensures Inv(s')
  {
    hide Inv, Step;
    if s.pc[t] == Starting { BuildingStartKeeps(s, t, v, s'); } else { BuildingOtherKeeps(s, t, v, s'); }
  }

  lemma BuildingMainKeeps(s: State, s': State)
    requires Inv(s) && Building(s.main) && MainStep(s) == Some(s')
    ensures Inv(s')
  {
  }

  /** A thread without the token can only wake without reason and block again. */
  lemma OtherThreadKeeps(s: State, t: Tid, v: Tid, s': State)
    requires Inv(s) && s.main == Up && t < |s.pc| && t != s.token && Step(s, t, v) == Some(s')
    ensures Inv(s')
  {
    hide NotifyWorker;
    assert s' == At(s, t, s'.pc[t]) && InWait(s'.pc[t]);
  }

  lemma SwitchKeeps(s: State, v: Tid, s': State)
    requires Inv(s) && s.main == Up && Switching(s.pc[s.token]) && Step(s, s.token, v) == Some(s')
    ensures Inv(s')
  {
  }

  lemma RunnerKeeps(s: State, v: Tid, s': State)
    requires Inv(s) && s.main == Up && !Switching(s.pc[s.token]) && Step(s, s.token, v) == Some(s')
    ensures Inv(s')
  {
    hide NotifyWorker;
  }

  lemma TokenThreadKeeps(s: State, t: Tid, v: Tid, s': State)
    requires Inv(s) && s.main == Up && t < |s.pc| && Step(s, t, v) == Some(s')
    ensures Inv(s')
  {
    assert s.token < |s.pc|;
    hide Inv, Step;
    if t != s.token {
      OtherThreadKeeps(s, t, v, s');
    } else if Switching(s.pc[t]) {
      SwitchKeeps(s, v, s');
    } else {
      RunnerKeeps(s, v, s');
    }
  }

  lemma ExitKeeps(s: State, s': State)
    requires Inv(s) && s.main == Up && MainStep(s) == Some(s')
    ensures Inv(s')
  {
  }

  /** During destruction the last runner sees the exit signal, and the others wake and finish. */
  lemma LeavingRunnerKeeps(s: State, v: Tid, s': State)
    requires Inv(s) && !Building(s.main) && s.main != Up && Step(s, s.token, v) == Some(s')
    ensures Inv(s')
  {
    hide NotifyWorker, Resume;
  }

  lemma LeavingOtherKeeps(s: State, t: Tid, v: Tid, s': State)
    requires Inv(s) && !Building(s.main) && s.main != Up && t < |s.pc| && t != s.token && Step(s, t, v) == Some(s')
    ensures Inv(s')
  {
    hide NotifyWorker;
    assert s' == At(s, t, s'.pc[t]);
  }

  lemma LeavingThreadKeeps(s: State, t: Tid, v: Tid, s': State)
    requires Inv(s) && !Building(s.main) && s.main != Up && t < |s.pc| && Step(s, t, v) == Some(s')
    ensures Inv(s')
  {
    assert s.token < |s.pc|;
    hide Inv, Step;
    if t == s.token { LeavingRunnerKeeps(s, v, s'); } else { LeavingOtherKeeps(s, t, v, s'); }
  }

  lemma LeavingMainKeeps(s: State, s': State)
    requires Inv(s) && !Building(s.main) && s.main != Up && MainStep(s) == Some(s')
    ensures Inv(s')
  {
  }

  lemma NextKeeps(s: State, s': State)
    requires Inv(s) && Next(s, s')
    ensures Inv(s')
  {
    hide Inv, Step, MainStep;
    if MainStep(s) == Some(s') {
      if Building(s.main) { BuildingMainKeeps(s, s'); }
      else if s.main == Up { ExitKeeps(s, s'); }
      else { LeavingMainKeeps(s, s'); }
    } else {
      var t: Tid, v: Tid :| t < |s.pc| && Step(s, t, v) == Some(s');
      if Building(s.main) { BuildingThreadKeeps(s, t, v, s'); }
      else if s.main == Up { TokenThreadKeeps(s, t, v, s'); }
      else { LeavingThreadKeeps(s, t, v, s'); }
    }
  }

  lemma {:induction false} BehaviourInv(b: seq<State>, i: nat)
    requires Behaviour(b) && i < |b|
    ensures Inv(b[i])
  {
    hide Next;
    if i == 0 {
    } else {
      BehaviourInv(b, i - 1);
      assert Next(b[i - 1], b[i - 1 + 1]);
      NextKeeps(b[i - 1], b[i]);
    }
  }

  /** At most one worker thread is outside `Worker::wait`, from the end of construction until exit is signalled. */
  lemma SingleRunner(b: seq<State>, i: nat, t: Tid, u: Tid)
    requires Behaviour(b) && i < |b| && b[i].main == Up && t < |b[i].pc| && u < |b[i].pc|
    requires !InWait(b[i].pc[t]) && !InWait(b[i].pc[u])
    ensures t == u
  {
    hide Behaviour;
    BehaviourInv(b, i);
  }

  /** The flag of `h` is up and no other, and its thread is not blocked. */
  ghost predicate OnlyFlag(s: State, h: Tid) {
    && Sized(s) && h < |s.pc|
    && (forall t: Tid :: t < |s.pc| ==> (s.running[t] <==> t == h))
    && (InWait(s.pc[h]) ==> Step(s, h, 0).Some? && !InWait(Step(s, h, 0).value.pc[h]))
  }

  /**
   With the mutex free exactly one `m_running` flag is up, and no hand-over is lost: the flagged worker's
   thread is running, or it has left the wait set and its next step takes it out of the wait.
   */
  lemma OneFlag(b: seq<State>, i: nat)
    requires Behaviour(b) && i < |b| && b[i].main == Up && b[i].mutex == None
    ensures exists h: Tid :: OnlyFlag(b[i], h)
  {
    hide Behaviour;
    BehaviourInv(b, i);
    assert OnlyFlag(b[i], b[i].token);
  }

  /** Without the mutex free there are two flags at most, and only between the notification and the wait of a switch. */
  lemma TwoFlags(b: seq<State>, i: nat, t: Tid, u: Tid)
    requires Behaviour(b) && i < |b| && b[i].main == Up && t < |b[i].pc| && u < |b[i].pc| && t != u
    requires Sized(b[i]) && b[i].running[t] && b[i].running[u]
    ensures exists h: Tid :: b[i].mutex == Some(h) && h < |b[i].pc| && b[i].pc[h] == Handing && (h == t || h == u)
  {
    hide Behaviour;
    BehaviourInv(b, i);
    assert b[i].pc[b[i].token] == Handing;
  }

  /** Workers are constructed one at a time: when the next starts all earlier ones are parked, and none runs before the launch. */
  lemma StartedOneByOne(b: seq<State>, i: nat, t: Tid)
    requires Behaviour(b) && i < |b| && t < |b[i].pc| && Sized(b[i])
    ensures b[i].main.Create? && t < b[i].main.k ==> InInit(b[i].pc[t]) && !b[i].running[t]
    ensures b[i].main == Launch ==> InInit(b[i].pc[t]) && !b[i].running[t]
    ensures Building(b[i].main) ==> b[i].pc[t] != User && b[i].pc[t] != Scheduling
  {
    hide Behaviour;
    BehaviourInv(b, i);
  }

  /** The constructor of worker `k` is never left waiting: the step with which its thread parks wakes it. */
  lemma ConstructorWoken(b: seq<State>, i: nat)
    requires Behaviour(b) && i < |b| && b[i].main.CtorBlocked?
    ensures Sized(b[i]) && b[i].main.k < |b[i].pc| && b[i].pc[b[i].main.k] == Starting
    ensures Step(b[i], b[i].main.k, 0).Some? && Step(b[i], b[i].main.k, 0).value.main == CtorCheck(b[i].main.k)
  {
    hide Behaviour;
    BehaviourInv(b, i);
    var k := b[i].main.k;
    assert Settled(b[i].main, |b[i].pc|) <= k < Begun(b[i].main, |b[i].pc|);
  }

  /** The joins of the destructor return: the thread waited for has finished or finishes with its next step. */
  lemma JoinReturns(b: seq<State>, i: nat)
    requires Behaviour(b) && i < |b| && b[i].main.Join?
    ensures Sized(b[i]) && b[i].main.k < |b[i].pc|
    ensures var (s, k) := (b[i], b[i].main.k);
      s.pc[k] == Finished || (Step(s, k, 0).Some? && Step(s, k, 0).value.pc[k] == Finished)
  {
    hide Behaviour;
    BehaviourInv(b, i);
  }
}
