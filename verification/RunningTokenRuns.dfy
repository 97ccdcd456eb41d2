/** Start-up, hand-over and destruction come to their ends: what a run of the worker threads always can reach. */
module RunningTokenRuns {
  import opened Common
  import opened RunningToken
  import opened RunningTokenProof

  ghost predicate Run(p: seq<State>) {
    |p| > 0 && forall i :: 0 <= i < |p| - 1 ==> Next(p[i], p[i + 1])
  }

  /** Some run leads from the one state to the other. */
  ghost predicate Comes(s: State, e: State) {
    exists p :: Run(p) && p[0] == s && p[|p| - 1] == e
  }

  lemma StaysHere(s: State)
    ensures Comes(s, s)
  {
    assert Run([s]);
  }

  lemma ComesBy(s: State, m: State, e: State)
    requires Next(s, m) && Comes(m, e)
    ensures Comes(s, e)
  {
    hide Next;
    var p :| Run(p) && p[0] == m && p[|p| - 1] == e;
    var q := [s] + p;
    forall i | 0 <= i < |q| - 1 ensures Next(q[i], q[i + 1]) {
      if i > 0 { assert Next(p[i - 1], p[i - 1 + 1]); }
    }
    assert Run(q);
  }

  lemma ThreadIsNext(s: State, t: Tid, v: Tid, s': State)
    requires Sized(s) && t < |s.pc| && Step(s, t, v) == Some(s')
    ensures Next(s, s')
  {
    hide Step;
  }

  lemma MainIsNext(s: State, s': State)
    requires Sized(s) && |s.pc| > 0 && MainStep(s) == Some(s')
    ensures Next(s, s')
  {
    hide MainStep;
  }

  // ---------- start-up and destruction ----------

  /** How far construction is from its end, or destruction from its own. */
  function Rank(s: State): int
    requires Sized(s)
  {
    var n := |s.pc|;
    match s.main
    case Create(k) => 4 * (n - k) + 2
    case CtorCheck(k) => 4 * (n - k) - 2 + (if k < n && s.running[k] then 2 else 1)
    case CtorBlocked(k) => 4 * (n - k) + 1
    case Launch => 1
    case Up => 0
    case Destroy(k) => 4 * (n - k) + 1
    case Join(k) => 4 * (n - k) - 2 + (if k < n && s.pc[k] == Finished then 0 else 1)
    case Gone => 0
  }

  /** The newest thread parks. */
  lemma ParksNearer(s: State) returns (s': State)
    requires Inv(s) && (s.main.CtorCheck? || s.main.CtorBlocked?) && s.main.k < |s.pc| && s.running[s.main.k]
    ensures Step(s, s.main.k, 0) == Some(s') && Sized(s') && Rank(s') < Rank(s) && Building(s'.main)
  {
    var k := s.main.k;
    assert Settled(s.main, |s.pc|) <= k < Begun(s.main, |s.pc|);
    s' := Step(s, k, 0).value;
  }

  lemma BlockedOnStarting(s: State)
    requires Inv(s)
    ensures s.main.CtorBlocked? ==> s.main.k < |s.pc| && s.running[s.main.k]
  {
    assert s.main.CtorBlocked? ==> Settled(s.main, |s.pc|) <= s.main.k < Begun(s.main, |s.pc|);
  }

  lemma BuildingMainNearer(s: State) returns (s': State)
    requires Inv(s) && Building(s.main)
    requires !((s.main.CtorCheck? || s.main.CtorBlocked?) && s.main.k < |s.pc| && s.running[s.main.k])
    ensures MainStep(s) == Some(s') && Sized(s') && 0 <= Rank(s') < Rank(s) && (Building(s'.main) || s'.main == Up)
  {
    BlockedOnStarting(s);
    s' := MainStep(s).value;
  }

  lemma BuildingNearer(s: State) returns (s': State)
    requires Inv(s) && Sized(s) && Building(s.main)
    ensures Next(s, s') && Sized(s') && Rank(s') < Rank(s) && (Building(s'.main) || s'.main == Up)
  {
    hide Inv, Next, Step, MainStep, Rank;
    SomeThread(s);
    if (s.main.CtorCheck? || s.main.CtorBlocked?) && s.main.k < |s.pc| && s.running[s.main.k] {
      s' := ParksNearer(s);
      ThreadIsNext(s, s.main.k, 0, s');
    } else {
      s' := BuildingMainNearer(s);
      MainIsNext(s, s');
    }
  }

  lemma SomeThread(s: State)
    requires Inv(s)
    ensures Sized(s) && |s.pc| > 0 && Rank(s) >= 0
  {
  }

  lemma BuildsUp(s: State) returns (e: State)
    requires Inv(s) && Sized(s) && (Building(s.main) || s.main == Up)
    ensures Comes(s, e) && e.main == Up && Inv(e)
    decreases Rank(s)
  {
    hide Inv, Next, Rank, Comes;
    SomeThread(s);
    if s.main == Up {
      StaysHere(s);
      e := s;
    } else {
      var s' := BuildingNearer(s);
      NextKeeps(s, s');
      SomeThread(s');
      e := BuildsUp(s');
      ComesBy(s, s', e);
    }
  }

  /** Construction never gets stuck: from any point of it a run leads to all workers parked and the first one launched. */
  lemma StartUpCompletes(b: seq<State>, i: nat)
    requires Behaviour(b) && i < |b| && Building(b[i].main)
    ensures exists e :: Comes(b[i], e) && e.main == Up
  {
    hide Behaviour, Inv, Comes;
    BehaviourInv(b, i);
    SomeThread(b[i]);
    var e := BuildsUp(b[i]);
  }

  lemma FinishesNearer(s: State) returns (s': State)
    requires Inv(s) && s.main.Join? && s.main.k < |s.pc| && s.pc[s.main.k] != Finished
    ensures Step(s, s.main.k, 0) == Some(s') && Sized(s') && Rank(s') < Rank(s) && s'.main == s.main
  {
    s' := Step(s, s.main.k, 0).value;
  }

  lemma DestroyMainNearer(s: State) returns (s': State)
    requires Inv(s) && (s.main.Destroy? || (s.main.Join? && s.main.k < |s.pc| && s.pc[s.main.k] == Finished))
    ensures MainStep(s) == Some(s') && Sized(s') && Rank(s') < Rank(s)
    ensures s'.main.Destroy? || s'.main.Join? || s'.main == Gone
  {
    s' := MainStep(s).value;
  }

  lemma JoinedThread(s: State)
    requires Inv(s) && s.main.Join?
    ensures s.main.k < |s.pc|
  {
  }

  lemma DestroyNearer(s: State) returns (s': State)
    requires Inv(s) && Sized(s) && (s.main.Destroy? || s.main.Join?)
    ensures Next(s, s') && Sized(s') && Rank(s') < Rank(s) && (s'.main.Destroy? || s'.main.Join? || s'.main == Gone)
  {
    hide Inv, Next, Step, MainStep, Rank;
    SomeThread(s);
    if s.main.Join? { JoinedThread(s); }
    if s.main.Join? && s.pc[s.main.k] != Finished {
      s' := FinishesNearer(s);
      ThreadIsNext(s, s.main.k, 0, s');
    } else {
      s' := DestroyMainNearer(s);
      MainIsNext(s, s');
    }
  }

  /** Workers `0..k` have been joined. */
  ghost predicate AllJoined(s: State) {
    forall t :: 0 <= t < JoinedBy(s.main, |s.pc|) && t < |s.pc| ==> s.pc[t] == Finished
  }

  function JoinedBy(m: MainPc, n: nat): nat {
    match m case Destroy(k) => k case Join(k) => k case Gone => n case _ => 0
  }

  lemma JoinedStays(s: State, s': State)
    requires Inv(s) && AllJoined(s) && Next(s, s')
    ensures AllJoined(s')
  {
    hide Inv;
    SomeThread(s);
    if MainStep(s) == Some(s') {
      MainJoins(s, s');
    } else {
      var t: Tid, v: Tid :| t < |s.pc| && Step(s, t, v) == Some(s');
      ThreadJoins(s, t, v, s');
    }
  }

  lemma MainJoins(s: State, s': State)
    requires Inv(s) && AllJoined(s) && MainStep(s) == Some(s')
    ensures AllJoined(s')
  {
  }

  lemma NotifiedJoins(s: State, w: Tid)
    requires w < |s.pc| && Sized(s)
    ensures var s' := NotifyWorker(s, w);
      && Sized(s') && |s'.pc| == |s.pc| && JoinedBy(s'.main, |s.pc|) == JoinedBy(s.main, |s.pc|)
      && forall u :: 0 <= u < |s.pc| ==> (s'.pc[u] == Finished <==> s.pc[u] == Finished)
  {
  }

  lemma ThreadJoins(s: State, t: Tid, v: Tid, s': State)
    requires Sized(s) && AllJoined(s) && t < |s.pc| && Step(s, t, v) == Some(s')
    ensures AllJoined(s')
  {
    hide NotifyWorker, JoinedBy;
    NotifiedJoins(s, t);
    if s.current < |s.pc| { NotifiedJoins(s, s.current); }
    assert s.pc[t] != Finished;
  }

  lemma {:induction false} BehaviourJoined(b: seq<State>, i: nat)
    requires Behaviour(b) && i < |b|
    ensures AllJoined(b[i]) && Inv(b[i])
  {
    hide Next, Inv;
    BehaviourInv(b, i);
    if i == 0 {
    } else {
      BehaviourJoined(b, i - 1);
      assert Next(b[i - 1], b[i - 1 + 1]);
      JoinedStays(b[i - 1], b[i]);
    }
  }

  lemma TearsDown(s: State) returns (e: State)
    requires Inv(s) && Sized(s) && AllJoined(s) && (s.main.Destroy? || s.main.Join? || s.main == Gone)
    ensures Comes(s, e) && e.main == Gone && AllJoined(e)
    decreases Rank(s)
  {
    hide Inv, Next, Rank, Comes, AllJoined;
    SomeThread(s);
    if s.main == Gone {
      StaysHere(s);
      e := s;
    } else {
      var s' := DestroyNearer(s);
      NextKeeps(s, s');
      JoinedStays(s, s');
      SomeThread(s');
      e := TearsDown(s');
      ComesBy(s, s', e);
    }
  }

  /** Destruction neither: once exit has been signalled a run leads to the end of every thread and of all joins. */
  lemma DestructionCompletes(b: seq<State>, i: nat)
    requires Behaviour(b) && i < |b| && (b[i].main.Destroy? || b[i].main.Join?)
    ensures exists e :: Comes(b[i], e) && e.main == Gone && forall t :: 0 <= t < |e.pc| ==> e.pc[t] == Finished
  {
    hide Behaviour, Inv, Comes;
    BehaviourJoined(b, i);
    SomeThread(b[i]);
    var e := TearsDown(b[i]);
  }

  // ---------- the hand-over ----------

  /** Worker `v` runs, on its first start back in `schedule` and else in user code; every other one is in its wait. */
  ghost predicate HandedTo(s: State, v: Tid, started: bool, e: State) {
    && |e.pc| == |s.pc| && v < |e.pc| && Sized(e) && e.token == v && e.current == v && e.mutex == None
    && e.pc[v] == (if started then User else Scheduling)
    && forall u :: 0 <= u < |e.pc| && u != v ==> InWait(e.pc[u]) && !e.running[u]
  }

  /** The steps of the switching thread up to its own wait. */
  lemma SwitchesOver(s: State, v: Tid) returns (e: State)
    requires Inv(s) && Sized(s) && s.main == Up && s.token < |s.pc| && s.pc[s.token] == Scheduling && v < |s.pc| && v != s.token
    ensures Comes(s, e) && Inv(e) && Sized(e) && e.main == Up && e.token == v && |e.pc| == |s.pc| && InWait(e.pc[v])
    ensures e.started
  {
    hide Inv, Next, Comes, Step;
    var t := s.token;
    MayRun(s, v);
    var s1 := ThreadGoes(s, t, v);
    Switch1(s, t, v, s1);
    var s2 := ThreadGoes(s1, t, v);
    Switch2(s1, t, v, s2);
    var s3 := ThreadGoes(s2, t, v);
    Switch3(s2, t, v, s3);
    e := ThreadGoes(s3, t, v);
    Switch4(s3, t, v, e);
    HasStarted(e, t);
    StaysHere(e);
    ComesBy(s3, e, e);
    ComesBy(s2, s3, e);
    ComesBy(s1, s2, e);
    ComesBy(s, s1, e);
  }

  lemma MayRun(s: State, v: Tid)
    requires Inv(s) && s.main == Up && v < |s.pc|
    ensures Sized(s) && !s.exit && s.token < |s.pc| && s.current < |s.pc| && (v != s.token ==> InWait(s.pc[v]))
    ensures s.mutex == None || s.pc[s.token] == SwitchLocked || s.pc[s.token] == Handing
    ensures s.pc[s.token] == Scheduling ==> s.started
  {
  }

  lemma HasStarted(s: State, t: Tid)
    requires Inv(s) && s.main == Up && t < |s.pc| && s.pc[t] == SwitchBlocked
    ensures s.started
  {
    assert !InInit(s.pc[t]);
  }

  predicate CanStep(s: State, t: Tid, v: Tid) {
    && Sized(s) && t < |s.pc| && v < |s.pc| && s.current < |s.pc| && !s.exit
    && (s.pc[t] == Scheduling || (s.pc[t] == SwitchEntry && s.mutex == None) || s.pc[t] == SwitchLocked || s.pc[t] == Handing)
  }

  lemma ThreadGoes(s: State, t: Tid, v: Tid) returns (s': State)
    requires Inv(s) && CanStep(s, t, v)
    ensures Step(s, t, v) == Some(s') && Next(s, s') && Inv(s')
  {
    hide Inv, Next;
    s' := Step(s, t, v).value;
    ThreadIsNext(s, t, v, s');
    NextKeeps(s, s');
  }

  /** The four steps: select, lock, notify, wait. */
  lemma Switch1(s: State, t: Tid, v: Tid, s': State)
    requires CanStep(s, t, v) && s.pc[t] == Scheduling && t != v && s.mutex == None && Step(s, t, v) == Some(s')
    ensures CanStep(s', t, v) && s'.pc[t] == SwitchEntry && s'.current == v && s'.mutex == None
    ensures s'.main == s.main && |s'.pc| == |s.pc| && (InWait(s.pc[v]) ==> InWait(s'.pc[v]))
  {
  }

  lemma Switch2(s: State, t: Tid, v: Tid, s': State)
    requires CanStep(s, t, v) && s.pc[t] == SwitchEntry && s.current == v && s.mutex == None && Step(s, t, v) == Some(s')
    ensures CanStep(s', t, v) && s'.pc[t] == SwitchLocked && s'.current == v
    ensures s'.main == s.main && |s'.pc| == |s.pc| && (InWait(s.pc[v]) ==> InWait(s'.pc[v]))
  {
  }

  lemma Switch3(s: State, t: Tid, v: Tid, s': State)
    requires CanStep(s, t, v) && s.pc[t] == SwitchLocked && s.current == v && s.main == Up && Step(s, t, v) == Some(s')
    ensures CanStep(s', t, v) && s'.pc[t] == Handing && s'.current == v && s'.main == Up
    ensures |s'.pc| == |s.pc| && (InWait(s.pc[v]) ==> InWait(s'.pc[v]))
  {
  }

  lemma Switch4(s: State, t: Tid, v: Tid, s': State)
    requires CanStep(s, t, v) && s.pc[t] == Handing && t != v && s.current == v && s.main == Up && Step(s, t, v) == Some(s')
    ensures Sized(s') && s'.token == v && s'.main == Up && s'.pc[t] == SwitchBlocked
    ensures |s'.pc| == |s.pc| && (InWait(s.pc[v]) ==> InWait(s'.pc[v]))
  {
  }

  /** The step with which the worker handed the token leaves its wait. */
  lemma TakesOver(s: State, v: Tid) returns (e: State)
    requires Inv(s) && Sized(s) && s.main == Up && s.token == v && v < |s.pc| && InWait(s.pc[v])
    ensures Next(s, e) && HandedTo(s, v, s.started, e)
  {
    e := TakesOverStep(s, v);
    hide Inv, Next, Step;
    ThreadIsNext(s, v, 0, e);
  }

  lemma TakesOverStep(s: State, v: Tid) returns (e: State)
    requires Inv(s) && Sized(s) && s.main == Up && s.token == v && v < |s.pc| && InWait(s.pc[v])
    ensures Step(s, v, 0) == Some(e) && HandedTo(s, v, s.started, e)
  {
    hide NotifyWorker;
    e := Step(s, v, 0).value;
  }

  /** Whoever has been handed the token but still waits goes on with its next step, as worker 0 does after the launch. */
  lemma TokenTaken(b: seq<State>, i: nat)
    requires Behaviour(b) && i < |b| && b[i].main == Up && b[i].token < |b[i].pc| && InWait(b[i].pc[b[i].token])
    ensures exists e :: Next(b[i], e) && HandedTo(b[i], b[i].token, b[i].started, e)
  {
    hide Behaviour, Inv, Next, HandedTo;
    BehaviourInv(b, i);
    SomeThread(b[i]);
    var e := TakesOver(b[i], b[i].token);
  }

  /** A switch to any other worker comes to its end: that worker runs, and the one that switched waits with the rest. */
  lemma SwitchCompletes(b: seq<State>, i: nat, v: Tid)
    requires Behaviour(b) && i < |b| && b[i].main == Up && b[i].token < |b[i].pc| && b[i].pc[b[i].token] == Scheduling
    requires v < |b[i].pc| && v != b[i].token
    ensures exists e :: Comes(b[i], e) && HandedTo(b[i], v, true, e)
  {
    hide Behaviour, Inv, Next, HandedTo, Comes;
    BehaviourInv(b, i);
    var s := b[i];
    SomeThread(s);
    var m := SwitchesOver(s, v);
    var e := TakesOver(m, v);
    StaysHere(e);
    ComesBy(m, e, e);
    ComesOn(s, m, e);
    SameHands(s, m, v, e);
  }

  lemma SameHands(s: State, m: State, v: Tid, e: State)
    requires |m.pc| == |s.pc| && HandedTo(m, v, true, e)
    ensures HandedTo(s, v, true, e)
  {
  }

  lemma {:induction false} RunsOn(p: seq<State>, e: State)
    requires Run(p) && Comes(p[|p| - 1], e)
    ensures Comes(p[0], e)
    decreases |p|
  {
    hide Next, Comes;
    if |p| > 1 {
      assert Next(p[0], p[0 + 1]);
      var q := p[1..];
      forall i | 0 <= i < |q| - 1 ensures Next(q[i], q[i + 1]) {
        assert Next(p[i + 1], p[i + 1 + 1]);
      }
      RunsOn(q, e);
      ComesBy(p[0], q[0], e);
    }
  }

  lemma ComesOn(s: State, m: State, e: State)
    requires Comes(s, m) && Comes(m, e)
    ensures Comes(s, e)
  {
    hide Next;
    var p :| Run(p) && p[0] == s && p[|p| - 1] == m;
    RunsOn(p, e);
  }
}
