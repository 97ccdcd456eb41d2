/**
 What `all_idle` and `wait_exit` answer: yes exactly if every scheduler sleeps idle with an empty deque, and from a yes
 on everything can be brought to its end.
 */
module SchedulerAnswer {
  import opened Common
  import opened SchedulerQueues
  import opened SchedulerSystem
  import opened SchedulerLocal
  import opened SchedulerInvariant
  import opened SchedulerTheorems
  import opened SchedulerWakeup
  import R = SchedulerRuns

  /** Schedulers `k` and up sleep idle with nothing queued. */
  ghost predicate Quiet(s: seq<Sched>, k: nat) {
    forall i :: k <= i < |s| ==> s[i].phase == IdleSleep && s[i].tasks == []
  }

  ghost predicate Unlocked(s: seq<Sched>) {
    forall i :: 0 <= i < |s| ==> s[i].mtx == None
  }

  /** The first `k` mutexes as given, the others as they are. */
  function WithMtx(s: seq<Sched>, k: nat, m: Option<Holder>): (r: seq<Sched>)
    requires k <= |s|
    ensures |r| == |s|
    decreases k
  {
    if k == 0 then s else WithMtx(s, k - 1, m)[k - 1 := s[k - 1].(mtx := m)]
  }

  lemma {:induction false} WithMtxAt(s: seq<Sched>, k: nat, m: Option<Holder>)
    requires k <= |s|
    ensures |WithMtx(s, k, m)| == |s|
    ensures forall i :: 0 <= i < |s| ==> WithMtx(s, k, m)[i] == if i < k then s[i].(mtx := m) else s[i]
  {
    if k == 0 {
    } else {
      WithMtxAt(s, k - 1, m);
    }
  }

  // ---------- the answer under the locks ----------

  /** The inspection, step by step with main alone, says yes exactly if the schedulers not yet seen are quiet. */
  lemma {:induction false} InspectSays(g: Sys)
    requires Inv(g) && g.main.Inspect?
    ensures R.Reaches(g, |g.s|, g.(main := UnlockAll(0, Quiet(g.s, g.main.k))))
    decreases |g.s| - g.main.k
  {
    hide Inv, R.Reaches;
    InMain(g);
    var (n, k) := (|g.s|, g.main.k);
    if k == n {
      R.MainGoes(g, g.(main := UnlockAll(0, true)));
    } else if g.s[k].phase == IdleSleep && g.s[k].tasks == [] {
      var g1 := g.(main := Inspect(k + 1));
      R.MainGoes(g, g1);
      InspectSays(g1);
      R.GoesOn(g, n, g1, g.(main := UnlockAll(0, Quiet(g.s, k + 1))));
      assert Quiet(g.s, k) == Quiet(g.s, k + 1);
    } else {
      R.MainGoes(g, g.(main := UnlockAll(0, false)));
      assert !Quiet(g.s, k);
    }
  }

  lemma InMain(g: Sys)
    requires Inv(g)
    ensures |g.s| > 0 && MainOk(g.main, |g.s|)
  {
  }

  lemma {:induction false} Locks(g: Sys)
    requires Inv(g) && g.main.LockAll? && forall i :: g.main.k <= i < |g.s| ==> g.s[i].mtx == None
    requires forall i :: 0 <= i < g.main.k && i < |g.s| ==> g.s[i].mtx == Some(MainThread)
    ensures R.Reaches(g, |g.s|, g.(s := WithMtx(g.s, |g.s|, Some(MainThread)), main := Inspect(0)))
    decreases |g.s| - g.main.k
  {
    hide Inv, R.Reaches, WithMtx;
    InMain(g);
    var (n, k) := (|g.s|, g.main.k);
    WithMtxAt(g.s, n, Some(MainThread));
    if k == n {
      assert WithMtx(g.s, n, Some(MainThread)) == g.s;
      R.MainGoes(g, g.(main := Inspect(0)));
    } else {
      var g1 := SetMtx(g, k, Some(MainThread)).(main := LockAll(k + 1));
      R.MainGoes(g, g1);
      Locks(g1);
      WithMtxAt(g1.s, n, Some(MainThread));
      assert WithMtx(g1.s, n, Some(MainThread)) == WithMtx(g.s, n, Some(MainThread));
      R.GoesOn(g, n, g1, g.(s := WithMtx(g.s, n, Some(MainThread)), main := Inspect(0)));
    }
  }

  lemma {:induction false} Unlocks(g: Sys)
    requires Inv(g) && g.main.UnlockAll? && forall i :: g.main.k <= i < |g.s| ==> g.s[i].mtx == Some(MainThread)
    requires forall i :: 0 <= i < g.main.k && i < |g.s| ==> g.s[i].mtx == None
    ensures R.Reaches(g, |g.s|, g.(s := WithMtx(g.s, |g.s|, None), main := if g.main.idle then SetExit(0) else Answered))
    decreases |g.s| - g.main.k
  {
    hide Inv, R.Reaches, WithMtx;
    InMain(g);
    var (n, k) := (|g.s|, g.main.k);
    var end := if g.main.idle then SetExit(0) else Answered;
    WithMtxAt(g.s, n, None);
    if k == n {
      assert WithMtx(g.s, n, None) == g.s;
      R.MainGoes(g, g.(main := end));
    } else {
      var g1 := SetMtx(g, k, None).(main := UnlockAll(k + 1, g.main.idle));
      R.MainGoes(g, g1);
      Unlocks(g1);
      WithMtxAt(g1.s, n, None);
      assert WithMtx(g1.s, n, None) == WithMtx(g.s, n, None);
      R.GoesOn(g, n, g1, g.(s := WithMtx(g.s, n, None), main := end));
    }
  }

  /** All of `all_idle` behind its first tests, main alone and no mutex held: the answer, and nothing else changed. */
  lemma LocksAndSays(g: Sys)
    requires Inv(g) && g.main == LockAll(0) && Unlocked(g.s)
    ensures R.Reaches(g, |g.s|, g.(main := if Quiet(g.s, 0) then SetExit(0) else Answered))
  {
    hide Inv, R.Reaches, WithMtx;
    InMain(g);
    var n := |g.s|;
    Locks(g);
    WithMtxAt(g.s, n, Some(MainThread));
    var g1 := g.(s := WithMtx(g.s, n, Some(MainThread)), main := Inspect(0));
    R.KeepsInv(g, n, g1);
    InspectSays(g1);
    assert Quiet(g1.s, 0) == Quiet(g.s, 0);
    var g2 := g1.(main := UnlockAll(0, Quiet(g.s, 0)));
    R.GoesOn(g, n, g1, g2);
    R.KeepsInv(g, n, g2);
    Unlocks(g2);
    WithMtxAt(g2.s, n, None);
    assert WithMtx(g2.s, n, None) == g.s;
    R.GoesOn(g, n, g2, g.(main := if Quiet(g.s, 0) then SetExit(0) else Answered));
  }

  lemma {:induction false} ReadsQueues(g: Sys)
    requires Inv(g) && g.main.ReadTasks?
    ensures g.main.k <= |g.s| ==> R.Reaches(g, |g.s|,
      g.(main := if forall i :: g.main.k <= i < |g.s| ==> g.s[i].tasks == [] then LockAll(0) else Answered))
    decreases |g.s| - g.main.k
  {
    hide Inv, R.Reaches;
    InMain(g);
    var (n, k) := (|g.s|, g.main.k);
    if k >= n {
      R.MainGoes(g, g.(main := LockAll(0)));
    } else if g.s[k].tasks != [] {
      R.MainGoes(g, g.(main := Answered));
    } else {
      var g1 := g.(main := ReadTasks(k + 1));
      R.MainGoes(g, g1);
      ReadsQueues(g1);
      var end := if forall i :: k <= i < n ==> g.s[i].tasks == [] then LockAll(0) else Answered;
      assert (forall i :: k <= i < n ==> g.s[i].tasks == []) == (forall i :: k + 1 <= i < n ==> g.s[i].tasks == []);
      R.GoesOn(g, n, g1, g.(main := end));
    }
  }

  /** What `wait_exit` does once it has been told to check: it goes on to exit, or sleeps again. */
  function Answer(g: Sys, yes: bool): Sys {
    g.(checkIdle := false, main := if yes then SetExit(0) else Asleep)
  }

  /**
   One evaluation of the predicate of `wait_exit` after a report, with main alone and no mutex held: it is true if
   and only if all schedulers are counted idle, sleep idle and have nothing queued.
   */
  lemma WaitExitSays(b: seq<Sys>, i: nat)
    requires Behaviour(b) && i < |b| && b[i].main == WaitExit && b[i].checkIdle && Unlocked(b[i].s)
    ensures R.Reaches(b[i], |b[i].s|, Answer(b[i], b[i].idleCount >= |b[i].s| && Quiet(b[i].s, 0)))
  {
    hide Behaviour, Inv, R.Reaches;
    BehaviourInv(b, i);
    EvaluatesTo(b[i]);
  }

  lemma EvaluatesTo(g: Sys)
    requires Inv(g) && g.main == WaitExit && g.checkIdle && Unlocked(g.s)
    ensures R.Reaches(g, |g.s|, Answer(g, g.idleCount >= |g.s| && Quiet(g.s, 0)))
  {
    hide Inv, R.Reaches;
    InMain(g);
    var n := |g.s|;
    var g1 := g.(checkIdle := false, main := ReadCount);
    R.MainGoes(g, g1);
    if g.idleCount < n {
      R.MainGoes(g1, g1.(main := Answered));
      R.GoesOn(g, n, g1, g1.(main := Answered));
      SaysNo(g, g1);
    } else {
      var g2 := g1.(main := ReadTasks(0));
      R.MainGoes(g1, g2);
      R.GoesOn(g, n, g1, g2);
      ReadsQueues(g2);
      if forall i :: 0 <= i < n ==> g.s[i].tasks == [] {
        var g3 := g1.(main := LockAll(0));
        R.GoesOn(g, n, g2, g3);
        R.KeepsInv(g, n, g3);
        LocksAndSays(g3);
        R.GoesOn(g, n, g3, g1.(main := if Quiet(g.s, 0) then SetExit(0) else Answered));
        if !Quiet(g.s, 0) { SaysNo(g, g1); }
      } else {
        R.GoesOn(g, n, g2, g1.(main := Answered));
        SaysNo(g, g1);
        assert !Quiet(g.s, 0);
      }
    }
  }

  /** With a no main goes to sleep. */
  lemma SaysNo(g: Sys, g1: Sys)
    requires Inv(g) && g1 == g.(checkIdle := false, main := ReadCount) && R.Reaches(g, |g.s|, g1.(main := Answered))
    ensures R.Reaches(g, |g.s|, Answer(g, false))
  {
    hide Inv, R.Reaches;
    InMain(g);
    R.KeepsInv(g, |g.s|, g1.(main := Answered));
    R.MainGoes(g1.(main := Answered), Answer(g, false));
    R.GoesOn(g, |g.s|, g1.(main := Answered), Answer(g, false));
  }

  /** The inspection in any reachable state, for any number of schedulers already seen. */
  lemma InspectionSays(b: seq<Sys>, i: nat)
    requires Behaviour(b) && i < |b| && b[i].main.Inspect?
    ensures R.Reaches(b[i], |b[i].s|, b[i].(main := UnlockAll(0, Quiet(b[i].s, b[i].main.k))))
  {
    hide Behaviour, Inv, R.Reaches;
    BehaviourInv(b, i);
    InspectSays(b[i]);
  }

  /** `all_idle` behind its first tests in any reachable state with no mutex held. */
  lemma AllIdleSays(b: seq<Sys>, i: nat)
    requires Behaviour(b) && i < |b| && b[i].main == LockAll(0) && Unlocked(b[i].s)
    ensures R.Reaches(b[i], |b[i].s|, b[i].(main := if Quiet(b[i].s, 0) then SetExit(0) else Answered))
  {
    hide Behaviour, Inv, R.Reaches;
    BehaviourInv(b, i);
    LocksAndSays(b[i]);
  }

  /** With other threads inside `sleep` it has to wait for them, but it always comes to an answer. */
  lemma AllIdleReturns(b: seq<Sys>, i: nat)
    requires Behaviour(b) && i < |b| && InAllIdle(b[i])
    ensures exists p: seq<Sys> :: Run(p) && p[0] == b[i] && (p[|p| - 1].main == Answered || p[|p| - 1].main == SetExit(0))
  {
    hide Behaviour, Inv, Run;
    BehaviourInv(b, i);
    var p := ReturnFrom(b[i]);
  }

  lemma ReturnFrom(g: Sys) returns (p: seq<Sys>)
    requires Inv(g) && (InAllIdle(g) || g.main == Answered || g.main == SetExit(0))
    ensures Run(p) && p[0] == g && (p[|p| - 1].main == Answered || p[|p| - 1].main == SetExit(0))
    decreases Stage(g.main, |g.s|), Awaited(g)
  {
    hide Inv, Next, Awaited;
    if !InAllIdle(g) {
      p := [g];
    } else {
      var g' := OneCloser(g);
      StepKeepsInv(g, g');
      var q := ReturnFrom(g');
      Prepend(g, q);
      p := [g] + q;
    }
  }

  lemma OneCloser(g: Sys) returns (g': Sys)
    requires Inv(g) && InAllIdle(g)
    ensures Next(g, g') && |g'.s| == |g.s| && (InAllIdle(g') || g'.main == Answered || g'.main == SetExit(0))
    ensures Stage(g'.main, |g'.s|) < Stage(g.main, |g.s|)
         || (Stage(g'.main, |g'.s|) == Stage(g.main, |g.s|) && Awaited(g') < Awaited(g))
  {
    hide Inv, Typed, Next, MainStep, OwnActStep, Awaited, Stage, InAllIdle;
    InvIsTyped(g);
    if g.main.LockAll? && g.main.k < |g.s| && g.s[g.main.k].mtx != None {
      HolderIsOwn(g);
      g' := HolderCloser(g, g.main.k);
      SameMain(g, g');
    } else {
      MainCanStep(g);
      g' := MainStep(g).value;
      MainCloser(g, g');
      MainNext(g, g');
      MainGoesOn(g, g');
    }
  }

  lemma HolderIsOwn(g: Sys)
    requires Inv(g) && g.main.LockAll? && g.main.k < |g.s| && g.s[g.main.k].mtx != None
    ensures g.s[g.main.k].mtx == Some(Own)
  {
    hide Locals, Wakes, Census, Exits, Quiets, Inspected;
    assert g.s[g.main.k].mtx != Some(MainThread);
    HolderKinds(g.s[g.main.k].mtx);
  }

  lemma SameMain(g: Sys, g': Sys)
    requires InAllIdle(g) && g'.main == g.main && |g'.s| == |g.s|
    ensures InAllIdle(g')
  {
  }

  lemma MainGoesOn(g: Sys, g': Sys)
    requires InAllIdle(g) && MainStep(g) == Some(g')
    ensures InAllIdle(g') || g'.main == Answered || g'.main == SetExit(0)
  {
  }
}
