/** Runs of the system of schedulers, above all those in which one thread moves and all others stand still. */
module SchedulerRuns {
  import opened Common
  import opened SchedulerQueues
  import opened SchedulerSystem
  import opened SchedulerInvariant
  import opened SchedulerTheorems
  import opened SchedulerWakeup

  /** The thread that takes the step; `n` stands for main. */
  function ActorOf(a: Action, n: nat): nat {
    match a
    case MainAct => n
    case OwnAct(i, _) => i
    case Create(i, _, _) => i
    case SetCond(i, _, _) => i
    case Push(i) => i
    case Notify(i) => i
    case Signal(i) => i
    case StealTask(i) => i
    case Report(i) => i
  }

  /** A step of scheduler `w`'s thread, or of the main thread for `w == |g.s|`. */
  ghost predicate StepOf(g: Sys, w: nat, g': Sys) {
    Typed(g) && exists a :: ActorOf(a, |g.s|) == w && Do(g, a) == Some(g')
  }

  ghost predicate Solo(p: seq<Sys>, w: nat) {
    |p| > 0 && forall i :: 0 <= i < |p| - 1 ==> StepOf(p[i], w, p[i + 1])
  }

  function Last(p: seq<Sys>): Sys
    requires p != []
  {
    p[|p| - 1]
  }

  /** The steps of thread `w` alone lead from one state to the other. */
  ghost predicate Reaches(g: Sys, w: nat, g': Sys) {
    exists p :: Solo(p, w) && p[0] == g && Last(p) == g'
  }

  lemma StepsTo(g: Sys, w: nat, g': Sys)
    requires StepOf(g, w, g')
    ensures Reaches(g, w, g')
  {
    hide StepOf;
    var p := [g, g'];
    assert Solo(p, w) && Last(p) == g';
  }

  lemma GoesOn(g: Sys, w: nat, m: Sys, g': Sys)
    requires Reaches(g, w, m) && Reaches(m, w, g')
    ensures Reaches(g, w, g')
  {
    hide StepOf;
    var p :| Solo(p, w) && p[0] == g && Last(p) == m;
    var q :| Solo(q, w) && q[0] == m && Last(q) == g';
    var r := p + q[1..];
    forall i | 0 <= i < |r| - 1 ensures StepOf(r[i], w, r[i + 1]) {
      if i < |p| - 1 {
        assert StepOf(p[i], w, p[i + 1]);
      } else {
        var j := i - (|p| - 1);
        assert r[i] == q[j] && r[i + 1] == q[j + 1];
        assert StepOf(q[j], w, q[j + 1]);
      }
    }
    assert Solo(r, w) && r[0] == g && Last(r) == g';
  }

  lemma SoloIsNext(g: Sys, w: nat, g': Sys)
    requires StepOf(g, w, g')
    ensures Next(g, g')
  {
    hide Typed, Do;
    var a :| ActorOf(a, |g.s|) == w && Do(g, a) == Some(g');
    ActionNext(g, a, g');
  }

  /** Such a run stays among the reachable states. */
  lemma KeepsInv(g: Sys, w: nat, g': Sys)
    requires Inv(g) && Reaches(g, w, g')
    ensures Inv(g')
  {
    hide Inv, StepOf;
    var p :| Solo(p, w) && p[0] == g && Last(p) == g';
    AllInv(p, w, |p| - 1);
  }

  lemma {:induction false} AllInv(p: seq<Sys>, w: nat, i: nat)
    requires Solo(p, w) && Inv(p[0]) && i < |p|
    ensures Inv(p[i])
  {
    hide Inv, StepOf, Next;
    if i == 0 {
    } else {
      AllInv(p, w, i - 1);
      assert StepOf(p[i - 1], w, p[i - 1 + 1]);
      SoloIsNext(p[i - 1], w, p[i]);
      StepKeepsInv(p[i - 1], p[i]);
    }
  }

  // ---------- runs of several threads ----------

  /** Some run leads from the one state to the other. */
  ghost predicate Comes(g: Sys, g': Sys) {
    exists p :: Run(p) && p[0] == g && Last(p) == g'
  }

  lemma ComesBy(g: Sys, m: Sys, g': Sys)
    requires g == m || Next(g, m)
    requires Comes(m, g')
    ensures Comes(g, g')
  {
    hide Next;
    if g != m {
      var p :| Run(p) && p[0] == m && Last(p) == g';
      Prepend(g, p);
      assert Last([g] + p) == g';
    }
  }

  lemma ComesBack(g: Sys)
    ensures Comes(g, g)
  {
    assert Run([g]) && Last([g]) == g;
  }

  lemma {:induction false} RunsOn(p: seq<Sys>, g': Sys)
    requires Run(p) && Comes(Last(p), g')
    ensures Comes(p[0], g')
    decreases |p|
  {
    hide Next, Comes;
    if |p| > 1 {
      assert Next(p[0], p[0 + 1]);
      var q := p[1..];
      forall i | 0 <= i < |q| - 1 ensures Next(q[i], q[i + 1]) {
        assert Next(p[i + 1], p[i + 1 + 1]);
      }
      RunsOn(q, g');
      ComesBy(p[0], q[0], g');
    }
  }

  lemma ComesOn(g: Sys, m: Sys, g': Sys)
    requires Comes(g, m) && Comes(m, g')
    ensures Comes(g, g')
  {
    hide Next;
    var p :| Run(p) && p[0] == g && Last(p) == m;
    hide Comes;
    RunsOn(p, g');
  }

  /** A run of one thread and any run from there on make a run. */
  lemma SoloComes(g: Sys, w: nat, m: Sys, g': Sys)
    requires Reaches(g, w, m) && Comes(m, g')
    ensures Comes(g, g')
  {
    hide StepOf, Next, Comes;
    var p :| Solo(p, w) && p[0] == g && Last(p) == m;
    forall i | 0 <= i < |p| - 1 ensures Next(p[i], p[i + 1]) {
      assert StepOf(p[i], w, p[i + 1]);
      SoloIsNext(p[i], w, p[i + 1]);
    }
    RunsOn(p, g');
  }

  // ---------- one step of either kind ----------

  lemma MainGoes(g: Sys, g': Sys)
    requires Inv(g) && MainStep(g) == Some(g')
    ensures Reaches(g, |g.s|, g') && Inv(g') && Next(g, g')
  {
    hide Inv, MainStep, Next, Reaches, Typed, StepOf;
    InvIsTyped(g);
    MainNext(g, g');
    StepKeepsInv(g, g');
    ActIsStep(g, MainAct, g');
    StepsTo(g, |g.s|, g');
  }

  lemma ActIsStep(g: Sys, a: Action, g': Sys)
    requires Typed(g) && Do(g, a) == Some(g')
    ensures StepOf(g, ActorOf(a, |g.s|), g')
  {
    hide Typed, Do;
  }

  /** One step of a scheduler's thread that is not its own affair alone. */
  lemma ActGoes(g: Sys, a: Action, g': Sys)
    requires Inv(g) && Typed(g) && Do(g, a) == Some(g')
    ensures Reaches(g, ActorOf(a, |g.s|), g') && Inv(g')
  {
    hide Inv, Typed, Do, Next, Reaches, ActorOf;
    ActionNext(g, a, g');
    StepKeepsInv(g, g');
    ActIsStep(g, a, g');
    StepsTo(g, ActorOf(a, |g.s|), g');
  }

  /** What a step of a scheduler's own thread makes of the system. */
  ghost function After(g: Sys, d: nat, sc': Sched, c: Choice): Sys
    requires d < |g.s|
  {
    g.(s := g.s[d := sc'], idleCount := g.idleCount + CountDelta(g.s[d].pc), checkIdle := g.checkIdle || g.s[d].pc == IdleReport,
       finished := if Completed(g.s[d], c).Some? then g.finished + [Completed(g.s[d], c).value] else g.finished)
  }

  ghost predicate OwnGives(g: Sys, d: nat, c: Choice, sc': Sched)
    requires d < |g.s| && Wf(g.s[d].q)
  {
    var sc := g.s[d];
    OwnStep(sc, |g.s|, d, c, sc.pc.Steal? && sc.pc.k < |g.s| && HasStealable(g.s[sc.pc.k]), g.idleCount + 1 >= |g.s|) == Some(sc')
  }

  lemma OwnGoes(g: Sys, d: nat, c: Choice, sc': Sched)
    requires Inv(g) && d < |g.s| && g.s[d].pc != Exited && Wf(g.s[d].q) && OwnGives(g, d, c, sc')
    ensures Reaches(g, d, After(g, d, sc', c)) && Inv(After(g, d, sc', c)) && Next(g, After(g, d, sc', c))
  {
    hide Inv, Next, Reaches, Typed, OwnStep, Wf, StepOf;
    var g' := After(g, d, sc', c);
    InvIsTyped(g);
    OwnIsAct(g, d, c, sc');
    ActionNext(g, OwnAct(d, c), g');
    StepKeepsInv(g, g');
    ActIsStep(g, OwnAct(d, c), g');
    StepsTo(g, d, g');
  }

  lemma OwnIsAct(g: Sys, d: nat, c: Choice, sc': Sched)
    requires Typed(g) && d < |g.s| && g.s[d].pc != Exited && Wf(g.s[d].q) && OwnGives(g, d, c, sc')
    ensures Do(g, OwnAct(d, c)) == Some(After(g, d, sc', c))
  {
    hide OwnStep, Wf, Typed;
  }
}
