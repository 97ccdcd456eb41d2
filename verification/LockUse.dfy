/** How often each operation takes each lock: the scripts of `LockOrder` leave no acquisition out and invent none. */
module LockUse {
  import opened Common
  import opened LockOrder

  /** The number of times the script takes lock `l`. */
  function Uses(s: seq<Act>, l: Lock): nat {
    if s == [] then 0 else (if s[0] == Acq(l) then 1 else 0) + Uses(s[1..], l)
  }

  lemma {:induction false} UsesConcat(a: seq<Act>, b: seq<Act>, l: Lock)
    ensures Uses(a + b, l) == Uses(a, l) + Uses(b, l)
  {
    if a == [] {
      assert a + b == b;
    } else {
      assert (a + b)[1..] == a[1..] + b;
      UsesConcat(a[1..], b, l);
    }
  }

  lemma UsesNothing(l: Lock)
    ensures Uses([], l) == 0
  {
  }

  function If(c: bool, n: nat): nat {
    if c then n else 0
  }

  lemma BriefUses(m: Lock, l: Lock)
    ensures Uses(Brief(m), l) == If(l == m, 1)
    ensures Uses([Acq(m)], l) == If(l == m, 1) && Uses([Rel(m)], l) == 0
  {
    assert [Rel(m)][1..] == [] && [Acq(m)][1..] == [];
    assert Uses([Rel(m)], l) == 0;
    assert Brief(m)[1..] == [Rel(m)];
  }

  /** A script between an acquisition and a release, or the other way round. */
  lemma WrappedUses(m: Lock, s: seq<Act>, l: Lock)
    ensures Uses([Acq(m)] + s + [Rel(m)], l) == If(l == m, 1) + Uses(s, l)
    ensures Uses([Rel(m)] + s + [Acq(m)], l) == If(l == m, 1) + Uses(s, l)
  {
    BriefUses(m, l);
    UsesConcat([Acq(m)], s, l);
    UsesConcat([Acq(m)] + s, [Rel(m)], l);
    UsesConcat([Rel(m)], s, l);
    UsesConcat([Rel(m)] + s, [Acq(m)], l);
  }

  lemma {:induction false} WakesUses(m: Lock, k: nat, l: Lock)
    ensures Uses(Wakes(m, k), l) == If(l == m, k)
  {
    if k == 0 {
    } else {
      WakesUses(m, k - 1, l);
      WrappedUses(m, [], l);
      assert [Rel(m)] + [] + [Acq(m)] == [Rel(m), Acq(m)];
      UsesConcat([Rel(m), Acq(m)], Wakes(m, k - 1), l);
    }
  }

  /** A waiting thread takes the mutex once at first and once for each time it wakes. */
  lemma WaitedUses(m: Lock, k: nat, l: Lock)
    ensures Uses(Waited(m, k), l) == If(l == m, k + 1)
  {
    WakesUses(m, k, l);
    WrappedUses(m, Wakes(m, k), l);
  }

  lemma {:induction false} NotifyAllUses(targets: seq<nat>, l: Lock)
    ensures Uses(NotifyAll(targets), l) == if l.SchedMtx? then multiset(targets)[l.i] else 0
  {
    if targets == [] {
    } else {
      NotifyAllUses(targets[1..], l);
      BriefUses(SchedMtx(targets[0]), l);
      UsesConcat(Brief(SchedMtx(targets[0])), NotifyAll(targets[1..]), l);
      assert targets == [targets[0]] + targets[1..];
    }
  }

  lemma {:induction false} DequeuesUses(queues: seq<nat>, l: Lock)
    ensures Uses(Dequeues(queues), l) == if l.Queue? then multiset(queues)[l.i] else 0
  {
    if queues == [] {
    } else {
      DequeuesUses(queues[1..], l);
      BriefUses(Queue(queues[0]), l);
      UsesConcat(Brief(Queue(queues[0])), Dequeues(queues[1..]), l);
      assert queues == [queues[0]] + queues[1..];
    }
  }

  /** One pass through `sleep`: its own mutex unless it does not sleep at all, and the global one for the report. */
  function SleepUse(i: nat, path: SleepPath, l: Lock): nat {
    match path
    case NoSleep => 0
    case Returns => If(l == SchedMtx(i), 1)
    case Blocks(signals, wakes) => If(l == SchedMtx(i), wakes + 1) + If(signals && l == Global, 1)
  }

  lemma SleepUses(i: nat, path: SleepPath, l: Lock)
    ensures Uses(SleepScript(i, path), l) == SleepUse(i, path, l)
  {
    BriefUses(SchedMtx(i), l);
    if path.Blocks? {
      var report := if path.signals then Brief(Global) else [];
      var waits := Wakes(SchedMtx(i), path.wakes);
      BriefUses(Global, l);
      WakesUses(SchedMtx(i), path.wakes, l);
      UsesConcat(report, waits, l);
      WrappedUses(SchedMtx(i), report + waits, l);
      assert SleepScript(i, path) == [Acq(SchedMtx(i))] + (report + waits) + [Rel(SchedMtx(i))];
    }
  }

  /** All turns of one call of `schedule`. */
  function TurnsUse(i: nat, turns: seq<Turn>, l: Lock): nat {
    if turns == [] then 0
    else (if l.Queue? then multiset(turns[0].queues)[l.i] else 0) + SleepUse(i, turns[0].sleep, l) + TurnsUse(i, turns[1..], l)
  }

  /** ... and the context switch after it, if there is one. */
  function SyncUse(i: nat, turns: seq<Turn>, switch: Option<nat>, l: Lock): nat {
    TurnsUse(i, turns, l) + (if switch.Some? && l == WorkersMtx(i) then switch.value + 1 else 0)
  }

  lemma SyncUses(i: nat, turns: seq<Turn>, switch: Option<nat>, l: Lock)
    ensures Uses(SyncScript(i, turns, switch), l) == SyncUse(i, turns, switch, l)
  {
    ScheduleUses(i, turns, l);
    if switch.Some? { WaitedUses(WorkersMtx(i), switch.value, l); }
    UsesConcat(ScheduleScript(i, turns), if switch.Some? then Waited(WorkersMtx(i), switch.value) else [], l);
  }

  lemma {:induction false} ScheduleUses(i: nat, turns: seq<Turn>, l: Lock)
    ensures Uses(ScheduleScript(i, turns), l) == TurnsUse(i, turns, l)
  {
    if turns == [] {
    } else {
      ScheduleUses(i, turns[1..], l);
      DequeuesUses(turns[0].queues, l);
      SleepUses(i, turns[0].sleep, l);
      var (d, s) := (Dequeues(turns[0].queues), SleepScript(i, turns[0].sleep));
      UsesConcat(d, s, l);
      UsesConcat(d + s, ScheduleScript(i, turns[1..]), l);
    }
  }

  /** How often an operation takes a lock, inside the section of `inner`. */
  function OpUse(op: Op, inner: nat, l: Lock): nat
    decreases op
  {
    match op
    case Start(i, wakes) => If(l == WorkersMtx(i), wakes + 1)
    case Enqueue(d) => If(l == Queue(d) || l == SchedMtx(d), 1)
    case Notify(c, targets) => If(l == Waiters(c), 1) + (if l.SchedMtx? then multiset(targets)[l.i] else 0)
    case Reschedule(i, turns, switch) => SyncUse(i, turns, switch, l)
    case Wait(c, parks, i, turns, switch) =>
      If(l == Waiters(c), 2) + If(l == User(inner), 1) + If(parks, SyncUse(i, turns, switch, l))
    case Section(m, body) => If(l == User(m), 1) + OpsUse(body, m, l)
  }

  function OpsUse(ops: seq<Op>, inner: nat, l: Lock): nat
    decreases ops
  {
    if ops == [] then 0 else OpUse(ops[0], inner, l) + OpsUse(ops[1..], inner, l)
  }

  lemma WaitUses(op: Op, inner: nat, l: Lock)
    requires op.Wait?
    ensures Uses(Script(op, inner), l) == OpUse(op, inner, l)
  {
    hide Uses, SyncScript, Brief;
    var w := Brief(Waiters(op.c));
    UsesNothing(l);
    var s := if op.parks then SyncScript(op.i, op.turns, op.switch) else [];
    var m := [Rel(User(inner))] + s + [Acq(User(inner))];
    BriefUses(Waiters(op.c), l);
    SyncUses(op.i, op.turns, op.switch, l);
    WrappedUses(User(inner), s, l);
    UsesConcat(w, m, l);
    UsesConcat(w + m, w, l);
    assert Script(op, inner) == w + m + w;
  }

  /** Every operation takes each lock just as often as its source does, in any nest of sections. */
  lemma {:induction false} ScriptUses(op: Op, inner: nat, l: Lock)
    ensures Uses(Script(op, inner), l) == OpUse(op, inner, l)
    decreases op
  {
    hide Uses, Wakes, Dequeues, NotifyAll;
    match op
    case Start(i, wakes) => WaitedUses(WorkersMtx(i), wakes, l);
    case Enqueue(d) =>
      BriefUses(Queue(d), l);
      BriefUses(SchedMtx(d), l);
      UsesConcat(Brief(Queue(d)), Brief(SchedMtx(d)), l);
    case Notify(c, targets) =>
      NotifyAllUses(targets, l);
      WrappedUses(Waiters(c), NotifyAll(targets), l);
    case Reschedule(i, turns, switch) => SyncUses(i, turns, switch, l);
    case Wait(_, _, _, _, _) => WaitUses(op, inner, l);
    case Section(m, body) =>
      ScriptsUses(body, m, l);
      WrappedUses(User(m), Scripts(body, m), l);
  }

  lemma {:induction false} ScriptsUses(ops: seq<Op>, inner: nat, l: Lock)
    ensures Uses(Scripts(ops, inner), l) == OpsUse(ops, inner, l)
    decreases ops
  {
    if ops == [] {
    } else {
      ScriptUses(ops[0], inner, l);
      ScriptsUses(ops[1..], inner, l);
      UsesConcat(Script(ops[0], inner), Scripts(ops[1..], inner), l);
    }
  }

  // ---------- the main thread ----------

  lemma {:induction false} LockAllUses(k: nat, n: nat, l: Lock)
    requires k <= n
    ensures Uses(LockAll(k, n), l) == If(l.SchedMtx? && k <= l.i < n, 1) && Uses(UnlockAll(k, n), l) == 0
    decreases n - k
  {
    if k < n {
      LockAllUses(k + 1, n, l);
      assert LockAll(k, n)[1..] == LockAll(k + 1, n) && UnlockAll(k, n)[1..] == UnlockAll(k + 1, n);
    }
  }

  lemma LookUses(look: Look, n: nat, l: Lock)
    ensures Uses(LookScript(look, n), l) == If(l == Global, 1) + If(look == Full && l.SchedMtx? && l.i < n, 1)
  {
    hide Uses, LockAll, UnlockAll;
    var inside := if look == Full then LockAll(0, n) + UnlockAll(0, n) else [];
    UsesNothing(l);
    LockAllUses(0, n, l);
    UsesConcat(LockAll(0, n), UnlockAll(0, n), l);
    WrappedUses(Global, inside, l);
    assert LookScript(look, n) == [Rel(Global)] + inside + [Acq(Global)];
  }

  /** How many of the looks at the schedulers go all the way. */
  function FullLooks(looks: seq<Look>): nat {
    if looks == [] then 0 else If(looks[0] == Full, 1) + FullLooks(looks[1..])
  }

  /** `wait_exit` takes its own mutex once for each look, and each scheduler's once for each that goes all the way. */
  lemma {:induction false} LooksUses(looks: seq<Look>, n: nat, l: Lock)
    ensures Uses(Looks(looks, n), l) == If(l == Global, |looks|) + If(l.SchedMtx? && l.i < n, FullLooks(looks))
  {
    if looks == [] {
    } else {
      LooksUses(looks[1..], n, l);
      LookUses(looks[0], n, l);
      UsesConcat(LookScript(looks[0], n), Looks(looks[1..], n), l);
    }
  }
}
