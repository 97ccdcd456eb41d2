/** The task deque of a scheduler and the result flags of a task, as the objects they are. */
module TaskQueue {
  import opened Common

  /** What is left after `n` tasks have been taken, or all of them. */
  function Kept(tasks: seq<Task>, n: nat): seq<Task> {
    if n <= |tasks| then tasks[n..] else []
  }

  /** `Tasks`: a deque with a size that other threads read without its lock. */
  class Tasks {
    var tasks: seq<Task>
    var size: nat

    ghost predicate Valid()
      reads this
    {
      size == |tasks|
    }

    constructor ()
      ensures Valid() && tasks == []
    {
      tasks, size := [], 0;
    }

    method Enque(t: Task)
      requires Valid()
      modifies this
      ensures Valid() && tasks == old(tasks) + [t]
    {
      tasks := tasks + [t];
      size := size + 1;
    }

    method Deque() returns (t: Option<Task>)
      requires Valid()
      modifies this
      ensures Valid()
      ensures old(tasks) == [] ==> t == None && tasks == []
      ensures old(tasks) != [] ==> t == Some(old(tasks)[0]) && tasks == old(tasks)[1..]
    {
      if tasks == [] {
        return None;
      }
      t := Some(tasks[0]);
      tasks := tasks[1..];
      size := size - 1;
    }

    /** Others dequeue up to `n` tasks. */
    method Drain(n: nat)
      requires Valid()
      modifies this
      ensures Valid() && tasks == Kept(old(tasks), n)
    {
      var i := 0;
      while i < n && tasks != []
        invariant 0 <= i <= n && Valid() && i <= |old(tasks)| && tasks == old(tasks)[i..]
      {
        var t := Deque();
        i := i + 1;
      }
    }

    /** A dequeue that `n` others have come before. */
    method DequeAfter(n: nat) returns (t: Option<Task>)
      requires Valid()
      modifies this
      ensures Valid()
      ensures n >= |old(tasks)| ==> t == None && tasks == []
      ensures n < |old(tasks)| ==> t == Some(old(tasks)[n]) && tasks == old(tasks)[n + 1..]
    {
      Drain(n);
      t := Deque();
    }

    method Empty() returns (r: bool)
      requires Valid()
      ensures r <==> tasks == []
    {
      return size == 0;
    }
  }

  /** First in, first out: whatever is enqueued behind it, the task at position `k` is the `k + 1`-th to be taken. */
  datatype DequeOp = Put(t: Task) | Take

  function Served(tasks: seq<Task>, ops: seq<DequeOp>): seq<Task>
    decreases |ops|
  {
    if ops == [] then []
    else match ops[0]
    case Put(t) => Served(tasks + [t], ops[1..])
    case Take => if tasks == [] then Served(tasks, ops[1..]) else [tasks[0]] + Served(tasks[1..], ops[1..])
  }

  lemma {:induction false} FirstInFirstOut(tasks: seq<Task>, ops: seq<DequeOp>, k: nat)
    requires k < |tasks| && k < |Served(tasks, ops)|
    ensures Served(tasks, ops)[k] == tasks[k]
    decreases |ops|
  {
    match ops[0]
    case Put(t) => FirstInFirstOut(tasks + [t], ops[1..], k);
    case Take => if k > 0 { FirstInFirstOut(tasks[1..], ops[1..], k - 1); }
  }

  // ---------- result flags ----------

  const DONE := 1
  const TAKEN := 2

  datatype GetOutcome = Value | Rethrown | AlreadyTaken

  /** The flags of `TaskBase`, a two-bit set, and whether the task ended in an exception. */
  class TaskFlags {
    var state: int
    var exception: bool

    ghost predicate Valid()
      reads this
    {
      0 <= state <= DONE + TAKEN && (IsTaken() ==> IsDone())
    }

    predicate IsDone()
      reads this
    {
      state % 2 == DONE
    }

    predicate IsTaken()
      reads this
    {
      state / TAKEN % 2 == 1
    }

    constructor ()
      ensures Valid() && !IsDone() && !IsTaken() && !exception
    {
      state, exception := 0, false;
    }

    /** The task's function has returned or thrown, and `notify` records it. */
    method Complete(threw: bool)
      requires Valid() && !IsDone()
      modifies this
      ensures Valid() && IsDone() && exception == threw
      ensures IsTaken() == old(IsTaken())
    {
      exception := threw;
      if state % 2 == 0 {
        state := state + DONE;
      }
    }

    /** `prepare_get`; the wait in its middle returns only once the task is done. */
    method PrepareGet() returns (r: GetOutcome)
      requires Valid() && (IsTaken() || IsDone())
      modifies this
      ensures Valid() && IsTaken() && IsDone() && exception == old(exception)
      ensures r == if old(IsTaken()) then AlreadyTaken else if exception then Rethrown else Value
    {
      if state / TAKEN % 2 == 1 {
        return AlreadyTaken;
      }
      state := state + TAKEN;
      return if exception then Rethrown else Value;
    }
  }

  /** A task completes and its user calls `get` twice: the first call delivers what the task left, the second is refused. */
  method CompleteAndGetTwice(threw: bool) returns (first: GetOutcome, second: GetOutcome)
    ensures first == (if threw then Rethrown else Value) && second == AlreadyTaken
  {
    var flags := new TaskFlags();
    flags.Complete(threw);
    first := flags.PrepareGet();
    second := flags.PrepareGet();
  }
}
