/**
 Waiting on a `Condition_variable` as seen by the locks built on it: the points of the predicate loop and
 of `wait_internal`, the waiter list, and the per-worker condition flags.
 */
module CondVarWait {
  import opened Common

  /** A thread, which is a worker. */
  type Tid = nat

  datatype Phase =
    | Eval      // the loop evaluates its predicate, the user's mutex held
    | Add       // add_waiter
    | Clear     // set_wait_info(false, ...)
    | Release   // Scoped_unlock constructed
    | Sleeping  // wait_cond_or_sleep
    | Relock    // Scoped_unlock destroyed
    | Remove    // remove_waiter
    | Last      // the evaluation that follows a timeout

  predicate InList(ph: Phase) {
    ph == Clear || ph == Release || ph == Sleeping || ph == Relock || ph == Remove
  }

  predicate HasMutex(ph: Phase) {
    ph != Sleeping && ph != Relock
  }

  /** From the failed evaluation to the release of the mutex. */
  predicate Committed(ph: Phase) {
    ph == Add || ph == Clear || ph == Release
  }

  /** `notify_one`: the front of the list is flagged and stays in the list. */
  function FlagFront(list: seq<Tid>, cond: seq<bool>): (r: seq<bool>)
    ensures |r| == |cond|
    ensures forall t :: 0 <= t < |cond| ==> r[t] == (cond[t] || (list != [] && list[0] == t))
  {
    if list != [] && list[0] < |cond| then cond[list[0] := true] else cond
  }

  /** `notify_all`: one member of the list after the other is flagged. */
  function FlagAll(list: seq<Tid>, cond: seq<bool>): (r: seq<bool>)
    ensures |r| == |cond|
    ensures forall t :: 0 <= t < |cond| ==> r[t] == (cond[t] || t in list)
  {
    if list == [] then cond
    else FlagAll(list[1..], FlagFront(list, cond))
  }

  /** `notify_one` called `n` times with no waiter removing itself in between. */
  function FlagTimes(list: seq<Tid>, cond: seq<bool>, n: nat): seq<bool> {
    if n == 0 then cond else FlagFront(list, FlagTimes(list, cond, n - 1))
  }

  /** Any number of calls in a row reaches the front only: they do not wake one waiter each. */
  lemma {:induction false} NotifyInARow(list: seq<Tid>, cond: seq<bool>, n: nat)
    requires n > 0
    ensures FlagTimes(list, cond, n) == FlagFront(list, cond)
  {
    if n == 1 {
    } else {
      NotifyInARow(list, cond, n - 1);
    }
  }
}
