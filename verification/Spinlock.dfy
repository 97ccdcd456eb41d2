/** The bounded acquisition of the spinlock, against whatever other threads do to the flag in between. */
module Spinlock {

  const MAX_TRY := 256

  /** What the memory answers to the attempt of that number: the load, and the exchange if it comes to one. */
  datatype Attempt = Attempt(loaded: bool, swapped: bool)

  /** The attempt takes the lock: the load and then the exchange both find the flag clear. */
  predicate Succeeds(a: Attempt) {
    !a.loaded && !a.swapped
  }

  method TryLock(a: Attempt) returns (ok: bool)
    ensures ok <==> Succeeds(a)
  {
    return !a.loaded && !a.swapped;
  }

  /**
   `lock_with_timeout`: it takes the lock with the first attempt that can, and gives up after exactly
   `MAX_TRY` failed ones.
   */
  method LockWithTimeout(memory: seq<Attempt>) returns (ok: bool, tries: nat)
    requires |memory| >= MAX_TRY
    ensures tries <= MAX_TRY && forall k :: 0 <= k < tries ==> !Succeeds(memory[k])
    ensures ok ==> tries < MAX_TRY && Succeeds(memory[tries])
    ensures !ok ==> tries == MAX_TRY
  {
    tries := 0;
    while memory[tries].loaded || memory[tries].swapped
      invariant tries < MAX_TRY
      invariant forall k :: 0 <= k < tries ==> !Succeeds(memory[k])
      decreases MAX_TRY - tries
    {
      tries := tries + 1;
      if tries == MAX_TRY {
        return false, tries;
      }
    }
    return true, tries;
  }

  /** `Plain_mutex::lock`: bounded spinning first, then single attempts with a yield after each failure. */
  method PlainLock(memory: seq<Attempt>, enough: nat) returns (taken: nat, yieldCount: nat)
    requires MAX_TRY <= enough < |memory| && Succeeds(memory[enough])
    ensures taken <= enough && Succeeds(memory[taken]) && forall k :: 0 <= k < taken ==> !Succeeds(memory[k])
    ensures yieldCount == if taken < MAX_TRY then 0 else taken - MAX_TRY
  {
    var ok: bool;
    ok, taken := LockWithTimeout(memory);
    yieldCount := 0;
    if !ok {
      while true
        invariant MAX_TRY <= taken <= enough && yieldCount == taken - MAX_TRY
        invariant forall k :: 0 <= k < taken ==> !Succeeds(memory[k])
        decreases enough - taken
      {
        var got := TryLock(memory[taken]);
        if got {
          break;
        }
        yieldCount := yieldCount + 1;
        taken := taken + 1;
      }
    }
  }
}
