/** The 32-bit lock count of the recursive mutexes. */
module LockCount {

  const COUNTS: int := 0x1_0000_0000
  const MAX_REC_LOCKS: int := COUNTS - 1

  type Count = c: int | 0 <= c < COUNTS

  /** `rmtx_inc_lc`: the count after the call and whether it went up. */
  function Inc(c: Count): (Count, bool) {
    var up: Count := (c + 1) % COUNTS;
    if up == MAX_REC_LOCKS then ((up - 1) % COUNTS, false) else (up, true)
  }

  /** `rmtx_dec_lc`, which wraps. */
  function Dec(c: Count): Count { (c - 1) % COUNTS }

  /** The increment refuses exactly one level before the counter's own maximum, and a refusal changes nothing. */
  lemma IncExact(c: Count)
    ensures Inc(c).1 <==> c != MAX_REC_LOCKS - 1
    ensures !Inc(c).1 ==> Inc(c).0 == c
    ensures Inc(c).1 && c != MAX_REC_LOCKS ==> Inc(c).0 == c + 1 && Dec(Inc(c).0) == c
    ensures c > 0 ==> Dec(c) == c - 1
  {
  }

  /** The count as `m_locks_count`, changed in place. */
  class LocksCount {
    var count: Count

    constructor ()
      ensures count == 0
    {
      count := 0;
    }

    method IncInPlace() returns (ok: bool)
      modifies this
      ensures (count, ok) == Inc(old(count))
    {
      count := if count == COUNTS - 1 then 0 else count + 1;
      if count == MAX_REC_LOCKS {
        count := count - 1;
        return false;
      }
      return true;
    }

    method DecInPlace() returns (left: Count)
      modifies this
      ensures count == Dec(old(count)) && left == count
    {
      count := if count == 0 then COUNTS - 1 else count - 1;
      return count;
    }
  }
}
