/**
 The critical sections of the timed, recursive and shared locks as methods that change their fields in place.
 Each is proved to do to the fields what the transition systems do in the corresponding step; waiting and the
 inner mutex are the business of those systems.
 */
module LockClasses {
  import opened Common
  import opened CondVarWait
  import opened LockCount
  import opened SharedMutexState
  import SM = SharedMutex
  import TL = TimedLock

  class TimedMutex {
    var locked: bool

    ghost predicate Matches(s: TL.State)
      reads this
    {
      !s.recursive && s.locked == locked
    }

    constructor (ghost s: TL.State)
      requires TL.Init(s) && !s.recursive
      ensures Matches(s)
    {
      locked := false;
    }

    /** `lock` behind its wait. */
    method LockSection(ghost s: TL.State, ghost me: Tid)
      requires Matches(s) && TL.Sized(s) && me < |s.pc| && TL.Free(s)
      modifies this
      ensures Matches(TL.Take(s, me)) && !TL.Free(TL.Take(s, me))
    {
      locked := true;
    }

    /** `try_lock`, and a timed attempt behind its wait: the lock is taken if it is free. */
    method TrySection(ghost s: TL.State, ghost me: Tid) returns (ok: bool)
      requires Matches(s) && TL.Sized(s) && me < |s.pc|
      modifies this
      ensures ok == TL.Free(s) && Matches(if ok then TL.Take(s, me) else s)
    {
      if !locked {
        locked := true;
        return true;
      }
      return false;
    }

    method UnlockSection(ghost s: TL.State, ghost me: Tid)
      requires Matches(s) && TL.Sized(s) && me < |s.pc|
      modifies this
      ensures Matches(TL.Unlock(s, me)) && TL.Free(TL.Unlock(s, me)) && TL.Unlock(s, me).pc[me] == TL.Notify
    {
      locked := false;
    }
  }

  class RecursiveTimedMutex {
    var tid: Option<Tid>
    const locks: LocksCount

    ghost predicate Matches(s: TL.State)
      reads this, locks
    {
      s.recursive && s.tid == tid && s.count == locks.count
    }

    constructor (ghost s: TL.State)
      requires TL.Init(s) && s.recursive
      ensures Matches(s) && fresh(locks)
    {
      tid := None;
      locks := new LocksCount();
    }

    /** `lock` behind its wait, or at once for the holder; `false` stands for the exception. */
    method LockSection(ghost s: TL.State, me: Tid) returns (ok: bool)
      requires Matches(s) && TL.Sized(s) && me < |s.pc| && (TL.Free(s) || tid == Some(me))
      modifies this, locks
      ensures Matches(TL.Take(s, me))
      ensures ok <==> s.count != MAX_REC_LOCKS - 1
    {
      if tid != Some(me) {
        tid := Some(me);
      }
      ok := locks.IncInPlace();
    }

    method TryLockSection(ghost s: TL.State, me: Tid) returns (ok: bool)
      requires Matches(s) && TL.Sized(s) && me < |s.pc|
      modifies this, locks
      ensures ok ==> (TL.Free(s) || s.tid == Some(me)) && Matches(TL.Take(s, me))
      ensures !ok ==> Matches(s) && (!(TL.Free(s) || s.tid == Some(me)) || s.count == MAX_REC_LOCKS - 1)
    {
      if locks.count == 0 || tid == Some(me) {
        var up := locks.IncInPlace();
        if up {
          tid := Some(me);
          return true;
        }
      }
      return false;
    }

    /** The rest of a timed attempt by a thread that was not the holder, behind its wait. */
    method TryUntilSection(ghost s: TL.State, me: Tid) returns (ok: bool)
      requires Matches(s) && TL.Sized(s) && me < |s.pc|
      modifies this, locks
      ensures ok == TL.Free(s) && Matches(if ok then TL.Take(s, me) else s)
    {
      if locks.count == 0 {
        var up := locks.IncInPlace();
        tid := Some(me);
        return true;
      }
      return false;
    }

    /** The result tells whether a notification is due. */
    method UnlockSection(ghost s: TL.State, ghost me: Tid) returns (notify: bool)
      requires Matches(s) && TL.Sized(s) && me < |s.pc|
      modifies this, locks
      ensures Matches(TL.Unlock(s, me))
      ensures notify <==> TL.Free(TL.Unlock(s, me)) && TL.Unlock(s, me).pc[me] == TL.Notify
    {
      var left := locks.DecInPlace();
      if left == 0 {
        tid := None;
        return true;
      }
      return false;
    }
  }

  /** The fields of `Shared_mutex` and `Shared_timed_mutex`, beside the inner mutex and the gates. */
  class SharedMutex {
    const state: SharedState

    ghost predicate Matches(s: SM.State)
      reads state
    {
      s.word == state.word
    }

    constructor (ghost s: SM.State)
      requires SM.Init(s)
      ensures fresh(state) && Matches(s)
    {
      state := new SharedState();
    }

    /** `lock`, or a timed attempt, between the two gates. */
    method WriteGate1Section(ghost s: SM.State, ghost me: Tid, ghost k: SM.Kind)
      requires Matches(s) && me < |s.pc| && k.write && SM.Open(SM.G1, k, s.word)
      modifies state
      ensures Matches(SM.Pass(s, me, SM.G1, k))
      ensures HasWrite(state.word) && Readers(state.word) == Readers(old(state.word))
    {
      WriteOpsKeepReaders(state.word);
      state.SetWriteInPlace();
    }

    /** The end of a timed attempt behind the second gate; `gateOpen` is what its `wait_until` returned. */
    method TimedGate2Section(ghost s: SM.State, ghost me: Tid, ghost k: SM.Kind, gateOpen: bool) returns (ok: bool, what: Notice)
      requires Matches(s) && me < |s.pc| && gateOpen == SM.Open(SM.G2, k, s.word)
      modifies state
      ensures ok == gateOpen && Matches(if ok then SM.Pass(s, me, SM.G2, k) else SM.Fail(s, me, SM.G2))
      ensures ok ==> !HasReaders(state.word) && what == NoNotice
      ensures !ok ==> !HasWrite(state.word) && SM.Fail(s, me, SM.G2).pc[me] == SM.Notify(what)
    {
      WriteOpsKeepReaders(state.word);
      if !gateOpen {
        state.UnsetWriteInPlace();
        return false, AllAtGate1;
      }
      return true, NoNotice;
    }

    method UnlockSection(ghost s: SM.State, ghost me: Tid) returns (what: Notice)
      requires Matches(s) && SM.Sized(s) && me < |s.pc| && s.pc[me] == SM.EndWrite && s.mutex == None
      modifies state
      ensures SM.Step(s, me, false).Some? && Matches(SM.Step(s, me, false).value)
      ensures SM.Step(s, me, false).value.pc[me] == SM.Notify(what)
      ensures !HasWrite(state.word) && Readers(state.word) == Readers(old(state.word))
    {
      WriteOpsKeepReaders(state.word);
      state.UnsetWriteInPlace();
      return AllAtGate1;
    }

    /** `lock_shared`, or a timed attempt, behind its gate. */
    method ReadGate1Section(ghost s: SM.State, ghost me: Tid, ghost k: SM.Kind)
      requires Matches(s) && me < |s.pc| && !k.write && SM.Open(SM.G1, k, s.word)
      modifies state
      ensures Matches(SM.Pass(s, me, SM.G1, k))
      ensures Readers(state.word) == Readers(old(state.word)) + 1 && !HasWrite(state.word)
    {
      SharedMutexState.IncExact(state.word);
      state.IncReadersInPlace();
    }

    method TryLockSection(ghost s: SM.State, ghost me: Tid) returns (ok: bool)
      requires Matches(s) && SM.Sized(s) && me < |s.pc| && s.pc[me] == SM.TryWrite && s.mutex == None
      modifies state
      ensures SM.Step(s, me, false).Some? && Matches(SM.Step(s, me, false).value)
      ensures SM.Step(s, me, false).value.pc[me] == if ok then SM.Writing else SM.Outside
      ensures ok <==> !HasReaders(old(state.word)) && !HasWrite(old(state.word))
      ensures Readers(state.word) == Readers(old(state.word))
      ensures HasWrite(state.word) == (ok || HasWrite(old(state.word)))
    {
      WriteOpsKeepReaders(state.word);
      if !HasReaders(state.word) && !HasWrite(state.word) {
        state.SetWriteInPlace();
        return true;
      }
      return false;
    }

    method TryLockSharedSection(ghost s: SM.State, ghost me: Tid) returns (ok: bool)
      requires Matches(s) && SM.Sized(s) && me < |s.pc| && s.pc[me] == SM.TryRead && s.mutex == None
      modifies state
      ensures SM.Step(s, me, false).Some? && Matches(SM.Step(s, me, false).value)
      ensures SM.Step(s, me, false).value.pc[me] == if ok then SM.Reading else SM.Outside
      ensures ok <==> !HasWrite(old(state.word)) && !MaxReaders(old(state.word))
      ensures Readers(state.word) == Readers(old(state.word)) + (if ok then 1 else 0)
      ensures HasWrite(state.word) == HasWrite(old(state.word))
    {
      SharedMutexState.IncExact(state.word);
      if !HasWrite(state.word) && !MaxReaders(state.word) {
        state.IncReadersInPlace();
        return true;
      }
      return false;
    }

    /** `unlock_shared`: the flags are read around the decrement, the gate is chosen after it. */
    method UnlockSharedSection(ghost s: SM.State, ghost me: Tid) returns (what: Notice)
      requires Matches(s) && SM.Sized(s) && me < |s.pc| && s.pc[me] == SM.EndRead && s.mutex == None
      modifies state
      ensures SM.Step(s, me, false).Some? && Matches(SM.Step(s, me, false).value)
      ensures SM.Step(s, me, false).value.pc[me] == SM.AfterNotice(what)
      ensures HasReaders(old(state.word)) ==>
        Readers(state.word) == Readers(old(state.word)) - 1 && HasWrite(state.word) == HasWrite(old(state.word))
      ensures HasReaders(old(state.word)) ==>
        (what == OneAtGate2 <==> HasWrite(state.word) && !HasReaders(state.word))
    {
      SharedMutexState.DecExact(state.word);
      var maxReaders := MaxReaders(state.word);
      state.DecReadersInPlace();
      var hasReaders := HasReaders(state.word);
      var hasWrite := HasWrite(state.word);
      if hasWrite {
        if !hasReaders {
          return OneAtGate2;
        }
      } else {
        if maxReaders {
          return OneAtGate1;
        }
      }
      return NoNotice;
    }
  }
}
