/** The packed state word of the reader/writer lock: 31 bits of reader count below the write bit. */
module SharedMutexState {

  const WORDS: int := 0x1_0000_0000
  const WRITE_BIT: int := 0x8000_0000
  const MAX_READERS: int := 0x7fff_ffff

  type Word = w: int | 0 <= w < WORDS

  /** `m_state & readers_bits`. */
  function Readers(w: Word): int { w % WRITE_BIT }

  /** `(m_state & write_bits) >> 31`. */
  function HasWrite(w: Word): bool { w / WRITE_BIT != 0 }

  function HasReaders(w: Word): bool { Readers(w) != 0 }

  function MaxReaders(w: Word): bool { Readers(w) == MAX_READERS }

  /** `m_state |= write_bits`. */
  function SetWrite(w: Word): Word { if HasWrite(w) then w else w + WRITE_BIT }

  /** `m_state &= ~write_bits`. */
  function UnsetWrite(w: Word): Word { w % WRITE_BIT }

  /** `++m_state`, which wraps. */
  function IncReaders(w: Word): Word { (w + 1) % WORDS }

  /** `--m_state`, which wraps. */
  function DecReaders(w: Word): Word { (w - 1) % WORDS }

  /** The two parts of the word are independent for the write operations, whatever the count. */
  lemma WriteOpsKeepReaders(w: Word)
    ensures Readers(SetWrite(w)) == Readers(w) && HasWrite(SetWrite(w))
    ensures Readers(UnsetWrite(w)) == Readers(w) && !HasWrite(UnsetWrite(w))
  {
  }

  /** An increment counts one reader and leaves the write bit alone exactly when the count is not at its maximum. */
  lemma IncExact(w: Word)
    ensures Readers(IncReaders(w)) == Readers(w) + 1 && HasWrite(IncReaders(w)) == HasWrite(w) <==> !MaxReaders(w)
  {
    assert w == WRITE_BIT * (w / WRITE_BIT) + w % WRITE_BIT;
  }

  /** A decrement counts one reader off and leaves the write bit alone exactly when there is a reader. */
  lemma DecExact(w: Word)
    ensures Readers(DecReaders(w)) == Readers(w) - 1 && HasWrite(DecReaders(w)) == HasWrite(w) <==> HasReaders(w)
  {
    assert w == WRITE_BIT * (w / WRITE_BIT) + w % WRITE_BIT;
  }

  /** Which gate an operation notifies after it has released the internal mutex. */
  datatype Notice = NoNotice | AllAtGate1 | OneAtGate1 | OneAtGate2

  /** The choice made by `unlock_shared` from the word before and after its decrement. */
  function UnlockSharedNotice(before: Word): Notice {
    var after := DecReaders(before);
    if HasWrite(after) then (if HasReaders(after) then NoNotice else OneAtGate2)
    else if MaxReaders(before) then OneAtGate1 else NoNotice
  }

  /** The word as an object, updated in place. */
  class SharedState {
    var word: Word

    constructor ()
      ensures word == 0
    {
      word := 0;
    }

    method IncReadersInPlace()
      modifies this
      ensures word == IncReaders(old(word))
    {
      word := if word == WORDS - 1 then 0 else word + 1;
    }

    method DecReadersInPlace()
      modifies this
      ensures word == DecReaders(old(word))
    {
      word := if word == 0 then WORDS - 1 else word - 1;
    }

    method SetWriteInPlace()
      modifies this
      ensures word == SetWrite(old(word))
    {
      if word / WRITE_BIT == 0 {
        word := word + WRITE_BIT;
      }
    }

    method UnsetWriteInPlace()
      modifies this
      ensures word == UnsetWrite(old(word))
    {
      if word / WRITE_BIT != 0 {
        word := word - WRITE_BIT;
      }
    }
  }
}
