/**
  The limits of the engine: how much one call may skip, and which calls it refuses.
 */
module Limits {
  import opened Wrappers
  import opened SymbolicCrypto
  import opened Ratchet

  // ---- The skip limit, for every session --------------------------------------------------------

  lemma {:induction false} SkipIdsSize(ratchetKey: PublicKey, start: nat, until: nat)
    requires start <= until
    ensures |SkipIds(ratchetKey, start, until)| == until - start
    decreases until
  {
    if start < until {
      SkipIdsSize(ratchetKey, start, until - 1);
      assert SkipIds(ratchetKey, start, until)
             == SkipIds(ratchetKey, start, until - 1) + {SkipId(ratchetKey, until - 1)};
    } else {
      assert SkipIds(ratchetKey, start, until) == {};
    }
  }

  lemma RangeSize(ratchetKey: PublicKey, chain: Key, start: nat, until: nat)
    requires start <= until
    ensures |SkippedRange(ratchetKey, chain, start, until)| == until - start
  {
    SkipIdsSize(ratchetKey, start, until);
    assert SkippedRange(ratchetKey, chain, start, until).Keys == SkipIds(ratchetKey, start, until);
  }

  lemma UnionSize(a: map<SkipId, Key>, b: map<SkipId, Key>)
    ensures |a + b| <= |a| + |b|
  {
    assert (a + b).Keys == a.Keys + b.Keys;
    assert |a.Keys + b.Keys| == |a.Keys| + |b.Keys| - |a.Keys * b.Keys|;
  }

  /**
    skipMessageKeys, when it does not throw, advances chain and counter by exactly the same number of
    steps, files at most 2000 keys, and keeps every key filed before that it does not pass again.
   */
  lemma SkipLimited(s: Session, until: int, id: SkipId)
    requires !SkipTooFar(s, until) && s.receiveChain.Some? && s.remoteDh.Some? && s.receiveNumber <= until
    ensures Skip(s, until).receiveNumber == until
    ensures Skip(s, until).receiveChain == Some(ChainAt(s.receiveChain.value, until - s.receiveNumber))
    ensures |Skip(s, until).skipped| <= |s.skipped| + (until - s.receiveNumber) <= |s.skipped| + MAX_SKIP_MESSAGES
    ensures id in s.skipped && id !in SkipIds(s.remoteDh.value, s.receiveNumber, until) ==>
              id in Skip(s, until).skipped && Skip(s, until).skipped[id] == s.skipped[id]
  {
    RangeSize(s.remoteDh.value, s.receiveChain.value, s.receiveNumber, until);
    UnionSize(s.skipped, SkippedRange(s.remoteDh.value, s.receiveChain.value, s.receiveNumber, until));
    if until == s.receiveNumber {
      assert ChainAt(s.receiveChain.value, 0) == s.receiveChain.value;
    }
  }

  lemma SkipGrowth(s: Session, until: int)
    requires !SkipTooFar(s, until)
    ensures |Skip(s, until).skipped| <= |s.skipped| + MAX_SKIP_MESSAGES
  {
    if s.receiveChain.Some? && s.remoteDh.Some? && s.receiveNumber <= until {
      SkipLimited(s, until, SkipId(0, 0));
    }
  }

  /** Two skips in one call at most: one decrypt files at most 4000 keys, and refuses exactly beyond the guard. */
  lemma DecryptLimited(s: Session, m: EncryptedMessage, k: KeyPair)
    ensures |Decrypt(s, m, k).session.skipped| <= |s.skipped| + 2 * MAX_SKIP_MESSAGES
    ensures Decrypt(s, m, k).outcome == Err(TooManySkipped) <==> BeyondSkipLimit(s, m)
  {
    if HeaderId(m) in s.skipped {
      assert |TakeSkipped(s, HeaderId(m)).skipped.Keys| == |s.skipped.Keys| - 1;
    } else if !NeedsRatchet(s, m) {
      if !SkipTooFar(s, m.sequenceNumber) {
        SkipGrowth(s, m.sequenceNumber);
      }
    } else if !SkipTooFar(s, m.previousChainLength) {
      SkipGrowth(s, m.previousChainLength);
      var t := DhRatchet(Skip(s, m.previousChainLength), m.ephemeral, k);
      if !SkipTooFar(t, m.sequenceNumber) {
        SkipGrowth(t, m.sequenceNumber);
      }
    }
  }

  /**
    In numbers: a message on the chain in hand is refused from the 2001st number ahead on; one of another chain
    when more than 2000 numbers of the chain in hand are left, or its own number is above 2000.
   */
  lemma LimitIs2000(s: Session, m: EncryptedMessage, k: KeyPair)
    requires s.receiveChain.Some? && s.remoteDh.Some? && HeaderId(m) !in s.skipped
    ensures Decrypt(s, m, k).outcome == Err(TooManySkipped)
            <==> if s.remoteDh == Some(m.ephemeral) then m.sequenceNumber > s.receiveNumber + 2000
                 else m.previousChainLength > s.receiveNumber + 2000 || m.sequenceNumber > 2000
  {
    DecryptLimited(s, m, k);
  }

  /**
    What a refused call leaves behind: the copying store always holds the old session; the aliased one
    differs exactly when the ratchet step was taken before the second limit check threw.
   */
  lemma RefusalAtomicity(s: Session, m: EncryptedMessage, k: KeyPair)
    ensures Decrypt(s, m, k).outcome == Err(TooManySkipped) ==> Kept(false, s, Decrypt(s, m, k)) == s
    ensures (Kept(true, s, Decrypt(s, m, k)) != Kept(false, s, Decrypt(s, m, k))) == RatchetsThenRefuses(s, m)
  {
    if NeedsRatchet(s, m) && !SkipTooFar(s, m.previousChainLength) {
      assert DhRatchet(Skip(s, m.previousChainLength), m.ephemeral, k).remoteDh != s.remoteDh;
    }
  }

  predicate RatchetsThenRefuses(s: Session, m: EncryptedMessage) {
    && HeaderId(m) !in s.skipped
    && NeedsRatchet(s, m)
    && !SkipTooFar(s, m.previousChainLength)
    && MAX_SKIP_MESSAGES < m.sequenceNumber
  }
}
