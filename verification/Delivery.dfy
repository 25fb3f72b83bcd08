/**
  One decrypt of an envelope of the run, on the session of the party it was sent to: where the
  session ends up on the lineage, and what comes out.
 */
module Delivery {
  import opened Wrappers
  import opened SymbolicCrypto
  import opened Ratchet
  import opened Protocol
  import opened Lineage
  import opened SessionInvariant

  /** Same header; body and nonce may differ. */
  predicate SameHeader(m: EncryptedMessage, original: EncryptedMessage) {
    m == original.(ciphertext := m.ciphertext, nonce := m.nonce)
  }

  /**
    The situation of one decrypt call: envelope i of the log, number n of epoch x, arrives unused at
    a session in epoch e, whose peer is at most one epoch ahead.
   */
  ghost predicate Arrives(h: History, nextPair: PublicKey, sent: seq<Sent>, delivered: set<nat>,
                          s: Session, e: nat, i: nat, x: nat, n: nat, m: EncryptedMessage) {
    && SpineOk(h, nextPair) && IndexOk(h, sent) && SessionOk(h, delivered, s, e)
    && |h.spine.keys| <= e + 2
    && i < |sent| && i !in delivered
    && x < |h.index| && n < |h.index[x]| && h.index[x][n] == i
    && Opposite(x, e)
    && SameHeader(m, sent[i].message)
  }

  /** The envelope's header says where it lies. */
  lemma HeaderOfArrival(h: History, nextPair: PublicKey, sent: seq<Sent>, delivered: set<nat>,
                        s: Session, e: nat, i: nat, x: nat, n: nat, m: EncryptedMessage)
    requires Arrives(h, nextPair, sent, delivered, s, e, i, x, n, m)
    ensures EnvelopeAt(h, sent[i], x, n)
    ensures HeaderId(m) == SkipId(h.spine.keys[x], n) && h.epochOf[m.ephemeral] == x
    ensures m.previousChainLength == (if x >= 2 then |h.index[x - 2]| else 0)
    ensures Opened(sent[i].message, MessageKeyAt(h.spine, x, n)) == Ok(sent[i].text)
  {
    assert EnvelopeAt(h, sent[h.index[x][n]], x, n);
  }

  /** An unused envelope is filed, or lies ahead on the current chain, or opens the next epoch. */
  lemma ArrivalCases(h: History, nextPair: PublicKey, sent: seq<Sent>, delivered: set<nat>,
                     s: Session, e: nat, i: nat, x: nat, n: nat, m: EncryptedMessage)
    requires Arrives(h, nextPair, sent, delivered, s, e, i, x, n, m)
    ensures HeaderId(m) in s.skipped <==> n < Limit(h.index, e, s.receiveNumber, x)
    ensures HeaderId(m) !in s.skipped ==>
            (x + 1 == e && s.receiveNumber <= n && !NeedsRatchet(s, m)) || (x == e + 1 && NeedsRatchet(s, m))
  {
    HeaderOfArrival(h, nextPair, sent, delivered, s, e, i, x, n, m);
    assert HeaderId(m) in s.skipped <==> Pending(h, delivered, e, s.receiveNumber, HeaderId(m));
    if x == e + 1 && e > 0 {
      assert h.epochOf[h.spine.keys[e - 1]] == e - 1;
    }
  }

  /** An envelope ahead on the current chain: refused beyond the limit, otherwise used up under the sender's key. */
  lemma OnChain(h: History, nextPair: PublicKey, sent: seq<Sent>, delivered: set<nat>,
                s: Session, e: nat, i: nat, x: nat, n: nat, m: EncryptedMessage)
    requires Arrives(h, nextPair, sent, delivered, s, e, i, x, n, m)
    requires x + 1 == e && s.receiveNumber <= n
    ensures n > s.receiveNumber + MAX_SKIP_MESSAGES ==>
            DecryptOnChain(s, m) == Decryption(s, false, Err(TooManySkipped))
    ensures n <= s.receiveNumber + MAX_SKIP_MESSAGES ==>
              && DecryptOnChain(s, m).saved
              && DecryptOnChain(s, m).outcome == Opened(m, MessageKeyAt(h.spine, x, n))
              && SessionOk(h, delivered + {i}, DecryptOnChain(s, m).session, e)
  {
    HeaderOfArrival(h, nextPair, sent, delivered, s, e, i, x, n, m);
    if n <= s.receiveNumber + MAX_SKIP_MESSAGES {
      SkipKeeps(h, nextPair, delivered, s, e, n);
      ConsumeKeeps(h, nextPair, sent, delivered, Skip(s, n), e);
    }
  }

  /** The session as dhRatchetStep leaves it. */
  function AfterRatchet(s: Session, m: EncryptedMessage, k: PublicKey): Session {
    DhRatchet(Skip(s, m.previousChainLength), m.ephemeral, KeyPair(k))
  }

  lemma RatchetedSession(h: History, nextPair: PublicKey, sent: seq<Sent>, delivered: set<nat>,
                         s: Session, e: nat, i: nat, x: nat, n: nat, m: EncryptedMessage, k: PublicKey)
    requires Arrives(h, nextPair, sent, delivered, s, e, i, x, n, m)
    requires x == e + 1 && s.sendChain.Some? && k >= nextPair
    ensures SessionOk(Grown(h, k), delivered, AfterRatchet(s, m, k), e + 2)
  {
    HeaderOfArrival(h, nextPair, sent, delivered, s, e, i, x, n, m);
    if e >= 1 {
      SkipKeeps(h, nextPair, delivered, s, e, m.previousChainLength);
    }
    RatchetKeeps(h, nextPair, k, delivered, Skip(s, m.previousChainLength), e);
  }

  /** The ratchet branch up to and including dhRatchetStep: the envelope now lies on the live chain. */
  lemma Ratcheted(h: History, nextPair: PublicKey, sent: seq<Sent>, delivered: set<nat>,
                  s: Session, e: nat, i: nat, x: nat, n: nat, m: EncryptedMessage, k: PublicKey)
    requires Arrives(h, nextPair, sent, delivered, s, e, i, x, n, m)
    requires x == e + 1 && s.sendChain.Some? && k >= nextPair
    ensures Arrives(Grown(h, k), k + 1, sent, delivered, AfterRatchet(s, m, k), e + 2, i, x, n, m)
    ensures AfterRatchet(s, m, k).receiveNumber == 0
  {
    RatchetedSession(h, nextPair, sent, delivered, s, e, i, x, n, m, k);
    GrownSpineOk(h, nextPair, k);
    GrownIndexOk(h, nextPair, k, sent);
  }

  /** The session that was handed an envelope that opens the next epoch has sent before. */
  predicate MayRatchet(s: Session, h: History, e: nat) {
    |h.index| == e + 2 && |h.index[e + 1]| > 0 ==> s.sendChain.Some?
  }

  /** The session the store then holds, and the lineage it lies on. */
  ghost predicate Lands(h: History, delivered: set<nat>, s: Session, e: nat, i: nat, m: EncryptedMessage, k: PublicKey,
                        aliasing: bool, g: History, f: nat)
    requires |h.index| == |h.spine.keys|
  {
    var d := Decrypt(s, m, KeyPair(k));
    && ((g == h && f == e) || (g == Grown(h, k) && f == e + 2 && |h.spine.keys| == e + 2))
    && SessionOk(g, if d.saved then delivered + {i} else delivered, Kept(aliasing, s, d), f)
  }

  /** Refused exactly beyond the skip limit; otherwise opened under the key it was sealed with. */
  predicate Answers(h: History, s: Session, x: nat, n: nat, m: EncryptedMessage, k: PublicKey)
    requires x < |h.spine.keys|
  {
    var d := Decrypt(s, m, KeyPair(k));
    && (d.saved <==> !BeyondSkipLimit(s, m))
    && d.outcome == (if BeyondSkipLimit(s, m) then Err(TooManySkipped) else Opened(m, MessageKeyAt(h.spine, x, n)))
  }

  /** The ratchet branch of decrypt, and the guard on it, in terms of the session after the step. */
  lemma RatchetBranch(s: Session, m: EncryptedMessage, k: PublicKey)
    requires HeaderId(m) !in s.skipped && NeedsRatchet(s, m) && !SkipTooFar(s, m.previousChainLength)
    ensures Decrypt(s, m, KeyPair(k)) == DecryptOnChain(AfterRatchet(s, m, k), m)
    ensures BeyondSkipLimit(s, m) <==> MAX_SKIP_MESSAGES < m.sequenceNumber
  {
  }

  lemma DecryptByRatchet(h: History, nextPair: PublicKey, sent: seq<Sent>, delivered: set<nat>,
                         s: Session, e: nat, i: nat, x: nat, n: nat, m: EncryptedMessage, k: PublicKey, aliasing: bool)
    returns (g: History, f: nat)
    requires Arrives(h, nextPair, sent, delivered, s, e, i, x, n, m)
    requires HeaderId(m) !in s.skipped && x == e + 1 && NeedsRatchet(s, m) && s.sendChain.Some? && k >= nextPair
    ensures Answers(h, s, x, n, m, k)
    ensures Lands(h, delivered, s, e, i, m, k, aliasing, g, f)
  {
    if SkipTooFar(s, m.previousChainLength) {
      g, f := h, e;
    } else {
      HeaderOfArrival(h, nextPair, sent, delivered, s, e, i, x, n, m);
      RatchetBranch(s, m, k);
      g, f := RatchetedCall(h, nextPair, sent, delivered, s, e, i, x, n, m, k, aliasing);
    }
  }

  lemma RatchetedCall(h: History, nextPair: PublicKey, sent: seq<Sent>, delivered: set<nat>,
                      s: Session, e: nat, i: nat, x: nat, n: nat, m: EncryptedMessage, k: PublicKey, aliasing: bool)
    returns (g: History, f: nat)
    requires Arrives(h, nextPair, sent, delivered, s, e, i, x, n, m)
    requires x == e + 1 && s.sendChain.Some? && k >= nextPair
    ensures var d := DecryptOnChain(AfterRatchet(s, m, k), m);
            && (d.saved <==> n <= MAX_SKIP_MESSAGES)
            && d.outcome == (if n <= MAX_SKIP_MESSAGES then Opened(m, MessageKeyAt(h.spine, x, n))
                             else Err(TooManySkipped))
            && SessionOk(g, if d.saved then delivered + {i} else delivered, Kept(aliasing, s, d), f)
    ensures (g == h && f == e) || (g == Grown(h, k) && f == e + 2 && |h.spine.keys| == e + 2)
  {
    Ratcheted(h, nextPair, sent, delivered, s, e, i, x, n, m, k);
    ChainStartKept(h.spine, k);
    OnChain(Grown(h, k), k + 1, sent, delivered, AfterRatchet(s, m, k), e + 2, i, x, n, m);
    if n <= MAX_SKIP_MESSAGES || aliasing {
      g, f := Grown(h, k), e + 2;
    } else {
      g, f := h, e;
    }
  }

  /**
    One decrypt of an unused envelope: refused exactly beyond the skip limit; otherwise the envelope
    is used up and opened under exactly the key its sender sealed it with. Either way the session
    the store then holds is where it should be on the (possibly grown) lineage.
   */
  lemma DecryptKeeps(h: History, nextPair: PublicKey, sent: seq<Sent>, delivered: set<nat>,
                     s: Session, e: nat, i: nat, x: nat, n: nat, m: EncryptedMessage, k: PublicKey, aliasing: bool)
    returns (g: History, f: nat)
    requires Arrives(h, nextPair, sent, delivered, s, e, i, x, n, m)
    requires MayRatchet(s, h, e) && k >= nextPair
    ensures Answers(h, s, x, n, m, k)
    ensures Lands(h, delivered, s, e, i, m, k, aliasing, g, f)
  {
    ArrivalCases(h, nextPair, sent, delivered, s, e, i, x, n, m);
    if HeaderId(m) !in s.skipped && x == e + 1 {
      g, f := DecryptByRatchet(h, nextPair, sent, delivered, s, e, i, x, n, m, k, aliasing);
    } else {
      g, f := h, e;
      HeaderOfArrival(h, nextPair, sent, delivered, s, e, i, x, n, m);
      if HeaderId(m) in s.skipped {
        TakeKeeps(h, nextPair, sent, delivered, s, e, x, n);
      } else {
        OnChain(h, nextPair, sent, delivered, s, e, i, x, n, m);
      }
    }
  }
}
