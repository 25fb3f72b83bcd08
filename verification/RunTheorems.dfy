/**
  What every legal run guarantees, stated on the parties' sessions and the log alone.
 */
module RunTheorems {
  import opened Wrappers
  import opened SymbolicCrypto
  import opened Ratchet
  import opened Protocol
  import opened Lineage
  import opened SessionInvariant
  import opened Delivery
  import opened RunInvariant

  /** The session the receiving engine works on: the stored one, or the one Bob builds from his first envelope. */
  function ReceivingSession(w: World, i: nat): Session
    requires i < |w.sent|
  {
    var s := SessionOf(w, Peer(w.sent[i].from));
    if s.Some? then s.value
    else
      var start := BobStarts(w, w.sent[i].message);
      if start.Ok? && start.value.bob.Some? then start.value.bob.value else w.alice
  }

  // ---- Every step keeps the invariant ----------------------------------------------------------

  lemma OnSessionInRun(w: World, i: nat, m: EncryptedMessage)
    requires InRun(w) && w.bob.Some? && i < |w.sent| && i !in w.delivered && SameHeader(m, w.sent[i].message)
    ensures var p := Peer(w.sent[i].from);
            HandedOver(w, SessionOf(w, p).value, i, m, HandOverOnSession(w, p, SessionOf(w, p).value, i, m))
  {
    var h, a: nat, b: nat :| Tied(w, h, a, b);
    OnSession(w, h, a, b, i, m);
  }

  lemma BobJoinsInRun(w: World, i: nat, m: EncryptedMessage)
    requires InRun(w) && w.bob.None? && MayHandOver(w, i) && SameHeader(m, w.sent[i].message)
    ensures w.sent[i].from == Alice
    ensures BobStarts(w, m).Ok?
    ensures var v := BobStarts(w, m).value;
            InRun(v) && v.bob.Some? && v.sent == w.sent && v.delivered == w.delivered && v.aliasing == w.aliasing
  {
    var h, a: nat, b: nat :| Tied(w, h, a, b);
    BobJoins(w, h, a, b, m, i);
  }

  lemma HandingOver(w: World, i: nat, m: EncryptedMessage)
    requires InRun(w) && MayHandOver(w, i) && SameHeader(m, w.sent[i].message)
    ensures HandedOver(w, ReceivingSession(w, i), i, m, HandOver(w, i, m))
  {
    if w.bob.Some? {
      OnSessionInRun(w, i, m);
    } else {
      HandingOverFirst(w, i, m);
    }
  }

  lemma HandingOverFirst(w: World, i: nat, m: EncryptedMessage)
    requires InRun(w) && w.bob.None? && MayHandOver(w, i) && SameHeader(m, w.sent[i].message)
    ensures HandedOver(w, ReceivingSession(w, i), i, m, HandOver(w, i, m))
  {
    BobJoinsInRun(w, i, m);
    OnSessionInRun(BobStarts(w, m).value, i, m);
    FirstHandOver(w, i, m);
  }

  lemma FirstHandOver(w: World, i: nat, m: EncryptedMessage)
    requires i < |w.sent| && w.sent[i].from == Alice && w.bob.None? && SameHeader(m, w.sent[i].message)
    requires BobStarts(w, m).Ok?
    ensures var v := BobStarts(w, m).value;
            && v.bob.Some?
            && ReceivingSession(w, i) == v.bob.value
            && HandOver(w, i, m) == HandOverOnSession(v, Bob, v.bob.value, i, m)
  {
    assert BobStarts(w, w.sent[i].message) == BobStarts(w, m);
  }

  lemma StepKeeps(w: World, step: Step)
    requires InRun(w) && Allowed(w, step)
    ensures InRun(Next(w, step))
  {
    match step
    case Send(p, text, context, nonce) =>
      var h, a: nat, b: nat :| Tied(w, h, a, b);
      SendingKeeps(w, h, a, b, p, text, context, nonce);
    case Deliver(i) =>
      HandingOver(w, i, w.sent[i].message);
    case DeliverDamaged(i, c, nonce) =>
      HandingOver(w, i, Damaged(w.sent[i].message, c, nonce));
  }

  lemma {:induction false} RunKeeps(w: World, steps: seq<Step>)
    requires InRun(w) && Legal(w, steps)
    ensures InRun(Run(w, steps))
    decreases |steps|
  {
    if steps != [] {
      StepKeeps(w, steps[0]);
      RunKeeps(Next(w, steps[0]), steps[1..]);
    }
  }

  // ---- Delivery --------------------------------------------------------------------------------

  /**
    In any reachable state an unused, unaltered envelope opens to exactly the text that was sent, if
    and only if it lies within the skip limit; beyond it the call is refused and nothing is used up.
   */
  lemma Delivers(w: World, i: nat)
    requires InRun(w) && MayHandOver(w, i)
    ensures HandOver(w, i, w.sent[i].message).outcome
              == (if BeyondSkipLimit(ReceivingSession(w, i), w.sent[i].message) then Err(TooManySkipped)
                  else Ok(w.sent[i].text))
    ensures HandOver(w, i, w.sent[i].message).world.delivered
              == (if BeyondSkipLimit(ReceivingSession(w, i), w.sent[i].message) then w.delivered else w.delivered + {i})
  {
    HandingOver(w, i, w.sent[i].message);
    SealedAsSent(w, i);
  }

  lemma SealedAsSent(w: World, i: nat)
    requires InRun(w) && i < |w.sent|
    ensures w.sent[i].message.ciphertext.SecretBox?
    ensures Opened(w.sent[i].message, w.sent[i].message.ciphertext.key) == Ok(w.sent[i].text)
  {
    var h, e := Stand(w, Alice);
    var x, n := PlaceOf(h, w.nextPair, w.sent, w.delivered, w.alice, e, i);
  }

  /** The delivery theorem over whole runs: any sends, any order, any losses, any damage on the way. */
  lemma DeliveryTheorem(aliceIdentity: KeyPair, bobIdentity: KeyPair, bundle: PreKeyBundle,
                        signedPreKey: Option<KeyPair>, oneTimePreKeys: map<int, KeyPair>, aliasing: bool,
                        ephemeral: PublicKey, steps: seq<Step>, i: nat)
    requires Genuine(aliceIdentity, bobIdentity, bundle, signedPreKey, ephemeral)
    requires var start :=
             Initiated(aliceIdentity, bobIdentity, bundle, signedPreKey, oneTimePreKeys, aliasing, ephemeral);
             Legal(start, steps) && MayHandOver(Run(start, steps), i)
    ensures var w := Run(Initiated(aliceIdentity, bobIdentity, bundle, signedPreKey, oneTimePreKeys, aliasing,
                                   ephemeral), steps);
            HandOver(w, i, w.sent[i].message).outcome
              == (if BeyondSkipLimit(ReceivingSession(w, i), w.sent[i].message) then Err(TooManySkipped)
                  else Ok(w.sent[i].text))
  {
    InitiatedInRun(aliceIdentity, bobIdentity, bundle, signedPreKey, oneTimePreKeys, aliasing, ephemeral);
    var start := Initiated(aliceIdentity, bobIdentity, bundle, signedPreKey, oneTimePreKeys, aliasing, ephemeral);
    RunKeeps(start, steps);
    Delivers(Run(start, steps), i);
  }

  // ---- Damage ----------------------------------------------------------------------------------

  /** Body and nonce decide only what the caller sees, never what becomes of any session. */
  lemma BodyIsNotState(s: Session, m: EncryptedMessage, c: Ciphertext, nonce: nat, k: KeyPair)
    ensures Decrypt(s, Damaged(m, c, nonce), k).session == Decrypt(s, m, k).session
    ensures Decrypt(s, Damaged(m, c, nonce), k).saved == Decrypt(s, m, k).saved
  {
    assert HeaderId(Damaged(m, c, nonce)) == HeaderId(m);
  }

  /**
    An envelope damaged behind an intact header costs that envelope and nothing else: the state
    afterwards is the one its undamaged twin would have left, and a body that is not sealed under the
    envelope's key and nonce comes out as an error.
   */
  lemma DamageContained(w: World, i: nat, c: Ciphertext, nonce: nat)
    requires InRun(w) && MayHandOver(w, i)
    ensures HandOver(w, i, Damaged(w.sent[i].message, c, nonce)).world == HandOver(w, i, w.sent[i].message).world
    ensures w.sent[i].message.ciphertext.SecretBox?
    ensures (c.SecretBox? ==> c.key != w.sent[i].message.ciphertext.key || c.nonce != nonce)
              ==> HandOver(w, i, Damaged(w.sent[i].message, c, nonce)).outcome.Err?
  {
    HandingOver(w, i, Damaged(w.sent[i].message, c, nonce));
    SealedAsSent(w, i);
    if w.bob.None? {
      BobJoinsInRun(w, i, w.sent[i].message);
    }
    SameWorld(w, i, c, nonce);
  }

  lemma SameWorld(w: World, i: nat, c: Ciphertext, nonce: nat)
    requires i < |w.sent| && (w.sent[i].from == Alice || w.bob.Some?)
    ensures HandOver(w, i, Damaged(w.sent[i].message, c, nonce)).world == HandOver(w, i, w.sent[i].message).world
  {
    var m := w.sent[i].message;
    assert BobStarts(w, Damaged(m, c, nonce)) == BobStarts(w, m);
    BodyIsNotState(ReceivingSession(w, i), m, c, nonce, KeyPair(w.nextPair));
    BodyIsNotState(ReceivingSession(w, i), m, c, nonce, KeyPair(w.nextPair + 1));
  }

  // ---- The two key lineages --------------------------------------------------------------------

  /**
    The side in epoch f is ahead of the side in epoch e by one: it has derived its send chain from the
    very root, and with the very agreement, that the other side's next ratchet step will use.
   */
  predicate NextStepMeets(behind: Session, ahead: Session, sp: Spine, e: nat, f: nat)
    requires e < |sp.keys| && f < |sp.keys|
  {
    && behind.root == RootAt(sp, f)
    && ahead.sendChain == Some(ChainAt(ChainOf(behind.root, ScalarMult(behind.localDh, sp.keys[f])), ahead.sendNumber))
  }

  lemma Meets(h: History, s: Session, e: nat, t: Session, f: nat)
    requires h.spine.master.Master? && ChainsOk(h, s, e) && ChainsOk(h, t, f) && Neighbours(h, e, f) && f == e + 1
    requires t.sendChain.Some?
    ensures s.sendChain.Some? && NextStepMeets(s, t, h.spine, e, f)
  {
  }

  /**
    Both root keys lie on one derivation chain that starts at a master secret, each at the epoch of the
    side's own ratchet key, and the epochs are one apart. Bob's root stays at the first step until his
    lazy send chain is made; otherwise the side that is behind is exactly where the peer's chain starts.
   */
  lemma RootsInLockStep(w: World) returns (sp: Spine, a: nat, b: nat)
    requires InRun(w) && w.bob.Some?
    ensures sp.master.Master? && a % 2 == 0 && b % 2 == 1 && (a == b + 1 || b == a + 1)
    ensures |sp.keys| == (if a > b then a else b) + 1
    ensures sp.keys[a] == w.alice.localDh.publicKey && sp.keys[b] == w.bob.value.localDh.publicKey
    ensures w.alice.root == RootAt(sp, a + 1)
    ensures w.bob.value.root == RootAt(sp, if w.bob.value.sendChain.None? then 1 else b + 1)
    ensures w.bob.value.sendChain.None? ==> a == 0 && b == 1
    ensures a > b ==> w.bob.value.sendChain.Some? && NextStepMeets(w.bob.value, w.alice, sp, b, a)
    ensures b > a && w.bob.value.sendChain.Some? ==> NextStepMeets(w.alice, w.bob.value, sp, a, b)
  {
    var h, a': nat, b': nat :| Tied(w, h, a', b');
    sp, a, b := h.spine, a', b';
    if a > b {
      Meets(h, w.bob.value, b, w.alice, a);
    } else if w.bob.value.sendChain.Some? {
      Meets(h, w.alice, a, w.bob.value, b);
    }
  }

  /**
    A receiving chain is a position on the sender's chain: every envelope sent under the ratchet key a
    side is listening to, and not yet passed, was sealed under the key that side will derive for it.
   */
  lemma ReceiveChainMatches(w: World, p: Party, i: nat)
    requires InRun(w) && SessionOf(w, p).Some? && i < |w.sent| && w.sent[i].from == Peer(p)
    requires var s := SessionOf(w, p).value;
             s.remoteDh == Some(w.sent[i].message.ephemeral) && s.receiveNumber <= w.sent[i].message.sequenceNumber
    ensures var s, m := SessionOf(w, p).value, w.sent[i].message;
            && s.receiveChain.Some?
            && m.ciphertext.SecretBox?
            && m.ciphertext.key == MessageKeyOf(ChainAt(s.receiveChain.value, m.sequenceNumber - s.receiveNumber))
  {
    var h, e := Stand(w, p);
    ChainKeyAhead(h, w.nextPair, w.sent, w.delivered, SessionOf(w, p).value, e, p, i);
  }

  lemma ChainKeyAhead(h: History, nextPair: PublicKey, sent: seq<Sent>, delivered: set<nat>, s: Session, e: nat,
                      p: Party, i: nat)
    requires Standing(h, nextPair, sent, delivered, s, e) && Owner(e) == p && i < |sent| && sent[i].from == Peer(p)
    requires s.remoteDh == Some(sent[i].message.ephemeral) && s.receiveNumber <= sent[i].message.sequenceNumber
    ensures var m := sent[i].message;
            && s.receiveChain.Some?
            && m.ciphertext.SecretBox?
            && m.ciphertext.key == MessageKeyOf(ChainAt(s.receiveChain.value, m.sequenceNumber - s.receiveNumber))
  {
    var x, n := PlaceOf(h, nextPair, sent, delivered, s, e, i);
    OnLiveChain(h, s, e, x);
    AheadOnChain(h, s, e, x, n);
  }

  /** No two encrypt calls of a run, in either direction and any epoch, use the same message key. */
  lemma MessageKeysUnique(w: World, i: nat, j: nat)
    requires InRun(w) && i < |w.sent| && j < |w.sent| && i != j
    ensures w.sent[i].message.ciphertext.SecretBox? && w.sent[j].message.ciphertext.SecretBox?
    ensures w.sent[i].message.ciphertext.key != w.sent[j].message.ciphertext.key
  {
    var h, e := Stand(w, Alice);
    var x, m := PlaceOf(h, w.nextPair, w.sent, w.delivered, w.alice, e, i);
    var y, n := PlaceOf(h, w.nextPair, w.sent, w.delivered, w.alice, e, j);
    if w.sent[i].message.ciphertext.key == w.sent[j].message.ciphertext.key {
      MessageKeyAtInjective(h.spine, x, m, y, n);
    }
  }

  // ---- The skipped-key table -------------------------------------------------------------------

  /** Every filed key belongs to one unused envelope of the peer, and is the key it was sealed under. */
  lemma FiledKeysAreOwed(w: World, p: Party, id: SkipId) returns (i: nat)
    requires InRun(w) && SessionOf(w, p).Some?
    ensures id in SessionOf(w, p).value.skipped ==>
              && i < |w.sent| && i !in w.delivered && w.sent[i].from == Peer(p)
              && HeaderId(w.sent[i].message) == id && w.sent[i].message.ciphertext.SecretBox?
              && SessionOf(w, p).value.skipped[id] == w.sent[i].message.ciphertext.key
  {
    i := 0;
    if id in SessionOf(w, p).value.skipped {
      var h, e := Stand(w, p);
      i := BehindFiledKey(h, w.nextPair, w.sent, w.delivered, SessionOf(w, p).value, e, id);
    }
  }

  /** The side has gone past this envelope's number: on its live chain, or on a chain it has left. */
  ghost predicate GonePast(w: World, p: Party, i: nat)
    requires SessionOf(w, p).Some? && i < |w.sent|
  {
    var s, m := SessionOf(w, p).value, w.sent[i].message;
    if s.remoteDh == Some(m.ephemeral) then m.sequenceNumber < s.receiveNumber
    else exists j :: 0 <= j < |w.sent| && j in w.delivered && w.sent[j].message.ephemeral == m.ephemeral
  }

  lemma OnLiveChain(h: History, s: Session, e: nat, x: nat)
    requires ChainsOk(h, s, e) && x < |h.index| && s.remoteDh == Some(h.spine.keys[x])
    requires h.spine.base !in h.epochOf && h.spine.keys[x] in h.epochOf && h.epochOf[h.spine.keys[x]] == x
    requires e > 0 ==> h.spine.keys[e - 1] in h.epochOf && h.epochOf[h.spine.keys[e - 1]] == e - 1
    ensures x + 1 == e && Limit(h.index, e, s.receiveNumber, x) == s.receiveNumber
  {
  }

  lemma OnFinishedChain(h: History, s: Session, e: nat, x: nat, k: nat, n: nat)
    requires ChainsOk(h, s, e) && x < |h.index| && s.remoteDh != Some(h.spine.keys[x])
    requires k < Limit(h.index, e, s.receiveNumber, x) && n < |h.index[x]|
    ensures n < Limit(h.index, e, s.receiveNumber, x)
  {
  }

  /**
    For every remote ratchet key seen, what has been gone past splits exactly into used envelopes and
    filed keys, never both; and what has not been gone past on a live chain is neither.
   */
  lemma SkippedKeysConserved(w: World, p: Party, i: nat)
    requires InRun(w) && SessionOf(w, p).Some? && i < |w.sent| && w.sent[i].from == Peer(p)
    ensures var s, m := SessionOf(w, p).value, w.sent[i].message;
            && (GonePast(w, p, i) ==> (i in w.delivered <==> HeaderId(m) !in s.skipped))
            && (i in w.delivered ==> HeaderId(m) !in s.skipped)
            && (s.remoteDh == Some(m.ephemeral) && !GonePast(w, p, i) ==>
                i !in w.delivered && HeaderId(m) !in s.skipped)
  {
    var h, e := Stand(w, p);
    var s := SessionOf(w, p).value;
    var x, n := PlaceOf(h, w.nextPair, w.sent, w.delivered, s, e, i);
    Disposition(h, w.nextPair, w.sent, w.delivered, s, e, i, x, n);
    if s.remoteDh == Some(w.sent[i].message.ephemeral) {
      OnLiveChain(h, s, e, x);
    } else if GonePast(w, p, i) {
      var j :| 0 <= j < |w.sent| && j in w.delivered && w.sent[j].message.ephemeral == w.sent[i].message.ephemeral;
      var y, k := PlaceOf(h, w.nextPair, w.sent, w.delivered, s, e, j);
      Disposition(h, w.nextPair, w.sent, w.delivered, s, e, j, y, k);
      OnFinishedChain(h, s, e, x, k, n);
    }
  }

  /** Every number below the live counter was really sent: the counter never runs ahead of the peer. */
  lemma CounterWithinSent(w: World, p: Party, n: nat) returns (i: nat)
    requires InRun(w) && SessionOf(w, p).Some? && n < SessionOf(w, p).value.receiveNumber
    ensures i < |w.sent| && w.sent[i].from == Peer(p)
    ensures Some(w.sent[i].message.ephemeral) == SessionOf(w, p).value.remoteDh && w.sent[i].message.sequenceNumber == n
  {
    var h, e := Stand(w, p);
    i := NumberedOnChain(h, w.nextPair, w.sent, w.delivered, SessionOf(w, p).value, e, n);
  }
}
