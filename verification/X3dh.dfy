/**
  Session set-up: when the two sides derive the same secrets, what becomes of the one-time prekey,
  and what a first envelope that does not name it does to the conversation.
 */
module X3dh {
  import opened Wrappers
  import opened SymbolicCrypto
  import opened Ratchet
  import opened Protocol
  import opened Lineage
  import opened SessionInvariant
  import opened RunInvariant
  import opened RunTheorems

  /** Both masters agree exactly when both prekeys do. */
  lemma MastersAgree(alice: KeyPair, bob: KeyPair, ephemeral: KeyPair, bundle: PreKeyBundle,
                     signedPreKey: KeyPair, oneTime: Option<KeyPair>)
    requires bundle.identity == bob.publicKey
    ensures var theirs := ResponderMaster(bob, signedPreKey, oneTime, alice.publicKey, ephemeral.publicKey);
            (InitiatorMaster(alice, ephemeral, bundle) == theirs)
              == (signedPreKey.publicKey == bundle.signedPreKey && SameOneTime(bundle, oneTime))
  {
    var a := InitiatorMaster(alice, ephemeral, bundle).agreements;
    var b := ResponderMaster(bob, signedPreKey, oneTime, alice.publicKey, ephemeral.publicKey).agreements;
    assert a[2] == Agree(ephemeral.publicKey, bundle.signedPreKey);
    assert b[2] == Agree(signedPreKey.publicKey, ephemeral.publicKey);
    if |a| == 4 && |b| == 4 {
      assert a[3] == Agree(ephemeral.publicKey, bundle.oneTimePreKey.value.1);
      assert b[3] == Agree(oneTime.value.publicKey, ephemeral.publicKey);
    }
  }

  /** Root key and first chain key of both sides agree exactly when both prekeys do. */
  lemma SessionsAgree(alice: KeyPair, bob: KeyPair, ephemeral: KeyPair, bundle: PreKeyBundle,
                      signedPreKey: KeyPair, oneTime: Option<KeyPair>, ratchet: KeyPair)
    requires bundle.identity == bob.publicKey
    ensures var s := InitiatorSession(alice, ephemeral, bundle);
            var t := ResponderSession(bob, signedPreKey, oneTime, alice.publicKey, ephemeral.publicKey,
                                      ephemeral.publicKey, ratchet);
            (s.root == t.root && s.sendChain == t.receiveChain)
              == (signedPreKey.publicKey == bundle.signedPreKey && SameOneTime(bundle, oneTime))
  {
    MastersAgree(alice, bob, ephemeral, bundle, signedPreKey, oneTime);
  }

  /** The prekey an envelope names is gone afterwards, so no later session can find it; no other is touched. */
  lemma OneTimePreKeyConsumed(w: World, m: EncryptedMessage, other: Option<int>)
    requires BobStarts(w, m).Ok?
    ensures Lookup(BobStarts(w, m).value, m.oneTimePreKeyId).None?
    ensures other != m.oneTimePreKeyId ==> Lookup(BobStarts(w, m).value, other) == Lookup(w, other)
  {
  }

  // ---- A conversation whose ends disagree ------------------------------------------------------

  /** The master secret at the bottom of a key. */
  function Origin(k: Key): Key {
    match k
    case Master(_) => k
    case RootOf(root, _) => Origin(root)
    case ChainOf(root, _) => Origin(root)
    case NextChain(chain) => Origin(chain)
    case MessageKeyOf(chain) => Origin(chain)
  }

  lemma {:induction false} OriginOfChain(chain: Key, n: nat)
    ensures Origin(ChainAt(chain, n)) == Origin(chain)
  {
    if n > 0 {
      OriginOfChain(chain, n - 1);
    }
  }

  /** Every key of the session goes back to one master. */
  ghost predicate From(s: Session, master: Key) {
    && Origin(s.root) == master
    && (s.sendChain.Some? ==> Origin(s.sendChain.value) == master)
    && (s.receiveChain.Some? ==> Origin(s.receiveChain.value) == master)
    && (forall id | id in s.skipped :: Origin(s.skipped[id]) == master)
  }

  lemma SkipFrom(s: Session, master: Key, until: int)
    requires From(s, master)
    ensures From(Skip(s, until), master)
  {
    if s.receiveChain.Some? && s.remoteDh.Some? && until > s.receiveNumber {
      OriginOfChain(s.receiveChain.value, until - s.receiveNumber);
      forall id | id in SkippedRange(s.remoteDh.value, s.receiveChain.value, s.receiveNumber, until)
        ensures Origin(SkippedRange(s.remoteDh.value, s.receiveChain.value, s.receiveNumber, until)[id]) == master
      {
        OriginOfChain(s.receiveChain.value, id.number - s.receiveNumber);
      }
    }
  }

  lemma RatchetFrom(s: Session, master: Key, ephemeral: PublicKey, k: KeyPair)
    requires From(s, master)
    ensures From(DhRatchet(s, ephemeral, k), master)
  {
    var t := DhRatchet(s, ephemeral, k);
    assert Origin(t.receiveChain.value) == Origin(s.root);
    assert Origin(RootOf(s.root, ScalarMult(s.localDh, ephemeral))) == Origin(s.root);
  }

  lemma OnChainFrom(s: Session, master: Key, m: EncryptedMessage)
    requires From(s, master)
    ensures From(DecryptOnChain(s, m).session, master)
    ensures m.ciphertext.SecretBox? && Origin(m.ciphertext.key) != master ==> DecryptOnChain(s, m).outcome.Err?
  {
    SkipFrom(s, master, m.sequenceNumber);
    var t := Skip(s, m.sequenceNumber);
    if t.receiveChain.Some? {
      assert Origin(NextChain(t.receiveChain.value)) == master;
      assert Origin(MessageKeyOf(t.receiveChain.value)) == master;
    }
  }

  /** Decrypting keeps the origin, and opens nothing that was sealed under another one. */
  lemma DecryptFrom(s: Session, master: Key, m: EncryptedMessage, k: KeyPair)
    requires From(s, master)
    ensures From(Decrypt(s, m, k).session, master)
    ensures m.ciphertext.SecretBox? && Origin(m.ciphertext.key) != master ==> Decrypt(s, m, k).outcome.Err?
  {
    SkipFrom(s, master, m.previousChainLength);
    RatchetFrom(Skip(s, m.previousChainLength), master, m.ephemeral, k);
    OnChainFrom(s, master, m);
    OnChainFrom(DhRatchet(Skip(s, m.previousChainLength), m.ephemeral, k), master, m);
  }

  lemma SendFrom(s: Session, master: Key, identity: PublicKey, text: string, context: Option<int>, nonce: nat)
    requires From(s, master) && CanSend(s)
    ensures From(AfterSend(s), master)
    ensures Origin(Envelope(s, identity, text, context, nonce).ciphertext.key) == master
  {
    var t := WithSendChain(s);
    assert Origin(t.root) == master && Origin(t.sendChain.value) == master;
    assert Origin(NextChain(t.sendChain.value)) == master;
  }

  /** Alice's keys all go back to one master, Bob's to another, and so do the boxes each has sent. */
  ghost predicate Estranged(w: World, mine: Key, theirs: Key) {
    && mine != theirs
    && From(w.alice, mine)
    && w.bob.Some? && From(w.bob.value, theirs)
    && (forall i | 0 <= i < |w.sent| ::
          && w.sent[i].message.ciphertext.SecretBox?
          && Origin(w.sent[i].message.ciphertext.key) == MasterOf(w.sent[i].from, mine, theirs))
  }

  /** One step with no restriction at all: replays and every order are included. */
  function Anything(w: World, step: Step): World {
    match step
    case Send(p, text, context, nonce) => AfterSending(w, p, text, context, nonce)
    case Deliver(i) => if i < |w.sent| then HandOver(w, i, w.sent[i].message).world else w
    case DeliverDamaged(i, c, nonce) =>
      if i < |w.sent| then HandOver(w, i, Damaged(w.sent[i].message, c, nonce)).world else w
  }

  function Everything(w: World, steps: seq<Step>): World
    decreases |steps|
  {
    if steps == [] then w else Everything(Anything(w, steps[0]), steps[1..])
  }

  function MasterOf(p: Party, mine: Key, theirs: Key): Key {
    if p.Alice? then mine else theirs
  }

  lemma EstrangedOnHandOver(w: World, mine: Key, theirs: Key, i: nat, m: EncryptedMessage)
    requires Estranged(w, mine, theirs) && i < |w.sent|
    ensures Estranged(HandOver(w, i, m).world, mine, theirs)
  {
    var p := Peer(w.sent[i].from);
    DecryptFrom(SessionOf(w, p).value, MasterOf(p, mine, theirs), m, KeyPair(w.nextPair));
  }

  lemma EstrangedStays(w: World, mine: Key, theirs: Key, step: Step)
    requires Estranged(w, mine, theirs)
    ensures Estranged(Anything(w, step), mine, theirs)
  {
    match step
    case Send(p, text, context, nonce) =>
      var s := SessionOf(w, p).value;
      if CanSend(s) {
        SendFrom(s, MasterOf(p, mine, theirs), IdentityOf(w, p).publicKey, text, context, nonce);
      }
    case Deliver(i) =>
      if i < |w.sent| {
        EstrangedOnHandOver(w, mine, theirs, i, w.sent[i].message);
      }
    case DeliverDamaged(i, c, nonce) =>
      if i < |w.sent| {
        EstrangedOnHandOver(w, mine, theirs, i, Damaged(w.sent[i].message, c, nonce));
      }
  }

  lemma {:induction false} EstrangedForGood(w: World, mine: Key, theirs: Key, steps: seq<Step>)
    requires Estranged(w, mine, theirs)
    ensures Estranged(Everything(w, steps), mine, theirs)
    decreases |steps|
  {
    if steps != [] {
      EstrangedStays(w, mine, theirs, steps[0]);
      EstrangedForGood(Anything(w, steps[0]), mine, theirs, steps[1..]);
    }
  }

  lemma NothingOpens(w: World, mine: Key, theirs: Key, i: nat)
    requires Estranged(w, mine, theirs) && i < |w.sent|
    ensures HandOver(w, i, w.sent[i].message).outcome.Err?
  {
    var p := Peer(w.sent[i].from);
    DecryptFrom(SessionOf(w, p).value, MasterOf(p, mine, theirs), w.sent[i].message, KeyPair(w.nextPair));
  }

  lemma {:induction false} OriginOfRoot(sp: Spine, i: nat)
    requires i <= |sp.keys| && sp.master.Master?
    ensures Origin(RootAt(sp, i)) == sp.master
  {
    if i > 0 {
      OriginOfRoot(sp, i - 1);
    }
  }

  /** What the run invariant says about origins while Bob has no session. */
  lemma OneOrigin(w: World)
    requires InRun(w) && w.bob.None?
    ensures w.alice.root.RootOf? && w.signedPreKey == Some(KeyPair(w.bundle.signedPreKey))
            && w.bundle.identity == w.bobIdentity.publicKey
    ensures w.alice.root.root == InitiatorMaster(w.aliceIdentity, w.alice.localDh, w.bundle)
    ensures From(w.alice, w.alice.root.root)
    ensures forall i | 0 <= i < |w.sent| ::
              && w.sent[i].from == Alice
              && w.sent[i].message.initialIdentity == Some(w.aliceIdentity.publicKey)
              && w.sent[i].message.initialEphemeral == Some(w.alice.localDh.publicKey)
              && w.sent[i].message.ephemeral == w.alice.localDh.publicKey
              && w.sent[i].message.ciphertext.SecretBox?
              && Origin(w.sent[i].message.ciphertext.key) == w.alice.root.root
  {
    var h, a: nat, b: nat :| Tied(w, h, a, b);
    assert RootAt(h.spine, 1) == RootOf(RootAt(h.spine, 0), Joint(h.spine, 0));
    OriginOfChain(ChainStart(h.spine, 0), w.alice.sendNumber);
    NothingFiled(h, w.delivered, w.alice);
    forall i | 0 <= i < |w.sent|
      ensures Origin(w.sent[i].message.ciphertext.key) == h.spine.master
    {
      var x, n := Locate(w, h, a, b, i);
      OriginOfChain(ChainStart(h.spine, x), n);
    }
  }

  lemma NothingFiled(h: History, delivered: set<nat>, s: Session)
    requires |h.index| == |h.spine.keys| && TableOk(h, delivered, s.skipped, 0, s.receiveNumber)
    ensures s.skipped == map[]
  {
    assert forall id :: !Pending(h, delivered, 0, s.receiveNumber, id);
  }

  /** The world with the bundle's own signed prekey as the latest. */
  function Fresh(w: World): World {
    w.(signedPreKey := Some(KeyPair(w.bundle.signedPreKey)))
  }

  /** What the responder would use for this envelope is what the initiator used. */
  predicate Matches(w: World, m: EncryptedMessage) {
    w.signedPreKey == Some(KeyPair(w.bundle.signedPreKey)) && NamesBundlePreKey(w, m)
  }

  lemma FreshInRun(w: World)
    ensures InRun(w) ==> InRun(Fresh(w))
    ensures InRun(Fresh(w)) && w.bob.Some? ==> InRun(w)
  {
    if h, a: nat, b: nat :| Tied(w, h, a, b) {
      assert Tied(Fresh(w), h, a, b);
    }
    if h, a: nat, b: nat :| Tied(Fresh(w), h, a, b) {
      assert w.bob.Some? ==> Tied(w, h, a, b);
    }
  }

  /** A first envelope that does not match estranges the two sides. */
  lemma StaleFirstEstranges(w: World, i: nat) returns (theirs: Key)
    requires InRun(Fresh(w)) && w.bob.None? && w.signedPreKey.Some? && i < |w.sent|
    requires !Matches(w, w.sent[i].message)
    ensures HandOver(w, i, w.sent[i].message).outcome.Err?
    ensures w.alice.root.RootOf? && Estranged(HandOver(w, i, w.sent[i].message).world, w.alice.root.root, theirs)
  {
    OneOrigin(Fresh(w));
    var m := w.sent[i].message;
    var found := Lookup(w, m.oneTimePreKeyId);
    theirs := ResponderMaster(w.bobIdentity, w.signedPreKey.value, found, m.initialIdentity.value,
                              m.initialEphemeral.value);
    MastersAgree(w.aliceIdentity, w.bobIdentity, w.alice.localDh, w.bundle, w.signedPreKey.value, found);
    var v := BobStarts(w, m).value;
    assert Origin(theirs) == theirs;
    assert Origin(ChainOf(theirs, ScalarMult(w.signedPreKey.value, m.ephemeral))) == theirs;
    assert Estranged(v, w.alice.root.root, theirs);
    DecryptFrom(v.bob.value, theirs, m, KeyPair(v.nextPair));
  }

  /** In particular one that does not name the bundle's one-time prekey. */
  lemma LateFirstEnvelopeEstranges(w: World, i: nat) returns (theirs: Key)
    requires InRun(w) && w.bob.None? && i < |w.sent|
    requires !NamesBundlePreKey(w, w.sent[i].message)
    ensures HandOver(w, i, w.sent[i].message).outcome.Err?
    ensures w.alice.root.RootOf? && Estranged(HandOver(w, i, w.sent[i].message).world, w.alice.root.root, theirs)
  {
    OneOrigin(w);
    FreshInRun(w);
    theirs := StaleFirstEstranges(w, i);
  }

  /**
    The first envelope Bob processes opens exactly when it names the bundle's one-time prekey and its
    number is within the skip limit.
   */
  lemma FirstEnvelopeOpensIff(w: World, i: nat)
    requires InRun(w) && w.bob.None? && i < |w.sent|
    ensures (HandOver(w, i, w.sent[i].message).outcome == Ok(w.sent[i].text))
            == (NamesBundlePreKey(w, w.sent[i].message) && w.sent[i].message.sequenceNumber <= MAX_SKIP_MESSAGES)
  {
    if NamesBundlePreKey(w, w.sent[i].message) {
      NothingDelivered(w);
      Delivers(w, i);
      OneOrigin(w);
    } else {
      var theirs := LateFirstEnvelopeEstranges(w, i);
    }
  }

  lemma NothingDelivered(w: World)
    requires InRun(w) && w.bob.None?
    ensures w.delivered == {}
  {
    var h, a: nat, b: nat :| Tied(w, h, a, b);
  }

  /**
    And when it does not name it, nothing either side sends ever opens again, whatever is sent,
    delivered, replayed or damaged afterwards.
   */
  lemma LateFirstEnvelopeIsFatal(w: World, i: nat, steps: seq<Step>, j: nat)
    requires InRun(w) && w.bob.None? && i < |w.sent|
    requires !NamesBundlePreKey(w, w.sent[i].message)
    requires j < |Everything(HandOver(w, i, w.sent[i].message).world, steps).sent|
    ensures var v := Everything(HandOver(w, i, w.sent[i].message).world, steps);
            HandOver(v, j, v.sent[j].message).outcome.Err?
  {
    var theirs := LateFirstEnvelopeEstranges(w, i);
    var after := HandOver(w, i, w.sent[i].message).world;
    EstrangedForGood(after, w.alice.root.root, theirs, steps);
    NothingOpens(Everything(after, steps), w.alice.root.root, theirs, j);
  }

  const ONE_TIME_BUNDLE := PreKeyBundle(1, 9, 2, SignedBy(9, 2), Some((7, 3)))

  const FRESH := Initiated(KeyPair(0), KeyPair(1), ONE_TIME_BUNDLE, Some(KeyPair(2)), map[7 := KeyPair(3)], false, 4)

  /** Bob publishes a one-time prekey, and Alice sends two messages on it. */
  function TwoSent(): (w: World)
    ensures |w.sent| == 2 && w.bob.None?
  {
    AfterSending(AfterSending(FRESH, Alice, "one", None, 0), Alice, "two", None, 1)
  }

  lemma TwoSentInRun()
    ensures InRun(TwoSent()) && !NamesBundlePreKey(TwoSent(), TwoSent().sent[1].message)
  {
    InitiatedInRun(KeyPair(0), KeyPair(1), ONE_TIME_BUNDLE, Some(KeyPair(2)), map[7 := KeyPair(3)], false, 4);
    StepKeeps(FRESH, Send(Alice, "one", None, 0));
    StepKeeps(AfterSending(FRESH, Alice, "one", None, 0), Send(Alice, "two", None, 1));
  }

  /**
    It happens: the network swaps two messages, of which only the one numbered 0 names the prekey, and
    whatever follows, no envelope there will ever be opens.
   */
  lemma SwappedFirstEnvelopes(steps: seq<Step>, j: nat)
    ensures var v := Everything(HandOver(TwoSent(), 1, TwoSent().sent[1].message).world, steps);
            j < |v.sent| ==> HandOver(v, j, v.sent[j].message).outcome.Err?
  {
    TwoSentInRun();
    if j < |Everything(HandOver(TwoSent(), 1, TwoSent().sent[1].message).world, steps).sent| {
      LateFirstEnvelopeIsFatal(TwoSent(), 1, steps, j);
    }
  }
}
