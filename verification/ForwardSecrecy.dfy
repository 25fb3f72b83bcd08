/**
  What a stolen session gives away. Key derivation is one-way, so whoever takes everything a session holds,
  and private keys besides, can derive exactly the keys of the peer's envelopes that are not used yet.
 */
module ForwardSecrecy {
  import opened Wrappers
  import opened SymbolicCrypto
  import opened Ratchet
  import opened Protocol
  import opened Lineage
  import opened SessionInvariant
  import opened RunInvariant
  import opened RunTheorems
  import opened X3dh

  /** One private half is enough for an agreement; all public halves are known. */
  predicate KnowsShared(privates: set<PublicKey>, dh: Shared) {
    dh.low in privates || dh.high in privates
  }

  /** The keys that can be derived: both derivations go one way, and boxes hold texts, never keys. */
  predicate Derivable(known: set<Key>, privates: set<PublicKey>, k: Key) {
    k in known
    || match k
       case Master(agreements) => forall i | 0 <= i < |agreements| :: KnowsShared(privates, agreements[i])
       case RootOf(root, dh) => Derivable(known, privates, root) && KnowsShared(privates, dh)
       case ChainOf(root, dh) => Derivable(known, privates, root) && KnowsShared(privates, dh)
       case NextChain(chain) => Derivable(known, privates, chain)
       case MessageKeyOf(chain) => Derivable(known, privates, chain)
  }

  function Keys(k: Option<Key>): set<Key> {
    if k.Some? then {k.value} else {}
  }

  /** Every secret key a session holds but its ratchet pair. */
  function SecretsOf(s: Session): set<Key> {
    {s.root} + Keys(s.sendChain) + Keys(s.receiveChain) + s.skipped.Values
  }

  // ---- What stays hidden -----------------------------------------------------------------------------

  lemma ChainShape(chain: Key, n: nat)
    requires chain.ChainOf?
    ensures ChainAt(chain, n).ChainOf? || ChainAt(chain, n).NextChain?
  {
  }

  /** The first root a session still holds; all earlier ones are gone. */
  function HeldRoot(s: Session, e: nat): nat {
    if s.sendChain.None? then 1 else e + 1
  }

  /** A session standing at epoch e, and a master secret the private keys do not give. */
  ghost predicate Stolen(h: History, delivered: set<nat>, s: Session, e: nat, privates: set<PublicKey>) {
    && h.spine.master.Master? && |h.index| == |h.spine.keys|
    && ChainsOk(h, s, e) && TableOk(h, delivered, s.skipped, e, s.receiveNumber)
    && !Derivable({}, privates, h.spine.master)
  }

  lemma SecretsAre(h: History, delivered: set<nat>, s: Session, e: nat, privates: set<PublicKey>, k: Key)
    requires Stolen(h, delivered, s, e, privates) && k in SecretsOf(s)
    ensures || k == RootAt(h.spine, HeldRoot(s, e))
            || (k.ChainOf? || k.NextChain?)
            || k.MessageKeyOf?
  {
    if s.sendChain == Some(k) {
      ChainShape(ChainStart(h.spine, e), s.sendNumber);
    } else if s.receiveChain == Some(k) {
      ChainShape(ChainStart(h.spine, e - 1), s.receiveNumber);
    }
  }

  lemma RootShape(sp: Spine, i: nat)
    requires i <= |sp.keys| && sp.master.Master?
    ensures RootAt(sp, i).RootOf? || RootAt(sp, i).Master?
  {
  }

  /** No root before the one in hand can be derived. */
  lemma {:induction false} RootsHidden(h: History, delivered: set<nat>, s: Session, e: nat, privates: set<PublicKey>,
                                       i: nat)
    requires Stolen(h, delivered, s, e, privates) && i < HeldRoot(s, e)
    ensures i <= |h.spine.keys| && !Derivable(SecretsOf(s), privates, RootAt(h.spine, i))
  {
    var root := RootAt(h.spine, i);
    RootShape(h.spine, i);
    if root in SecretsOf(s) {
      SecretsAre(h, delivered, s, e, privates, root);
      RootAtInjective(h.spine, i, HeldRoot(s, e));
    }
    if i > 0 {
      RootsHidden(h, delivered, s, e, privates, i - 1);
    }
  }

  /** The chains a session has in hand, from the numbers they stand at. */
  predicate InHand(s: Session, e: nat, x: nat, n: nat) {
    || (x == e && s.sendChain.Some? && s.sendNumber <= n)
    || (x + 1 == e && s.receiveNumber <= n)
  }

  predicate StandsAt(s: Session, e: nat, x: nat, n: nat) {
    || (x == e && s.sendChain.Some? && s.sendNumber == n)
    || (x + 1 == e && s.receiveNumber == n)
  }

  lemma SameChain(sp: Spine, x: nat, n: nat, y: nat, m: nat)
    requires sp.master.Master? && x < |sp.keys| && y < |sp.keys|
    requires ChainAt(ChainStart(sp, x), n) == ChainAt(ChainStart(sp, y), m)
    ensures x == y && n == m
  {
    ChainAtInjective(ChainStart(sp, x), n, ChainStart(sp, y), m);
    RootAtInjective(sp, x, y);
  }

  lemma ChainInSecrets(h: History, delivered: set<nat>, s: Session, e: nat, privates: set<PublicKey>, x: nat, n: nat)
    requires Stolen(h, delivered, s, e, privates) && x < |h.spine.keys|
    ensures ChainAt(ChainStart(h.spine, x), n) in SecretsOf(s) <==> StandsAt(s, e, x, n)
  {
    var k := ChainAt(ChainStart(h.spine, x), n);
    ChainShape(ChainStart(h.spine, x), n);
    RootShape(h.spine, HeldRoot(s, e));
    if s.sendChain == Some(k) {
      SameChain(h.spine, x, n, e, s.sendNumber);
    }
    if s.receiveChain == Some(k) {
      SameChain(h.spine, x, n, e - 1, s.receiveNumber);
    }
  }

  /** Of a chain whose root is gone, exactly what comes after the key in hand can be derived. */
  lemma {:induction false} ChainReach(h: History, delivered: set<nat>, s: Session, e: nat, privates: set<PublicKey>,
                                      x: nat, n: nat)
    requires Stolen(h, delivered, s, e, privates) && x < HeldRoot(s, e) && x < |h.spine.keys|
    ensures Derivable(SecretsOf(s), privates, ChainAt(ChainStart(h.spine, x), n)) <==> InHand(s, e, x, n)
    decreases n
  {
    ChainInSecrets(h, delivered, s, e, privates, x, n);
    if n == 0 {
      RootsHidden(h, delivered, s, e, privates, x);
    } else {
      ChainReach(h, delivered, s, e, privates, x, n - 1);
    }
  }

  lemma MessageKeyInSecrets(h: History, nextPair: PublicKey, delivered: set<nat>, s: Session, e: nat,
                            privates: set<PublicKey>, x: nat, n: nat)
    requires SpineOk(h, nextPair) && Stolen(h, delivered, s, e, privates) && x < |h.spine.keys|
    ensures MessageKeyAt(h.spine, x, n) in SecretsOf(s) <==> SkipId(h.spine.keys[x], n) in s.skipped
  {
    var k := MessageKeyAt(h.spine, x, n);
    RootShape(h.spine, HeldRoot(s, e));
    if s.sendChain.Some? {
      ChainShape(ChainStart(h.spine, e), s.sendNumber);
    }
    if s.receiveChain.Some? {
      ChainShape(ChainStart(h.spine, e - 1), s.receiveNumber);
    }
    assert k in SecretsOf(s) <==> k in s.skipped.Values;
    if k in s.skipped.Values {
      var id :| id in s.skipped && s.skipped[id] == k;
      assert Pending(h, delivered, e, s.receiveNumber, id);
      MessageKeyAtInjective(h.spine, x, n, h.epochOf[id.ratchetKey], id.number);
      assert h.spine.keys[h.epochOf[id.ratchetKey]] == id.ratchetKey;
    }
    if SkipId(h.spine.keys[x], n) in s.skipped {
      assert s.skipped[SkipId(h.spine.keys[x], n)] in s.skipped.Values;
    }
  }

  /** Of an epoch whose root is gone, a message key can be derived when it is filed or still ahead. */
  lemma MessageKeyReach(h: History, nextPair: PublicKey, delivered: set<nat>, s: Session, e: nat,
                        privates: set<PublicKey>, x: nat, n: nat)
    requires SpineOk(h, nextPair) && Stolen(h, delivered, s, e, privates)
    requires x < HeldRoot(s, e) && x < |h.spine.keys|
    ensures Derivable(SecretsOf(s), privates, MessageKeyAt(h.spine, x, n))
            <==> SkipId(h.spine.keys[x], n) in s.skipped || InHand(s, e, x, n)
  {
    MessageKeyInSecrets(h, nextPair, delivered, s, e, privates, x, n);
    ChainReach(h, delivered, s, e, privates, x, n);
  }

  lemma {:induction false} ChainFollows(known: set<Key>, privates: set<PublicKey>, chain: Key, n: nat)
    requires Derivable(known, privates, chain)
    ensures Derivable(known, privates, ChainAt(chain, n))
  {
    if n > 0 {
      ChainFollows(known, privates, chain, n - 1);
    }
  }

  /** The next epoch is open to whoever holds the ratchet pair and the root. */
  lemma NextEpochReach(h: History, delivered: set<nat>, s: Session, e: nat, privates: set<PublicKey>, n: nat)
    requires Stolen(h, delivered, s, e, privates) && s.sendChain.Some? && e + 1 < |h.spine.keys|
    requires s.localDh.publicKey in privates
    ensures Derivable(SecretsOf(s), privates, MessageKeyAt(h.spine, e + 1, n))
  {
    assert s.root in SecretsOf(s) && s.root == RootAt(h.spine, e + 1);
    assert Joint(h.spine, e + 1) == Agree(h.spine.keys[e + 1], h.spine.keys[e]);
    assert KnowsShared(privates, Joint(h.spine, e + 1));
    assert Derivable(SecretsOf(s), privates, RootAt(h.spine, e + 1));
    ChainFollows(SecretsOf(s), privates, ChainStart(h.spine, e + 1), n);
  }

  /** Seen from one session: the peer's unused envelopes, and no others. */
  lemma EnvelopeReach(h: History, nextPair: PublicKey, sent: seq<Sent>, delivered: set<nat>, s: Session, e: nat,
                      privates: set<PublicKey>, i: nat)
    requires Standing(h, nextPair, sent, delivered, s, e) && i < |sent|
    requires |h.spine.keys| <= e + 2 && (s.sendChain.None? ==> |h.spine.keys| <= 2)
    requires s.localDh.publicKey in privates && !Derivable({}, privates, h.spine.master)
    ensures sent[i].message.ciphertext.SecretBox?
    ensures Derivable(SecretsOf(s), privates, sent[i].message.ciphertext.key)
            <==> sent[i].from == Peer(Owner(e)) && i !in delivered
  {
    var x, n := PlaceOf(h, nextPair, sent, delivered, s, e, i);
    if x == e + 1 {
      NextEpochReach(h, delivered, s, e, privates, n);
      Disposition(h, nextPair, sent, delivered, s, e, i, x, n);
    } else {
      MessageKeyReach(h, nextPair, delivered, s, e, privates, x, n);
      if Opposite(x, e) {
        Disposition(h, nextPair, sent, delivered, s, e, i, x, n);
      } else {
        OwnIsGone(h, delivered, s, e, x, n);
      }
    }
  }

  lemma OwnIsGone(h: History, delivered: set<nat>, s: Session, e: nat, x: nat, n: nat)
    requires |h.index| == |h.spine.keys| && ChainsOk(h, s, e) && TableOk(h, delivered, s.skipped, e, s.receiveNumber)
    requires x < |h.index| && n < |h.index[x]| && x <= e && !Opposite(x, e)
    requires h.spine.keys[x] in h.epochOf && h.epochOf[h.spine.keys[x]] == x
    ensures SkipId(h.spine.keys[x], n) !in s.skipped && !InHand(s, e, x, n)
  {
    assert !Pending(h, delivered, e, s.receiveNumber, SkipId(h.spine.keys[x], n));
  }

  // ---- Over whole runs -------------------------------------------------------------------------------

  /** How far the lineage reaches beyond one side. */
  lemma LineageReach(w: World, p: Party) returns (h: History, e: nat)
    requires InRun(w) && SessionOf(w, p).Some?
    ensures Standing(h, w.nextPair, w.sent, w.delivered, SessionOf(w, p).value, e) && Owner(e) == p
    ensures |h.spine.keys| <= e + 2 && (SessionOf(w, p).value.sendChain.None? ==> |h.spine.keys| <= 2)
    ensures Origin(w.alice.root) == h.spine.master
  {
    var h', a: nat, b: nat :| Tied(w, h', a, b);
    h, e := h', EpochOf(p, a, b);
    OriginOfRoot(h.spine, a + 1);
  }

  /**
    In every state of a run: take everything one side's session holds, its ratchet pair, and any other
    private keys that do not give the master secret. Then exactly the keys of the peer's envelopes that this
    side has not used can be derived. Its own envelopes, and all it has read, stay closed.
   */
  lemma StolenSession(w: World, p: Party, privates: set<PublicKey>, i: nat)
    requires InRun(w) && SessionOf(w, p).Some? && i < |w.sent|
    requires SessionOf(w, p).value.localDh.publicKey in privates
    requires !Derivable({}, privates, Origin(w.alice.root))
    ensures w.sent[i].message.ciphertext.SecretBox?
    ensures Derivable(SecretsOf(SessionOf(w, p).value), privates, w.sent[i].message.ciphertext.key)
            <==> w.sent[i].from == Peer(p) && i !in w.delivered
  {
    var h, e := LineageReach(w, p);
    EnvelopeReach(h, w.nextPair, w.sent, w.delivered, SessionOf(w, p).value, e, privates, i);
  }

  lemma AliceFromKept(w: World, step: Step, master: Key)
    requires Allowed(w, step) && From(w.alice, master)
    ensures From(Next(w, step).alice, master)
  {
    match step
    case Send(p, text, context, nonce) =>
      if p.Alice? && CanSend(w.alice) {
        SendFrom(w.alice, master, w.aliceIdentity.publicKey, text, context, nonce);
      }
    case Deliver(i) => DecryptFrom(w.alice, master, w.sent[i].message, KeyPair(w.nextPair));
    case DeliverDamaged(i, c, nonce) =>
      DecryptFrom(w.alice, master, Damaged(w.sent[i].message, c, nonce), KeyPair(w.nextPair));
  }

  lemma {:induction false} AliceFromAlways(w: World, steps: seq<Step>, master: Key)
    requires Legal(w, steps) && From(w.alice, master)
    ensures From(Run(w, steps).alice, master)
    decreases |steps|
  {
    if steps != [] {
      AliceFromKept(w, steps[0], master);
      AliceFromAlways(Next(w, steps[0]), steps[1..], master);
    }
  }

  /** Some agreement of the initiator's master secret is out of reach of these private keys. */
  predicate Misses(privates: set<PublicKey>, alice: KeyPair, ephemeral: PublicKey, bundle: PreKeyBundle) {
    || (alice.publicKey !in privates && bundle.signedPreKey !in privates)
    || (ephemeral !in privates
        && (|| bundle.identity !in privates || bundle.signedPreKey !in privates
            || (bundle.oneTimePreKey.Some? && bundle.oneTimePreKey.value.1 !in privates)))
  }

  lemma MissesIff(privates: set<PublicKey>, alice: KeyPair, ephemeral: PublicKey, bundle: PreKeyBundle)
    ensures Misses(privates, alice, ephemeral, bundle)
            <==> !Derivable({}, privates, InitiatorMaster(alice, KeyPair(ephemeral), bundle))
  {
    var agreements := InitiatorMaster(alice, KeyPair(ephemeral), bundle).agreements;
    assert agreements[0] == Agree(alice.publicKey, bundle.signedPreKey);
    assert agreements[1] == Agree(ephemeral, bundle.identity);
    assert agreements[2] == Agree(ephemeral, bundle.signedPreKey);
    assert bundle.oneTimePreKey.Some? ==> agreements[3] == Agree(ephemeral, bundle.oneTimePreKey.value.1);
  }

  /**
    Forward secrecy, over every legal run from one initiateSession: whatever private keys are taken along
    with one side's session, as long as they miss the master secret, exactly the peer's envelopes that side
    has not used are open.
   */
  lemma ForwardSecrecyIff(aliceIdentity: KeyPair, bobIdentity: KeyPair, bundle: PreKeyBundle,
                          signedPreKey: Option<KeyPair>, oneTimePreKeys: map<int, KeyPair>, aliasing: bool,
                          ephemeral: PublicKey, steps: seq<Step>, p: Party, privates: set<PublicKey>, i: nat)
    requires Genuine(aliceIdentity, bobIdentity, bundle, signedPreKey, ephemeral)
    requires var start := Initiated(aliceIdentity, bobIdentity, bundle, signedPreKey, oneTimePreKeys, aliasing,
                                    ephemeral);
             && Legal(start, steps) && i < |Run(start, steps).sent| && SessionOf(Run(start, steps), p).Some?
             && SessionOf(Run(start, steps), p).value.localDh.publicKey in privates
    requires Misses(privates, aliceIdentity, ephemeral, bundle)
    ensures var w := Run(Initiated(aliceIdentity, bobIdentity, bundle, signedPreKey, oneTimePreKeys, aliasing,
                                   ephemeral), steps);
            && w.sent[i].message.ciphertext.SecretBox?
            && (Derivable(SecretsOf(SessionOf(w, p).value), privates, w.sent[i].message.ciphertext.key)
                <==> w.sent[i].from == Peer(p) && i !in w.delivered)
  {
    var start := Initiated(aliceIdentity, bobIdentity, bundle, signedPreKey, oneTimePreKeys, aliasing, ephemeral);
    var master := InitiatorMaster(aliceIdentity, KeyPair(ephemeral), bundle);
    InitiatedInRun(aliceIdentity, bobIdentity, bundle, signedPreKey, oneTimePreKeys, aliasing, ephemeral);
    RunKeeps(start, steps);
    assert Origin(ChainOf(master, ScalarMult(KeyPair(ephemeral), bundle.signedPreKey))) == master;
    AliceFromAlways(start, steps, master);
    MissesIff(privates, aliceIdentity, ephemeral, bundle);
    StolenSession(Run(start, steps), p, privates, i);
  }

  // ---- What the master secret gives away -------------------------------------------------------------

  /**
    The other case, for the envelopes of the first epoch: private keys that give the master secret, and one
    half of the first agreement, open all of them for good, whatever has been deleted since.
   */
  lemma FirstEpochExposed(w: World, known: set<Key>, privates: set<PublicKey>, i: nat)
    requires InRun(w) && w.bob.None? && i < |w.sent|
    requires !Misses(privates, w.aliceIdentity, w.alice.localDh.publicKey, w.bundle)
    requires w.alice.localDh.publicKey in privates || w.bundle.signedPreKey in privates
    ensures w.sent[i].message.ciphertext.SecretBox?
    ensures Derivable(known, privates, w.sent[i].message.ciphertext.key)
  {
    var h, a: nat, b: nat :| Tied(w, h, a, b);
    var x, n := PlaceOf(h, w.nextPair, w.sent, w.delivered, w.alice, a, i);
    MissesIff(privates, w.aliceIdentity, w.alice.localDh.publicKey, w.bundle);
    assert h.spine.master == InitiatorMaster(w.aliceIdentity, KeyPair(w.alice.localDh.publicKey), w.bundle);
    assert RootAt(h.spine, 0) == h.spine.master && Derivable(known, privates, h.spine.master);
    assert Joint(h.spine, 0) == Agree(w.alice.localDh.publicKey, w.bundle.signedPreKey);
    assert Derivable(known, privates, ChainStart(h.spine, 0));
    ChainFollows(known, privates, ChainStart(h.spine, 0), n);
  }

  /** On a bundle without a one-time prekey, the responder's two long-term keys are such a set. */
  lemma NoOneTimePreKeyExposes(w: World, known: set<Key>, privates: set<PublicKey>, i: nat)
    requires InRun(w) && w.bob.None? && i < |w.sent| && w.bundle.oneTimePreKey.None?
    requires w.bundle.identity in privates && w.bundle.signedPreKey in privates
    ensures w.sent[i].message.ciphertext.SecretBox?
    ensures Derivable(known, privates, w.sent[i].message.ciphertext.key)
  {
    FirstEpochExposed(w, known, privates, i);
  }
}
