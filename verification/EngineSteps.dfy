/** How the engine's calls make up the steps of the two-party protocol. */
module EngineSteps {
  import opened Wrappers
  import opened SymbolicCrypto
  import opened Ratchet
  import opened SignalStores
  import opened EngineCalls
  import opened Protocol

  /** One side's store in the two-party world. */
  function StoreOf(w: World, p: Party): StoreView {
    if p.Alice? then StoreView(map[], map[], map[w.bobIdentity.publicKey := w.alice])
    else StoreView(map[], w.oneTimePreKeys,
                   if w.bob.None? then map[] else map[w.aliceIdentity.publicKey := w.bob.value])
  }

  function PeerKey(w: World, p: Party): PublicKey {
    IdentityOf(w, Peer(p)).publicKey
  }

  /** A send step is one encrypt call, and the network gets exactly what the call returned. */
  lemma SendIsEncrypt(w: World, p: Party, text: string, context: Option<int>, nonce: nat)
    ensures var (after, r) := EncryptCall(StoreOf(w, p), IdentityOf(w, p), PeerKey(w, p), text, context, nonce);
            var v := AfterSending(w, p, text, context, nonce);
            && after == StoreOf(v, p)
            && v.sent == (if r.Ok? then w.sent + [Sent(p, r.value, text)] else w.sent)
            && StoreOf(v, Peer(p)) == StoreOf(w, Peer(p))
  {
    var (after, r) := EncryptCall(StoreOf(w, p), IdentityOf(w, p), PeerKey(w, p), text, context, nonce);
    assert after.sessions == StoreOf(AfterSending(w, p, text, context, nonce), p).sessions;
  }

  /** A hand-over step is one decrypt call, and touches the receiver's store only. */
  lemma HandOverIsDecrypt(w: World, i: nat, m: EncryptedMessage)
    requires i < |w.sent|
    ensures var p := Peer(w.sent[i].from);
            var latest := if w.signedPreKey.None? then None else Some(SignedPreKey(w.signedPreKey.value, 0));
            var v := HandOver(w, i, m);
            && DecryptCall(w.aliasing, StoreOf(w, p), IdentityOf(w, p), PeerKey(w, p), m, latest, KeyPair(w.nextPair),
                           KeyPair(w.nextPair + 1))
               == (StoreOf(v.world, p), v.outcome)
            && StoreOf(v.world, Peer(p)) == StoreOf(w, Peer(p))
  {
    var p := Peer(w.sent[i].from);
    var latest := if w.signedPreKey.None? then None else Some(SignedPreKey(w.signedPreKey.value, 0));
    if p.Bob? && w.bob.None? {
      FirstHandOverIsDecrypt(w, i, m, latest);
    } else {
      var call := DecryptStored(w.aliasing, StoreOf(w, p), PeerKey(w, p), m, KeyPair(w.nextPair));
      assert call.0.sessions == StoreOf(HandOver(w, i, m).world, p).sessions;
    }
  }

  lemma FirstHandOverIsDecrypt(w: World, i: nat, m: EncryptedMessage, latest: Option<SignedPreKey>)
    requires i < |w.sent| && w.sent[i].from.Alice? && w.bob.None?
    requires latest == if w.signedPreKey.None? then None else Some(SignedPreKey(w.signedPreKey.value, 0))
    ensures DecryptCall(w.aliasing, StoreOf(w, Bob), w.bobIdentity, w.aliceIdentity.publicKey, m, latest,
                        KeyPair(w.nextPair), KeyPair(w.nextPair + 1))
            == (StoreOf(HandOver(w, i, m).world, Bob), HandOver(w, i, m).outcome)
  {
    var peer := w.aliceIdentity.publicKey;
    var (started, s) := StartCall(StoreOf(w, Bob), w.bobIdentity, peer, m, latest, KeyPair(w.nextPair));
    var start := BobStarts(w, m);
    if s.Ok? {
      assert started.sessions == map[peer := s.value];
      assert started == StoreOf(start.value, Bob);
      var call := DecryptStored(w.aliasing, started, peer, m, KeyPair(w.nextPair + 1));
      assert call.0.sessions == StoreOf(HandOver(w, i, m).world, Bob).sessions;
    }
  }

  /** The world a run starts in is the one initiateSession leaves behind. */
  lemma StartIsInitiate(alice: KeyPair, bob: KeyPair, bundle: PreKeyBundle, signedPreKey: Option<KeyPair>,
                        oneTimePreKeys: map<int, KeyPair>, aliasing: bool, ephemeral: PublicKey)
    requires SignatureVerifies(bundle)
    ensures var w := Protocol.Initiated(alice, bob, bundle, signedPreKey, oneTimePreKeys, aliasing, ephemeral);
            InitiateCall(StoreView(map[], map[], map[]), alice, bob.publicKey, bundle, KeyPair(ephemeral)).0
              == StoreOf(w, Alice)
  {
  }
}
