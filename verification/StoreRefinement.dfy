/**
  When the two stores behave alike: a condition on each call, and what follows for every sequence of
  calls. Each store makes its own choice of the latest signed prekey.
 */
module StoreRefinement {
  import opened Wrappers
  import opened SymbolicCrypto
  import opened Ratchet
  import opened SignalStores
  import opened EngineCalls
  import opened Limits

  /** One engine call with everything random about it. */
  datatype Call =
    | Generate(signedId: int, signedPair: KeyPair, now: int, oneTime: seq<(int, KeyPair)>)
    | Initiate(peer: PublicKey, bundle: PreKeyBundle, ephemeral: KeyPair)
    | Encrypt(peer: PublicKey, text: string, context: Option<int>, nonce: nat)
    | Decrypt(peer: PublicKey, message: EncryptedMessage, first: KeyPair, second: KeyPair)

  datatype Response =
    | Generated(bundle: PreKeyBundle)
    | Initiated(session: Result<Session, EngineError>)
    | Encrypted(message: Result<EncryptedMessage, EngineError>)
    | Decrypted(text: Result<string, EngineError>)

  /** pick: what the store answers when it is asked for the latest signed prekey. */
  function Perform(aliasing: bool, v: StoreView, me: KeyPair, signing: VerifyKey, call: Call,
                   pick: Option<SignedPreKey>)
    : (StoreView, Response)
  {
    match call
    case Generate(signedId, signedPair, now, oneTime) =>
      var (after, bundle) := GenerateCall(v, me, signing, signedId, signedPair, now, oneTime);
      (after, Generated(bundle))
    case Initiate(peer, bundle, ephemeral) =>
      var (after, r) := InitiateCall(v, me, peer, bundle, ephemeral);
      (after, Initiated(r))
    case Encrypt(peer, text, context, nonce) =>
      var (after, r) := EncryptCall(v, me, peer, text, context, nonce);
      (after, Encrypted(r))
    case Decrypt(peer, m, first, second) =>
      var (after, r) := DecryptCall(aliasing, v, me, peer, m, pick, first, second);
      (after, Decrypted(r))
  }

  /**
    The call throws between taking a ratchet step and saving: a condition on the session the call
    finds and the header alone.
   */
  predicate Torn(v: StoreView, call: Call) {
    match call
    case Decrypt(peer, m, first, second) => peer in v.sessions && RatchetsThenRefuses(v.sessions[peer], m)
    case _ => false
  }

  /**
    When there is one newest signed prekey, one call has the same answer on both stores, and leaves
    the same contents exactly when it is not torn.
   */
  lemma CallsAgreeIff(v: StoreView, me: KeyPair, signing: VerifyKey, call: Call, ours: Option<SignedPreKey>,
                      theirs: Option<SignedPreKey>)
    requires OneNewest(v.signedPreKeys) && IsLatest(v.signedPreKeys, ours) && IsLatest(v.signedPreKeys, theirs)
    ensures Perform(true, v, me, signing, call, ours).1 == Perform(false, v, me, signing, call, theirs).1
    ensures Perform(true, v, me, signing, call, ours).0 == Perform(false, v, me, signing, call, theirs).0 <==>
            !Torn(v, call)
  {
    LatestUnique(v.signedPreKeys, ours, theirs);
    if call.Decrypt? {
      if call.peer in v.sessions {
        StoredAgreeIff(v, call.peer, call.message, call.first);
      } else {
        var (started, s) := StartCall(v, me, call.peer, call.message, ours, call.first);
        if s.Ok? {
          StoredAgreeIff(started, call.peer, call.message, call.second);
        }
      }
    }
  }

  lemma StoredAgreeIff(v: StoreView, peer: PublicKey, m: EncryptedMessage, newPair: KeyPair)
    requires peer in v.sessions
    ensures DecryptStored(true, v, peer, m, newPair).1 == DecryptStored(false, v, peer, m, newPair).1
    ensures (DecryptStored(true, v, peer, m, newPair).0 == DecryptStored(false, v, peer, m, newPair).0)
            == !RatchetsThenRefuses(v.sessions[peer], m)
  {
    var s := v.sessions[peer];
    RefusalAtomicity(s, m, newPair);
    var a := DecryptStored(true, v, peer, m, newPair).0.sessions;
    var b := DecryptStored(false, v, peer, m, newPair).0.sessions;
    assert a[peer] == Kept(true, s, Ratchet.Decrypt(s, m, newPair))
           && b[peer] == Kept(false, s, Ratchet.Decrypt(s, m, newPair));
  }

  /**
    With two newest signed prekeys the stores may disagree: two of the same time, a first envelope, and
    the two answers the query allows lead to different sessions.
   */
  lemma TiesDisagree(m: EncryptedMessage, me: KeyPair, peer: PublicKey, first: KeyPair, second: KeyPair)
    requires m.initialEphemeral.Some? && m.initialIdentity.Some? && m.sequenceNumber == 0
    ensures var keys := map[1 := SignedPreKey(KeyPair(2), 5), 2 := SignedPreKey(KeyPair(3), 5)];
            var v, call := StoreView(keys, map[], map[]), Decrypt(peer, m, first, second);
            && IsLatest(keys, Some(keys[1])) && IsLatest(keys, Some(keys[2]))
            && Perform(true, v, me, 0, call, Some(keys[1])).0 != Perform(false, v, me, 0, call, Some(keys[2])).0
  {
    var keys := map[1 := SignedPreKey(KeyPair(2), 5), 2 := SignedPreKey(KeyPair(3), 5)];
    var v := StoreView(keys, map[], map[]);
    assert Newest(keys, 1) && Newest(keys, 2);
    var (a, s) := StartCall(v, me, peer, m, Some(keys[1]), first);
    var (b, t) := StartCall(v, me, peer, m, Some(keys[2]), first);
    assert s.Ok? && t.Ok? && s.value.root != t.value.root;
    assert DecryptStored(true, a, peer, m, second).0.sessions[peer].root == s.value.root;
    assert DecryptStored(false, b, peer, m, second).0.sessions[peer].root == t.value.root;
  }

  // ---- Sequences of calls ------------------------------------------------------------------------

  function PerformAll(aliasing: bool, v: StoreView, me: KeyPair, signing: VerifyKey, calls: seq<Call>,
                      picks: seq<Option<SignedPreKey>>): (StoreView, seq<Response>)
    requires |picks| == |calls|
    decreases |calls|
  {
    if calls == [] then (v, [])
    else
      var (next, r) := Perform(aliasing, v, me, signing, calls[0], picks[0]);
      var (last, rs) := PerformAll(aliasing, next, me, signing, calls[1..], picks[1..]);
      (last, [r] + rs)
  }

  /** Each pick is one the store may make at that point of its own run. */
  ghost predicate Picked(aliasing: bool, v: StoreView, me: KeyPair, signing: VerifyKey, calls: seq<Call>,
                         picks: seq<Option<SignedPreKey>>)
    decreases |calls|
  {
    && |picks| == |calls|
    && (calls != [] ==>
          && IsLatest(v.signedPreKeys, picks[0])
          && Picked(aliasing, Perform(aliasing, v, me, signing, calls[0], picks[0]).0, me, signing, calls[1..],
                    picks[1..]))
  }

  /** No call of the sequence is torn when run on the copying store. */
  predicate NoneTorn(v: StoreView, me: KeyPair, signing: VerifyKey, calls: seq<Call>, picks: seq<Option<SignedPreKey>>)
    requires |picks| == |calls|
    decreases |calls|
  {
    calls != [] ==>
      && !Torn(v, calls[0])
      && NoneTorn(Perform(false, v, me, signing, calls[0], picks[0]).0, me, signing, calls[1..], picks[1..])
  }

  function KeysAfter(keys: map<int, SignedPreKey>, call: Call): map<int, SignedPreKey> {
    match call
    case Generate(signedId, signedPair, now, oneTime) => keys[signedId := SignedPreKey(signedPair, now)]
    case _ => keys
  }

  /** At every point of the sequence the signed prekeys have distinct creation times. */
  predicate DistinctAlong(keys: map<int, SignedPreKey>, calls: seq<Call>)
    decreases |calls|
  {
    DistinctTimes(keys) && (calls != [] ==> DistinctAlong(KeysAfter(keys, calls[0]), calls[1..]))
  }

  /**
    Over any sequence of calls none of which is torn, with distinct creation times throughout, the
    stores give the same answers and end with the same contents, whatever each of them picks.
   */
  lemma {:induction false} StoresAgree(v: StoreView, me: KeyPair, signing: VerifyKey, calls: seq<Call>,
                                       ours: seq<Option<SignedPreKey>>, theirs: seq<Option<SignedPreKey>>)
    requires DistinctAlong(v.signedPreKeys, calls)
    requires Picked(true, v, me, signing, calls, ours) && Picked(false, v, me, signing, calls, theirs)
    requires NoneTorn(v, me, signing, calls, theirs)
    ensures PerformAll(true, v, me, signing, calls, ours) == PerformAll(false, v, me, signing, calls, theirs)
    decreases |calls|
  {
    if calls != [] {
      DistinctTimesSuffice(v.signedPreKeys);
      CallsAgreeIff(v, me, signing, calls[0], ours[0], theirs[0]);
      StoresAgree(Perform(false, v, me, signing, calls[0], theirs[0]).0, me, signing, calls[1..], ours[1..],
                  theirs[1..]);
    }
  }
}
