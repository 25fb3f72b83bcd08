/**
  What generatePreKeyBundle publishes fits what it stores: the bundle is signed, its signed prekey is the
  device's latest, and the one-time prekey it names is in the store under that number, unless a later one
  of the same call has taken the number.
 */
module GeneratedBundles {
  import opened Wrappers
  import opened SymbolicCrypto
  import opened Ratchet
  import opened SignalStores
  import opened EngineCalls
  import opened Devices
  import opened DeviceTheorems
  import X3dh

  // ---- One-time prekeys saved in a row ---------------------------------------------------------------

  predicate LastOf(oneTime: seq<(int, KeyPair)>, k: nat) {
    k < |oneTime| && forall j | k < j < |oneTime| :: oneTime[j].0 != oneTime[k].0
  }

  /** The last of the pairs of one number is the one that stays. */
  lemma {:induction false} LastIsStored(keys: map<int, KeyPair>, oneTime: seq<(int, KeyPair)>, k: nat)
    requires LastOf(oneTime, k)
    ensures oneTime[k].0 in Stored(keys, oneTime) && Stored(keys, oneTime)[oneTime[k].0] == oneTime[k].1
    decreases |oneTime|
  {
    var last := |oneTime| - 1;
    if k < last {
      assert oneTime[..last][k] == oneTime[k];
      LastIsStored(keys, oneTime[..last], k);
    }
  }

  /** All other numbers are as they were. */
  lemma {:induction false} OthersStay(keys: map<int, KeyPair>, oneTime: seq<(int, KeyPair)>, id: int)
    requires forall k | 0 <= k < |oneTime| :: oneTime[k].0 != id
    ensures id in Stored(keys, oneTime) <==> id in keys
    ensures id in keys ==> Stored(keys, oneTime)[id] == keys[id]
  {
    if oneTime != [] {
      OthersStay(keys, oneTime[..|oneTime| - 1], id);
    }
  }

  lemma StoredMeans(keys: map<int, KeyPair>, oneTime: seq<(int, KeyPair)>, id: int)
    ensures forall k: nat | LastOf(oneTime, k) && oneTime[k].0 == id ::
              id in Stored(keys, oneTime) && Stored(keys, oneTime)[id] == oneTime[k].1
    ensures (forall k | 0 <= k < |oneTime| :: oneTime[k].0 != id) ==>
              && (id in Stored(keys, oneTime) <==> id in keys)
              && (id in keys ==> Stored(keys, oneTime)[id] == keys[id])
  {
    forall k: nat | LastOf(oneTime, k) && oneTime[k].0 == id
      ensures id in Stored(keys, oneTime) && Stored(keys, oneTime)[id] == oneTime[k].1
    {
      LastIsStored(keys, oneTime, k);
    }
    if forall k | 0 <= k < |oneTime| :: oneTime[k].0 != id {
      OthersStay(keys, oneTime, id);
    }
  }

  lemma {:induction false} SomeLast(oneTime: seq<(int, KeyPair)>, i: nat) returns (k: nat)
    requires i < |oneTime|
    ensures i <= k && LastOf(oneTime, k) && oneTime[k].0 == oneTime[i].0
    decreases |oneTime| - i
  {
    k := i;
    if j :| i < j < |oneTime| && oneTime[j].0 == oneTime[i].0 {
      k := SomeLast(oneTime, j);
    }
  }

  // ---- The bundle ------------------------------------------------------------------------------------

  /** No later pair of the call takes the first one's number with another key. */
  ghost predicate FirstStays(oneTime: seq<(int, KeyPair)>) {
    forall k: nat | LastOf(oneTime, k) && oneTime[k].0 == oneTime[0].0 :: oneTime[k].1 == oneTime[0].1
  }

  /** When the first number does not recur it stays. */
  lemma FirstOnceStays(oneTime: seq<(int, KeyPair)>)
    requires forall k | 1 <= k < |oneTime| :: oneTime[k].0 != oneTime[0].0
    ensures FirstStays(oneTime)
  {
  }

  /** Who the bundle is of, that it is signed, and what it names. */
  lemma BundleNames(v: StoreView, me: KeyPair, signing: VerifyKey, signedId: int, signedPair: KeyPair, now: int,
                    oneTime: seq<(int, KeyPair)>)
    ensures var bundle := GenerateCall(v, me, signing, signedId, signedPair, now, oneTime).1;
            && bundle.identity == me.publicKey && bundle.signingKey == signing
            && bundle.signedPreKey == signedPair.publicKey
            && SignatureVerifies(bundle)
            && (bundle.oneTimePreKey.None? <==> oneTime == [])
            && (oneTime != [] ==> bundle.oneTimePreKey == Some((oneTime[0].0, oneTime[0].1.publicKey)))
  {
  }

  /** What the store has of it; other signed prekeys and sessions are as they were. */
  lemma BundleIsStored(v: StoreView, me: KeyPair, signing: VerifyKey, signedId: int, signedPair: KeyPair, now: int,
                       oneTime: seq<(int, KeyPair)>, id: int)
    ensures var (after, bundle) := GenerateCall(v, me, signing, signedId, signedPair, now, oneTime);
            && signedId in after.signedPreKeys
            && after.signedPreKeys[signedId].keyPair.publicKey == bundle.signedPreKey
            && after.signedPreKeys[signedId].createdAt == now
            && after.signedPreKeys - {signedId} == v.signedPreKeys - {signedId}
            && after.sessions == v.sessions
            && (forall k: nat | LastOf(oneTime, k) && oneTime[k].0 == id ::
                  id in after.oneTimePreKeys && after.oneTimePreKeys[id] == oneTime[k].1)
            && ((forall k | 0 <= k < |oneTime| :: oneTime[k].0 != id) ==>
                  (id in after.oneTimePreKeys <==> id in v.oneTimePreKeys))
  {
    StoredMeans(v.oneTimePreKeys, oneTime, id);
  }

  /** The one-time prekey the bundle names is behind that number in the store if and only if the first pair stays. */
  lemma NamedPreKeyIff(v: StoreView, me: KeyPair, signing: VerifyKey, signedId: int, signedPair: KeyPair, now: int,
                       oneTime: seq<(int, KeyPair)>)
    ensures var (after, bundle) := GenerateCall(v, me, signing, signedId, signedPair, now, oneTime);
            (bundle.oneTimePreKey.Some? ==>
               && bundle.oneTimePreKey.value.0 in after.oneTimePreKeys
               && after.oneTimePreKeys[bundle.oneTimePreKey.value.0].publicKey == bundle.oneTimePreKey.value.1)
            <==> oneTime == [] || FirstStays(oneTime)
  {
    if oneTime != [] {
      StoredMeans(v.oneTimePreKeys, oneTime, oneTime[0].0);
      var k := SomeLast(oneTime, 0);
    }
  }

  /** So an initiator finds what it is promised, on the same condition. */
  lemma PublishedIff(v: StoreView, alice: KeyPair, me: KeyPair, signing: VerifyKey, signedId: int, signedPair: KeyPair,
                     now: int, oneTime: seq<(int, KeyPair)>, ephemeral: PublicKey)
    requires signedPair.publicKey < ephemeral
    ensures var (after, bundle) := GenerateCall(v, me, signing, signedId, signedPair, now, oneTime);
            Published(alice, me, bundle, signedPair, ephemeral, after.oneTimePreKeys)
            <==> oneTime == [] || FirstStays(oneTime)
  {
    NamedPreKeyIff(v, me, signing, signedId, signedPair, now, oneTime);
  }

  /** Initiator and responder derive one master secret from a bundle as it is published, on the same condition. */
  lemma GeneratedMastersAgree(v: StoreView, alice: KeyPair, me: KeyPair, signing: VerifyKey, signedId: int,
                              signedPair: KeyPair, now: int, oneTime: seq<(int, KeyPair)>, ephemeral: KeyPair)
    ensures var (after, bundle) := GenerateCall(v, me, signing, signedId, signedPair, now, oneTime);
            var named := if bundle.oneTimePreKey.Some? then Some(bundle.oneTimePreKey.value.0) else None;
            InitiatorMaster(alice, ephemeral, bundle)
            == ResponderMaster(me, after.signedPreKeys[signedId].keyPair, LookupOneTime(after, named), alice.publicKey,
                               ephemeral.publicKey)
            <==> oneTime == [] || FirstStays(oneTime)
  {
    var (after, bundle) := GenerateCall(v, me, signing, signedId, signedPair, now, oneTime);
    var named := if bundle.oneTimePreKey.Some? then Some(bundle.oneTimePreKey.value.0) else None;
    NamedPreKeyIff(v, me, signing, signedId, signedPair, now, oneTime);
    X3dh.MastersAgree(alice, me, ephemeral, bundle, signedPair, LookupOneTime(after, named));
    assert LookupOneTime(after, named).Some? ==>
           LookupOneTime(after, named).value == KeyPair(LookupOneTime(after, named).value.publicKey);
    if oneTime != [] {
      var k := SomeLast(oneTime, 0);
      StoredMeans(v.oneTimePreKeys, oneTime, oneTime[0].0);
    }
  }

  // ---- Tampering -------------------------------------------------------------------------------------

  /** A published bundle is taken; with another signed prekey or another signing key put in, it is refused. */
  lemma TamperedIsRefused(v: StoreView, me: KeyPair, signing: VerifyKey, signedId: int, signedPair: KeyPair, now: int,
                          oneTime: seq<(int, KeyPair)>, w: StoreView, alice: KeyPair, ephemeral: KeyPair,
                          other: PublicKey, signer: VerifyKey)
    ensures var bundle := GenerateCall(v, me, signing, signedId, signedPair, now, oneTime).1;
            && InitiateCall(w, alice, me.publicKey, bundle, ephemeral).1.Ok?
            && ((InitiateCall(w, alice, me.publicKey, bundle.(signedPreKey := other), ephemeral)
                 == (w, Err(InvalidSignedPreKey)))
                == (other != signedPair.publicKey))
            && ((InitiateCall(w, alice, me.publicKey, bundle.(signingKey := signer), ephemeral)
                 == (w, Err(InvalidSignedPreKey)))
                == (signer != signing))
            && InitiateCall(w, alice, me.publicKey, bundle.(signature := Forged), ephemeral)
               == (w, Err(InvalidSignedPreKey))
  {
  }

  // ---- From an export to the first message -----------------------------------------------------------

  /**
    Bob's device without sessions publishes a bundle, Alice initiates from it and sends a first message to his
    contact: it is posted to the contact's mailbox, and Bob's device decrypts and files it.
   */
  lemma FirstMessageFiled(alice: KeyPair, bob: KeyPair, before: StoreView, signing: VerifyKey, signedId: int,
                          signedPair: KeyPair, made: int, oneTime: seq<(int, KeyPair)>, ephemeral: PublicKey,
                          d: Device, posted: seq<Posted>, hash: Hex, text: string, id: MessageId, now: int,
                          attempts: nat -> Attempt, json: SyncText, e: Device, x: Incoming)
    returns (m: EncryptedMessage)
    requires signedPair.publicKey < ephemeral && before.sessions == map[]
    requires forall j | j in before.signedPreKeys :: before.signedPreKeys[j].createdAt < made
    requires oneTime == [] || FirstStays(oneTime)
    requires e.me == bob && e.store == GenerateCall(before, bob, signing, signedId, signedPair, made, oneTime).0
    requires var bundle := GenerateCall(before, bob, signing, signedId, signedPair, made, oneTime).1;
             && d.me == alice
             && d.store == InitiateCall(StoreView(map[], map[], map[]), alice, bob.publicKey, bundle,
                                        KeyPair(ephemeral)).0
    requires hash in d.contacts && d.contacts[hash].hash == hash && d.contacts[hash].identity == bob.publicKey
             && d.contacts[hash].devices == [] && d.ownDevices == []
    requires !attempts(0).reply.NotAccepted? && json.parse(text).None?
    requires FindsIdentity(e.contacts, alice.publicKey, x.found) && IsLatest(e.store.signedPreKeys, x.latest)
    requires x.first == KeyPair(ephemeral + 1) && x.second == KeyPair(ephemeral + 2)
    ensures m.initialIdentity == Some(alice.publicKey)
    ensures Posted(hash, m) in SentOut(d, posted, hash, text, id, now, attempts, json).posted
    ensures Received(e, m, x, json).stored
         == Some(StoredMessage(x.id, if x.found.Some? then x.found.value else alice.publicKey, alice.publicKey,
                               bob.publicKey, text, x.timestamp, false, false, Delivered))
  {
    var bundle := GenerateCall(before, bob, signing, signedId, signedPair, made, oneTime).1;
    PublishedIff(before, alice, bob, signing, signedId, signedPair, made, oneTime, ephemeral);
    NewestIsNew(before.signedPreKeys, signedId, SignedPreKey(signedPair, made), x.latest);
    m := FirstMessageOnBundle(alice, bob, bundle, signedPair, ephemeral, d, posted, hash, text, id, now, attempts, json,
                              e, x);
  }
}
