/**
  The engine itself: methods that overwrite session objects and call the store, each proved to do
  what the value-level functions say.
 */
module Engine {
  import opened Wrappers
  import opened SymbolicCrypto
  import opened Ratchet
  import opened SignalStores
  import opened EngineCalls

  class CryptoEngine {
    const store: SignalStore
    const identity: KeyPair
    const signing: VerifyKey

    constructor (store: SignalStore, identity: KeyPair, signing: VerifyKey)
      ensures this.store == store && this.identity == identity && this.signing == signing
    {
      this.store, this.identity, this.signing := store, identity, signing;
    }

    /** Random ids and pairs are parameters; the bundle names the first one-time prekey. */
    method GeneratePreKeyBundle(signedId: int, signedPair: KeyPair, now: int, oneTime: seq<(int, KeyPair)>)
      returns (bundle: PreKeyBundle)
      requires store.Valid()
      modifies store.Footprint()
      ensures store.Valid()
      ensures fresh(store.Footprint() - old(store.Footprint()))
      ensures (store.View(), bundle)
           == GenerateCall(old(store.View()), identity, signing, signedId, signedPair, now, oneTime)
      ensures SignatureVerifies(bundle)
    {
      store.SaveSignedPreKey(signedId, SignedPreKey(signedPair, now));
      ghost var before := store.View();
      var first := None;
      var i := 0;
      while i < |oneTime|
        invariant 0 <= i <= |oneTime|
        invariant store.Valid() && store.Footprint() == old(store.Footprint())
        invariant store.View() == before.(oneTimePreKeys := Stored(before.oneTimePreKeys, oneTime[..i]))
        invariant first == if i == 0 then None else Some((oneTime[0].0, oneTime[0].1.publicKey))
      {
        store.SaveOneTimePreKey(oneTime[i].0, oneTime[i].1);
        if i == 0 {
          first := Some((oneTime[i].0, oneTime[i].1.publicKey));
        }
        assert oneTime[..i + 1][..i] == oneTime[..i];
        i := i + 1;
      }
      assert oneTime[..i] == oneTime;
      var signature := SignedBy(signing, signedPair.publicKey);
      bundle := PreKeyBundle(identity.publicKey, signing, signedPair.publicKey, signature, first);
    }

    method InitiateSession(peer: PublicKey, bundle: PreKeyBundle, ephemeral: KeyPair)
      returns (r: Result<SessionRecord, EngineError>)
      requires store.Valid()
      modifies store.Footprint()
      ensures store.Valid() && fresh(store.Footprint() - old(store.Footprint()))
      ensures r.Ok? <==> SignatureVerifies(bundle)
      ensures r.Err? ==> r.error == InvalidSignedPreKey
      ensures store.View() == InitiateCall(old(store.View()), identity, peer, bundle, ephemeral).0
      ensures r.Ok? ==> store.Holds(peer, r.value)
    {
      if !SignatureVerifies(bundle) {
        return Err(InvalidSignedPreKey);
      }
      var session := StoreNew(peer, InitiatorSession(identity, ephemeral, bundle));
      r := Ok(session);
    }

    /** A new session object, saved under the peer's key. */
    method StoreNew(peer: PublicKey, s: Session) returns (session: SessionRecord)
      requires store.Valid()
      modifies store.Footprint()
      ensures store.Valid() && fresh(store.Footprint() - old(store.Footprint()))
      ensures store.View() == WithStoredSession(old(store.View()), peer, s)
      ensures store.Holds(peer, session) && fresh(session)
    {
      session := new SessionRecord(s);
      store.SaveSession(peer, session);
    }

    method Encrypt(peer: PublicKey, text: string, context: Option<int>, nonce: nat)
      returns (r: Result<EncryptedMessage, EngineError>)
      requires store.Valid()
      modifies store.Footprint()
      ensures store.Valid() && fresh(store.Footprint() - old(store.Footprint()))
      ensures (store.View(), r) == EncryptCall(old(store.View()), identity, peer, text, context, nonce)
    {
      var session := store.GetSession(peer);
      if session == null {
        return Err(NoSession);
      }
      r := EncryptOn(peer, session, text, context, nonce);
    }

    /** encrypt once the session is read. */
    method EncryptOn(peer: PublicKey, session: SessionRecord, text: string, context: Option<int>, nonce: nat)
      returns (r: Result<EncryptedMessage, EngineError>)
      requires store.Valid() && store.Holds(peer, session)
      requires store.Sqlite? ==> session !in store.Footprint()
      modifies store.Footprint(), session
      ensures store.Valid() && store.Footprint() <= old(store.Footprint()) + {session}
      ensures (store.View(), r) == EncryptCall(old(store.View()), identity, peer, text, context, nonce)
    {
      if session.sendChain.None? && session.remoteDh.None? {
        return Err(NoRemoteKey);
      }
      var message := SealNext(session, text, context, nonce);
      assert store.View() == store.Written(old(store.View()), peer, session.Value());
      store.WrittenThenSaved(old(store.View()), peer, session.Value());
      store.SaveSession(peer, session);
      r := Ok(message);
    }

    /** The part of encrypt between reading the session and saving it. */
    method SealNext(session: SessionRecord, text: string, context: Option<int>, nonce: nat)
      returns (m: EncryptedMessage)
      requires CanSend(session.Value())
      modifies session
      ensures session.Value() == AfterSend(old(session.Value()))
      ensures m == Envelope(old(session.Value()), identity.publicKey, text, context, nonce)
    {
      if session.sendChain.None? {
        var dhSend := ScalarMult(session.localDh, session.remoteDh.value);
        session.sendChain := Some(ChainOf(session.root, dhSend));
        session.root := RootOf(session.root, dhSend);
      }
      var messageKey := MessageKeyOf(session.sendChain.value);
      session.sendChain := Some(NextChain(session.sendChain.value));
      var number := session.sendNumber;
      session.sendNumber := session.sendNumber + 1;
      var box := SecretBox(messageKey, nonce, text);
      var oneTime := if context.Some? then context else if number == 0 then session.oneTimePreKeyId else None;
      m := EncryptedMessage(session.localDh.publicKey, number, session.previousChainLength, box, nonce, oneTime,
                            Some(identity.publicKey), Some(session.localDh.publicKey));
    }

    method InitiateBobSession(peer: PublicKey, m: EncryptedMessage, ratchet: KeyPair)
      returns (r: Result<SessionRecord, EngineError>, ghost latest: Option<SignedPreKey>)
      requires store.Valid() && peer !in store.View().sessions
      modifies store.Footprint()
      ensures store.Valid() && fresh(store.Footprint() - old(store.Footprint()))
      ensures r != Err(MissingX3dhParameters) ==> IsLatest(old(store.View()).signedPreKeys, latest)
      ensures var (after, s) := StartCall(old(store.View()), identity, peer, m, latest, ratchet);
              && store.View() == after
              && (if s.Err? then r == Err(s.error) else r.Ok? && store.Holds(peer, r.value) && fresh(r.value))
    {
      latest := None;
      if m.initialEphemeral.None? || m.initialIdentity.None? {
        return Err(MissingX3dhParameters), None;
      }
      var signed := store.GetLatestSignedPreKey();
      latest := signed;
      if signed.None? {
        return Err(NoSignedPreKey), latest;
      }
      var oneTime := UseOneTimePreKey(m.oneTimePreKeyId);
      var session := StoreNew(peer, ResponderSession(identity, signed.value.keyPair, oneTime, m.initialIdentity.value,
                                                     m.initialEphemeral.value, m.ephemeral, ratchet));
      r := Ok(session);
    }

    /** Fetches the named one-time prekey and deletes it. */
    method UseOneTimePreKey(id: Option<int>) returns (key: Option<KeyPair>)
      requires store.Valid()
      modifies store.Footprint()
      ensures store.Valid() && store.Footprint() == old(store.Footprint())
      ensures key == LookupOneTime(old(store.View()), id)
      ensures store.View() == old(store.View()).(oneTimePreKeys := WithoutOneTime(old(store.View()).oneTimePreKeys, id))
    {
      key := None;
      if id.Some? {
        key := store.GetOneTimePreKey(id.value);
        if key.Some? {
          store.RemoveOneTimePreKey(id.value);
        } else {
          assert store.View().oneTimePreKeys - {id.value} == store.View().oneTimePreKeys;
        }
      }
    }

    method SkipMessageKeys(session: SessionRecord, until: int) returns (ok: bool)
      modifies session
      ensures ok == !SkipTooFar(old(session.Value()), until)
      ensures session.Value() == if ok then Skip(old(session.Value()), until) else old(session.Value())
    {
      if session.receiveChain.None? || session.remoteDh.None? {
        return true;
      }
      if session.receiveNumber + MAX_SKIP_MESSAGES < until {
        return false;
      }
      FileSkipped(session, until);
      ok := true;
    }

    /** The loop of skipMessageKeys. */
    method FileSkipped(session: SessionRecord, until: int)
      requires session.receiveChain.Some? && session.remoteDh.Some?
      modifies session
      ensures session.Value() == Skip(old(session.Value()), until)
    {
      ghost var s := session.Value();
      SkippingStarts(s);
      var chain := session.receiveChain.value;
      while session.receiveNumber < until
        invariant Skipping(s, session.Value(), chain)
        invariant session.receiveNumber <= until || session.receiveNumber == s.receiveNumber
      {
        SkippingStep(s, session.Value(), chain);
        var key := MessageKeyOf(chain);
        chain := NextChain(chain);
        session.skipped := session.skipped[SkipId(session.remoteDh.value, session.receiveNumber) := key];
        session.receiveNumber := session.receiveNumber + 1;
      }
      SkippingEnds(s, session.Value(), chain, until);
      session.receiveChain := Some(chain);
    }

    method DhRatchetStep(session: SessionRecord, ephemeral: PublicKey, newPair: KeyPair)
      modifies session
      ensures session.Value() == DhRatchet(old(session.Value()), ephemeral, newPair)
    {
      session.previousChainLength := session.sendNumber;
      session.sendNumber := 0;
      session.receiveNumber := 0;
      session.remoteDh := Some(ephemeral);
      var dhReceive := ScalarMult(session.localDh, ephemeral);
      session.receiveChain := Some(ChainOf(session.root, dhReceive));
      var middle := RootOf(session.root, dhReceive);
      session.localDh := newPair;
      var dhSend := ScalarMult(session.localDh, ephemeral);
      session.root := RootOf(middle, dhSend);
      session.sendChain := Some(ChainOf(middle, dhSend));
    }

    /** decrypt up to saveSession: every change to the session object, and the key the envelope is to be opened with. */
    method DeriveKey(session: SessionRecord, m: EncryptedMessage, newPair: KeyPair)
      returns (key: Result<Key, EngineError>)
      modifies session
      ensures var d := Ratchet.Decrypt(old(session.Value()), m, newPair);
              && session.Value() == d.session
              && key.Ok? == d.saved
              && d.outcome == (if key.Ok? then Opened(m, key.value) else Err(key.error))
    {
      var id := SkipId(m.ephemeral, m.sequenceNumber);
      if id in session.skipped {
        key := Ok(session.skipped[id]);
        session.skipped := session.skipped - {id};
        return;
      }
      var ok: bool;
      if session.remoteDh != Some(m.ephemeral) {
        ok := SkipMessageKeys(session, m.previousChainLength);
        if !ok {
          return Err(TooManySkipped);
        }
        DhRatchetStep(session, m.ephemeral, newPair);
      }
      ok := SkipMessageKeys(session, m.sequenceNumber);
      if !ok {
        return Err(TooManySkipped);
      }
      if session.receiveChain.None? {
        return Err(NoReceiveChain);
      }
      key := Ok(MessageKeyOf(session.receiveChain.value));
      session.receiveChain := Some(NextChain(session.receiveChain.value));
      session.receiveNumber := session.receiveNumber + 1;
    }

    /** decrypt once the session is there: a throw before saveSession spares the SQLite row, not the aliased object. */
    method DecryptOn(peer: PublicKey, session: SessionRecord, m: EncryptedMessage, newPair: KeyPair)
      returns (r: Result<string, EngineError>)
      requires store.Valid() && store.Holds(peer, session)
      requires store.Sqlite? ==> session !in store.Footprint()
      modifies store.Footprint(), session
      ensures store.Valid() && store.Footprint() <= old(store.Footprint()) + {session}
      ensures (store.View(), r) == DecryptStored(store.InMemory?, old(store.View()), peer, m, newPair)
    {
      var key := DeriveKey(session, m, newPair);
      assert store.View() == store.Written(old(store.View()), peer, session.Value());
      if key.Err? {
        store.Unwritten(old(store.View()), peer);
        return Err(key.error);
      }
      store.WrittenThenSaved(old(store.View()), peer, session.Value());
      store.SaveSession(peer, session);
      r := DecryptWithKey(m, key.value);
    }

    method Decrypt(peer: PublicKey, m: EncryptedMessage, first: KeyPair, second: KeyPair)
      returns (r: Result<string, EngineError>, ghost latest: Option<SignedPreKey>)
      requires store.Valid()
      modifies store.Footprint()
      ensures store.Valid() && fresh(store.Footprint() - old(store.Footprint()))
      ensures peer !in old(store.View()).sessions && r != Err(MissingX3dhParameters) ==>
              IsLatest(old(store.View()).signedPreKeys, latest)
      ensures (store.View(), r)
              == DecryptCall(store.InMemory?, old(store.View()), identity, peer, m, latest, first, second)
    {
      latest := None;
      var session := store.GetSession(peer);
      if session == null {
        var started;
        started, latest := InitiateBobSession(peer, m, first);
        if started.Err? {
          return Err(started.error), latest;
        }
        r := DecryptOn(peer, started.value, m, second);
      } else {
        r := DecryptOn(peer, session, m, first);
      }
    }

    method DecryptWithKey(m: EncryptedMessage, key: Key) returns (r: Result<string, EngineError>)
      ensures r == Opened(m, key)
    {
      var text := OpenBox(m.ciphertext, m.nonce, key);
      r := if text.Some? then Ok(text.value) else Err(DecryptionFailed);
    }
  }

  /** The session v inside the skipping loop that started from s; the advanced chain is still a local. */
  predicate Skipping(s: Session, v: Session, chain: Key) {
    && s.receiveChain.Some? && s.remoteDh.Some?
    && s.receiveNumber <= v.receiveNumber
    && chain == ChainAt(s.receiveChain.value, v.receiveNumber - s.receiveNumber)
    && v == s.(receiveNumber := v.receiveNumber,
               skipped := s.skipped + SkippedRange(s.remoteDh.value, s.receiveChain.value, s.receiveNumber,
                                                   v.receiveNumber))
  }

  lemma SkippingStarts(s: Session)
    requires s.receiveChain.Some? && s.remoteDh.Some?
    ensures Skipping(s, s, s.receiveChain.value)
  {
    assert SkippedRange(s.remoteDh.value, s.receiveChain.value, s.receiveNumber, s.receiveNumber) == map[];
  }

  lemma SkippingStep(s: Session, v: Session, chain: Key)
    requires Skipping(s, v, chain)
    ensures Skipping(s, v.(skipped := v.skipped[SkipId(v.remoteDh.value, v.receiveNumber) := MessageKeyOf(chain)],
                           receiveNumber := v.receiveNumber + 1), NextChain(chain))
  {
    RangeStep(s.remoteDh.value, s.receiveChain.value, s.receiveNumber, v.receiveNumber);
    UnionStep(s.skipped, SkippedRange(s.remoteDh.value, s.receiveChain.value, s.receiveNumber, v.receiveNumber),
              SkipId(v.remoteDh.value, v.receiveNumber), MessageKeyOf(chain));
  }

  lemma RangeStep(ratchetKey: PublicKey, chain: Key, start: nat, n: nat)
    requires start <= n
    ensures SkippedRange(ratchetKey, chain, start, n + 1)
            == SkippedRange(ratchetKey, chain, start, n)
               [SkipId(ratchetKey, n) := MessageKeyOf(ChainAt(chain, n - start))]
  {
  }

  lemma UnionStep(a: map<SkipId, Key>, b: map<SkipId, Key>, id: SkipId, key: Key)
    ensures a + b[id := key] == (a + b)[id := key]
  {
  }

  lemma SkippingEnds(s: Session, v: Session, chain: Key, until: int)
    requires Skipping(s, v, chain)
    requires if until <= s.receiveNumber then v.receiveNumber == s.receiveNumber else v.receiveNumber == until
    ensures v.(receiveChain := Some(chain)) == Skip(s, until)
  {
    SkippingStarts(s);
  }
}
