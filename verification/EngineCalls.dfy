/**
  One call of the engine as a function of what its store holds. `aliasing` is the one difference
  between the two stores: whether an unsaved change to a session object stays.
 */
module EngineCalls {
  import opened Wrappers
  import opened SymbolicCrypto
  import opened Ratchet
  import opened SignalStores

  function WithStoredSession(v: StoreView, peer: PublicKey, s: Session): StoreView {
    v.(sessions := v.sessions[peer := s])
  }

  /** The keys saved one after the other. */
  function Stored(keys: map<int, KeyPair>, oneTime: seq<(int, KeyPair)>): map<int, KeyPair> {
    if oneTime == [] then keys
    else
      var last := oneTime[|oneTime| - 1];
      Stored(keys, oneTime[..|oneTime| - 1])[last.0 := last.1]
  }

  function GenerateCall(v: StoreView, me: KeyPair, signing: VerifyKey, signedId: int, signedPair: KeyPair, now: int,
                        oneTime: seq<(int, KeyPair)>): (StoreView, PreKeyBundle)
  {
    var first := if oneTime == [] then None else Some((oneTime[0].0, oneTime[0].1.publicKey));
    (v.(signedPreKeys := v.signedPreKeys[signedId := SignedPreKey(signedPair, now)],
        oneTimePreKeys := Stored(v.oneTimePreKeys, oneTime)),
     PreKeyBundle(me.publicKey, signing, signedPair.publicKey, SignedBy(signing, signedPair.publicKey), first))
  }

  function InitiateCall(v: StoreView, me: KeyPair, peer: PublicKey, bundle: PreKeyBundle, ephemeral: KeyPair)
    : (StoreView, Result<Session, EngineError>)
  {
    if !SignatureVerifies(bundle) then (v, Err(InvalidSignedPreKey))
    else
      var s := InitiatorSession(me, ephemeral, bundle);
      (WithStoredSession(v, peer, s), Ok(s))
  }

  function EncryptCall(v: StoreView, me: KeyPair, peer: PublicKey, text: string, context: Option<int>, nonce: nat)
    : (StoreView, Result<EncryptedMessage, EngineError>)
  {
    if peer !in v.sessions then (v, Err(NoSession))
    else if !CanSend(v.sessions[peer]) then (v, Err(NoRemoteKey))
    else
      (WithStoredSession(v, peer, AfterSend(v.sessions[peer])),
       Ok(Envelope(v.sessions[peer], me.publicKey, text, context, nonce)))
  }

  function LookupOneTime(v: StoreView, id: Option<int>): Option<KeyPair> {
    if id.Some? && id.value in v.oneTimePreKeys then Some(v.oneTimePreKeys[id.value]) else None
  }

  function WithoutOneTime(keys: map<int, KeyPair>, id: Option<int>): map<int, KeyPair> {
    if id.Some? then keys - {id.value} else keys
  }

  /** initiateBobSession. */
  function StartCall(v: StoreView, me: KeyPair, peer: PublicKey, m: EncryptedMessage, latest: Option<SignedPreKey>,
                     ratchet: KeyPair)
    : (StoreView, Result<Session, EngineError>)
  {
    if m.initialEphemeral.None? || m.initialIdentity.None? then (v, Err(MissingX3dhParameters))
    else if latest.None? then (v, Err(NoSignedPreKey))
    else
      var s := ResponderSession(me, latest.value.keyPair, LookupOneTime(v, m.oneTimePreKeyId),
                                m.initialIdentity.value, m.initialEphemeral.value, m.ephemeral, ratchet);
      (WithStoredSession(v.(oneTimePreKeys := WithoutOneTime(v.oneTimePreKeys, m.oneTimePreKeyId)), peer, s), Ok(s))
  }

  function DecryptStored(aliasing: bool, v: StoreView, peer: PublicKey, m: EncryptedMessage, newPair: KeyPair)
    : (StoreView, Result<string, EngineError>)
    requires peer in v.sessions
  {
    var s := v.sessions[peer];
    var d := Decrypt(s, m, newPair);
    (WithStoredSession(v, peer, Kept(aliasing, s, d)), d.outcome)
  }

  function DecryptCall(aliasing: bool, v: StoreView, me: KeyPair, peer: PublicKey, m: EncryptedMessage,
                       latest: Option<SignedPreKey>, first: KeyPair, second: KeyPair)
    : (StoreView, Result<string, EngineError>)
  {
    if peer in v.sessions then DecryptStored(aliasing, v, peer, m, first)
    else
      var (started, s) := StartCall(v, me, peer, m, latest, first);
      if s.Err? then (started, Err(s.error)) else DecryptStored(aliasing, started, peer, m, second)
  }
}
