/**
  What each operation of the Double Ratchet engine does to one session, as functions on values.
  The methods of CryptoEngine are proved against these.
 */
module Ratchet {
  import opened Wrappers
  import opened SymbolicCrypto

  const MAX_SKIP_MESSAGES: nat := 2000

  /** The text key `ephemeral:number` under which a skipped message key is filed. */
  datatype SkipId = SkipId(ratchetKey: PublicKey, number: int)

  datatype Session = Session(
    root: Key,
    sendChain: Option<Key>,
    receiveChain: Option<Key>,
    localDh: KeyPair,
    remoteDh: Option<PublicKey>,
    sendNumber: nat,
    receiveNumber: nat,
    previousChainLength: nat,
    skipped: map<SkipId, Key>,
    oneTimePreKeyId: Option<int>)

  datatype EncryptedMessage = EncryptedMessage(
    ephemeral: PublicKey,
    sequenceNumber: int,
    previousChainLength: int,
    ciphertext: Ciphertext,
    nonce: nat,
    oneTimePreKeyId: Option<int>,
    initialIdentity: Option<PublicKey>,
    initialEphemeral: Option<PublicKey>)

  datatype PreKeyBundle = PreKeyBundle(
    identity: PublicKey,
    signingKey: VerifyKey,
    signedPreKey: PublicKey,
    signature: KeySignature,
    oneTimePreKey: Option<(int, PublicKey)>)

  /** verifySignature on the signed prekey, under the signing key the bundle itself carries. */
  predicate SignatureVerifies(bundle: PreKeyBundle) {
    bundle.signature == SignedBy(bundle.signingKey, bundle.signedPreKey)
  }

  datatype EngineError =
    | InvalidSignedPreKey
    | NoSession
    | NoRemoteKey
    | MissingX3dhParameters
    | NoSignedPreKey
    | TooManySkipped
    | NoReceiveChain
    | DecryptionFailed

  // ---- X3DH ----------------------------------------------------------------------------------

  function InitiatorMaster(identity: KeyPair, ephemeral: KeyPair, bundle: PreKeyBundle): Key {
    var dh1 := ScalarMult(identity, bundle.signedPreKey);
    var dh2 := ScalarMult(ephemeral, bundle.identity);
    var dh3 := ScalarMult(ephemeral, bundle.signedPreKey);
    if bundle.oneTimePreKey.Some?
    then Master([dh1, dh2, dh3, ScalarMult(ephemeral, bundle.oneTimePreKey.value.1)])
    else Master([dh1, dh2, dh3])
  }

  function ResponderMaster(identity: KeyPair, signedPreKey: KeyPair, oneTime: Option<KeyPair>,
                           theirIdentity: PublicKey, theirEphemeral: PublicKey): Key {
    var dh1 := ScalarMult(signedPreKey, theirIdentity);
    var dh2 := ScalarMult(identity, theirEphemeral);
    var dh3 := ScalarMult(signedPreKey, theirEphemeral);
    if oneTime.Some?
    then Master([dh1, dh2, dh3, ScalarMult(oneTime.value, theirEphemeral)])
    else Master([dh1, dh2, dh3])
  }

  function InitiatorSession(identity: KeyPair, ephemeral: KeyPair, bundle: PreKeyBundle): Session {
    var master := InitiatorMaster(identity, ephemeral, bundle);
    var dh := ScalarMult(ephemeral, bundle.signedPreKey);
    Session(RootOf(master, dh), Some(ChainOf(master, dh)), None, ephemeral, Some(bundle.signedPreKey), 0, 0, 0, map[],
            if bundle.oneTimePreKey.Some? then Some(bundle.oneTimePreKey.value.0) else None)
  }

  /** Bob's session from a first envelope whose X3DH parameters are given; `ratchet` is a fresh pair. */
  function ResponderSession(identity: KeyPair, signedPreKey: KeyPair, oneTime: Option<KeyPair>,
                            theirIdentity: PublicKey, theirEphemeral: PublicKey,
                            ephemeral: PublicKey, ratchet: KeyPair): Session {
    var master := ResponderMaster(identity, signedPreKey, oneTime, theirIdentity, theirEphemeral);
    var dh := ScalarMult(signedPreKey, ephemeral);
    Session(RootOf(master, dh), None, Some(ChainOf(master, dh)), ratchet, Some(ephemeral), 0, 0, 0, map[], None)
  }

  // ---- Sending -------------------------------------------------------------------------------

  /** The lazy first send chain: derived only when the session has none. */
  function WithSendChain(s: Session): Session {
    if s.sendChain.Some? || s.remoteDh.None? then s
    else
      var dh := ScalarMult(s.localDh, s.remoteDh.value);
      s.(root := RootOf(s.root, dh), sendChain := Some(ChainOf(s.root, dh)))
  }

  function CanSend(s: Session): bool {
    s.sendChain.Some? || s.remoteDh.Some?
  }

  function AfterSend(s: Session): Session
    requires CanSend(s)
  {
    var t := WithSendChain(s);
    t.(sendChain := Some(NextChain(t.sendChain.value)), sendNumber := t.sendNumber + 1)
  }

  function Envelope(s: Session, identity: PublicKey, text: string, context: Option<int>, nonce: nat): EncryptedMessage
    requires CanSend(s)
  {
    var t := WithSendChain(s);
    EncryptedMessage(
      t.localDh.publicKey,
      t.sendNumber,
      t.previousChainLength,
      SecretBox(MessageKeyOf(t.sendChain.value), nonce, text),
      nonce,
      if context.Some? then context else if t.sendNumber == 0 then t.oneTimePreKeyId else None,
      Some(identity),
      Some(t.localDh.publicKey))
  }

  // ---- Receiving -----------------------------------------------------------------------------

  function SkipIds(ratchetKey: PublicKey, start: nat, until: int): set<SkipId> {
    set n | start <= n < until :: SkipId(ratchetKey, n)
  }

  /** The entries one run of the skipping loop files: numbers start..until of the chain that stood at `start`. */
  function SkippedRange(ratchetKey: PublicKey, chain: Key, start: nat, until: int): map<SkipId, Key> {
    map id | id in SkipIds(ratchetKey, start, until) :: MessageKeyOf(ChainAt(chain, id.number - start))
  }

  /** skipMessageKeys throws on this input. */
  predicate SkipTooFar(s: Session, until: int) {
    s.receiveChain.Some? && s.remoteDh.Some? && s.receiveNumber + MAX_SKIP_MESSAGES < until
  }

  function Skip(s: Session, until: int): Session {
    if s.receiveChain.None? || s.remoteDh.None? || until <= s.receiveNumber then s
    else s.(receiveChain := Some(ChainAt(s.receiveChain.value, until - s.receiveNumber)),
            receiveNumber := until,
            skipped := s.skipped + SkippedRange(s.remoteDh.value, s.receiveChain.value, s.receiveNumber, until))
  }

  function DhRatchet(s: Session, ephemeral: PublicKey, newPair: KeyPair): Session {
    var received := ScalarMult(s.localDh, ephemeral);
    var middle := RootOf(s.root, received);
    var sent := ScalarMult(newPair, ephemeral);
    s.(previousChainLength := s.sendNumber,
       sendNumber := 0,
       receiveNumber := 0,
       remoteDh := Some(ephemeral),
       receiveChain := Some(ChainOf(s.root, received)),
       localDh := newPair,
       root := RootOf(middle, sent),
       sendChain := Some(ChainOf(middle, sent)))
  }

  function HeaderId(m: EncryptedMessage): SkipId {
    SkipId(m.ephemeral, m.sequenceNumber)
  }

  predicate NeedsRatchet(s: Session, m: EncryptedMessage) {
    s.remoteDh != Some(m.ephemeral)
  }

  /**
    How far decrypt got on one session: the session object as it stands when decrypt returns or
    throws, whether saveSession was reached, and what the caller sees.
   */
  datatype Decryption = Decryption(session: Session, saved: bool, outcome: Result<string, EngineError>)

  /** What the store holds after a decrypt: an aliased session keeps every change, a copied one only what was saved. */
  function Kept(aliasing: bool, s: Session, d: Decryption): Session {
    if d.saved || aliasing then d.session else s
  }

  function Opened(m: EncryptedMessage, key: Key): Result<string, EngineError> {
    match OpenBox(m.ciphertext, m.nonce, key)
    case Some(text) => Ok(text)
    case None => Err(DecryptionFailed)
  }

  function TakeSkipped(s: Session, id: SkipId): Session {
    s.(skipped := s.skipped - {id})
  }

  /** One symmetric step of the receiving chain. */
  function Consume(s: Session): Session
    requires s.receiveChain.Some?
  {
    s.(receiveChain := Some(NextChain(s.receiveChain.value)), receiveNumber := s.receiveNumber + 1)
  }

  /** The part of decrypt after the optional ratchet step. */
  function DecryptOnChain(s: Session, m: EncryptedMessage): Decryption {
    if SkipTooFar(s, m.sequenceNumber) then Decryption(s, false, Err(TooManySkipped))
    else
      var t := Skip(s, m.sequenceNumber);
      if t.receiveChain.None? then Decryption(t, false, Err(NoReceiveChain))
      else Decryption(Consume(t), true, Opened(m, MessageKeyOf(t.receiveChain.value)))
  }

  function Decrypt(s: Session, m: EncryptedMessage, newPair: KeyPair): Decryption {
    if HeaderId(m) in s.skipped then
      Decryption(TakeSkipped(s, HeaderId(m)), true, Opened(m, s.skipped[HeaderId(m)]))
    else if !NeedsRatchet(s, m) then
      DecryptOnChain(s, m)
    else if SkipTooFar(s, m.previousChainLength) then
      Decryption(s, false, Err(TooManySkipped))
    else
      DecryptOnChain(DhRatchet(Skip(s, m.previousChainLength), m.ephemeral, newPair), m)
  }

  /**
    The guard of the two limit checks, as a caller could evaluate it before the call: the key is not
    filed, and either the finished chain or the chain of the envelope lies too far ahead.
   */
  predicate BeyondSkipLimit(s: Session, m: EncryptedMessage) {
    && HeaderId(m) !in s.skipped
    && (if NeedsRatchet(s, m) then SkipTooFar(s, m.previousChainLength) || MAX_SKIP_MESSAGES < m.sequenceNumber
        else SkipTooFar(s, m.sequenceNumber))
  }
}
