/**
  Two engines and an asynchronous network. Alice has run initiateSession on Bob's bundle; after that
  each side may send at any time, and the network hands over, in any order, reorders, damages or
  loses what was sent. One engine call is one step.
 */
module Protocol {
  import opened Wrappers
  import opened SymbolicCrypto
  import opened Ratchet

  datatype Party = Alice | Bob

  /** One envelope handed to the network, with the text that went into it. */
  datatype Sent = Sent(from: Party, message: EncryptedMessage, text: string)

  datatype World = World(
    aliceIdentity: KeyPair,
    bobIdentity: KeyPair,
    bundle: PreKeyBundle,                 // what Alice initiated from
    signedPreKey: Option<KeyPair>,        // Bob's latest signed prekey
    oneTimePreKeys: map<int, KeyPair>,    // Bob's remaining one-time prekeys
    aliasing: bool,                       // true for the in-memory store, false for the SQLite store
    alice: Session,
    bob: Option<Session>,
    sent: seq<Sent>,
    delivered: set<nat>,                  // positions in sent that were handed over and used up
    nextPair: PublicKey)

  datatype Step =
    | Send(from: Party, text: string, context: Option<int>, nonce: nat)
    | Deliver(position: nat)
    | DeliverDamaged(position: nat, ciphertext: Ciphertext, nonce: nat)

  function Initiated(aliceIdentity: KeyPair, bobIdentity: KeyPair, bundle: PreKeyBundle, signedPreKey: Option<KeyPair>,
                     oneTimePreKeys: map<int, KeyPair>, aliasing: bool, ephemeral: PublicKey): World {
    World(aliceIdentity, bobIdentity, bundle, signedPreKey, oneTimePreKeys, aliasing,
          InitiatorSession(aliceIdentity, KeyPair(ephemeral), bundle), None, [], {}, ephemeral + 1)
  }

  // ---- Sending -------------------------------------------------------------------------------

  function SessionOf(w: World, p: Party): Option<Session> {
    if p.Alice? then Some(w.alice) else w.bob
  }

  function WithSession(w: World, p: Party, s: Session): World {
    if p.Alice? then w.(alice := s) else w.(bob := Some(s))
  }

  function IdentityOf(w: World, p: Party): KeyPair {
    if p.Alice? then w.aliceIdentity else w.bobIdentity
  }

  /** encrypt throws and changes nothing when there is no session to send on. */
  function AfterSending(w: World, p: Party, text: string, context: Option<int>, nonce: nat): World {
    var s := SessionOf(w, p);
    if s.None? || !CanSend(s.value) then w
    else
      WithSession(w, p, AfterSend(s.value)).(
        sent := w.sent + [Sent(p, Envelope(s.value, IdentityOf(w, p).publicKey, text, context, nonce), text)])
  }

  // ---- Receiving -----------------------------------------------------------------------------

  function Peer(p: Party): Party {
    if p.Alice? then Bob else Alice
  }

  function Lookup(w: World, id: Option<int>): Option<KeyPair> {
    if id.Some? && id.value in w.oneTimePreKeys then Some(w.oneTimePreKeys[id.value]) else None
  }

  /** initiateBobSession: the session it builds and the one-time prekey it uses up. */
  function BobStarts(w: World, m: EncryptedMessage): Result<World, EngineError> {
    if m.initialEphemeral.None? || m.initialIdentity.None? then Err(MissingX3dhParameters)
    else if w.signedPreKey.None? then Err(NoSignedPreKey)
    else
      var s := ResponderSession(w.bobIdentity, w.signedPreKey.value, Lookup(w, m.oneTimePreKeyId),
                                m.initialIdentity.value, m.initialEphemeral.value, m.ephemeral, KeyPair(w.nextPair));
      Ok(w.(bob := Some(s),
            oneTimePreKeys := if m.oneTimePreKeyId.Some? then w.oneTimePreKeys - {m.oneTimePreKeyId.value}
              else w.oneTimePreKeys,
            nextPair := w.nextPair + 1))
  }

  datatype Handover = Handover(world: World, outcome: Result<string, EngineError>)

  function HandOverOnSession(w: World, p: Party, s: Session, i: nat, m: EncryptedMessage): Handover {
    var d := Decrypt(s, m, KeyPair(w.nextPair));
    Handover(WithSession(w, p, Kept(w.aliasing, s, d)).(
               nextPair := w.nextPair + 1,
               delivered := if d.saved then w.delivered + {i} else w.delivered),
             d.outcome)
  }

  /** The receiving engine is handed message m in place of the envelope at position i. */
  function HandOver(w: World, i: nat, m: EncryptedMessage): Handover
    requires i < |w.sent|
  {
    var p := Peer(w.sent[i].from);
    if SessionOf(w, p).Some? then HandOverOnSession(w, p, SessionOf(w, p).value, i, m)
    else
      var start := BobStarts(w, m);
      if start.Err? then Handover(w, Err(start.error))
      else HandOverOnSession(start.value, p, start.value.bob.value, i, m)
  }

  function Damaged(m: EncryptedMessage, ciphertext: Ciphertext, nonce: nat): EncryptedMessage {
    m.(ciphertext := ciphertext, nonce := nonce)
  }

  // ---- Runs ----------------------------------------------------------------------------------

  /** The responder used the pair behind the initiator's one-time prekey, or neither used one. */
  predicate SameOneTime(bundle: PreKeyBundle, oneTime: Option<KeyPair>) {
    match bundle.oneTimePreKey
    case None => oneTime.None?
    case Some(used) => oneTime == Some(KeyPair(used.1))
  }

  /** The one-time prekey Bob finds for this envelope is the one Alice used, or neither used one. */
  predicate NamesBundlePreKey(w: World, m: EncryptedMessage) {
    SameOneTime(w.bundle, Lookup(w, m.oneTimePreKeyId))
  }

  /**
    An envelope is handed over at most once, and the first one Bob processes names the bundle's
    one-time prekey. Every send is allowed.
   */
  predicate Allowed(w: World, step: Step) {
    match step
    case Send(_, _, _, _) => true
    case Deliver(i) => MayHandOver(w, i)
    case DeliverDamaged(i, _, _) => MayHandOver(w, i)
  }

  predicate MayHandOver(w: World, i: nat) {
    && i < |w.sent|
    && i !in w.delivered
    && (w.bob.None? ==> NamesBundlePreKey(w, w.sent[i].message))
  }

  function Next(w: World, step: Step): World
    requires Allowed(w, step)
  {
    match step
    case Send(p, text, context, nonce) => AfterSending(w, p, text, context, nonce)
    case Deliver(i) => HandOver(w, i, w.sent[i].message).world
    case DeliverDamaged(i, c, nonce) => HandOver(w, i, Damaged(w.sent[i].message, c, nonce)).world
  }

  predicate Legal(w: World, steps: seq<Step>)
    decreases |steps|
  {
    steps == [] || (Allowed(w, steps[0]) && Legal(Next(w, steps[0]), steps[1..]))
  }

  function Run(w: World, steps: seq<Step>): World
    requires Legal(w, steps)
    decreases |steps|
  {
    if steps == [] then w else Run(Next(w, steps[0]), steps[1..])
  }

  /** Bob's bundle as generatePreKeyBundle publishes it, with every pair distinct from the fresh ones. */
  predicate Genuine(aliceIdentity: KeyPair, bobIdentity: KeyPair, bundle: PreKeyBundle, signedPreKey: Option<KeyPair>,
                    ephemeral: PublicKey) {
    && bundle.identity == bobIdentity.publicKey
    && signedPreKey == Some(KeyPair(bundle.signedPreKey))
    && bundle.signedPreKey < ephemeral
  }
}
