/** One client's orchestrator: fan-out to linked devices on the way out, contacts and self-sync on the way in. */
module Devices {
  import opened Wrappers
  import opened SymbolicCrypto
  import opened Ratchet
  import opened SignalStores
  import opened EngineCalls

  /** Identity keys and mailbox hashes are both hex strings; placeholder contacts use one for the other. */
  type Hex = PublicKey

  type MessageId = nat

  datatype LinkedDevice = LinkedDevice(id: nat, mailbox: Hex, identity: Hex)

  datatype Alias = Named(name: string) | UnknownContact | SyncedConversation

  datatype Contact = Contact(hash: Hex, identity: Hex, signing: Option<Hex>, alias: Alias, createdAt: int,
                             devices: seq<LinkedDevice>)

  datatype Status = SentOnly | Delivered

  datatype StoredMessage = StoredMessage(
    id: MessageId,
    contact: Hex,
    sender: Hex,
    recipient: Hex,
    body: string,
    timestamp: int,
    outgoing: bool,
    read: bool,
    status: Status)

  datatype SyncPayload = SyncPayload(recipient: Hex, body: string, timestamp: int, messageId: Option<MessageId>)

  /** JSON text of a sync payload: a body is one when it parses as one. */
  datatype SyncText = SyncText(stringify: SyncPayload -> string, parse: string -> Option<SyncPayload>)

  ghost predicate Faithful(json: SyncText) {
    forall p :: json.parse(json.stringify(p)) == Some(p)
  }

  /** A device's database. */
  datatype Device = Device(
    me: KeyPair,
    contacts: map<Hex, Contact>,
    ownDevices: seq<LinkedDevice>,
    messages: map<MessageId, StoredMessage>,
    store: StoreView)

  /** contact_pubkey_hash REFERENCES contacts. */
  predicate ReferencesHold(d: Device) {
    && (forall h | h in d.contacts :: d.contacts[h].hash == h)
    && forall id | id in d.messages :: d.messages[id].contact in d.contacts
  }

  // ---- Tables ------------------------------------------------------------------------------------

  /** An upsert: the creation time of an existing row stays. */
  function SaveContact(contacts: map<Hex, Contact>, c: Contact): map<Hex, Contact> {
    contacts[c.hash := if c.hash in contacts then c.(createdAt := contacts[c.hash].createdAt) else c]
  }

  /** An upsert that only touches body, read flag and status of an existing row. */
  function SaveMessage(messages: map<MessageId, StoredMessage>, m: StoredMessage): map<MessageId, StoredMessage> {
    if m.id !in messages then messages[m.id := m]
    else messages[m.id := messages[m.id].(body := m.body, read := m.read, status := m.status)]
  }

  // ---- Sending -----------------------------------------------------------------------------------

  datatype Posted = Posted(mailbox: Hex, message: EncryptedMessage)

  /** What has come of the attempts so far. */
  datatype FanOut = FanOut(store: StoreView, posted: seq<Posted>, live: bool)

  /** How a request fares: the relay does not accept it, or accepts it and its answer is lost or arrives. */
  datatype Reply = NotAccepted | Unanswered | Answered(live: bool)

  /** What one attempt meets outside: the box nonce, and the fate of the request. */
  datatype Attempt = Attempt(nonce: nat, reply: Reply)

  function AfterAttempt(f: FanOut, me: KeyPair, target: LinkedDevice, text: string, attempt: Attempt): FanOut {
    var (after, m) := EncryptCall(f.store, me, target.identity, text, None, attempt.nonce);
    if m.Err? || attempt.reply.NotAccepted? then f.(store := after)
    else
      FanOut(after, f.posted + [Posted(target.mailbox, m.value)],
             f.live || (attempt.reply.Answered? && attempt.reply.live))
  }

  function FannedOut(start: FanOut, me: KeyPair, targets: seq<LinkedDevice>, text: string,
                     attempts: nat -> Attempt): FanOut {
    if targets == [] then start
    else
      var last := |targets| - 1;
      AfterAttempt(FannedOut(start, me, targets[..last], text, attempts), me, targets[last], text, attempts(last))
  }

  /** A contact without linked devices is its own only device. */
  function Targets(c: Contact): seq<LinkedDevice> {
    if c.devices != [] then c.devices else [LinkedDevice(1, c.hash, c.identity)]
  }

  datatype Outbound = Outbound(device: Device, posted: seq<Posted>, stored: Option<StoredMessage>)

  function Later(attempts: nat -> Attempt, n: nat): nat -> Attempt {
    (k: nat) => attempts(k + n)
  }

  /** posted: everything the relay has accepted, before and after. */
  function SentOut(d: Device, posted: seq<Posted>, hash: Hex, text: string, id: MessageId, now: int,
                   attempts: nat -> Attempt, json: SyncText): Outbound {
    if hash !in d.contacts then Outbound(d, posted, None)
    else
      var c := d.contacts[hash];
      var f := FannedOut(FanOut(d.store, posted, false), d.me, Targets(c), text, attempts);
      var sync := json.stringify(SyncPayload(c.hash, text, now, Some(id)));
      var g := FannedOut(f.(live := false), d.me, d.ownDevices, sync, Later(attempts, |Targets(c)|));
      var stored := StoredMessage(id, c.hash, d.me.publicKey, c.identity, text, now, true, true,
                                  if f.live then Delivered else SentOnly);
      Outbound(d.(store := g.store, messages := SaveMessage(d.messages, stored)), g.posted, Some(stored))
  }

  // ---- Receiving ---------------------------------------------------------------------------------

  /** What SELECT … WHERE identity_pubkey_hex = ? may return. */
  predicate FindsIdentity(contacts: map<Hex, Contact>, identity: Hex, found: Option<Hex>) {
    match found
    case Some(h) => h in contacts && contacts[h].identity == identity
    case None => forall h | h in contacts :: contacts[h].identity != identity
  }

  /** The newest contact with a session, which is where an envelope without a sender key goes. */
  predicate FindsSession(contacts: map<Hex, Contact>, sessions: map<PublicKey, Session>, found: Option<Hex>) {
    match found
    case Some(h) =>
      && h in contacts && contacts[h].identity in sessions
      && forall j | j in contacts && contacts[j].identity in sessions :: contacts[j].createdAt <= contacts[h].createdAt
    case None => forall h | h in contacts :: contacts[h].identity !in sessions
  }

  predicate Finds(d: Device, m: EncryptedMessage, found: Option<Hex>) {
    match m.initialIdentity
    case Some(identity) => FindsIdentity(d.contacts, identity, found)
    case None => FindsSession(d.contacts, d.store.sessions, found)
  }

  /** What one incoming call meets outside: the row found, clock, random id, and what decrypt draws. */
  datatype Incoming = Incoming(
    found: Option<Hex>,
    now: int,
    timestamp: int,
    id: MessageId,
    latest: Option<SignedPreKey>,
    first: KeyPair,
    second: KeyPair)

  datatype Resolved = Resolved(identity: Hex, contact: Hex, contacts: map<Hex, Contact>)

  /** The sender, and the contact it is filed under; an unknown sender becomes one. */
  function Resolve(d: Device, m: EncryptedMessage, x: Incoming): Option<Resolved>
    requires Finds(d, m, x.found)
  {
    match m.initialIdentity
    case Some(identity) =>
      if x.found.Some? then Some(Resolved(identity, x.found.value, d.contacts))
      else Some(Resolved(identity, identity,
                         SaveContact(d.contacts, Contact(identity, identity, None, UnknownContact, x.now, []))))
    case None =>
      if x.found.Some? then Some(Resolved(d.contacts[x.found.value].identity, x.found.value, d.contacts)) else None
  }

  function Placeholder(contacts: map<Hex, Contact>, hash: Hex, now: int): map<Hex, Contact> {
    if hash in contacts then contacts else SaveContact(contacts, Contact(hash, hash, None, SyncedConversation, now, []))
  }

  /** The row for a decrypted text, and the contacts it needs. */
  function Filed(r: Resolved, me: Hex, text: string, x: Incoming, json: SyncText): (StoredMessage, map<Hex, Contact>) {
    match json.parse(text)
    case None => (StoredMessage(x.id, r.contact, r.identity, me, text, x.timestamp, false, false, Delivered),
                  r.contacts)
    case Some(sync) =>
      var id := if sync.messageId.Some? then sync.messageId.value else x.id;
      (StoredMessage(id, sync.recipient, r.identity, me, sync.body, x.timestamp, true, true, Delivered),
       Placeholder(r.contacts, sync.recipient, x.now))
  }

  datatype Inbound = Inbound(device: Device, stored: Option<StoredMessage>)

  function Received(d: Device, m: EncryptedMessage, x: Incoming, json: SyncText): Inbound
    requires Finds(d, m, x.found)
  {
    var r := Resolve(d, m, x);
    if r.None? then Inbound(d, None)
    else
      var (store, text) := DecryptCall(false, d.store, d.me, r.value.identity, m, x.latest, x.first, x.second);
      var e := d.(store := store, contacts := r.value.contacts);
      if text.Err? then Inbound(e, None)
      else
        var (row, contacts) := Filed(r.value, d.me.publicKey, text.value, x, json);
        var saved := e.(contacts := contacts);
        // The INSERT fails on an unknown contact.
        if row.contact !in contacts then Inbound(saved, None)
        else Inbound(saved.(messages := SaveMessage(d.messages, row)), Some(row))
  }

  // ---- The orchestrator --------------------------------------------------------------------------

  class AppOrchestrator {
    const me: KeyPair
    const json: SyncText
    var contacts: map<Hex, Contact>
    var ownDevices: seq<LinkedDevice>
    var messages: map<MessageId, StoredMessage>
    var store: StoreView
    /** What the relay has accepted. */
    var posted: seq<Posted>

    function View(): Device
      reads this
    {
      Device(me, contacts, ownDevices, messages, store)
    }

    constructor (me: KeyPair, json: SyncText)
      ensures View() == Device(me, map[], [], map[], StoreView(map[], map[], map[])) && posted == []
      ensures this.json == json
    {
      this.me, this.json := me, json;
      contacts, ownDevices, messages, store, posted := map[], [], map[], StoreView(map[], map[], map[]), [];
    }

    /** Tries one device after the other; a failure skips to the next. */
    method Dispatch(targets: seq<LinkedDevice>, text: string, attempts: nat -> Attempt) returns (live: bool)
      modifies this`store, this`posted
      ensures FanOut(store, posted, live)
              == FannedOut(FanOut(old(store), old(posted), false), me, targets, text, attempts)
    {
      live := false;
      for i := 0 to |targets|
        invariant FanOut(store, posted, live)
                  == FannedOut(FanOut(old(store), old(posted), false), me, targets[..i], text, attempts)
      {
        assert targets[..i + 1][..i] == targets[..i];
        var (after, encrypted) := EncryptCall(store, me, targets[i].identity, text, None, attempts(i).nonce);
        store := after;
        if encrypted.Ok? {
          match attempts(i).reply {
            case NotAccepted =>
            case Unanswered =>
              posted := posted + [Posted(targets[i].mailbox, encrypted.value)];
            case Answered(deliveredLive) =>
              posted := posted + [Posted(targets[i].mailbox, encrypted.value)];
              if deliveredLive {
                live := true;
              }
          }
        }
      }
      assert targets[..|targets|] == targets;
    }

    method SendOutboundMessage(hash: Hex, text: string, id: MessageId, now: int, attempts: nat -> Attempt)
      returns (stored: Option<StoredMessage>)
      modifies this
      ensures Outbound(View(), posted, stored) == SentOut(old(View()), old(posted), hash, text, id, now, attempts, json)
    {
      if hash !in contacts {
        return None;
      }
      var c := contacts[hash];
      var targets := Targets(c);
      var live := Dispatch(targets, text, attempts);
      var sync := json.stringify(SyncPayload(c.hash, text, now, Some(id)));
      var ignored := Dispatch(ownDevices, sync, Later(attempts, |targets|));
      var row := StoredMessage(id, c.hash, me.publicKey, c.identity, text, now, true, true,
                               if live then Delivered else SentOnly);
      messages := SaveMessage(messages, row);
      return Some(row);
    }

    method HandleIncomingMessage(m: EncryptedMessage, x: Incoming) returns (stored: Option<StoredMessage>)
      requires Finds(View(), m, x.found)
      modifies this
      ensures Inbound(View(), stored) == Received(old(View()), m, x, json) && posted == old(posted)
    {
      var identity, contact := me.publicKey, me.publicKey;
      if m.initialIdentity.Some? {
        identity := m.initialIdentity.value;
        if x.found.Some? {
          contact := x.found.value;
        } else {
          contact := identity;
          contacts := SaveContact(contacts, Contact(identity, identity, None, UnknownContact, x.now, []));
        }
      } else if x.found.Some? {
        identity, contact := contacts[x.found.value].identity, x.found.value;
      } else {
        return None;
      }
      var (after, text) := DecryptCall(false, store, me, identity, m, x.latest, x.first, x.second);
      store := after;
      if text.Err? {
        return None;
      }
      var body, id, outgoing := text.value, x.id, false;
      var sync := json.parse(text.value);
      if sync.Some? {
        outgoing, body, contact := true, sync.value.body, sync.value.recipient;
        if sync.value.messageId.Some? {
          id := sync.value.messageId.value;
        }
        if contact !in contacts {
          contacts := SaveContact(contacts, Contact(contact, contact, None, SyncedConversation, x.now, []));
        }
      }
      if contact !in contacts {
        return None;
      }
      var row := StoredMessage(id, contact, identity, me.publicKey, body, x.timestamp, outgoing, outgoing, Delivered);
      messages := SaveMessage(messages, row);
      return Some(row);
    }
  }
}
