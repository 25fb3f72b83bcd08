/**
  What a call of the orchestrator does, by the fields of the contact it is about: whom it posts to, under
  which session, what it stores, and which contacts it makes.
 */
module ContactFields {
  import opened Wrappers
  import opened SymbolicCrypto
  import opened Ratchet
  import opened SignalStores
  import opened EngineCalls
  import opened Devices
  import opened DeviceTheorems

  /** The session under a peer's key can send. */
  predicate Ready(v: StoreView, peer: Hex) {
    peer in v.sessions && CanSend(v.sessions[peer])
  }

  /** What reaches the relay of one attempt: the next envelope of that session, for that mailbox. */
  function Reaches(v: StoreView, me: KeyPair, mailbox: Hex, peer: Hex, text: string, attempt: Attempt): seq<Posted> {
    if Ready(v, peer) && !attempt.reply.NotAccepted?
    then [Posted(mailbox, Envelope(v.sessions[peer], me.publicKey, text, None, attempt.nonce))]
    else []
  }

  lemma AloneReaches(v: StoreView, me: KeyPair, device: LinkedDevice, text: string, attempt: Attempt)
    ensures Alone(v, me, device, text, attempt) == Reaches(v, me, device.mailbox, device.identity, text, attempt)
  {
  }

  // ---- Sending -----------------------------------------------------------------------------------

  lemma FirstFanOutIsPosted(d: Device, posted: seq<Posted>, hash: Hex, text: string, id: MessageId, now: int,
                            attempts: nat -> Attempt, json: SyncText)
    requires hash in d.contacts && DeviceTheorems.Distinct(Targets(d.contacts[hash]))
    ensures posted + AllAlone(d.store, d.me, Targets(d.contacts[hash]), text, attempts)
         <= SentOut(d, posted, hash, text, id, now, attempts, json).posted
  {
    var c := d.contacts[hash];
    var f := FannedOut(FanOut(d.store, posted, false), d.me, Targets(c), text, attempts);
    FanOutIndependent(FanOut(d.store, posted, false), d.me, Targets(c), text, attempts);
    var sync := json.stringify(SyncPayload(c.hash, text, now, Some(id)));
    PostedStays(f.(live := false), d.me, d.ownDevices, sync, Later(attempts, |Targets(c)|));
  }

  lemma {:induction false} PostedStays(start: FanOut, me: KeyPair, targets: seq<LinkedDevice>, text: string,
                                       attempts: nat -> Attempt)
    ensures start.posted <= FannedOut(start, me, targets, text, attempts).posted
    ensures targets == [] ==> FannedOut(start, me, targets, text, attempts) == start
  {
    if targets != [] {
      PostedStays(start, me, targets[..|targets| - 1], text, attempts);
    }
  }

  /**
    A contact without linked devices is written to under its own identity key and at its own mailbox; and,
    on a device without others of its owner, that is all there is.
   */
  lemma PlainContact(d: Device, posted: seq<Posted>, hash: Hex, text: string, id: MessageId, now: int,
                     attempts: nat -> Attempt, json: SyncText)
    requires hash in d.contacts && d.contacts[hash].devices == []
    ensures var c := d.contacts[hash];
            var reaches := Reaches(d.store, d.me, c.hash, c.identity, text, attempts(0));
            var o := SentOut(d, posted, hash, text, id, now, attempts, json);
            && posted + reaches <= o.posted
            && (d.ownDevices == [] ==> o.posted == posted + reaches)
  {
    var c := d.contacts[hash];
    var only := LinkedDevice(1, c.hash, c.identity);
    AloneReaches(d.store, d.me, only, text, attempts(0));
    OneAttempt(FanOut(d.store, posted, false), d.me, only, text, attempts(0));
    var f := FannedOut(FanOut(d.store, posted, false), d.me, [only], text, attempts);
    assert FannedOut(FanOut(d.store, posted, false), d.me, [], text, attempts) == FanOut(d.store, posted, false);
    assert [only][..0] == [];
    var sync := json.stringify(SyncPayload(c.hash, text, now, Some(id)));
    PostedStays(f.(live := false), d.me, d.ownDevices, sync, Later(attempts, 1));
  }

  /** A contact with linked devices is written to at each of them, under that device's key and at its mailbox. */
  lemma LinkedContact(d: Device, posted: seq<Posted>, hash: Hex, text: string, id: MessageId, now: int,
                      attempts: nat -> Attempt, json: SyncText, i: nat)
    requires hash in d.contacts && DeviceTheorems.Distinct(d.contacts[hash].devices) && i < |d.contacts[hash].devices|
    ensures var device := d.contacts[hash].devices[i];
            forall x | x in Reaches(d.store, d.me, device.mailbox, device.identity, text, attempts(i)) ::
              x in SentOut(d, posted, hash, text, id, now, attempts, json).posted
  {
    var devices := d.contacts[hash].devices;
    AloneReaches(d.store, d.me, devices[i], text, attempts(i));
    AloneIsPosted(d.store, d.me, devices, text, attempts, i);
    FirstFanOutIsPosted(d, posted, hash, text, id, now, attempts, json);
    forall x | x in Reaches(d.store, d.me, devices[i].mailbox, devices[i].identity, text, attempts(i))
      ensures x in SentOut(d, posted, hash, text, id, now, attempts, json).posted
    {
      InPrefix(posted, AllAlone(d.store, d.me, devices, text, attempts),
               SentOut(d, posted, hash, text, id, now, attempts, json).posted, x);
    }
  }

  lemma InPrefix(a: seq<Posted>, b: seq<Posted>, all: seq<Posted>, x: Posted)
    requires a + b <= all && x in b
    ensures x in all
  {
    var k :| 0 <= k < |b| && b[k] == x;
    assert all[|a| + k] == (a + b)[|a| + k] == x;
  }

  /** The own devices get the sync text of the message, each under its key and at its mailbox. */
  lemma OwnDevice(d: Device, posted: seq<Posted>, hash: Hex, text: string, id: MessageId, now: int,
                  attempts: nat -> Attempt, json: SyncText, i: nat)
    requires hash in d.contacts && i < |d.ownDevices|
    requires DeviceTheorems.Distinct(Targets(d.contacts[hash]) + d.ownDevices)
    ensures var c, device := d.contacts[hash], d.ownDevices[i];
            forall x | x in Reaches(d.store, d.me, device.mailbox, device.identity, SyncOf(c.hash, text, now, id, json),
                                    attempts(|Targets(c)| + i)) ::
              x in SentOut(d, posted, hash, text, id, now, attempts, json).posted
  {
    var c := d.contacts[hash];
    SecondFanOutIsPosted(d, posted, hash, text, id, now, attempts, json);
    TwoFanOuts(d.store, posted, d.me, Targets(c), d.ownDevices, text, SyncOf(c.hash, text, now, id, json), attempts, i);
  }

  lemma TwoFanOuts(v: StoreView, posted: seq<Posted>, me: KeyPair, targets: seq<LinkedDevice>, own: seq<LinkedDevice>,
                   text: string, sync: string, attempts: nat -> Attempt, i: nat)
    requires DeviceTheorems.Distinct(targets + own) && i < |own|
    ensures var f := FannedOut(FanOut(v, posted, false), me, targets, text, attempts);
            var g := FannedOut(f.(live := false), me, own, sync, Later(attempts, |targets|));
            forall x | x in Reaches(v, me, own[i].mailbox, own[i].identity, sync, attempts(|targets| + i)) ::
              x in g.posted
  {
    var f := FannedOut(FanOut(v, posted, false), me, targets, text, attempts);
    var more := Later(attempts, |targets|);
    DistinctParts(targets, own);
    FanOutIndependent(FanOut(v, posted, false), me, targets, text, attempts);
    SecondFanOutReaches(v, f.(live := false), me, targets, own, sync, more, i);
    assert more(i) == attempts(|targets| + i);
  }

  lemma SecondFanOutIsPosted(d: Device, posted: seq<Posted>, hash: Hex, text: string, id: MessageId, now: int,
                             attempts: nat -> Attempt, json: SyncText)
    requires hash in d.contacts
    ensures var c := d.contacts[hash];
            var f := FannedOut(FanOut(d.store, posted, false), d.me, Targets(c), text, attempts);
            SentOut(d, posted, hash, text, id, now, attempts, json).posted
            == FannedOut(f.(live := false), d.me, d.ownDevices, SyncOf(c.hash, text, now, id, json),
                         Later(attempts, |Targets(c)|)).posted
  {
  }

  lemma SecondFanOutReaches(v: StoreView, f: FanOut, me: KeyPair, earlier: seq<LinkedDevice>, own: seq<LinkedDevice>,
                            text: string, attempts: nat -> Attempt, i: nat)
    requires OneSendEach(v, f.store, earlier) && DeviceTheorems.Distinct(own) && i < |own|
    requires own[i].identity !in Peers(earlier)
    ensures forall x | x in Reaches(v, me, own[i].mailbox, own[i].identity, text, attempts(i)) ::
              x in FannedOut(f, me, own, text, attempts).posted
  {
    FanOutIndependent(f, me, own, text, attempts);
    AloneReaches(v, me, own[i], text, attempts(i));
    AloneLocal(v, f.store, me, own[i], text, attempts(i));
    AloneIsPosted(f.store, me, own, text, attempts, i);
  }

  lemma ReadyStays(f: FanOut, me: KeyPair, target: LinkedDevice, text: string, attempt: Attempt, peer: Hex)
    ensures Ready(AfterAttempt(f, me, target, text, attempt).store, peer) == Ready(f.store, peer)
    ensures AfterAttempt(f, me, target, text, attempt).live
         == (f.live || (Ready(f.store, target.identity) && attempt.reply == Answered(true)))
  {
  }

  predicate ReachedLive(v: StoreView, targets: seq<LinkedDevice>, attempts: nat -> Attempt, i: nat) {
    i < |targets| && Ready(v, targets[i].identity) && attempts(i).reply == Answered(true)
  }

  /** The fan-out has reached somebody live if and only if some device with a session was reported so. */
  lemma {:induction false} LiveIff(start: FanOut, me: KeyPair, targets: seq<LinkedDevice>, text: string,
                                   attempts: nat -> Attempt, peer: Hex)
    ensures var f := FannedOut(start, me, targets, text, attempts);
            && Ready(f.store, peer) == Ready(start.store, peer)
            && (f.live <==> start.live || exists i: nat :: ReachedLive(start.store, targets, attempts, i))
  {
    if targets != [] {
      var last := |targets| - 1;
      var rest := targets[..last];
      var f := FannedOut(start, me, rest, text, attempts);
      LiveIff(start, me, rest, text, attempts, peer);
      LiveIff(start, me, rest, text, attempts, targets[last].identity);
      ReadyStays(f, me, targets[last], text, attempts(last), peer);
      if i: nat :| ReachedLive(start.store, rest, attempts, i) {
        assert ReachedLive(start.store, targets, attempts, i);
      }
      if i: nat :| ReachedLive(start.store, targets, attempts, i) {
        assert i < last ==> ReachedLive(start.store, rest, attempts, i);
      }
      assert ReachedLive(start.store, targets, attempts, last)
             == (Ready(start.store, targets[last].identity) && attempts(last).reply == Answered(true));
    }
  }

  /** The row that is stored, and the table afterwards. */
  lemma StoredRow(d: Device, posted: seq<Posted>, hash: Hex, text: string, id: MessageId, now: int,
                  attempts: nat -> Attempt, json: SyncText)
    requires hash in d.contacts
    ensures var c, o := d.contacts[hash], SentOut(d, posted, hash, text, id, now, attempts, json);
            && o.stored.Some?
            && var row := o.stored.value;
            && row.id == id && row.contact == c.hash && row.sender == d.me.publicKey && row.recipient == c.identity
            && row.body == text && row.timestamp == now && row.outgoing && row.read
            && (row.status == Delivered <==> exists i: nat :: ReachedLive(d.store, Targets(c), attempts, i))
            && (id !in d.messages ==> o.device.messages == d.messages[id := row])
            && o.device.contacts == d.contacts
  {
    LiveIff(FanOut(d.store, posted, false), d.me, Targets(d.contacts[hash]), text, attempts, 0);
  }

  /** Without such a contact nothing happens. */
  lemma NoContactNothing(d: Device, posted: seq<Posted>, hash: Hex, text: string, id: MessageId, now: int,
                         attempts: nat -> Attempt, json: SyncText)
    requires hash !in d.contacts
    ensures SentOut(d, posted, hash, text, id, now, attempts, json) == Outbound(d, posted, None)
  {
  }

  // ---- Upserts ------------------------------------------------------------------------------------

  /** Saving a contact again keeps the time it was made, and saving a message again its place in a conversation. */
  lemma SavedAgain(contacts: map<Hex, Contact>, c: Contact, messages: map<MessageId, StoredMessage>, m: StoredMessage)
    ensures c.hash in SaveContact(contacts, c) && SaveContact(contacts, c) - {c.hash} == contacts - {c.hash}
    ensures c.hash !in contacts ==> SaveContact(contacts, c)[c.hash] == c
    ensures c.hash in contacts ==>
              && SaveContact(contacts, c)[c.hash].createdAt == contacts[c.hash].createdAt
              && SaveContact(contacts, c)[c.hash].(createdAt := c.createdAt) == c
    ensures m.id in SaveMessage(messages, m) && SaveMessage(messages, m) - {m.id} == messages - {m.id}
    ensures m.id !in messages ==> SaveMessage(messages, m)[m.id] == m
    ensures m.id in messages ==>
              var before, after := messages[m.id], SaveMessage(messages, m)[m.id];
              && (after.body, after.read, after.status) == (m.body, m.read, m.status)
              && (after.contact, after.sender, after.recipient) == (before.contact, before.sender, before.recipient)
              && (after.timestamp, after.outgoing) == (before.timestamp, before.outgoing)
  {
  }

  // ---- Receiving -----------------------------------------------------------------------------------

  /** A sender no contact has the key of becomes one: its key is its name, its identity and its mailbox. */
  lemma UnknownSender(d: Device, m: EncryptedMessage, x: Incoming, json: SyncText, identity: Hex)
    requires Finds(d, m, x.found) && m.initialIdentity == Some(identity) && x.found.None?
    ensures var after := Received(d, m, x, json).device.contacts;
            && identity in after
            && after[identity].hash == identity && after[identity].identity == identity && after[identity].devices == []
            && (identity !in d.contacts ==>
                  after[identity] == Contact(identity, identity, None, UnknownContact, x.now, []))
            && forall h | h in d.contacts && h != identity :: h in after && after[h] == d.contacts[h]
  {
  }

  /**
    So an answer to it is posted to the mailbox that its identity key spells, and nowhere else; a mailbox
    is named by the hash of a signing key.
   */
  lemma AnswerToUnknownSender(d: Device, m: EncryptedMessage, x: Incoming, json: SyncText, identity: Hex,
                              posted: seq<Posted>, text: string, id: MessageId, now: int, attempts: nat -> Attempt)
    requires Finds(d, m, x.found) && m.initialIdentity == Some(identity) && x.found.None? && d.ownDevices == []
    ensures var e := Received(d, m, x, json).device;
            SentOut(e, posted, identity, text, id, now, attempts, json).posted
            == posted + Reaches(e.store, e.me, identity, identity, text, attempts(0))
  {
    UnknownSender(d, m, x, json, identity);
    PlainContact(Received(d, m, x, json).device, posted, identity, text, id, now, attempts, json);
  }

  /** A known sender is filed under its contact, which stays as it is. */
  lemma KnownSender(d: Device, m: EncryptedMessage, x: Incoming, json: SyncText, identity: Hex, h: Hex)
    requires Finds(d, m, x.found) && m.initialIdentity == Some(identity) && x.found == Some(h)
    ensures var received := Received(d, m, x, json);
            && (forall j | j in d.contacts :: j in received.device.contacts
                                              && received.device.contacts[j] == d.contacts[j])
            && var text := DecryptCall(false, d.store, d.me, identity, m, x.latest, x.first, x.second).1;
            && (text.Err? ==> received.stored.None? && received.device.contacts == d.contacts)
            && (text.Ok? && json.parse(text.value).None? ==>
                  received.stored == Some(StoredMessage(x.id, h, identity, d.me.publicKey, text.value, x.timestamp,
                                                        false, false, Delivered)))
  {
  }

  lemma NameDoesNotMatter(d: Device, m: EncryptedMessage, x: Incoming, json: SyncText, h: Hex)
    requires m.initialIdentity.None? && x.found == Some(h)
    requires h in d.contacts && d.contacts[h].identity in d.store.sessions
    requires FindsSession(d.contacts, d.store.sessions, x.found)
    ensures Received(d, m.(initialIdentity := Some(d.contacts[h].identity)), x, json) == Received(d, m, x, json)
  {
  }

  /** An envelope without a sender's key is taken for one of the newest contact with a session, or dropped. */
  lemma AnonymousSender(d: Device, m: EncryptedMessage, x: Incoming, json: SyncText)
    requires Finds(d, m, x.found) && m.initialIdentity.None?
    ensures x.found.None? ==> Received(d, m, x, json) == Inbound(d, None)
    ensures x.found.Some? ==>
              var h := x.found.value;
              && h in d.contacts && d.contacts[h].identity in d.store.sessions
              && (forall j | j in d.contacts && d.contacts[j].identity in d.store.sessions ::
                    d.contacts[j].createdAt <= d.contacts[h].createdAt)
              && Received(d, m.(initialIdentity := Some(d.contacts[h].identity)), x, json) == Received(d, m, x, json)
  {
    if x.found.Some? {
      NameDoesNotMatter(d, m, x, json, x.found.value);
    }
  }

  /** A sync text for a conversation the device does not know makes a contact without a real key. */
  lemma UnknownConversation(d: Device, m: EncryptedMessage, x: Incoming, json: SyncText, sync: SyncPayload)
    requires Finds(d, m, x.found) && m.initialIdentity.Some?
    requires var text := DecryptCall(false, d.store, d.me, m.initialIdentity.value, m, x.latest, x.first, x.second).1;
             text.Ok? && json.parse(text.value) == Some(sync)
    requires sync.recipient !in d.contacts && sync.recipient != m.initialIdentity.value
    ensures var received := Received(d, m, x, json);
            && sync.recipient in received.device.contacts
            && received.device.contacts[sync.recipient]
               == Contact(sync.recipient, sync.recipient, None, SyncedConversation, x.now, [])
            && received.stored.Some? && received.stored.value.contact == sync.recipient
            && received.stored.value.body == sync.body && received.stored.value.outgoing
            && received.stored.value.id == (if sync.messageId.Some? then sync.messageId.value else x.id)
  {
  }

  /** On which a message goes nowhere, unless a session happens to be stored under the mailbox's name. */
  lemma NothingToPlaceholder(d: Device, posted: seq<Posted>, hash: Hex, made: int, text: string, id: MessageId,
                             now: int, attempts: nat -> Attempt, json: SyncText)
    requires hash in d.contacts && d.contacts[hash] == Contact(hash, hash, None, SyncedConversation, made, [])
    requires hash !in d.store.sessions && d.ownDevices == []
    ensures SentOut(d, posted, hash, text, id, now, attempts, json).posted == posted
    ensures SentOut(d, posted, hash, text, id, now, attempts, json).stored.Some?
  {
    PlainContact(d, posted, hash, text, id, now, attempts, json);
  }

  // ---- Linked devices ------------------------------------------------------------------------------

  lemma {:induction false} WithoutMeans(devices: seq<LinkedDevice>, id: nat, x: LinkedDevice)
    ensures x in Without(devices, id) <==> x in devices && x.id != id
  {
    if devices != [] {
      WithoutMeans(devices[1..], id, x);
      assert devices == [devices[0]] + devices[1..];
    }
  }

  /** Linking a device to a contact: it replaces one of its id, and changes nothing else. */
  lemma LinkedMeans(d: Device, hash: Hex, device: LinkedDevice, x: LinkedDevice)
    requires hash in d.contacts && d.contacts[hash].hash == hash
    ensures var c, after := d.contacts[hash], Linked(d, hash, device);
            && hash in after.contacts
            && (x in after.contacts[hash].devices <==> x == device || (x in c.devices && x.id != device.id))
            && after.contacts[hash].(devices := c.devices) == c
            && after.contacts - {hash} == d.contacts - {hash}
            && after.(contacts := d.contacts) == d
  {
    WithoutMeans(d.contacts[hash].devices, device.id, x);
  }

  predicate ById(devices: seq<LinkedDevice>) {
    forall i, j | 0 <= i < j < |devices| :: devices[i].id < devices[j].id
  }

  /** Own devices stay listed by id, the new one in place of one of its id. */
  lemma {:induction false} WithOwnMeans(devices: seq<LinkedDevice>, device: LinkedDevice)
    requires ById(devices)
    ensures ById(WithOwn(devices, device))
    ensures forall x :: x in WithOwn(devices, device) <==> x == device || (x in devices && x.id != device.id)
  {
    if devices != [] {
      assert devices == [devices[0]] + devices[1..];
      if device.id > devices[0].id {
        WithOwnMeans(devices[1..], device);
        FirstById(devices[0], WithOwn(devices[1..], device));
      }
    }
  }

  lemma FirstById(first: LinkedDevice, rest: seq<LinkedDevice>)
    requires ById(rest) && forall x | x in rest :: first.id < x.id
    ensures ById([first] + rest)
  {
  }
}
