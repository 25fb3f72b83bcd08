/** What the fan-out does to each session, what a device files, and both on top of the delivery theorem. */
module DeviceTheorems {
  import opened Wrappers
  import opened SymbolicCrypto
  import opened Ratchet
  import opened SignalStores
  import opened EngineCalls
  import opened Devices
  import opened Sequences
  import P = Protocol
  import RunInvariant
  import RunTheorems
  import EngineSteps

  // ---- Sending -----------------------------------------------------------------------------------

  predicate Distinct(targets: seq<LinkedDevice>) {
    forall i, j | 0 <= i < j < |targets| :: targets[i].identity != targets[j].identity
  }

  /** What the one attempt at this device posts when it is the only one. */
  function Alone(v: StoreView, me: KeyPair, target: LinkedDevice, text: string, attempt: Attempt): seq<Posted> {
    var (after, m) := EncryptCall(v, me, target.identity, text, None, attempt.nonce);
    if m.Ok? && !attempt.reply.NotAccepted? then [Posted(target.mailbox, m.value)] else []
  }

  function AllAlone(v: StoreView, me: KeyPair, targets: seq<LinkedDevice>, text: string,
                    attempts: nat -> Attempt): seq<Posted> {
    if targets == [] then []
    else
      var last := |targets| - 1;
      AllAlone(v, me, targets[..last], text, attempts) + Alone(v, me, targets[last], text, attempts(last))
  }

  function SessionAfter(v: StoreView, peer: PublicKey): Session
    requires peer in v.sessions
  {
    if CanSend(v.sessions[peer]) then AfterSend(v.sessions[peer]) else v.sessions[peer]
  }

  function Peers(targets: seq<LinkedDevice>): set<PublicKey> {
    set t | t in targets :: t.identity
  }

  /** The store after one encrypt per device, with every session either moved by exactly one send or left alone. */
  predicate OneSendEach(v: StoreView, w: StoreView, targets: seq<LinkedDevice>) {
    && w.signedPreKeys == v.signedPreKeys && w.oneTimePreKeys == v.oneTimePreKeys && w.sessions.Keys == v.sessions.Keys
    && forall peer | peer in v.sessions ::
         w.sessions[peer] == if peer in Peers(targets) then SessionAfter(v, peer) else v.sessions[peer]
  }

  lemma OneAttempt(f: FanOut, me: KeyPair, target: LinkedDevice, text: string, attempt: Attempt)
    ensures AfterAttempt(f, me, target, text, attempt).posted == f.posted + Alone(f.store, me, target, text, attempt)
    ensures OneSendEach(f.store, AfterAttempt(f, me, target, text, attempt).store, [target])
  {
    assert target in [target] && target.identity in Peers([target]);
  }

  lemma AloneLocal(v: StoreView, w: StoreView, me: KeyPair, target: LinkedDevice, text: string, attempt: Attempt)
    requires target.identity in v.sessions <==> target.identity in w.sessions
    requires target.identity in v.sessions ==> v.sessions[target.identity] == w.sessions[target.identity]
    ensures Alone(v, me, target, text, attempt) == Alone(w, me, target, text, attempt)
  {
  }

  lemma SendsCompose(v: StoreView, w: StoreView, x: StoreView, targets: seq<LinkedDevice>, target: LinkedDevice)
    requires OneSendEach(v, w, targets) && OneSendEach(w, x, [target]) && target.identity !in Peers(targets)
    ensures OneSendEach(v, x, targets + [target])
  {
    assert Peers([target]) == {target.identity} by {
      assert target in [target];
    }
    assert Peers(targets + [target]) == Peers(targets) + {target.identity} by {
      forall t | t in targets
        ensures t.identity in Peers(targets + [target])
      {
        assert t in targets + [target];
      }
      assert target in targets + [target];
    }
  }

  /**
    The attempts do not disturb each other: every device gets the envelope it would have got alone,
    in the order of the list, and every session moves by exactly its own send, whatever fails.
   */
  lemma {:induction false} FanOutIndependent(start: FanOut, me: KeyPair, targets: seq<LinkedDevice>, text: string,
                                             attempts: nat -> Attempt)
    requires Distinct(targets)
    ensures var f := FannedOut(start, me, targets, text, attempts);
            f.posted == start.posted + AllAlone(start.store, me, targets, text, attempts)
              && OneSendEach(start.store, f.store, targets)
  {
    if targets == [] {
      assert start.posted + [] == start.posted;
    } else {
      var last := |targets| - 1;
      var rest, target := targets[..last], targets[last];
      FanOutIndependent(start, me, rest, text, attempts);
      var f := FannedOut(start, me, rest, text, attempts);
      OneAttempt(f, me, target, text, attempts(last));
      assert rest + [target] == targets;
      assert target.identity !in Peers(rest);
      SendsCompose(start.store, f.store, AfterAttempt(f, me, target, text, attempts(last)).store, rest, target);
      AloneLocal(start.store, f.store, me, target, text, attempts(last));
      Associate(start.posted, AllAlone(start.store, me, rest, text, attempts),
                Alone(start.store, me, target, text, attempts(last)));
    }
  }

  lemma {:induction false} AloneIsPosted(v: StoreView, me: KeyPair, targets: seq<LinkedDevice>, text: string,
                                         attempts: nat -> Attempt, i: nat)
    requires i < |targets|
    ensures forall x | x in Alone(v, me, targets[i], text, attempts(i)) :: x in AllAlone(v, me, targets, text, attempts)
  {
    if i < |targets| - 1 {
      AloneIsPosted(v, me, targets[..|targets| - 1], text, attempts, i);
    }
  }

  // ---- Receiving ---------------------------------------------------------------------------------

  /** No row ever points to a missing contact, and the INSERT never fails for that reason. */
  lemma ReceiveKeepsReferences(d: Device, m: EncryptedMessage, x: Incoming, json: SyncText)
    requires ReferencesHold(d) && Finds(d, m, x.found)
    ensures ReferencesHold(Received(d, m, x, json).device)
    ensures var r := Resolve(d, m, x);
            Received(d, m, x, json).stored.Some?
            <==> r.Some? && DecryptCall(false, d.store, d.me, r.value.identity, m, x.latest, x.first, x.second).1.Ok?
  {
    var r := Resolve(d, m, x);
    if r.Some? {
      var (store, text) := DecryptCall(false, d.store, d.me, r.value.identity, m, x.latest, x.first, x.second);
      if text.Ok? {
        var (row, contacts) := Filed(r.value, d.me.publicKey, text.value, x, json);
        assert row.contact in contacts;
        assert d.contacts.Keys <= contacts.Keys;
      }
    }
  }

  lemma SendKeepsReferences(d: Device, posted: seq<Posted>, hash: Hex, text: string, id: MessageId, now: int,
                            attempts: nat -> Attempt, json: SyncText)
    requires ReferencesHold(d)
    ensures ReferencesHold(SentOut(d, posted, hash, text, id, now, attempts, json).device)
  {
  }

  datatype Step =
    | Send(hash: Hex, text: string, id: MessageId, now: int, attempts: nat -> Attempt)
    | Receive(message: EncryptedMessage, incoming: Incoming)
    | Import(contact: Contact)
    | Delete(hash: Hex)
    | Link(hash: Hex, device: LinkedDevice)
    | LinkOwn(device: LinkedDevice)

  /** DELETE FROM contacts fails on the foreign key while a message refers to the row. */
  function Deleted(d: Device, hash: Hex): Device {
    if exists id :: id in d.messages && d.messages[id].contact == hash then d else d.(contacts := d.contacts - {hash})
  }

  function Without(devices: seq<LinkedDevice>, id: nat): seq<LinkedDevice> {
    if devices == [] then []
    else (if devices[0].id == id then [] else [devices[0]]) + Without(devices[1..], id)
  }

  /** Own devices are listed by id, one row each. */
  function WithOwn(devices: seq<LinkedDevice>, device: LinkedDevice): seq<LinkedDevice> {
    if devices == [] || device.id < devices[0].id then [device] + devices
    else if device.id == devices[0].id then [device] + devices[1..]
    else [devices[0]] + WithOwn(devices[1..], device)
  }

  /** A device of the same id is replaced. */
  function Linked(d: Device, hash: Hex, device: LinkedDevice): Device {
    if hash !in d.contacts then d
    else
      var c := d.contacts[hash];
      d.(contacts := SaveContact(d.contacts, c.(devices := Without(c.devices, device.id) + [device])))
  }

  /** A receive step whose row lookup is not one the database can give does nothing. */
  function Next(d: Device, step: Step, json: SyncText): Device {
    match step
    case Send(hash, text, id, now, attempts) => SentOut(d, [], hash, text, id, now, attempts, json).device
    case Receive(m, x) => if Finds(d, m, x.found) then Received(d, m, x, json).device else d
    case Import(c) => d.(contacts := SaveContact(d.contacts, c))
    case Delete(hash) => Deleted(d, hash)
    case Link(hash, device) => Linked(d, hash, device)
    case LinkOwn(device) => d.(ownDevices := WithOwn(d.ownDevices, device))
  }

  function Run(d: Device, steps: seq<Step>, json: SyncText): Device
    decreases |steps|
  {
    if steps == [] then d else Run(Next(d, steps[0], json), steps[1..], json)
  }

  lemma DeleteKeepsReferences(d: Device, hash: Hex)
    requires ReferencesHold(d)
    ensures ReferencesHold(Deleted(d, hash))
    ensures hash in d.contacts ==>
            (hash !in Deleted(d, hash).contacts <==> forall id | id in d.messages :: d.messages[id].contact != hash)
  {
  }

  /** Every stored message refers to an existing contact, in every state a device can reach. */
  lemma {:induction false} ReferencesAlwaysHold(d: Device, steps: seq<Step>, json: SyncText)
    requires ReferencesHold(d)
    ensures ReferencesHold(Run(d, steps, json))
    decreases |steps|
  {
    if steps != [] {
      match steps[0] {
        case Send(hash, text, id, now, attempts) => SendKeepsReferences(d, [], hash, text, id, now, attempts, json);
        case Receive(m, x) =>
          if Finds(d, m, x.found) {
            ReceiveKeepsReferences(d, m, x, json);
          }
        case Import(c) =>
        case Delete(hash) => DeleteKeepsReferences(d, hash);
        case Link(hash, device) =>
        case LinkOwn(device) =>
      }
      ReferencesAlwaysHold(Next(d, steps[0], json), steps[1..], json);
    }
  }

  // ---- On top of the ratchet -----------------------------------------------------------------------

  /** The device's store holds this party's session of the two-party run. */
  predicate Holds(v: StoreView, w: P.World, p: P.Party) {
    var peer, s := EngineSteps.PeerKey(w, p), P.SessionOf(w, p);
    if s.None? then peer !in v.sessions else peer in v.sessions && v.sessions[peer] == s.value
  }

  lemma SentStore(v: StoreView, f: StoreView, targets: seq<LinkedDevice>, w: P.World, p: P.Party, text: string,
                  nonce: nat)
    requires OneSendEach(v, f, targets) && Holds(v, w, p) && EngineSteps.PeerKey(w, p) in Peers(targets)
    ensures Holds(f, P.AfterSending(w, p, text, None, nonce), p)
  {
    var peer := EngineSteps.PeerKey(w, p);
    assert peer in v.sessions ==> f.sessions[peer] == SessionAfter(v, peer);
  }

  lemma SentEnvelope(v: StoreView, me: KeyPair, target: LinkedDevice, text: string, attempt: Attempt, w: P.World,
                     p: P.Party)
    requires Holds(v, w, p) && me == P.IdentityOf(w, p) && target.identity == EngineSteps.PeerKey(w, p)
    requires var s := P.SessionOf(w, p); s.Some? && CanSend(s.value)
    ensures var sent := P.AfterSending(w, p, text, None, attempt.nonce).sent;
            && |sent| == |w.sent| + 1 && sent[|w.sent|].from == p && sent[|w.sent|].text == text
            && (!attempt.reply.NotAccepted? ==>
                Posted(target.mailbox, sent[|w.sent|].message) in Alone(v, me, target, text, attempt))
  {
  }

  /** A fan-out is a send step in the run of each of its devices, and the relay gets that run's new envelope. */
  lemma FanOutSends(start: FanOut, me: KeyPair, targets: seq<LinkedDevice>, text: string, attempts: nat -> Attempt,
                    i: nat, w: P.World, p: P.Party)
    requires Distinct(targets) && i < |targets|
    requires RunInvariant.InRun(w) && Holds(start.store, w, p)
    requires me == P.IdentityOf(w, p) && targets[i].identity == EngineSteps.PeerKey(w, p)
    ensures var f := FannedOut(start, me, targets, text, attempts);
            var v := P.AfterSending(w, p, text, None, attempts(i).nonce);
            && RunInvariant.InRun(v) && Holds(f.store, v, p)
            && (!attempts(i).reply.NotAccepted? && CanSendIn(w, p) ==>
                  && |v.sent| == |w.sent| + 1 && v.sent[|w.sent|].from == p && v.sent[|w.sent|].text == text
                  && Posted(targets[i].mailbox, v.sent[|w.sent|].message) in f.posted)
  {
    FanOutIndependent(start, me, targets, text, attempts);
    AloneIsPosted(start.store, me, targets, text, attempts, i);
    assert targets[i] in targets && targets[i].identity in Peers(targets);
    RunTheorems.StepKeeps(w, P.Send(p, text, None, attempts(i).nonce));
    SentStore(start.store, FannedOut(start, me, targets, text, attempts).store, targets, w, p, text, attempts(i).nonce);
    if CanSendIn(w, p) {
      SentEnvelope(start.store, me, targets[i], text, attempts(i), w, p);
    }
  }

  predicate CanSendIn(w: P.World, p: P.Party) {
    var s := P.SessionOf(w, p);
    s.Some? && CanSend(s.value)
  }

  /** A decrypt call looks at one session, and at the prekeys only when there is none. */
  lemma DecryptLocal(a: StoreView, b: StoreView, me: KeyPair, peer: PublicKey, m: EncryptedMessage,
                     latest: Option<SignedPreKey>, first: KeyPair, second: KeyPair)
    requires peer in a.sessions <==> peer in b.sessions
    requires peer in a.sessions ==> a.sessions[peer] == b.sessions[peer]
    requires peer !in a.sessions ==> LookupOneTime(a, m.oneTimePreKeyId) == LookupOneTime(b, m.oneTimePreKeyId)
    ensures var x := DecryptCall(false, a, me, peer, m, latest, first, second);
            var y := DecryptCall(false, b, me, peer, m, latest, first, second);
            && x.1 == y.1
            && (peer in x.0.sessions <==> peer in y.0.sessions)
            && (peer in x.0.sessions ==> x.0.sessions[peer] == y.0.sessions[peer])
            && y.0.sessions - {peer} == b.sessions - {peer}
  {
    if peer !in a.sessions {
      var (started, s) := StartCall(b, me, peer, m, latest, first);
      assert started.sessions - {peer} == b.sessions - {peer};
    }
    var y := DecryptCall(false, b, me, peer, m, latest, first, second).0;
    assert y.sessions - {peer} == b.sessions - {peer};
  }

  function LatestOf(w: P.World): Option<SignedPreKey> {
    if w.signedPreKey.None? then None else Some(SignedPreKey(w.signedPreKey.value, 0))
  }

  /** The store's latest signed prekey is the run's, whenever it was made. */
  predicate IsLatestOf(latest: Option<SignedPreKey>, w: P.World) {
    if w.signedPreKey.None? then latest.None? else latest.Some? && latest.value.keyPair == w.signedPreKey.value
  }

  /** The latest signed prekey is asked for only when there is no session, and only its pair is used. */
  lemma OnlyThePair(v: StoreView, me: KeyPair, peer: PublicKey, m: EncryptedMessage, w: P.World,
                    latest: Option<SignedPreKey>, first: KeyPair, second: KeyPair)
    requires peer in v.sessions || IsLatestOf(latest, w)
    ensures DecryptCall(false, v, me, peer, m, latest, first, second)
            == DecryptCall(false, v, me, peer, m, LatestOf(w), first, second)
  {
  }

  /** The device is the receiving side of that run, and its call meets outside what the run would draw. */
  predicate Awaits(e: Device, u: P.World, n: nat, x: Incoming) {
    && n < |u.sent| && !u.aliasing
    && var m, q := u.sent[n].message, P.Peer(u.sent[n].from);
    && e.me == P.IdentityOf(u, q) && Holds(e.store, u, q)
    && (P.SessionOf(u, q).None? ==>
          LookupOneTime(e.store, m.oneTimePreKeyId) == P.Lookup(u, m.oneTimePreKeyId) && IsLatestOf(x.latest, u))
    && x.first == KeyPair(u.nextPair) && x.second == KeyPair(u.nextPair + 1)
    && Finds(e, m, x.found)
  }

  lemma StoreHolds(u: P.World, q: P.Party, id: Option<int>)
    ensures Holds(EngineSteps.StoreOf(u, q), u, q)
    ensures P.SessionOf(u, q).None? ==> LookupOneTime(EngineSteps.StoreOf(u, q), id) == P.Lookup(u, id)
  {
  }

  /** The device's decrypt call is the run's hand-over, and touches no other session of the device. */
  lemma DeviceHandsOver(e: Device, u: P.World, n: nat, x: Incoming)
    requires Awaits(e, u, n, x)
    ensures var m, q := u.sent[n].message, P.Peer(u.sent[n].from);
            var peer := EngineSteps.PeerKey(u, q);
            var (store, text) := DecryptCall(false, e.store, e.me, peer, m, x.latest, x.first, x.second);
            var v := P.HandOver(u, n, m);
            text == v.outcome && Holds(store, v.world, q) && store.sessions - {peer} == e.store.sessions - {peer}
  {
    var m, q := u.sent[n].message, P.Peer(u.sent[n].from);
    var peer := EngineSteps.PeerKey(u, q);
    StoreHolds(u, q, m.oneTimePreKeyId);
    EngineSteps.HandOverIsDecrypt(u, n, m);
    OnlyThePair(e.store, e.me, peer, m, u, x.latest, x.first, x.second);
    DecryptLocal(EngineSteps.StoreOf(u, q), e.store, e.me, peer, m, LatestOf(u), x.first, x.second);
    StoreHolds(P.HandOver(u, n, m).world, q, m.oneTimePreKeyId);
    HandOverKeepsIdentities(u, n, m);
  }

  lemma HandOverKeepsIdentities(u: P.World, n: nat, m: EncryptedMessage)
    requires n < |u.sent|
    ensures var v := P.HandOver(u, n, m).world;
            && v.aliceIdentity == u.aliceIdentity && v.bobIdentity == u.bobIdentity && v.sent == u.sent
            && v.aliasing == u.aliasing && v.signedPreKey == u.signedPreKey
            && P.SessionOf(v, u.sent[n].from) == P.SessionOf(u, u.sent[n].from)
  {
  }

  /** A text that decrypts is filed for the sender the envelope names. */
  lemma FiledAs(e: Device, m: EncryptedMessage, x: Incoming, json: SyncText, sender: Hex, text: string)
    requires Finds(e, m, x.found) && m.initialIdentity == Some(sender)
    requires DecryptCall(false, e.store, e.me, sender, m, x.latest, x.first, x.second).1 == Ok(text)
    ensures var received := Received(e, m, x, json);
            var r := Resolve(e, m, x).value;
            var (row, contacts) := Filed(r, e.me.publicKey, text, x, json);
            && r.identity == sender && r.contact == (if x.found.Some? then x.found.value else sender)
            && received.device.store == DecryptCall(false, e.store, e.me, sender, m, x.latest, x.first, x.second).0
            && (row.contact in contacts ==>
                received.stored == Some(row) && received.device.messages == SaveMessage(e.messages, row))
  {
  }

  /** What the delivery theorem gives at the device: the text goes in, and its row comes out. */
  lemma DeviceReceives(e: Device, u: P.World, n: nat, x: Incoming, json: SyncText)
    requires RunInvariant.InRun(u) && Awaits(e, u, n, x) && P.MayHandOver(u, n)
    requires !BeyondSkipLimit(RunTheorems.ReceivingSession(u, n), u.sent[n].message)
    ensures var m, from := u.sent[n].message, u.sent[n].from;
            var sender := P.IdentityOf(u, from).publicKey;
            && m.initialIdentity == Some(sender)
            && var received := Received(e, m, x, json);
            var r := Resolve(e, m, x).value;
            var (row, contacts) := Filed(r, e.me.publicKey, u.sent[n].text, x, json);
            && r.identity == sender && r.contact == (if x.found.Some? then x.found.value else sender)
            && (row.contact in contacts ==>
                received.stored == Some(row) && received.device.messages == SaveMessage(e.messages, row))
            && Holds(received.device.store, P.HandOver(u, n, m).world, P.Peer(from))
            && received.device.store.sessions - {sender} == e.store.sessions - {sender}
  {
    NamesSender(u, n);
    DeviceHandsOver(e, u, n, x);
    RunTheorems.Delivers(u, n);
    FiledAs(e, u.sent[n].message, x, json, P.IdentityOf(u, u.sent[n].from).publicKey, u.sent[n].text);
  }

  lemma NamesSender(u: P.World, n: nat)
    requires RunInvariant.InRun(u) && n < |u.sent|
    ensures u.sent[n].message.initialIdentity == Some(P.IdentityOf(u, u.sent[n].from).publicKey)
    ensures EngineSteps.PeerKey(u, P.Peer(u.sent[n].from)) == P.IdentityOf(u, u.sent[n].from).publicKey
  {
    var h, e := RunInvariant.Stand(u, P.Alice);
  }

  // ---- One message to many devices -----------------------------------------------------------------

  lemma {:induction false} SentStays(u: P.World, steps: seq<P.Step>)
    requires P.Legal(u, steps)
    ensures u.sent <= P.Run(u, steps).sent
    decreases |steps|
  {
    if steps != [] {
      SentStays(P.Next(u, steps[0]), steps[1..]);
    }
  }

  /** The run of one device, from this send on: any steps may follow before the envelope arrives. */
  predicate Reaches(w: P.World, p: P.Party, text: string, nonce: nat, later: seq<P.Step>) {
    CanSendIn(w, p) && P.Legal(P.AfterSending(w, p, text, None, nonce), later)
  }

  function World(w: P.World, p: P.Party, text: string, nonce: nat, later: seq<P.Step>): P.World
    requires Reaches(w, p, text, nonce, later)
  {
    P.Run(P.AfterSending(w, p, text, None, nonce), later)
  }

  /** The envelope is still to come, within the skip limit, at the device it was made for. */
  ghost predicate Arrives(u: P.World, n: nat, e: Device, x: Incoming) {
    && Awaits(e, u, n, x) && P.MayHandOver(u, n)
    && !BeyondSkipLimit(RunTheorems.ReceivingSession(u, n), u.sent[n].message)
  }

  /** One posted envelope of a fan-out, followed to its device. */
  lemma Followed(start: FanOut, me: KeyPair, targets: seq<LinkedDevice>, text: string, attempts: nat -> Attempt, i: nat,
                 w: P.World, p: P.Party, later: seq<P.Step>)
    requires Distinct(targets) && i < |targets| && !attempts(i).reply.NotAccepted?
    requires RunInvariant.InRun(w) && Holds(start.store, w, p)
    requires me == P.IdentityOf(w, p) && targets[i].identity == EngineSteps.PeerKey(w, p)
    requires Reaches(w, p, text, attempts(i).nonce, later)
    ensures var u, n := World(w, p, text, attempts(i).nonce, later), |w.sent|;
            && RunInvariant.InRun(u) && n < |u.sent| && u.sent[n].text == text && u.sent[n].from == p
            && Posted(targets[i].mailbox, u.sent[n].message) in FannedOut(start, me, targets, text, attempts).posted
  {
    FanOutSends(start, me, targets, text, attempts, i, w, p);
    var v := P.AfterSending(w, p, text, None, attempts(i).nonce);
    RunTheorems.RunKeeps(v, later);
    SentStays(v, later);
  }

  lemma MorePosted(start: FanOut, me: KeyPair, targets: seq<LinkedDevice>, text: string, attempts: nat -> Attempt)
    requires Distinct(targets)
    ensures start.posted <= FannedOut(start, me, targets, text, attempts).posted
  {
    FanOutIndependent(start, me, targets, text, attempts);
  }

  /** A decrypted text is an incoming message of its sender exactly when it is not the text of a sync payload. */
  lemma TextFiled(e: Device, u: P.World, n: nat, x: Incoming, json: SyncText)
    requires RunInvariant.InRun(u) && Arrives(u, n, e, x)
    ensures var text, sender := u.sent[n].text, P.IdentityOf(u, u.sent[n].from).publicKey;
            var row := StoredMessage(x.id, if x.found.Some? then x.found.value else sender, sender, e.me.publicKey,
                                     text, x.timestamp, false, false, Delivered);
            var received := Received(e, u.sent[n].message, x, json);
            && (received.stored == Some(row) <==> json.parse(text).None?)
            && (json.parse(text).None? && x.id !in e.messages ==> received.device.messages == e.messages[x.id := row])
  {
    DeviceReceives(e, u, n, x, json);
    NamesSender(u, n);
    RowOf(Resolve(e, u.sent[n].message, x).value, e.me.publicKey, u.sent[n].text, x, json);
  }

  lemma RowOf(r: Resolved, me: Hex, text: string, x: Incoming, json: SyncText)
    requires r.contact in r.contacts
    ensures var (row, contacts) := Filed(r, me, text, x, json);
            && row.contact in contacts
            && (row.outgoing <==> json.parse(text).Some?)
            && (json.parse(text).None? ==>
                row == StoredMessage(x.id, r.contact, r.identity, me, text, x.timestamp, false, false, Delivered))
  {
  }

  /**
    A message to a contact reaches each of its devices whose run goes on: the relay has the envelope, and
    when it comes in, the device files the body once, as an incoming message of the sender, if and only if
    the body is not itself the text of a sync payload.
   */
  lemma RecipientDeviceFiles(d: Device, posted: seq<Posted>, hash: Hex, text: string, id: MessageId, now: int,
                             attempts: nat -> Attempt, json: SyncText, i: nat, w: P.World, p: P.Party,
                             later: seq<P.Step>, e: Device, x: Incoming)
    requires hash in d.contacts && Distinct(Targets(d.contacts[hash])) && Distinct(d.ownDevices)
    requires i < |Targets(d.contacts[hash])| && !attempts(i).reply.NotAccepted?
    requires RunInvariant.InRun(w) && Holds(d.store, w, p)
    requires d.me == P.IdentityOf(w, p) && Targets(d.contacts[hash])[i].identity == EngineSteps.PeerKey(w, p)
    requires Reaches(w, p, text, attempts(i).nonce, later)
    requires Arrives(World(w, p, text, attempts(i).nonce, later), |w.sent|, e, x)
    ensures var u, n := World(w, p, text, attempts(i).nonce, later), |w.sent|;
            && Posted(Targets(d.contacts[hash])[i].mailbox, u.sent[n].message)
               in SentOut(d, posted, hash, text, id, now, attempts, json).posted
            && var sender := P.IdentityOf(u, p).publicKey;
            var row := StoredMessage(x.id, if x.found.Some? then x.found.value else sender, sender, e.me.publicKey,
                                     text, x.timestamp, false, false, Delivered);
            var received := Received(e, u.sent[n].message, x, json);
            && (received.stored == Some(row) <==> json.parse(text).None?)
            && (json.parse(text).None? && x.id !in e.messages ==> received.device.messages == e.messages[x.id := row])
  {
    var targets := Targets(d.contacts[hash]);
    Followed(FanOut(d.store, posted, false), d.me, targets, text, attempts, i, w, p, later);
    var f := FannedOut(FanOut(d.store, posted, false), d.me, targets, text, attempts);
    var sync := json.stringify(SyncPayload(d.contacts[hash].hash, text, now, Some(id)));
    MorePosted(f.(live := false), d.me, d.ownDevices, sync, Later(attempts, |targets|));
    TextFiled(e, World(w, p, text, attempts(i).nonce, later), |w.sent|, x, json);
  }

  lemma NotTouched(v: StoreView, f: StoreView, targets: seq<LinkedDevice>, w: P.World, p: P.Party)
    requires OneSendEach(v, f, targets) && Holds(v, w, p) && EngineSteps.PeerKey(w, p) !in Peers(targets)
    ensures Holds(f, w, p)
  {
  }

  /** The text that goes to the own devices. */
  function SyncOf(hash: Hex, text: string, now: int, id: MessageId, json: SyncText): string {
    json.stringify(SyncPayload(hash, text, now, Some(id)))
  }

  /** A second fan-out, to other devices, followed like the first. */
  lemma FollowedAfter(start: FanOut, me: KeyPair, targets: seq<LinkedDevice>, text: string, attempts: nat -> Attempt,
                      own: seq<LinkedDevice>, sync: string, more: nat -> Attempt, i: nat,
                      w: P.World, p: P.Party, later: seq<P.Step>)
    requires Distinct(targets + own) && i < |own| && !more(i).reply.NotAccepted?
    requires RunInvariant.InRun(w) && Holds(start.store, w, p)
    requires me == P.IdentityOf(w, p) && own[i].identity == EngineSteps.PeerKey(w, p)
    requires Reaches(w, p, sync, more(i).nonce, later)
    ensures var u, n := World(w, p, sync, more(i).nonce, later), |w.sent|;
            var f := FannedOut(start, me, targets, text, attempts);
            && RunInvariant.InRun(u) && n < |u.sent| && u.sent[n].text == sync && u.sent[n].from == p
            && Posted(own[i].mailbox, u.sent[n].message) in FannedOut(f.(live := false), me, own, sync, more).posted
  {
    DistinctParts(targets, own);
    var f := FannedOut(start, me, targets, text, attempts);
    FanOutIndependent(start, me, targets, text, attempts);
    NotTouched(start.store, f.store, targets, w, p);
    Followed(f.(live := false), me, own, sync, more, i, w, p, later);
  }

  lemma PostedLast(d: Device, posted: seq<Posted>, hash: Hex, text: string, id: MessageId, now: int,
                   attempts: nat -> Attempt, json: SyncText)
    requires ReferencesHold(d) && hash in d.contacts
    ensures var targets := Targets(d.contacts[hash]);
            var f := FannedOut(FanOut(d.store, posted, false), d.me, targets, text, attempts);
            SentOut(d, posted, hash, text, id, now, attempts, json).posted
            == FannedOut(f.(live := false), d.me, d.ownDevices, SyncOf(hash, text, now, id, json),
                         Later(attempts, |targets|)).posted
  {
    assert d.contacts[hash].hash == hash;
  }

  lemma OwnDeviceSent(d: Device, posted: seq<Posted>, hash: Hex, text: string, id: MessageId, now: int,
                      attempts: nat -> Attempt, json: SyncText, i: nat, more: nat -> Attempt, w: P.World, p: P.Party,
                      later: seq<P.Step>)
    requires ReferencesHold(d) && hash in d.contacts && Distinct(Targets(d.contacts[hash]) + d.ownDevices)
    requires more == Later(attempts, |Targets(d.contacts[hash])|) && i < |d.ownDevices| && !more(i).reply.NotAccepted?
    requires Reaches(w, p, SyncOf(hash, text, now, id, json), more(i).nonce, later)
    requires RunInvariant.InRun(w) && Holds(d.store, w, p)
    requires d.me == P.IdentityOf(w, p) && d.ownDevices[i].identity == EngineSteps.PeerKey(w, p)
    ensures var sync := SyncOf(hash, text, now, id, json);
            var u, n := World(w, p, sync, more(i).nonce, later), |w.sent|;
            && RunInvariant.InRun(u) && n < |u.sent| && u.sent[n].text == sync && u.sent[n].from == p
            && Posted(d.ownDevices[i].mailbox, u.sent[n].message)
               in SentOut(d, posted, hash, text, id, now, attempts, json).posted
  {
    var c := d.contacts[hash];
    PostedLast(d, posted, hash, text, id, now, attempts, json);
    var sync := SyncOf(hash, text, now, id, json);
    FollowedAfter(FanOut(d.store, posted, false), d.me, Targets(c), text, attempts, d.ownDevices, sync, more, i, w, p,
                  later);
  }

  lemma SyncRow(r: Resolved, me: Hex, x: Incoming, json: SyncText, sync: SyncPayload, id: MessageId)
    requires Faithful(json) && sync.messageId == Some(id)
    ensures var (row, contacts) := Filed(r, me, json.stringify(sync), x, json);
            row == StoredMessage(id, sync.recipient, r.identity, me, sync.body, x.timestamp, true, true, Delivered)
              && row.contact in contacts
  {
    assert json.parse(json.stringify(sync)) == Some(sync);
  }

  /** A sync text is filed for the conversation it names. */
  lemma SyncFiled(e: Device, u: P.World, n: nat, x: Incoming, json: SyncText, hash: Hex, text: string, now: int,
                  id: MessageId)
    requires RunInvariant.InRun(u) && Arrives(u, n, e, x)
    requires Faithful(json) && u.sent[n].text == SyncOf(hash, text, now, id, json) && id !in e.messages
    ensures var row := StoredMessage(id, hash, P.IdentityOf(u, u.sent[n].from).publicKey, e.me.publicKey, text,
                                     x.timestamp, true, true, Delivered);
            Received(e, u.sent[n].message, x, json).stored == Some(row)
            && Received(e, u.sent[n].message, x, json).device.messages == e.messages[id := row]
  {
    DeviceReceives(e, u, n, x, json);
    SyncRow(Resolve(e, u.sent[n].message, x).value, e.me.publicKey, x, json, SyncPayload(hash, text, now, Some(id)),
            id);
  }

  /** Each own device files the same body under the same id and contact, as an outgoing message. */
  lemma OwnDeviceFiles(d: Device, posted: seq<Posted>, hash: Hex, text: string, id: MessageId, now: int,
                       attempts: nat -> Attempt, json: SyncText, i: nat, more: nat -> Attempt, w: P.World, p: P.Party,
                       later: seq<P.Step>, e: Device, x: Incoming)
    requires ReferencesHold(d) && hash in d.contacts && Distinct(Targets(d.contacts[hash]) + d.ownDevices)
    requires more == Later(attempts, |Targets(d.contacts[hash])|) && i < |d.ownDevices| && !more(i).reply.NotAccepted?
    requires Reaches(w, p, SyncOf(hash, text, now, id, json), more(i).nonce, later)
    requires Arrives(World(w, p, SyncOf(hash, text, now, id, json), more(i).nonce, later), |w.sent|, e, x)
    requires RunInvariant.InRun(w) && Holds(d.store, w, p)
    requires d.me == P.IdentityOf(w, p) && d.ownDevices[i].identity == EngineSteps.PeerKey(w, p)
    requires Faithful(json) && id !in e.messages
    ensures var u, n := World(w, p, SyncOf(hash, text, now, id, json), more(i).nonce, later), |w.sent|;
            && Posted(d.ownDevices[i].mailbox, u.sent[n].message)
               in SentOut(d, posted, hash, text, id, now, attempts, json).posted
            && var row := StoredMessage(id, hash, P.IdentityOf(u, p).publicKey, e.me.publicKey, text, x.timestamp, true,
                                        true, Delivered);
            Received(e, u.sent[n].message, x, json).stored == Some(row)
            && Received(e, u.sent[n].message, x, json).device.messages == e.messages[id := row]
  {
    OwnDeviceSent(d, posted, hash, text, id, now, attempts, json, i, more, w, p, later);
    SyncFiled(e, World(w, p, SyncOf(hash, text, now, id, json), more(i).nonce, later), |w.sent|, x, json, hash, text,
              now, id);
  }

  /** Bob's bundle is genuine, and his device still has the one-time prekey it names. */
  predicate Published(alice: KeyPair, bob: KeyPair, bundle: PreKeyBundle, signedPreKey: KeyPair, ephemeral: PublicKey,
                      keys: map<int, KeyPair>) {
    && P.Genuine(alice, bob, bundle, Some(signedPreKey), ephemeral)
    && match bundle.oneTimePreKey
       case None => true
       case Some(used) => used.0 in keys && keys[used.0] == KeyPair(used.1)
  }

  /** The run of a fresh device: one message sent, none handed over. */
  lemma FirstArrives(alice: KeyPair, bob: KeyPair, bundle: PreKeyBundle, signedPreKey: KeyPair, ephemeral: PublicKey,
                     text: string, nonce: nat, e: Device, x: Incoming)
    requires Published(alice, bob, bundle, signedPreKey, ephemeral, e.store.oneTimePreKeys)
    requires e.me == bob && e.store.sessions == map[] && FindsIdentity(e.contacts, alice.publicKey, x.found)
    requires x.latest.Some? && x.latest.value.keyPair == signedPreKey && x.first == KeyPair(ephemeral + 1)
             && x.second == KeyPair(ephemeral + 2)
    ensures var w := P.Initiated(alice, bob, bundle, Some(signedPreKey), e.store.oneTimePreKeys, false, ephemeral);
            var u := P.AfterSending(w, P.Alice, text, None, nonce);
            |u.sent| == 1 && Arrives(u, 0, e, x)
  {
  }

  /** The first message to a device that has published its bundle and has no session yet is filed there. */
  lemma FirstMessageOnBundle(alice: KeyPair, bob: KeyPair, bundle: PreKeyBundle, signedPreKey: KeyPair,
                             ephemeral: PublicKey, d: Device, posted: seq<Posted>, hash: Hex, text: string,
                             id: MessageId, now: int, attempts: nat -> Attempt, json: SyncText, e: Device, x: Incoming)
    returns (m: EncryptedMessage)
    requires Published(alice, bob, bundle, signedPreKey, ephemeral, e.store.oneTimePreKeys)
    requires d.me == alice
             && d.store == InitiateCall(StoreView(map[], map[], map[]), alice, bob.publicKey, bundle,
                                        KeyPair(ephemeral)).0
    requires SignatureVerifies(bundle) && hash in d.contacts && d.contacts[hash].hash == hash
             && d.contacts[hash].identity == bob.publicKey && d.contacts[hash].devices == [] && d.ownDevices == []
    requires !attempts(0).reply.NotAccepted? && json.parse(text).None?
    requires e.me == bob && e.store.sessions == map[] && FindsIdentity(e.contacts, alice.publicKey, x.found)
    requires x.latest.Some? && x.latest.value.keyPair == signedPreKey && x.first == KeyPair(ephemeral + 1)
             && x.second == KeyPair(ephemeral + 2)
    ensures m.initialIdentity == Some(alice.publicKey)
    ensures Posted(hash, m) in SentOut(d, posted, hash, text, id, now, attempts, json).posted
    ensures Received(e, m, x, json).stored
         == Some(StoredMessage(x.id, if x.found.Some? then x.found.value else alice.publicKey, alice.publicKey,
                               bob.publicKey, text, x.timestamp, false, false, Delivered))
  {
    var w := P.Initiated(alice, bob, bundle, Some(signedPreKey), e.store.oneTimePreKeys, false, ephemeral);
    RunInvariant.InitiatedInRun(alice, bob, bundle, Some(signedPreKey), e.store.oneTimePreKeys, false, ephemeral);
    FirstArrives(alice, bob, bundle, signedPreKey, ephemeral, text, attempts(0).nonce, e, x);
    m := P.AfterSending(w, P.Alice, text, None, attempts(0).nonce).sent[0].message;
    RecipientDeviceFiles(d, posted, hash, text, id, now, attempts, json, 0, w, P.Alice, [], e, x);
  }

  lemma DistinctParts(a: seq<LinkedDevice>, b: seq<LinkedDevice>)
    requires Distinct(a + b)
    ensures Distinct(a) && Distinct(b)
    ensures forall i | 0 <= i < |b| :: b[i].identity !in Peers(a)
  {
    var all := a + b;
    forall i, j | 0 <= i < j < |a|
      ensures a[i].identity != a[j].identity
    {
      assert all[i].identity != all[j].identity;
    }
    forall i, j | 0 <= i < j < |b|
      ensures b[i].identity != b[j].identity
    {
      assert all[|a| + i].identity != all[|a| + j].identity;
    }
    forall i, j | 0 <= i < |b| && 0 <= j < |a|
      ensures b[i].identity != a[j].identity
    {
      assert all[j].identity != all[|a| + i].identity;
    }
  }
}
