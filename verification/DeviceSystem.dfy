/**
  Any number of devices, with one two-party run for every pair that has a session. A device's store holds
  all its runs at once; sends, arrivals, new sessions and new bundles interleave freely.
 */
module DeviceSystem {
  import opened Wrappers
  import opened SymbolicCrypto
  import opened Ratchet
  import opened SignalStores
  import opened EngineCalls
  import opened Devices
  import opened DeviceTheorems
  import P = Protocol
  import RunInvariant
  import RunTheorems
  import opened StaleBundles
  import EngineSteps

  /**
    alice has initiated to bob; both are positions in the list of devices. It is dead once bob has processed
    a first envelope that does not match the prekeys in his store.
   */
  datatype Conversation = Conversation(alice: nat, bob: nat, world: P.World, dead: bool)

  datatype System = System(devices: seq<Device>, links: seq<Conversation>)

  function Side(l: Conversation, p: P.Party): nat {
    if p.Alice? then l.alice else l.bob
  }

  function Key(l: Conversation, p: P.Party): PublicKey {
    P.IdentityOf(l.world, p).publicKey
  }

  /** The run's view of Bob's one-time prekeys, which all runs of his device share. */
  function Resync(devices: seq<Device>, l: Conversation): Conversation
    requires l.bob < |devices|
  {
    l.(world := l.world.(oneTimePreKeys := devices[l.bob].store.oneTimePreKeys))
  }

  /** Both devices hold their side of the run. */
  ghost predicate Held(a: Device, b: Device, w: P.World) {
    && a.me == w.aliceIdentity && b.me == w.bobIdentity
    && !w.aliasing && w.oneTimePreKeys == b.store.oneTimePreKeys
    && Holds(a.store, w, P.Alice) && Holds(b.store, w, P.Bob)
    && (forall latest | IsLatest(b.store.signedPreKeys, latest) :: IsLatestOf(latest, w))
  }

  predicate Placed(devices: seq<Device>, l: Conversation) {
    l.alice < |devices| && l.bob < |devices| && l.alice != l.bob
  }

  /** No device has two runs with one peer. */
  predicate Apart(k: Conversation, l: Conversation) {
    && (k.alice == l.alice ==> Key(k, P.Bob) != Key(l, P.Bob))
    && (k.alice == l.bob ==> Key(k, P.Bob) != Key(l, P.Alice))
    && (k.bob == l.alice ==> Key(k, P.Alice) != Key(l, P.Bob))
    && (k.bob == l.bob ==> Key(k, P.Alice) != Key(l, P.Alice))
  }

  predicate AllPlaced(sys: System) {
    forall k | 0 <= k < |sys.links| :: Placed(sys.devices, sys.links[k])
  }

  predicate AllApart(sys: System) {
    forall k, l | 0 <= k < |sys.links| && 0 <= l < |sys.links| && k != l :: Apart(sys.links[k], sys.links[l])
  }

  ghost predicate AllHeld(sys: System)
    requires AllPlaced(sys)
  {
    forall k | 0 <= k < |sys.links| ::
      Held(sys.devices[sys.links[k].alice], sys.devices[sys.links[k].bob], sys.links[k].world)
  }

  ghost predicate AllSound(sys: System) {
    forall k | 0 <= k < |sys.links| :: Sound(sys.links[k].world, sys.links[k].dead)
  }

  /** Every pair's run is one the theorems speak of, alive or dead, and both of its devices hold their side of it. */
  ghost predicate Inv(sys: System) {
    AllPlaced(sys) && AllApart(sys) && AllHeld(sys) && AllSound(sys)
  }

  // ---- Changing one device ---------------------------------------------------------------------------

  /** Only the session with this peer, and the one-time prekeys, have changed. */
  predicate Changed(d: Device, e: Device, peer: PublicKey) {
    && e.me == d.me && e.store.signedPreKeys == d.store.signedPreKeys
    && e.store.sessions - {peer} == d.store.sessions - {peer}
  }

  lemma HoldsChanged(d: Device, e: Device, peer: PublicKey, w: P.World, keys: map<int, KeyPair>, p: P.Party)
    requires Changed(d, e, peer) && Holds(d.store, w, p) && EngineSteps.PeerKey(w, p) != peer
    ensures Holds(e.store, w.(oneTimePreKeys := keys), p)
  {
    var other := EngineSteps.PeerKey(w, p);
    assert other in e.store.sessions - {peer} <==> other in d.store.sessions - {peer};
    if other in d.store.sessions {
      assert (e.store.sessions - {peer})[other] == (d.store.sessions - {peer})[other];
    }
  }

  /** A run that is not concerned, on devices of which any may have changed elsewhere. */
  lemma OtherHeld(a: Device, b: Device, c: Device, d: Device, peer: PublicKey, w: P.World)
    requires Held(a, b, w)
    requires c == a || (Changed(a, c, peer) && w.bobIdentity.publicKey != peer)
    requires d == b || (Changed(b, d, peer) && w.aliceIdentity.publicKey != peer)
    ensures Held(c, d, w.(oneTimePreKeys := d.store.oneTimePreKeys))
  {
    if c != a {
      HoldsChanged(a, c, peer, w, d.store.oneTimePreKeys, P.Alice);
    }
    if d != b {
      HoldsChanged(b, d, peer, w, d.store.oneTimePreKeys, P.Bob);
    }
  }

  /** A world that has moved on at one side. */
  predicate MovedOn(w: P.World, v: P.World, p: P.Party) {
    && v.aliceIdentity == w.aliceIdentity && v.bobIdentity == w.bobIdentity && v.aliasing == w.aliasing
    && v.signedPreKey == w.signedPreKey && P.SessionOf(v, P.Peer(p)) == P.SessionOf(w, P.Peer(p))
  }

  /** The run that is concerned. */
  lemma OwnHeld(a: Device, b: Device, e: Device, w: P.World, v: P.World, p: P.Party)
    requires Held(a, b, w) && MovedOn(w, v, p) && Holds(e.store, v, p)
    requires Changed(if p.Alice? then a else b, e, EngineSteps.PeerKey(w, p))
    ensures var (c, d) := if p.Alice? then (e, b) else (a, e);
            Held(c, d, v.(oneTimePreKeys := d.store.oneTimePreKeys))
  {
  }

  /** One device acts on one link; all runs of that device see its prekeys as they are now. */
  function Acted(sys: System, k: nat, p: P.Party, e: Device, v: P.World, dead: bool): System
    requires AllPlaced(sys) && k < |sys.links|
  {
    var devices := sys.devices[Side(sys.links[k], p) := e];
    var links := sys.links[k := sys.links[k].(world := v, dead := dead)];
    System(devices, seq(|links|, l requires 0 <= l < |links| => Resync(devices, links[l])))
  }

  lemma ApartAlways(k: Conversation, l: Conversation, v: P.World, w: P.World)
    requires Apart(k, l) && v.aliceIdentity == k.world.aliceIdentity && v.bobIdentity == k.world.bobIdentity
    requires w.aliceIdentity == l.world.aliceIdentity && w.bobIdentity == l.world.bobIdentity
    ensures forall a, b :: Apart(k.(world := v, dead := a), l.(world := w, dead := b))
  {
  }

  lemma ActedApart(sys: System, k: nat, p: P.Party, e: Device, v: P.World, dead: bool)
    requires AllPlaced(sys) && AllApart(sys) && k < |sys.links| && MovedOn(sys.links[k].world, v, p)
    ensures AllPlaced(Acted(sys, k, p, e, v, dead)) && AllApart(Acted(sys, k, p, e, v, dead))
  {
    var after := Acted(sys, k, p, e, v, dead);
    forall l, m | 0 <= l < |after.links| && 0 <= m < |after.links| && l != m
      ensures Apart(after.links[l], after.links[m])
    {
      ApartAlways(sys.links[l], sys.links[m], after.links[l].world, after.links[m].world);
    }
  }

  lemma ActedHeld(sys: System, k: nat, p: P.Party, e: Device, v: P.World, dead: bool)
    requires AllPlaced(sys) && AllApart(sys) && AllHeld(sys) && k < |sys.links|
    requires var l := sys.links[k];
             && Changed(sys.devices[Side(l, p)], e, EngineSteps.PeerKey(l.world, p))
             && MovedOn(l.world, v, p) && Holds(e.store, v, p)
    ensures AllPlaced(Acted(sys, k, p, e, v, dead)) && AllHeld(Acted(sys, k, p, e, v, dead))
  {
    var after, own := Acted(sys, k, p, e, v, dead), sys.links[k];
    forall l | 0 <= l < |after.links|
      ensures Held(after.devices[after.links[l].alice], after.devices[after.links[l].bob], after.links[l].world)
    {
      var link := sys.links[l];
      if l == k {
        OwnHeld(sys.devices[own.alice], sys.devices[own.bob], e, own.world, v, p);
      } else {
        assert Apart(own, link);
        OtherHeld(sys.devices[link.alice], sys.devices[link.bob], after.devices[link.alice], after.devices[link.bob],
                  EngineSteps.PeerKey(own.world, p), link.world);
      }
    }
  }

  lemma ActedSound(sys: System, k: nat, p: P.Party, e: Device, v: P.World, dead: bool)
    requires AllPlaced(sys) && AllSound(sys) && k < |sys.links| && Sound(v, dead)
    ensures AllSound(Acted(sys, k, p, e, v, dead))
  {
    var after := Acted(sys, k, p, e, v, dead);
    forall l | 0 <= l < |after.links|
      ensures Sound(after.links[l].world, after.links[l].dead)
    {
      var w := if l == k then v else sys.links[l].world;
      SoundWithPreKeys(w, after.links[l].dead, w.signedPreKey.value, after.links[l].world.oneTimePreKeys);
      assert after.links[l].world == w.(signedPreKey := Some(w.signedPreKey.value),
                                        oneTimePreKeys := after.links[l].world.oneTimePreKeys);
    }
  }

  lemma ActedKeeps(sys: System, k: nat, p: P.Party, e: Device, v: P.World, dead: bool)
    requires Inv(sys) && k < |sys.links|
    requires var l := sys.links[k];
             && Changed(sys.devices[Side(l, p)], e, EngineSteps.PeerKey(l.world, p))
             && MovedOn(l.world, v, p) && Holds(e.store, v, p) && Sound(v, dead)
    ensures Inv(Acted(sys, k, p, e, v, dead))
  {
    ActedApart(sys, k, p, e, v, dead);
    ActedHeld(sys, k, p, e, v, dead);
    ActedSound(sys, k, p, e, v, dead);
  }

  // ---- Steps ---------------------------------------------------------------------------------------

  datatype Step =
    | Encrypt(link: nat, from: P.Party, text: string, nonce: nat)                // one attempt of a fan-out
    | Arrive(link: nat, position: nat, incoming: Incoming)
    | Initiate(alice: nat, bob: nat, bundle: PreKeyBundle, signedPreKey: KeyPair, ephemeral: PublicKey)
    | Publish(device: nat, signedId: int, signedPair: KeyPair, now: int, oneTime: seq<(int, KeyPair)>)
    | Edit(device: nat, after: Device)                                           // contacts, own devices, messages

  function Encrypted(d: Device, peer: PublicKey, text: string, nonce: nat): Device {
    d.(store := EncryptCall(d.store, d.me, peer, text, None, nonce).0)
  }

  /** The device an envelope of the link is for. */
  function Receiver(sys: System, k: nat, n: nat): nat
    requires k < |sys.links| && n < |sys.links[k].world.sent|
  {
    Side(sys.links[k], P.Peer(sys.links[k].world.sent[n].from))
  }

  /** The envelope has not arrived, and the device's own store and clock give what its call draws. */
  ghost predicate MayArrive(sys: System, k: nat, n: nat, x: Incoming)
    requires AllPlaced(sys)
  {
    && k < |sys.links| && n < |sys.links[k].world.sent| && n !in sys.links[k].world.delivered
    && var e, w := sys.devices[Receiver(sys, k, n)], sys.links[k].world;
    && Finds(e, w.sent[n].message, x.found) && IsLatest(e.store.signedPreKeys, x.latest)
    && x.first == KeyPair(w.nextPair) && x.second == KeyPair(w.nextPair + 1)
  }

  function NewConversation(sys: System, a: nat, b: nat, bundle: PreKeyBundle, signedPreKey: KeyPair,
                           ephemeral: PublicKey): Conversation
    requires a < |sys.devices| && b < |sys.devices|
  {
    Conversation(a, b, P.Initiated(sys.devices[a].me, sys.devices[b].me, bundle, Some(signedPreKey),
                           sys.devices[b].store.oneTimePreKeys, false, ephemeral), false)
  }

  /** On any bundle b ever published, and only when neither device has a session or a run with the other. */
  ghost predicate MayInitiate(sys: System, a: nat, b: nat, bundle: PreKeyBundle, signedPreKey: KeyPair,
                              ephemeral: PublicKey) {
    && a < |sys.devices| && b < |sys.devices| && a != b
    && SignatureVerifies(bundle)
    && P.Genuine(sys.devices[a].me, sys.devices[b].me, bundle, Some(KeyPair(bundle.signedPreKey)), ephemeral)
    && (forall latest | IsLatest(sys.devices[b].store.signedPreKeys, latest) ::
          latest.Some? && latest.value.keyPair == signedPreKey)
    && sys.devices[a].me.publicKey !in sys.devices[b].store.sessions
    && (forall k | 0 <= k < |sys.links| ::
          Apart(NewConversation(sys, a, b, bundle, signedPreKey, ephemeral), sys.links[k]))
  }

  /** With a later clock reading than those of the earlier ones. */
  predicate MayPublish(sys: System, i: nat, now: int) {
    i < |sys.devices| && forall id | id in sys.devices[i].store.signedPreKeys ::
      sys.devices[i].store.signedPreKeys[id].createdAt < now
  }

  ghost predicate Allowed(sys: System, step: Step)
    requires AllPlaced(sys)
  {
    match step
    case Encrypt(k, p, text, nonce) => k < |sys.links|
    case Arrive(k, n, x) => MayArrive(sys, k, n, x)
    case Initiate(a, b, bundle, signedPreKey, ephemeral) => MayInitiate(sys, a, b, bundle, signedPreKey, ephemeral)
    case Publish(i, signedId, signedPair, now, oneTime) => MayPublish(sys, i, now)
    case Edit(i, d) => i < |sys.devices| && d.me == sys.devices[i].me && d.store == sys.devices[i].store
  }

  function Arrived(sys: System, k: nat, n: nat, x: Incoming, json: SyncText): System
    requires AllPlaced(sys) && k < |sys.links| && n < |sys.links[k].world.sent|
    requires Finds(sys.devices[Receiver(sys, k, n)], sys.links[k].world.sent[n].message, x.found)
  {
    var w := sys.links[k].world;
    var e := Received(sys.devices[Receiver(sys, k, n)], w.sent[n].message, x, json).device;
    Acted(sys, k, P.Peer(w.sent[n].from), e, P.HandOver(w, n, w.sent[n].message).world,
          sys.links[k].dead || DiesWith(w, w.sent[n].message))
  }

  function Published(d: Device, signedId: int, signedPair: KeyPair, now: int, oneTime: seq<(int, KeyPair)>): Device {
    d.(store := GenerateCall(d.store, d.me, 0, signedId, signedPair, now, oneTime).0)
  }

  /** The responder of a run works with his device's prekeys as they are now. */
  function Renewed(l: Conversation, i: nat, signedPair: KeyPair, store: StoreView): Conversation {
    if l.bob != i then l
    else l.(world := l.world.(signedPreKey := Some(signedPair), oneTimePreKeys := store.oneTimePreKeys))
  }

  function AfterPublish(sys: System, i: nat, signedId: int, signedPair: KeyPair, now: int, oneTime: seq<(int, KeyPair)>)
    : System
    requires i < |sys.devices|
  {
    var e := Published(sys.devices[i], signedId, signedPair, now, oneTime);
    System(sys.devices[i := e], seq(|sys.links|, k requires 0 <= k < |sys.links| =>
                                      Renewed(sys.links[k], i, signedPair, e.store)))
  }

  function Next(sys: System, step: Step, json: SyncText): System
    requires AllPlaced(sys) && Allowed(sys, step)
  {
    match step
    case Encrypt(k, p, text, nonce) =>
      var l := sys.links[k];
      Acted(sys, k, p, Encrypted(sys.devices[Side(l, p)], EngineSteps.PeerKey(l.world, p), text, nonce),
            P.AfterSending(l.world, p, text, None, nonce), l.dead)
    case Arrive(k, n, x) => Arrived(sys, k, n, x, json)
    case Initiate(a, b, bundle, signedPreKey, ephemeral) =>
      var d := sys.devices[a];
      var store := InitiateCall(d.store, d.me, sys.devices[b].me.publicKey, bundle, KeyPair(ephemeral)).0;
      System(sys.devices[a := d.(store := store)],
             sys.links + [NewConversation(sys, a, b, bundle, signedPreKey, ephemeral)])
    case Publish(i, signedId, signedPair, now, oneTime) => AfterPublish(sys, i, signedId, signedPair, now, oneTime)
    case Edit(i, d) => sys.(devices := sys.devices[i := d])
  }

  // ---- Every step keeps the invariant ----------------------------------------------------------------

  lemma EncryptKeeps(sys: System, k: nat, p: P.Party, text: string, nonce: nat, json: SyncText)
    requires Inv(sys) && k < |sys.links|
    ensures Inv(Next(sys, Encrypt(k, p, text, nonce), json))
  {
    var l := sys.links[k];
    var d, peer := sys.devices[Side(l, p)], EngineSteps.PeerKey(l.world, p);
    var e := Encrypted(d, peer, text, nonce);
    assert Held(sys.devices[l.alice], sys.devices[l.bob], l.world);
    EncryptHolds(d, l.world, p, text, nonce);
    SoundOnSend(l.world, l.dead, p, text, None, nonce);
    ActedKeeps(sys, k, p, e, P.AfterSending(l.world, p, text, None, nonce), l.dead);
  }

  lemma EncryptHolds(d: Device, w: P.World, p: P.Party, text: string, nonce: nat)
    requires Holds(d.store, w, p) && d.me == P.IdentityOf(w, p)
    ensures var e, v := Encrypted(d, EngineSteps.PeerKey(w, p), text, nonce), P.AfterSending(w, p, text, None, nonce);
            Changed(d, e, EngineSteps.PeerKey(w, p)) && MovedOn(w, v, p) && Holds(e.store, v, p)
  {
    var target := LinkedDevice(1, 0, EngineSteps.PeerKey(w, p));
    var e := Encrypted(d, target.identity, text, nonce);
    OneAttempt(FanOut(d.store, [], false), d.me, target, text, Attempt(nonce, NotAccepted));
    assert target in [target] && target.identity in Peers([target]);
    SentStore(d.store, e.store, [target], w, p, text, nonce);
    assert e.store.sessions - {target.identity} == d.store.sessions - {target.identity};
  }

  /** What an arrival finds, the invariant provides. */
  lemma ArrivalAwaited(sys: System, k: nat, n: nat, x: Incoming)
    requires Inv(sys) && MayArrive(sys, k, n, x)
    ensures Awaits(sys.devices[Receiver(sys, k, n)], sys.links[k].world, n, x)
  {
    var l := sys.links[k];
    assert Held(sys.devices[l.alice], sys.devices[l.bob], l.world);
  }

  lemma ReceivedStore(d: Device, m: EncryptedMessage, x: Incoming, json: SyncText, sender: Hex)
    requires Finds(d, m, x.found) && m.initialIdentity == Some(sender)
    ensures var e := Received(d, m, x, json).device;
            var after := DecryptCall(false, d.store, d.me, sender, m, x.latest, x.first, x.second).0;
            e.me == d.me && e.store == after && after.signedPreKeys == d.store.signedPreKeys
  {
  }

  lemma ArriveKeeps(sys: System, k: nat, n: nat, x: Incoming, json: SyncText)
    requires Inv(sys) && MayArrive(sys, k, n, x)
    ensures Inv(Arrived(sys, k, n, x, json))
  {
    var l := sys.links[k];
    var w, q, m := l.world, P.Peer(l.world.sent[n].from), l.world.sent[n].message;
    var d := sys.devices[Receiver(sys, k, n)];
    ArrivalAwaited(sys, k, n, x);
    DeviceHandsOver(d, w, n, x);
    ReceivedStore(d, m, x, json, EngineSteps.PeerKey(w, q));
    HandOverKeepsIdentities(w, n, m);
    SoundOnHandOver(w, l.dead, n);
    ActedKeeps(sys, k, q, Received(d, m, x, json).device, P.HandOver(w, n, m).world, l.dead || DiesWith(w, m));
  }

  lemma InitiatedHeld(sys: System, a: nat, b: nat, bundle: PreKeyBundle, signedPreKey: KeyPair, ephemeral: PublicKey)
    requires MayInitiate(sys, a, b, bundle, signedPreKey, ephemeral)
    ensures var d, peer := sys.devices[a], sys.devices[b].me.publicKey;
            var e := d.(store := InitiateCall(d.store, d.me, peer, bundle, KeyPair(ephemeral)).0);
            var w := NewConversation(sys, a, b, bundle, signedPreKey, ephemeral).world;
            Changed(d, e, peer) && Held(e, sys.devices[b], w) && Sound(w, false)
  {
    RunInvariant.InitiatedInRun(sys.devices[a].me, sys.devices[b].me, bundle, Some(KeyPair(bundle.signedPreKey)),
                                sys.devices[b].store.oneTimePreKeys, false, ephemeral);
  }

  lemma InitiateKeepsHeld(sys: System, a: nat, b: nat, e: Device, added: Conversation)
    requires AllPlaced(sys) && AllHeld(sys) && a < |sys.devices| && b < |sys.devices|
    requires Changed(sys.devices[a], e, Key(added, P.Bob))
             && e.store.oneTimePreKeys == sys.devices[a].store.oneTimePreKeys
    requires added.alice == a && forall k | 0 <= k < |sys.links| :: Apart(added, sys.links[k])
    ensures AllHeld(System(sys.devices[a := e], sys.links))
  {
    var devices := sys.devices[a := e];
    forall k | 0 <= k < |sys.links|
      ensures Held(devices[sys.links[k].alice], devices[sys.links[k].bob], sys.links[k].world)
    {
      var l := sys.links[k];
      assert Apart(added, l) && Held(sys.devices[l.alice], sys.devices[l.bob], l.world);
      OtherHeld(sys.devices[l.alice], sys.devices[l.bob], devices[l.alice], devices[l.bob], Key(added, P.Bob), l.world);
      assert l.world.(oneTimePreKeys := devices[l.bob].store.oneTimePreKeys) == l.world;
    }
  }

  lemma AddedApart(links: seq<Conversation>, added: Conversation)
    requires forall k | 0 <= k < |links| :: Apart(added, links[k])
    requires forall k, l | 0 <= k < |links| && 0 <= l < |links| && k != l :: Apart(links[k], links[l])
    ensures var all := links + [added];
            forall k, l | 0 <= k < |all| && 0 <= l < |all| && k != l :: Apart(all[k], all[l])
  {
  }

  lemma AddedSound(sys: System, added: Conversation)
    requires AllSound(sys) && Sound(added.world, added.dead)
    ensures AllSound(sys.(links := sys.links + [added]))
  {
  }

  lemma AddedHeld(sys: System, added: Conversation)
    requires AllPlaced(sys) && AllHeld(sys) && Placed(sys.devices, added)
    requires Held(sys.devices[added.alice], sys.devices[added.bob], added.world)
    ensures var after := sys.(links := sys.links + [added]); AllPlaced(after) && AllHeld(after)
  {
    var after := sys.(links := sys.links + [added]);
    assert AllPlaced(after);
    forall k | 0 <= k < |after.links|
      ensures var l := after.links[k];
              Held(after.devices[l.alice], after.devices[l.bob], l.world)
    {
      assert k < |sys.links| ==> after.links[k] == sys.links[k];
    }
  }

  lemma AddedKeeps(sys: System, a: nat, e: Device, added: Conversation)
    requires Inv(sys) && Placed(sys.devices, added) && added.alice == a
    requires Changed(sys.devices[a], e, Key(added, P.Bob))
             && e.store.oneTimePreKeys == sys.devices[a].store.oneTimePreKeys
    requires forall k | 0 <= k < |sys.links| :: Apart(added, sys.links[k])
    requires Held(e, sys.devices[added.bob], added.world) && Sound(added.world, added.dead)
    ensures Inv(System(sys.devices[a := e], sys.links + [added]))
  {
    var before := System(sys.devices[a := e], sys.links);
    AddedApart(sys.links, added);
    InitiateKeepsHeld(sys, a, added.bob, e, added);
    AddedHeld(before, added);
    AddedSound(before, added);
  }

  lemma InitiateKeeps(sys: System, a: nat, b: nat, bundle: PreKeyBundle, signedPreKey: KeyPair, ephemeral: PublicKey,
                      json: SyncText)
    requires Inv(sys) && MayInitiate(sys, a, b, bundle, signedPreKey, ephemeral)
    ensures Inv(Next(sys, Initiate(a, b, bundle, signedPreKey, ephemeral), json))
  {
    var d := sys.devices[a];
    var e := d.(store := InitiateCall(d.store, d.me, sys.devices[b].me.publicKey, bundle, KeyPair(ephemeral)).0);
    InitiatedHeld(sys, a, b, bundle, signedPreKey, ephemeral);
    AddedKeeps(sys, a, e, NewConversation(sys, a, b, bundle, signedPreKey, ephemeral));
  }

  /** A publishing device keeps its side of every run, and the runs it responds in have its new prekeys. */
  lemma PublishHeld(sys: System, i: nat, signedId: int, signedPair: KeyPair, now: int, oneTime: seq<(int, KeyPair)>,
                    k: nat)
    requires AllPlaced(sys) && AllHeld(sys) && MayPublish(sys, i, now) && k < |sys.links|
    ensures var after := AfterPublish(sys, i, signedId, signedPair, now, oneTime);
            var l := after.links[k];
            Placed(after.devices, l) && Held(after.devices[l.alice], after.devices[l.bob], l.world)
  {
    var after, l := AfterPublish(sys, i, signedId, signedPair, now, oneTime), sys.links[k];
    assert Held(sys.devices[l.alice], sys.devices[l.bob], l.world);
    if l.bob == i {
      var keys := sys.devices[i].store.signedPreKeys;
      forall latest | IsLatest(after.devices[i].store.signedPreKeys, latest)
        ensures IsLatestOf(latest, after.links[k].world)
      {
        NewestIsNew(keys, signedId, SignedPreKey(signedPair, now), latest);
      }
    }
  }

  lemma PublishApart(sys: System, i: nat, signedId: int, signedPair: KeyPair, now: int, oneTime: seq<(int, KeyPair)>)
    requires AllApart(sys) && i < |sys.devices|
    ensures AllApart(AfterPublish(sys, i, signedId, signedPair, now, oneTime))
  {
    var after := AfterPublish(sys, i, signedId, signedPair, now, oneTime);
    forall k, l | 0 <= k < |after.links| && 0 <= l < |after.links| && k != l
      ensures Apart(after.links[k], after.links[l])
    {
      assert Apart(sys.links[k], sys.links[l]);
    }
  }

  lemma PublishKeeps(sys: System, i: nat, signedId: int, signedPair: KeyPair, now: int, oneTime: seq<(int, KeyPair)>)
    requires Inv(sys) && MayPublish(sys, i, now)
    ensures Inv(AfterPublish(sys, i, signedId, signedPair, now, oneTime))
  {
    var after := AfterPublish(sys, i, signedId, signedPair, now, oneTime);
    PublishApart(sys, i, signedId, signedPair, now, oneTime);
    forall k | 0 <= k < |after.links|
      ensures Placed(after.devices, after.links[k])
      ensures Held(after.devices[after.links[k].alice], after.devices[after.links[k].bob], after.links[k].world)
      ensures Sound(after.links[k].world, after.links[k].dead)
    {
      PublishHeld(sys, i, signedId, signedPair, now, oneTime, k);
      if sys.links[k].bob == i {
        SoundWithPreKeys(sys.links[k].world, sys.links[k].dead, signedPair, after.devices[i].store.oneTimePreKeys);
      }
    }
  }

  lemma EditKeeps(sys: System, i: nat, d: Device)
    requires Inv(sys) && i < |sys.devices| && d.me == sys.devices[i].me && d.store == sys.devices[i].store
    ensures Inv(sys.(devices := sys.devices[i := d]))
  {
    var after := sys.(devices := sys.devices[i := d]);
    forall k | 0 <= k < |sys.links|
      ensures Held(after.devices[sys.links[k].alice], after.devices[sys.links[k].bob], sys.links[k].world)
    {
      assert Held(sys.devices[sys.links[k].alice], sys.devices[sys.links[k].bob], sys.links[k].world);
    }
  }

  lemma StepKeeps(sys: System, step: Step, json: SyncText)
    requires Inv(sys) && Allowed(sys, step)
    ensures Inv(Next(sys, step, json))
  {
    match step
    case Encrypt(k, p, text, nonce) => EncryptKeeps(sys, k, p, text, nonce, json);
    case Arrive(k, n, x) => ArriveKeeps(sys, k, n, x, json);
    case Initiate(a, b, bundle, signedPreKey, ephemeral) =>
      InitiateKeeps(sys, a, b, bundle, signedPreKey, ephemeral, json);
    case Publish(i, signedId, signedPair, now, oneTime) => PublishKeeps(sys, i, signedId, signedPair, now, oneTime);
    case Edit(i, d) => EditKeeps(sys, i, d);
  }

  ghost predicate Legal(sys: System, steps: seq<Step>, json: SyncText)
    decreases |steps|
  {
    steps == [] || (AllPlaced(sys) && Allowed(sys, steps[0]) && Legal(Next(sys, steps[0], json), steps[1..], json))
  }

  ghost function Run(sys: System, steps: seq<Step>, json: SyncText): System
    requires Legal(sys, steps, json)
    decreases |steps|
  {
    if steps == [] then sys else Run(Next(sys, steps[0], json), steps[1..], json)
  }

  lemma {:induction false} RunKeeps(sys: System, steps: seq<Step>, json: SyncText)
    requires Inv(sys) && Legal(sys, steps, json)
    ensures Inv(Run(sys, steps, json))
    decreases |steps|
  {
    if steps != [] {
      StepKeeps(sys, steps[0], json);
      RunKeeps(Next(sys, steps[0], json), steps[1..], json);
    }
  }

  lemma {:induction false} RunThen(sys: System, a: seq<Step>, b: seq<Step>, json: SyncText)
    requires Legal(sys, a, json) && Legal(Run(sys, a, json), b, json)
    ensures Legal(sys, a + b, json) && Run(sys, a + b, json) == Run(Run(sys, a, json), b, json)
    decreases |a|
  {
    if a == [] {
      assert a + b == b;
    } else {
      assert (a + b)[0] == a[0] && (a + b)[1..] == a[1..] + b;
      RunThen(Next(sys, a[0], json), a[1..], b, json);
    }
  }

  lemma StartInv(devices: seq<Device>)
    ensures Inv(System(devices, []))
  {
  }

  // ---- What arrives ----------------------------------------------------------------------------------

  /**
    The n-th envelope of link k is filed as an incoming message with the text that was sent, if and only
    if the conversation is alive and does not die with it, it is within the skip limit, and the text is not
    that of a sync payload.
   */
  ghost predicate FiledAsSent(sys: System, k: nat, n: nat, x: Incoming, json: SyncText)
    requires AllPlaced(sys) && MayArrive(sys, k, n, x)
  {
    var w, e := sys.links[k].world, sys.devices[Receiver(sys, k, n)];
    var text, sender := w.sent[n].text, P.IdentityOf(w, w.sent[n].from).publicKey;
    var row := StoredMessage(x.id, if x.found.Some? then x.found.value else sender, sender, e.me.publicKey,
                             text, x.timestamp, false, false, Delivered);
    Received(e, w.sent[n].message, x, json).stored == Some(row)
    <==> && !sys.links[k].dead && !DiesWith(w, w.sent[n].message)
         && !BeyondSkipLimit(RunTheorems.ReceivingSession(w, n), w.sent[n].message) && json.parse(text).None?
  }

  /**
    In every state that any number of devices can reach, with sends, arrivals, new sessions and new bundles
    of all devices interleaved, that is what becomes of an envelope that comes in for the first time.
   */
  lemma ArrivalIsFiled(devices: seq<Device>, steps: seq<Step>, k: nat, n: nat, x: Incoming, json: SyncText)
    requires Legal(System(devices, []), steps, json)
    requires var sys := Run(System(devices, []), steps, json); AllPlaced(sys) && MayArrive(sys, k, n, x)
    ensures FiledAsSent(Run(System(devices, []), steps, json), k, n, x, json)
  {
    StartInv(devices);
    RunKeeps(System(devices, []), steps, json);
    ArrivalFiledIff(Run(System(devices, []), steps, json), k, n, x, json);
  }

  lemma ArrivalFiledIff(sys: System, k: nat, n: nat, x: Incoming, json: SyncText)
    requires Inv(sys) && MayArrive(sys, k, n, x)
    ensures FiledAsSent(sys, k, n, x, json)
  {
    var w, e := sys.links[k].world, sys.devices[Receiver(sys, k, n)];
    ArrivalAwaited(sys, k, n, x);
    if sys.links[k].dead || DiesWith(w, w.sent[n].message) {
      DeadNotFiled(e, w, sys.links[k].dead, n, x, json);
    } else {
      AliveIsRun(w, n);
      if BeyondSkipLimit(RunTheorems.ReceivingSession(w, n), w.sent[n].message) {
        RefusedNotFiled(e, w, n, x, json);
      } else {
        TextFiled(e, w, n, x, json);
      }
    }
  }

  lemma DeadNotFiled(e: Device, w: P.World, dead: bool, n: nat, x: Incoming, json: SyncText)
    requires Sound(w, dead) && Awaits(e, w, n, x) && (dead || DiesWith(w, w.sent[n].message))
    ensures Received(e, w.sent[n].message, x, json).stored.None?
  {
    DeviceHandsOver(e, w, n, x);
    DeadOpensNothing(w, dead, n);
    ErrNotFiled(e, w.sent[n].message, x, json, P.IdentityOf(w, w.sent[n].from).publicKey);
  }

  lemma RefusedNotFiled(e: Device, w: P.World, n: nat, x: Incoming, json: SyncText)
    requires RunInvariant.InRun(w) && Awaits(e, w, n, x) && P.MayHandOver(w, n)
    requires BeyondSkipLimit(RunTheorems.ReceivingSession(w, n), w.sent[n].message)
    ensures Received(e, w.sent[n].message, x, json).stored.None?
  {
    NamesSender(w, n);
    DeviceHandsOver(e, w, n, x);
    RunTheorems.Delivers(w, n);
    ErrNotFiled(e, w.sent[n].message, x, json, P.IdentityOf(w, w.sent[n].from).publicKey);
  }

  lemma ErrNotFiled(e: Device, m: EncryptedMessage, x: Incoming, json: SyncText, sender: Hex)
    requires Finds(e, m, x.found) && m.initialIdentity == Some(sender)
    requires DecryptCall(false, e.store, e.me, sender, m, x.latest, x.first, x.second).1.Err?
    ensures Received(e, m, x, json).stored.None?
  {
  }

  /** And a sync text is filed under the id and conversation it names. */
  lemma SyncArrivalIsFiled(sys: System, k: nat, n: nat, x: Incoming, json: SyncText, hash: Hex, text: string, now: int,
                           id: MessageId)
    requires Inv(sys) && MayArrive(sys, k, n, x) && Faithful(json)
    requires var w := sys.links[k].world;
             && w.sent[n].text == SyncOf(hash, text, now, id, json)
             && !sys.links[k].dead && !DiesWith(w, w.sent[n].message)
             && !BeyondSkipLimit(RunTheorems.ReceivingSession(w, n), w.sent[n].message)
    requires id !in sys.devices[Receiver(sys, k, n)].messages
    ensures var w, e := sys.links[k].world, sys.devices[Receiver(sys, k, n)];
            var row := StoredMessage(id, hash, P.IdentityOf(w, w.sent[n].from).publicKey, e.me.publicKey, text,
                                     x.timestamp, true, true, Delivered);
            && Received(e, w.sent[n].message, x, json).stored == Some(row)
            && Received(e, w.sent[n].message, x, json).device.messages == e.messages[id := row]
  {
    ArrivalAwaited(sys, k, n, x);
    AliveIsRun(sys.links[k].world, n);
    SyncFiled(sys.devices[Receiver(sys, k, n)], sys.links[k].world, n, x, json, hash, text, now, id);
  }
}
