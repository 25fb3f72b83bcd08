/**
  How long a bundle is good for. A device publishes a new one each time its contact URI is exported, and
  responds with its latest signed prekey: so the next export ends every conversation whose first envelope
  is still to come, and of two initiators with one bundle only the first is heard.
 */
module SharedBundles {
  import opened Wrappers
  import opened SymbolicCrypto
  import opened Ratchet
  import opened SignalStores
  import opened EngineCalls
  import opened Devices
  import opened DeviceSystem
  import opened StaleBundles
  import P = Protocol
  import EngineSteps

  /** No row with the text that was sent comes of the envelope. */
  predicate Unheard(sys: System, k: nat, n: nat, x: Incoming, json: SyncText)
    requires k < |sys.links| && n < |sys.links[k].world.sent| && Receiver(sys, k, n) < |sys.devices|
    requires Finds(sys.devices[Receiver(sys, k, n)], sys.links[k].world.sent[n].message, x.found)
  {
    var w, e := sys.links[k].world, sys.devices[Receiver(sys, k, n)];
    Received(e, w.sent[n].message, x, json).stored.None?
  }

  lemma DyingIsUnheard(sys: System, k: nat, n: nat, x: Incoming, json: SyncText)
    requires Inv(sys) && MayArrive(sys, k, n, x)
    requires DiesWith(sys.links[k].world, sys.links[k].world.sent[n].message)
    ensures Unheard(sys, k, n, x, json)
  {
    ArrivalAwaited(sys, k, n, x);
    DeadNotFiled(sys.devices[Receiver(sys, k, n)], sys.links[k].world, sys.links[k].dead, n, x, json);
  }

  /**
    A device that publishes a new bundle: no envelope of a conversation it has not yet answered is filed,
    whichever comes in, and the conversation is dead from that arrival on.
   */
  lemma NextExportKills(sys: System, i: nat, signedId: int, signedPair: KeyPair, now: int,
                        oneTime: seq<(int, KeyPair)>, k: nat, n: nat, x: Incoming, json: SyncText)
    requires Inv(sys) && MayPublish(sys, i, now) && k < |sys.links|
    requires var l := sys.links[k];
             l.bob == i && l.world.bob.None? && signedPair.publicKey != l.world.bundle.signedPreKey
    requires AllPlaced(AfterPublish(sys, i, signedId, signedPair, now, oneTime))
             && MayArrive(AfterPublish(sys, i, signedId, signedPair, now, oneTime), k, n, x)
    ensures var after := AfterPublish(sys, i, signedId, signedPair, now, oneTime);
            Unheard(after, k, n, x, json) && Arrived(after, k, n, x, json).links[k].dead
  {
    var after := AfterPublish(sys, i, signedId, signedPair, now, oneTime);
    PublishKeeps(sys, i, signedId, signedPair, now, oneTime);
    DyingIsUnheard(after, k, n, x, json);
  }

  /** The responder's store no longer has the one-time prekey a first envelope named. */
  lemma PreKeyIsGone(sys: System, l: nat, n: nat, x: Incoming, json: SyncText)
    requires Inv(sys) && MayArrive(sys, l, n, x) && sys.links[l].world.bob.None?
    requires sys.links[l].world.sent[n].message.oneTimePreKeyId.Some?
    ensures var m := sys.links[l].world.sent[n].message;
            m.oneTimePreKeyId.value
            !in Received(sys.devices[Receiver(sys, l, n)], m, x, json).device.store.oneTimePreKeys
  {
    var w, d := sys.links[l].world, sys.devices[Receiver(sys, l, n)];
    var q, m := P.Peer(w.sent[n].from), w.sent[n].message;
    ArrivalAwaited(sys, l, n, x);
    FirstIsFromAlice(sys, l, n);
    ReceivedStore(d, m, x, json, EngineSteps.PeerKey(w, q));
    StartTakesPreKey(d.store, d.me, EngineSteps.PeerKey(w, q), m, x.latest, x.first, x.second);
  }

  /** Before he has a session, the responder has sent nothing. */
  lemma FirstIsFromAlice(sys: System, l: nat, n: nat)
    requires Inv(sys) && l < |sys.links| && sys.links[l].world.bob.None? && n < |sys.links[l].world.sent|
    ensures sys.links[l].world.sent[n].from.Alice?
    ensures sys.links[l].world.sent[n].message.initialEphemeral.Some?
    ensures sys.links[l].world.sent[n].message.initialIdentity.Some?
  {
    SoundFirst(sys.links[l].world, sys.links[l].dead, n);
  }

  lemma StartTakesPreKey(v: StoreView, me: KeyPair, peer: PublicKey, m: EncryptedMessage, latest: Option<SignedPreKey>,
                         first: KeyPair, second: KeyPair)
    requires peer !in v.sessions && m.oneTimePreKeyId.Some? && latest.Some?
    requires m.initialEphemeral.Some? && m.initialIdentity.Some?
    ensures m.oneTimePreKeyId.value !in DecryptCall(false, v, me, peer, m, latest, first, second).0.oneTimePreKeys
  {
  }

  /**
    Two conversations initiated to one device: when the first envelope of one has come in, a first envelope
    of the other that names the same one-time prekey is not filed, and that conversation is dead.
   */
  lemma SecondInitiatorIsUnheard(sys: System, l: nat, i: nat, y: Incoming, k: nat, n: nat, x: Incoming, json: SyncText)
    requires Inv(sys) && MayArrive(sys, l, i, y) && k < |sys.links| && k != l && sys.links[k].bob == sys.links[l].bob
    requires sys.links[l].world.bob.None? && sys.links[k].world.bob.None?
    requires sys.links[k].world.bundle.oneTimePreKey.Some?
    requires AllPlaced(Arrived(sys, l, i, y, json)) && MayArrive(Arrived(sys, l, i, y, json), k, n, x)
    requires sys.links[k].world.sent[n].message.oneTimePreKeyId == sys.links[l].world.sent[i].message.oneTimePreKeyId
    requires sys.links[k].world.sent[n].message.oneTimePreKeyId.Some?
    ensures var after := Arrived(sys, l, i, y, json);
            Unheard(after, k, n, x, json) && Arrived(after, k, n, x, json).links[k].dead
  {
    var after := Arrived(sys, l, i, y, json);
    PreKeyIsGone(sys, l, i, y, json);
    FirstIsFromAlice(sys, l, i);
    ArriveKeeps(sys, l, i, y, json);
    assert after.links[k].world.oneTimePreKeys == after.devices[sys.links[k].bob].store.oneTimePreKeys;
    assert DiesWith(after.links[k].world, after.links[k].world.sent[n].message);
    DyingIsUnheard(after, k, n, x, json);
  }
}
