/** sendOutboundMessage in the system of devices: a run of encrypt steps, and every posted envelope a sent one. */
module DeviceSends {
  import opened Wrappers
  import opened SymbolicCrypto
  import opened Ratchet
  import opened SignalStores
  import opened EngineCalls
  import opened Devices
  import T = DeviceTheorems
  import opened DeviceSystem
  import P = Protocol
  import EngineSteps

  predicate HasRunAt(sys: System, i: nat, peer: PublicKey, k: nat, p: P.Party) {
    k < |sys.links| && Side(sys.links[k], p) == i && EngineSteps.PeerKey(sys.links[k].world, p) == peer
  }

  /** Every session belongs to a run. */
  ghost predicate Owned(sys: System) {
    forall i: nat, peer | i < |sys.devices| && peer in sys.devices[i].store.sessions ::
      exists k, p :: HasRunAt(sys, i, peer, k, p)
  }

  ghost predicate Logged(sys: System, m: EncryptedMessage, text: string) {
    exists k: nat, n: nat :: LoggedAt(sys, m, text, k, n)
  }

  predicate LoggedAt(sys: System, m: EncryptedMessage, text: string, k: nat, n: nat) {
    && k < |sys.links| && n < |sys.links[k].world.sent|
    && sys.links[k].world.sent[n].message == m && sys.links[k].world.sent[n].text == text
  }

  /** Runs and logs only grow. */
  predicate Grows(before: System, after: System) {
    && |before.devices| == |after.devices| && |before.links| <= |after.links|
    && forall k | 0 <= k < |before.links| ::
         && after.links[k].alice == before.links[k].alice && after.links[k].bob == before.links[k].bob
         && after.links[k].world.aliceIdentity == before.links[k].world.aliceIdentity
         && after.links[k].world.bobIdentity == before.links[k].world.bobIdentity
         && before.links[k].world.sent <= after.links[k].world.sent
  }

  lemma StillLogged(before: System, after: System, m: EncryptedMessage, text: string)
    requires Grows(before, after) && Logged(before, m, text)
    ensures Logged(after, m, text)
  {
    var k: nat, n: nat :| LoggedAt(before, m, text, k, n);
    assert LoggedAt(after, m, text, k, n);
  }

  lemma StillRuns(before: System, after: System, i: nat, peer: PublicKey)
    requires Grows(before, after) && exists k, p :: HasRunAt(before, i, peer, k, p)
    ensures exists k, p :: HasRunAt(after, i, peer, k, p)
  {
    var k, p :| HasRunAt(before, i, peer, k, p);
    assert HasRunAt(after, i, peer, k, p);
  }

  // ---- Every session belongs to a run, in every reachable state ---------------------------------------

  lemma EncryptGrows(sys: System, k: nat, p: P.Party, text: string, nonce: nat, json: SyncText)
    requires Inv(sys) && k < |sys.links|
    ensures Grows(sys, Next(sys, Encrypt(k, p, text, nonce), json))
  {
  }

  lemma ArriveGrows(sys: System, k: nat, n: nat, x: Incoming, json: SyncText)
    requires Inv(sys) && MayArrive(sys, k, n, x)
    ensures Grows(sys, Arrived(sys, k, n, x, json))
  {
    T.HandOverKeepsIdentities(sys.links[k].world, n, sys.links[k].world.sent[n].message);
  }

  lemma StepGrows(sys: System, step: Step, json: SyncText)
    requires Inv(sys) && Allowed(sys, step)
    ensures Grows(sys, Next(sys, step, json))
  {
    match step
    case Encrypt(k, p, text, nonce) => EncryptGrows(sys, k, p, text, nonce, json);
    case Arrive(k, n, x) => ArriveGrows(sys, k, n, x, json);
    case Initiate(a, b, bundle, signedPreKey, ephemeral) =>
    case Publish(i, signedId, signedPair, now, oneTime) =>
    case Edit(i, d) =>
  }

  lemma NewByEncrypt(sys: System, k: nat, p: P.Party, text: string, nonce: nat, json: SyncText, i: nat)
    requires Inv(sys) && k < |sys.links| && i < |sys.devices|
    ensures Next(sys, Encrypt(k, p, text, nonce), json).devices[i].store.sessions.Keys
            == sys.devices[i].store.sessions.Keys
  {
  }

  lemma NewByArrival(sys: System, k: nat, n: nat, x: Incoming, json: SyncText, i: nat, peer: PublicKey)
    requires Inv(sys) && MayArrive(sys, k, n, x) && i < |sys.devices|
    requires peer in Arrived(sys, k, n, x, json).devices[i].store.sessions && peer !in sys.devices[i].store.sessions
    ensures var q := P.Peer(sys.links[k].world.sent[n].from);
            Side(sys.links[k], q) == i && EngineSteps.PeerKey(sys.links[k].world, q) == peer
  {
    var w, d := sys.links[k].world, sys.devices[Receiver(sys, k, n)];
    var q, m := P.Peer(w.sent[n].from), w.sent[n].message;
    ArrivalAwaited(sys, k, n, x);
    T.DeviceHandsOver(d, w, n, x);
    ReceivedStore(d, m, x, json, EngineSteps.PeerKey(w, q));
    OnlyThatPeer(d, Received(d, m, x, json).device, EngineSteps.PeerKey(w, q), peer);
  }

  /** A step makes at most one session, and that one belongs to the run it acts on. */
  lemma NewSession(sys: System, step: Step, json: SyncText, i: nat, peer: PublicKey)
    requires Inv(sys) && Allowed(sys, step) && i < |sys.devices|
    requires var after := Next(sys, step, json);
             i < |after.devices| && peer in after.devices[i].store.sessions && peer !in sys.devices[i].store.sessions
    ensures exists k, p :: HasRunAt(Next(sys, step, json), i, peer, k, p)
  {
    var after := Next(sys, step, json);
    StepGrows(sys, step, json);
    match step
    case Encrypt(k, p, text, nonce) => NewByEncrypt(sys, k, p, text, nonce, json, i);
    case Arrive(k, n, x) =>
      NewByArrival(sys, k, n, x, json, i, peer);
      assert HasRunAt(after, i, peer, k, P.Peer(sys.links[k].world.sent[n].from));
    case Initiate(a, b, bundle, signedPreKey, ephemeral) =>
      assert HasRunAt(after, i, peer, |sys.links|, P.Alice);
    case Publish(j, signedId, signedPair, now, oneTime) =>
    case Edit(j, d) =>
  }

  lemma OnlyThatPeer(d: Device, e: Device, peer: PublicKey, other: PublicKey)
    requires e.store.sessions - {peer} == d.store.sessions - {peer}
    requires other in e.store.sessions && other !in d.store.sessions
    ensures other == peer
  {
    assert other in e.store.sessions - {peer} <==> other in d.store.sessions - {peer};
  }

  lemma OwnedKeeps(sys: System, step: Step, json: SyncText)
    requires Inv(sys) && Owned(sys) && Allowed(sys, step)
    ensures Owned(Next(sys, step, json))
  {
    var after := Next(sys, step, json);
    StepGrows(sys, step, json);
    forall i: nat, peer | i < |after.devices| && peer in after.devices[i].store.sessions
      ensures exists k, p :: HasRunAt(after, i, peer, k, p)
    {
      if peer in sys.devices[i].store.sessions {
        StillRuns(sys, after, i, peer);
      } else {
        NewSession(sys, step, json, i, peer);
      }
    }
  }

  lemma {:induction false} RunOwned(sys: System, steps: seq<Step>, json: SyncText)
    requires Inv(sys) && Owned(sys) && Legal(sys, steps, json)
    ensures Owned(Run(sys, steps, json))
    decreases |steps|
  {
    if steps != [] {
      OwnedKeeps(sys, steps[0], json);
      StepKeeps(sys, steps[0], json);
      RunOwned(Next(sys, steps[0], json), steps[1..], json);
    }
  }

  // ---- A fan-out as steps --------------------------------------------------------------------------

  /** A fan-out's effect: device i has the new store, all else is as before, and the log has what was posted. */
  ghost predicate FannedTo(before: System, after: System, i: nat, store: StoreView, earlier: seq<Posted>,
                           posted: seq<Posted>, text: string)
    requires i < |before.devices|
  {
    && Inv(after) && Owned(after) && Grows(before, after) && |after.links| == |before.links|
    && after.devices == before.devices[i := before.devices[i].(store := store)]
    && earlier <= posted
    && forall x | x in posted[|earlier|..] :: Logged(after, x.message, text)
  }

  lemma NoSessionNoEffect(d: Device, peer: PublicKey, text: string, nonce: nat)
    requires peer !in d.store.sessions
    ensures Encrypted(d, peer, text, nonce) == d && EncryptCall(d.store, d.me, peer, text, None, nonce).1.Err?
  {
  }

  /** The envelope an encrypt step returns is the last one in its run's log. */
  lemma EncryptLogs(sys: System, i: nat, peer: PublicKey, k: nat, p: P.Party, text: string, nonce: nat, json: SyncText)
    requires Inv(sys) && HasRunAt(sys, i, peer, k, p) && i < |sys.devices|
    ensures var after := Next(sys, Encrypt(k, p, text, nonce), json);
            var d := sys.devices[i];
            var r := EncryptCall(d.store, d.me, peer, text, None, nonce).1;
            && after.devices == sys.devices[i := Encrypted(d, peer, text, nonce)]
            && |after.links| == |sys.links|
            && (r.Ok? ==> Logged(after, r.value, text))
  {
    var after := Next(sys, Encrypt(k, p, text, nonce), json);
    var l, d := sys.links[k], sys.devices[i];
    assert Held(sys.devices[l.alice], sys.devices[l.bob], l.world);
    var r := EncryptCall(d.store, d.me, peer, text, None, nonce).1;
    if r.Ok? {
      assert LoggedAt(after, r.value, text, k, |l.world.sent|);
    }
  }

  lemma OneStep(sys: System, step: Step, json: SyncText)
    requires AllPlaced(sys) && Allowed(sys, step)
    ensures Legal(sys, [step], json) && Run(sys, [step], json) == Next(sys, step, json)
  {
    assert [step][1..] == [];
    assert Legal(Next(sys, step, json), [], json);
  }

  lemma EncryptFans(sys: System, i: nat, posted: seq<Posted>, live: bool, target: LinkedDevice, text: string,
                    attempt: Attempt, json: SyncText, k: nat, p: P.Party)
    requires Inv(sys) && Owned(sys) && i < |sys.devices| && HasRunAt(sys, i, target.identity, k, p)
    ensures var d := sys.devices[i];
            var f := AfterAttempt(FanOut(d.store, posted, live), d.me, target, text, attempt);
            FannedTo(sys, Next(sys, Encrypt(k, p, text, attempt.nonce), json), i, f.store, posted, f.posted, text)
  {
    var step := Encrypt(k, p, text, attempt.nonce);
    StepKeeps(sys, step, json);
    OwnedKeeps(sys, step, json);
    StepGrows(sys, step, json);
    EncryptLogs(sys, i, target.identity, k, p, text, attempt.nonce, json);
    AttemptPosts(sys.devices[i], posted, live, target, text, attempt);
  }

  lemma AttemptPosts(d: Device, posted: seq<Posted>, live: bool, target: LinkedDevice, text: string, attempt: Attempt)
    ensures var f := AfterAttempt(FanOut(d.store, posted, live), d.me, target, text, attempt);
            var r := EncryptCall(d.store, d.me, target.identity, text, None, attempt.nonce).1;
            && f.store == Encrypted(d, target.identity, text, attempt.nonce).store
            && posted <= f.posted
            && forall x | x in f.posted[|posted|..] :: r.Ok? && x.message == r.value
  {
  }

  lemma NothingFans(sys: System, i: nat, posted: seq<Posted>, live: bool, target: LinkedDevice, text: string,
                    attempt: Attempt)
    requires Inv(sys) && Owned(sys) && i < |sys.devices| && target.identity !in sys.devices[i].store.sessions
    ensures var d := sys.devices[i];
            var f := AfterAttempt(FanOut(d.store, posted, live), d.me, target, text, attempt);
            FannedTo(sys, sys, i, f.store, posted, f.posted, text)
  {
    NoSessionNoEffect(sys.devices[i], target.identity, text, attempt.nonce);
    AttemptPosts(sys.devices[i], posted, live, target, text, attempt);
    assert sys.devices[i := sys.devices[i]] == sys.devices;
  }

  /** One attempt is one encrypt step, or none when there is no session. */
  lemma AttemptIsStep(sys: System, i: nat, posted: seq<Posted>, live: bool, target: LinkedDevice, text: string,
                      attempt: Attempt, json: SyncText) returns (steps: seq<Step>)
    requires Inv(sys) && Owned(sys) && i < |sys.devices|
    ensures Legal(sys, steps, json)
    ensures var d := sys.devices[i];
            var f := AfterAttempt(FanOut(d.store, posted, live), d.me, target, text, attempt);
            FannedTo(sys, Run(sys, steps, json), i, f.store, posted, f.posted, text)
  {
    if target.identity in sys.devices[i].store.sessions {
      var k, p :| HasRunAt(sys, i, target.identity, k, p);
      steps := [Encrypt(k, p, text, attempt.nonce)];
      OneStep(sys, steps[0], json);
      EncryptFans(sys, i, posted, live, target, text, attempt, json, k, p);
    } else {
      steps := [];
      NothingFans(sys, i, posted, live, target, text, attempt);
    }
  }

  lemma GrowsOn(a: System, b: System, c: System)
    requires Grows(a, b) && Grows(b, c)
    ensures Grows(a, c)
  {
  }

  lemma FannedOn(a: System, b: System, c: System, i: nat, store: StoreView, later: StoreView,
                 x: seq<Posted>, y: seq<Posted>, z: seq<Posted>, text: string)
    requires i < |a.devices| && FannedTo(a, b, i, store, x, y, text)
    requires FannedTo(b, c, i, later, y, z, text)
    ensures FannedTo(a, c, i, later, x, z, text)
  {
    GrowsOn(a, b, c);
    forall p | p in z[|x|..]
      ensures Logged(c, p.message, text)
    {
      var j :| |x| <= j < |z| && z[j] == p;
      if j < |y| {
        assert y[|x|..][j - |x|] == p;
        StillLogged(b, c, p.message, text);
      } else {
        assert z[|y|..][j - |y|] == p;
      }
    }
  }

  lemma {:induction false} FanOutIsSteps(sys: System, i: nat, posted: seq<Posted>, targets: seq<LinkedDevice>,
                                         text: string, attempts: nat -> Attempt, json: SyncText)
    returns (steps: seq<Step>)
    requires Inv(sys) && Owned(sys) && i < |sys.devices|
    ensures Legal(sys, steps, json)
    ensures var d := sys.devices[i];
            var f := FannedOut(FanOut(d.store, posted, false), d.me, targets, text, attempts);
            FannedTo(sys, Run(sys, steps, json), i, f.store, posted, f.posted, text)
    decreases |targets|
  {
    var d := sys.devices[i];
    if targets == [] {
      steps := [];
      assert sys.devices[i := d] == sys.devices;
    } else {
      var last := |targets| - 1;
      var first := FanOutIsSteps(sys, i, posted, targets[..last], text, attempts, json);
      var f := FannedOut(FanOut(d.store, posted, false), d.me, targets[..last], text, attempts);
      var middle := Run(sys, first, json);
      var second := AttemptIsStep(middle, i, f.posted, f.live, targets[last], text, attempts(last), json);
      steps := first + second;
      RunThen(sys, first, second, json);
      var g := AfterAttempt(f, d.me, targets[last], text, attempts(last));
      FannedOn(sys, middle, Run(middle, second, json), i, f.store, g.store, posted, f.posted, g.posted, text);
    }
  }

  /** Both fan-outs of sendOutboundMessage, before the message is saved. */
  lemma BothFanOuts(sys: System, i: nat, posted: seq<Posted>, c: Contact, text: string, sync: string,
                    attempts: nat -> Attempt, json: SyncText) returns (steps: seq<Step>)
    requires Inv(sys) && Owned(sys) && i < |sys.devices|
    ensures Legal(sys, steps, json)
    ensures var d, after := sys.devices[i], Run(sys, steps, json);
            var f := FannedOut(FanOut(d.store, posted, false), d.me, Targets(c), text, attempts);
            var g := FannedOut(f.(live := false), d.me, d.ownDevices, sync, Later(attempts, |Targets(c)|));
            && Inv(after) && Owned(after)
            && after.devices == sys.devices[i := d.(store := g.store)]
            && posted <= g.posted
            && forall x | x in g.posted[|posted|..] :: Logged(after, x.message, text) || Logged(after, x.message, sync)
  {
    var d := sys.devices[i];
    var first := FanOutIsSteps(sys, i, posted, Targets(c), text, attempts, json);
    var f := FannedOut(FanOut(d.store, posted, false), d.me, Targets(c), text, attempts);
    var middle := Run(sys, first, json);
    var second := FanOutIsSteps(middle, i, f.posted, d.ownDevices, sync, Later(attempts, |Targets(c)|), json);
    steps := first + second;
    RunThen(sys, first, second, json);
    assert f.(live := false) == FanOut(middle.devices[i].store, f.posted, false);
    var g := FannedOut(f.(live := false), d.me, d.ownDevices, sync, Later(attempts, |Targets(c)|));
    TwoFanned(sys, middle, Run(middle, second, json), i, f.store, g.store, posted, f.posted, g.posted, text, sync);
  }

  lemma TwoFanned(a: System, b: System, c: System, i: nat, store: StoreView, later: StoreView,
                  x: seq<Posted>, y: seq<Posted>, z: seq<Posted>, text: string, sync: string)
    requires i < |a.devices| && FannedTo(a, b, i, store, x, y, text) && FannedTo(b, c, i, later, y, z, sync)
    ensures Inv(c) && Owned(c) && c.devices == a.devices[i := a.devices[i].(store := later)] && x <= z
    ensures forall p | p in z[|x|..] :: Logged(c, p.message, text) || Logged(c, p.message, sync)
  {
    LoggedInEither(b, c, x, y, z, text, sync);
  }

  lemma LoggedInEither(middle: System, after: System, x: seq<Posted>, y: seq<Posted>, z: seq<Posted>, text: string,
                       sync: string)
    requires Grows(middle, after) && x <= y <= z
    requires forall p | p in y[|x|..] :: Logged(middle, p.message, text)
    requires forall p | p in z[|y|..] :: Logged(after, p.message, sync)
    ensures forall p | p in z[|x|..] :: Logged(after, p.message, text) || Logged(after, p.message, sync)
  {
    forall p | p in z[|x|..]
      ensures Logged(after, p.message, text) || Logged(after, p.message, sync)
    {
      var j :| |x| <= j < |z| && z[j] == p;
      if j < |y| {
        assert y[|x|..][j - |x|] == p;
        StillLogged(middle, after, p.message, text);
      } else {
        assert z[|y|..][j - |y|] == p;
      }
    }
  }

  /**
    sendOutboundMessage on one device is a run of the system. It leaves the device as the orchestrator
    says and every other device as it was, and each envelope it posts is a sent envelope of one of the
    runs, with the message or its sync text inside; so what arrives of it is filed as said before.
   */
  lemma SendIsSteps(sys: System, i: nat, posted: seq<Posted>, hash: Hex, text: string, id: MessageId, now: int,
                    attempts: nat -> Attempt, json: SyncText) returns (steps: seq<Step>)
    requires Inv(sys) && Owned(sys) && i < |sys.devices|
    ensures Legal(sys, steps, json)
    ensures var after := Run(sys, steps, json);
            var o := SentOut(sys.devices[i], posted, hash, text, id, now, attempts, json);
            && Inv(after) && Owned(after)
            && after.devices == sys.devices[i := o.device]
            && posted <= o.posted
            && forall x | x in o.posted[|posted|..] ::
                 Logged(after, x.message, text)
                 || (hash in sys.devices[i].contacts
                     && Logged(after, x.message, T.SyncOf(sys.devices[i].contacts[hash].hash, text, now, id, json)))
  {
    var d := sys.devices[i];
    var o := SentOut(d, posted, hash, text, id, now, attempts, json);
    if hash !in d.contacts {
      steps := [];
      assert sys.devices[i := d] == sys.devices;
    } else {
      var c := d.contacts[hash];
      var first := BothFanOuts(sys, i, posted, c, text, T.SyncOf(c.hash, text, now, id, json), attempts, json);
      var middle := Run(sys, first, json);
      var edit := Edit(i, o.device);
      OneStep(middle, edit, json);
      StepKeeps(middle, edit, json);
      OwnedKeeps(middle, edit, json);
      StepGrows(middle, edit, json);
      steps := first + [edit];
      RunThen(sys, first, [edit], json);
      forall x | x in o.posted[|posted|..]
        ensures Logged(Run(sys, steps, json), x.message, text)
                || Logged(Run(sys, steps, json), x.message, T.SyncOf(c.hash, text, now, id, json))
      {
        if Logged(middle, x.message, text) {
          StillLogged(middle, Run(sys, steps, json), x.message, text);
        } else {
          StillLogged(middle, Run(sys, steps, json), x.message, T.SyncOf(c.hash, text, now, id, json));
        }
      }
    }
  }

  // ---- From sending to filing --------------------------------------------------------------------------

  lemma {:induction false} RunGrows(sys: System, steps: seq<Step>, json: SyncText)
    requires Inv(sys) && Legal(sys, steps, json)
    ensures Grows(sys, Run(sys, steps, json))
    decreases |steps|
  {
    if steps != [] {
      var next := Next(sys, steps[0], json);
      StepGrows(sys, steps[0], json);
      StepKeeps(sys, steps[0], json);
      RunGrows(next, steps[1..], json);
      GrowsOn(sys, next, Run(next, steps[1..], json));
    }
  }

  /**
    Whatever all devices go on to do, an envelope that was posted has its place in a run. When it first
    comes in, its device files the text it was posted with, unless it is refused or a sync text.
   */
  lemma PostedIsFiled(sys: System, later: seq<Step>, m: EncryptedMessage, text: string, json: SyncText)
    returns (k: nat, n: nat)
    requires Inv(sys) && Logged(sys, m, text) && Legal(sys, later, json)
    ensures var after := Run(sys, later, json);
            && LoggedAt(after, m, text, k, n) && AllPlaced(after)
            && forall x | MayArrive(after, k, n, x) :: FiledAsSent(after, k, n, x, json)
  {
    var after := Run(sys, later, json);
    RunKeeps(sys, later, json);
    RunGrows(sys, later, json);
    StillLogged(sys, after, m, text);
    k, n :| LoggedAt(after, m, text, k, n);
    forall x | MayArrive(after, k, n, x)
      ensures FiledAsSent(after, k, n, x, json)
    {
      ArrivalFiledIff(after, k, n, x, json);
    }
  }
}
