/**
  A bundle and what the responder has in hand when its first envelope comes in. The initiator used the
  signed prekey of the bundle; the responder uses its latest, and the one-time prekey only if it is still
  there. When they differ the conversation is dead from its first envelope on.
 */
module StaleBundles {
  import opened Wrappers
  import opened SymbolicCrypto
  import opened Ratchet
  import opened Protocol
  import opened RunInvariant
  import opened RunTheorems
  import opened X3dh

  /**
    The first envelope the responder processes opens exactly when its signed prekey is still the latest,
    its one-time prekey is named and still there, and its number is within the skip limit.
   */
  lemma FirstOpensIff(w: World, i: nat)
    requires InRun(Fresh(w)) && w.bob.None? && w.signedPreKey.Some? && i < |w.sent|
    ensures (HandOver(w, i, w.sent[i].message).outcome == Ok(w.sent[i].text))
            == (Matches(w, w.sent[i].message) && w.sent[i].message.sequenceNumber <= MAX_SKIP_MESSAGES)
  {
    if Matches(w, w.sent[i].message) {
      assert Fresh(w) == w;
      FirstEnvelopeOpensIff(w, i);
    } else {
      var theirs := StaleFirstEstranges(w, i);
    }
  }

  /** And otherwise nothing either side sends ever opens again, under any further steps at all. */
  lemma StaleFirstIsFatal(w: World, i: nat, steps: seq<Step>, j: nat)
    requires InRun(Fresh(w)) && w.bob.None? && w.signedPreKey.Some? && i < |w.sent|
    requires !Matches(w, w.sent[i].message)
    requires j < |Everything(HandOver(w, i, w.sent[i].message).world, steps).sent|
    ensures var v := Everything(HandOver(w, i, w.sent[i].message).world, steps);
            HandOver(v, j, v.sent[j].message).outcome.Err?
  {
    var after := HandOver(w, i, w.sent[i].message).world;
    var theirs := StaleFirstEstranges(w, i);
    EstrangedForGood(after, w.alice.root.root, theirs, steps);
    NothingOpens(Everything(after, steps), w.alice.root.root, theirs, j);
  }

  // ---- Conversations alive or dead -------------------------------------------------------------------

  predicate Named(w: World) {
    forall i | 0 <= i < |w.sent| ::
      w.sent[i].message.initialIdentity == Some(IdentityOf(w, w.sent[i].from).publicKey)
  }

  ghost predicate EstrangedSomehow(w: World) {
    exists mine, theirs :: Estranged(w, mine, theirs)
  }

  /** One that is alive is a run, but for the responder's latest signed prekey; a dead one never opens anything. */
  ghost predicate Sound(w: World, dead: bool) {
    && w.signedPreKey.Some? && Named(w)
    && if dead then EstrangedSomehow(w) else InRun(Fresh(w))
  }

  lemma RunIsNamed(w: World)
    requires InRun(w)
    ensures Named(w)
  {
    var h, a: nat, b: nat :| Tied(w, h, a, b);
  }

  lemma SendNamed(w: World, p: Party, text: string, context: Option<int>, nonce: nat)
    requires Named(w)
    ensures Named(AfterSending(w, p, text, context, nonce))
    ensures AfterSending(w, p, text, context, nonce).signedPreKey == w.signedPreKey
    ensures AfterSending(Fresh(w), p, text, context, nonce) == Fresh(AfterSending(w, p, text, context, nonce))
  {
  }

  lemma RunOnSend(w: World, p: Party, text: string, context: Option<int>, nonce: nat)
    requires InRun(Fresh(w)) && Named(w)
    ensures InRun(Fresh(AfterSending(w, p, text, context, nonce)))
  {
    StepKeeps(Fresh(w), Send(p, text, context, nonce));
    SendNamed(w, p, text, context, nonce);
  }

  lemma SoundOnSend(w: World, dead: bool, p: Party, text: string, context: Option<int>, nonce: nat)
    requires Sound(w, dead)
    ensures Sound(AfterSending(w, p, text, context, nonce), dead)
  {
    SendNamed(w, p, text, context, nonce);
    if dead {
      var mine, theirs :| Estranged(w, mine, theirs);
      EstrangedStays(w, mine, theirs, Send(p, text, context, nonce));
    } else {
      RunOnSend(w, p, text, context, nonce);
    }
  }

  /** Once the responder has a session, its prekeys do not matter to a hand-over. */
  lemma PreKeysDoNotMatter(w: World, n: nat, m: EncryptedMessage)
    requires n < |w.sent| && w.bob.Some?
    ensures HandOver(Fresh(w), n, m).outcome == HandOver(w, n, m).outcome
    ensures HandOver(Fresh(w), n, m).world == Fresh(HandOver(w, n, m).world)
  {
  }

  /** The conversation dies with the first envelope the responder processes, when that does not match. */
  predicate DiesWith(w: World, m: EncryptedMessage) {
    w.bob.None? && !Matches(w, m)
  }

  lemma AliveIsRun(w: World, n: nat)
    requires Sound(w, false) && n < |w.sent| && n !in w.delivered && !DiesWith(w, w.sent[n].message)
    ensures InRun(w) && MayHandOver(w, n)
  {
    FreshInRun(w);
    if w.bob.None? {
      assert Fresh(w) == w;
    }
  }

  lemma HandOverNamed(w: World, n: nat, m: EncryptedMessage)
    requires n < |w.sent| && Named(w) && w.signedPreKey.Some?
    ensures Named(HandOver(w, n, m).world) && HandOver(w, n, m).world.signedPreKey == w.signedPreKey
  {
  }

  lemma SoundOnHandOver(w: World, dead: bool, n: nat)
    requires Sound(w, dead) && n < |w.sent| && n !in w.delivered
    ensures Sound(HandOver(w, n, w.sent[n].message).world, dead || DiesWith(w, w.sent[n].message))
  {
    var m := w.sent[n].message;
    HandOverNamed(w, n, m);
    if dead {
      var mine, theirs :| Estranged(w, mine, theirs);
      EstrangedOnHandOver(w, mine, theirs, n, m);
    } else if DiesWith(w, m) {
      var theirs := StaleFirstEstranges(w, n);
    } else {
      AliveIsRun(w, n);
      StepKeeps(w, Deliver(n));
      FreshInRun(HandOver(w, n, m).world);
    }
  }

  lemma InRunWithPreKeys(w: World, keys: map<int, KeyPair>)
    requires InRun(w)
    ensures InRun(w.(oneTimePreKeys := keys))
  {
    var h, a: nat, b: nat :| Tied(w, h, a, b);
    assert Tied(w.(oneTimePreKeys := keys), h, a, b);
  }

  /** Other prekeys on the responder's device leave a conversation what it is. */
  lemma SoundWithPreKeys(w: World, dead: bool, signedPreKey: KeyPair, keys: map<int, KeyPair>)
    requires Sound(w, dead)
    ensures Sound(w.(signedPreKey := Some(signedPreKey), oneTimePreKeys := keys), dead)
  {
    var v := w.(signedPreKey := Some(signedPreKey), oneTimePreKeys := keys);
    if dead {
      var mine, theirs :| Estranged(w, mine, theirs);
      assert Estranged(v, mine, theirs);
    } else {
      InRunWithPreKeys(Fresh(w), keys);
      assert Fresh(v) == Fresh(w).(oneTimePreKeys := keys);
    }
  }

  /** Nothing opens in a dead conversation, nor the envelope one dies with. */
  lemma DeadOpensNothing(w: World, dead: bool, n: nat)
    requires Sound(w, dead) && n < |w.sent| && (dead || DiesWith(w, w.sent[n].message))
    ensures HandOver(w, n, w.sent[n].message).outcome.Err?
  {
    if dead {
      var mine, theirs :| Estranged(w, mine, theirs);
      NothingOpens(w, mine, theirs, n);
    } else {
      var theirs := StaleFirstEstranges(w, n);
    }
  }

  lemma EstrangedAfterStart(w: World)
    requires EstrangedSomehow(w)
    ensures w.bob.Some?
  {
    var mine, theirs :| Estranged(w, mine, theirs);
  }

  /** Until the responder has a session only the initiator has sent, and with the X3DH parameters. */
  lemma SoundFirst(w: World, dead: bool, n: nat)
    requires Sound(w, dead) && w.bob.None? && n < |w.sent|
    ensures !dead && w.sent[n].from.Alice?
    ensures w.sent[n].message.initialEphemeral.Some? && w.sent[n].message.initialIdentity.Some?
  {
    if dead {
      EstrangedAfterStart(w);
    } else {
      OneOrigin(Fresh(w));
    }
  }
}
