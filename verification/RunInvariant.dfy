/**
  The invariant of a whole run: both sessions lie on one lineage, one epoch apart, and everything
  sent is where the log says. Every step keeps it.
 */
module RunInvariant {
  import opened Wrappers
  import opened SymbolicCrypto
  import opened Ratchet
  import opened Protocol
  import opened Lineage
  import opened SessionInvariant
  import opened Delivery

  /** Before Bob has a session: the lineage is the one Alice derived from his bundle. */
  predicate Unopened(w: World, h: History) {
    && |h.spine.keys| == 1
    && w.bob.None?
    && w.delivered == {}
    && h.spine.base == w.bundle.signedPreKey
    && h.spine.master == InitiatorMaster(w.aliceIdentity, KeyPair(h.spine.keys[0]), w.bundle)
    && w.bundle.identity == w.bobIdentity.publicKey
    && w.signedPreKey == Some(KeyPair(w.bundle.signedPreKey))
  }

  ghost predicate LogOk(w: World, h: History) {
    && SpineOk(h, w.nextPair) && IndexOk(h, w.sent)
    && (forall i | i in w.delivered :: i < |w.sent|)
    && (forall i | 0 <= i < |w.sent| ::
        w.sent[i].message.initialIdentity == Some(IdentityOf(w, w.sent[i].from).publicKey))
  }

  /** The two sides are one epoch apart, and the one ahead is in the last epoch opened. */
  predicate Neighbours(h: History, e: nat, f: nat) {
    && (e == f + 1 || f == e + 1)
    && |h.spine.keys| == (if e > f then e else f) + 1
  }

  lemma NotOpposite(x: nat, e: nat, f: nat)
    requires Opposite(x, e) && (e == f + 1 || f == e + 1)
    ensures !Opposite(x, f)
  {
  }

  lemma StillNeighbours(h: History, k: PublicKey, g: History, e: nat, e': nat, f: nat)
    requires Neighbours(h, e, f)
    requires (g == h && e' == e) || (g == Grown(h, k) && e' == e + 2 && |h.spine.keys| == e + 2)
    ensures Owner(e') == Owner(e) && Neighbours(g, e', f)
  {
  }

  /** Alice stands in epoch a, Bob, once he has a session, in epoch b. */
  ghost predicate Tied(w: World, h: History, a: nat, b: nat) {
    && LogOk(w, h)
    && a % 2 == 0 && b % 2 == 1
    && SessionOk(h, w.delivered, w.alice, a)
    && (if w.bob.None? then a == 0 && Unopened(w, h)
        else
          && SessionOk(h, w.delivered, w.bob.value, b)
          && Neighbours(h, a, b))
  }

  /** Somewhere on some lineage. */
  ghost predicate InRun(w: World) {
    exists h: History, a: nat, b: nat :: Tied(w, h, a, b)
  }

  function EpochOf(p: Party, a: nat, b: nat): nat {
    if p.Alice? then a else b
  }

  // ---- The start -------------------------------------------------------------------------------

  lemma InitiatedInRun(aliceIdentity: KeyPair, bobIdentity: KeyPair, bundle: PreKeyBundle,
                       signedPreKey: Option<KeyPair>, oneTimePreKeys: map<int, KeyPair>, aliasing: bool,
                       ephemeral: PublicKey)
    requires Genuine(aliceIdentity, bobIdentity, bundle, signedPreKey, ephemeral)
    ensures InRun(Initiated(aliceIdentity, bobIdentity, bundle, signedPreKey, oneTimePreKeys, aliasing, ephemeral))
  {
    var w := Initiated(aliceIdentity, bobIdentity, bundle, signedPreKey, oneTimePreKeys, aliasing, ephemeral);
    var spine := Spine(InitiatorMaster(aliceIdentity, KeyPair(ephemeral), bundle), bundle.signedPreKey, [ephemeral]);
    var h := History(spine, map[ephemeral := 0], [[]]);
    assert RootAt(spine, 1) == RootOf(RootAt(spine, 0), Joint(spine, 0));
    assert Tied(w, h, 0, 1);
  }

  // ---- Sending ---------------------------------------------------------------------------------

  lemma EnvelopeLies(h: History, nextPair: PublicKey, delivered: set<nat>, s: Session, e: nat,
                     identity: PublicKey, text: string, context: Option<int>, nonce: nat)
    requires SpineOk(h, nextPair) && SessionOk(h, delivered, s, e)
    requires CanSend(s)
    ensures EnvelopeAt(h, Sent(Owner(e), Envelope(s, identity, text, context, nonce), text), e, |h.index[e]|)
  {
    WithSendChainKeeps(h, nextPair, delivered, s, e);
  }

  /** Putting one side's new session beside the unchanged other side. */
  lemma Assemble(w: World, h: History, p: Party, s: Session, e: nat, t: Session, f: nat)
    requires LogOk(w, h)
    requires w.bob.Some? && SessionOf(w, p) == Some(s) && SessionOf(w, Peer(p)) == Some(t)
    requires SessionOk(h, w.delivered, s, e) && SessionOk(h, w.delivered, t, f)
    requires Owner(e) == p && Owner(f) == Peer(p)
    requires Neighbours(h, e, f)
    ensures InRun(w)
  {
    if p.Alice? {
      assert Tied(w, h, e, f);
    } else {
      assert Tied(w, h, f, e);
    }
  }

  lemma SendingKeeps(w: World, h: History, a: nat, b: nat, p: Party, text: string, context: Option<int>, nonce: nat)
    requires Tied(w, h, a, b)
    ensures InRun(AfterSending(w, p, text, context, nonce))
  {
    if SessionOf(w, p).None? {
      assert Tied(AfterSending(w, p, text, context, nonce), h, a, b);
    } else if w.bob.None? {
      SendingAlone(w, h, b, text, context, nonce);
    } else {
      SendingToPeer(w, h, p, SessionOf(w, p).value, EpochOf(p, a, b), SessionOf(w, Peer(p)).value,
                    EpochOf(Peer(p), a, b), text, context, nonce);
    }
  }

  lemma SendingAlone(w: World, h: History, b: nat, text: string, context: Option<int>, nonce: nat)
    requires Tied(w, h, 0, b) && w.bob.None?
    ensures InRun(AfterSending(w, Alice, text, context, nonce))
  {
    SendKeeps(h, w.nextPair, w.delivered, w.alice, 0, |w.sent|);
    SendingLogged(w, h, Alice, w.alice, 0, text, context, nonce);
    assert Tied(AfterSending(w, Alice, text, context, nonce), Logged(h, 0, |w.sent|), 0, b);
  }

  lemma SendingLogged(w: World, h: History, p: Party, s: Session, e: nat, text: string, context: Option<int>,
                      nonce: nat)
    requires LogOk(w, h) && SessionOf(w, p) == Some(s) && CanSend(s) && Owner(e) == p
    requires SessionOk(h, w.delivered, s, e) && |h.spine.keys| <= e + 2
    ensures LogOk(AfterSending(w, p, text, context, nonce), Logged(h, e, |w.sent|))
  {
    EnvelopeLies(h, w.nextPair, w.delivered, s, e, IdentityOf(w, p).publicKey, text, context, nonce);
    var envelope := Sent(p, Envelope(s, IdentityOf(w, p).publicKey, text, context, nonce), text);
    LoggedIndexOk(h, w.nextPair, w.sent, e, envelope);
    LogGrown(w, h, AfterSending(w, p, text, context, nonce), e, envelope);
  }

  lemma LogGrown(w: World, h: History, v: World, e: nat, envelope: Sent)
    requires LogOk(w, h) && e < |h.index| && IndexOk(Logged(h, e, |w.sent|), w.sent + [envelope])
    requires v.sent == w.sent + [envelope] && v.nextPair == w.nextPair && v.delivered == w.delivered
    requires v.aliceIdentity == w.aliceIdentity && v.bobIdentity == w.bobIdentity
    requires envelope.message.initialIdentity == Some(IdentityOf(w, envelope.from).publicKey)
    ensures LogOk(v, Logged(h, e, |w.sent|))
  {
  }

  lemma SendingToPeer(w: World, h: History, p: Party, s: Session, e: nat, t: Session, f: nat,
                      text: string, context: Option<int>, nonce: nat)
    requires LogOk(w, h) && w.bob.Some?
    requires SessionOf(w, p) == Some(s) && SessionOf(w, Peer(p)) == Some(t)
    requires SessionOk(h, w.delivered, s, e) && SessionOk(h, w.delivered, t, f)
    requires Owner(e) == p && Owner(f) == Peer(p)
    requires Neighbours(h, e, f)
    ensures InRun(AfterSending(w, p, text, context, nonce))
  {
    SendKeeps(h, w.nextPair, w.delivered, s, e, |w.sent|);
    SendingLogged(w, h, p, s, e, text, context, nonce);
    PeerSends(h, w.nextPair, w.delivered, t, f, e, |w.sent|);
    Assemble(AfterSending(w, p, text, context, nonce), Logged(h, e, |w.sent|), p, AfterSend(s), e, t, f);
  }

  // ---- Receiving -------------------------------------------------------------------------------

  /** The epoch and number of envelope i. */
  lemma Locate(w: World, h: History, a: nat, b: nat, i: nat) returns (x: nat, n: nat)
    requires Tied(w, h, a, b) && i < |w.sent|
    ensures x < |h.index| && n < |h.index[x]| && h.index[x][n] == i
    ensures EnvelopeAt(h, w.sent[i], x, n)
  {
    assert Located(h, w.sent[i].message, i);
    x := h.epochOf[w.sent[i].message.ephemeral];
    n := w.sent[i].message.sequenceNumber;
    assert EnvelopeAt(h, w.sent[h.index[x][n]], x, n);
  }

  /** What the other side knows survives a hand-over. */
  lemma SenderKeeps(h: History, nextPair: PublicKey, k: PublicKey, g: History, sent: seq<Sent>, delivered: set<nat>,
                    t: Session, f: nat, x: nat, n: nat, used: bool)
    requires SpineOk(h, nextPair) && IndexOk(h, sent) && SessionOk(h, delivered, t, f) && k >= nextPair
    requires g == h || g == Grown(h, k)
    requires x < |h.index| && n < |h.index[x]| && !Opposite(x, f)
    ensures SpineOk(g, k + 1) && IndexOk(g, sent)
    ensures SessionOk(g, if used then delivered + {h.index[x][n]} else delivered, t, f)
  {
    if g != h {
      GrownSpineOk(h, nextPair, k);
      GrownIndexOk(h, nextPair, k, sent);
      GrownKeeps(h, nextPair, k, delivered, t, f);
    }
    assert g.index[x] == h.index[x];
    if used {
      SenderUntouched(g, k + 1, sent, delivered, t, f, x, n);
    }
  }

  /** A side whose peer is ahead has sent, so its send chain exists: no ratchet step starts from a stale root. */
  lemma SentBefore(h: History, s: Session, e: nat, t: Session, f: nat)
    requires ChainsOk(h, s, e) && ChainsOk(h, t, f)
    requires Neighbours(h, e, f)
    ensures MayRatchet(s, h, e)
  {
  }

  /** One hand-over, seen on both sessions at once: s in epoch e receives, t in epoch f sent. */
  lemma Exchange(h: History, nextPair: PublicKey, sent: seq<Sent>, delivered: set<nat>, s: Session, e: nat, t: Session,
                 f: nat, i: nat, x: nat, n: nat, m: EncryptedMessage, aliasing: bool)
    returns (g: History, e': nat)
    requires Arrives(h, nextPair, sent, delivered, s, e, i, x, n, m) && SessionOk(h, delivered, t, f)
    requires Neighbours(h, e, f)
    ensures var d := Decrypt(s, m, KeyPair(nextPair));
            var used := if d.saved then delivered + {i} else delivered;
            && (d.saved <==> !BeyondSkipLimit(s, m))
            && d.outcome == (if BeyondSkipLimit(s, m) then Err(TooManySkipped)
                             else Opened(m, MessageKeyAt(h.spine, x, n)))
            && SpineOk(g, nextPair + 1) && IndexOk(g, sent)
            && SessionOk(g, used, Kept(aliasing, s, d), e') && SessionOk(g, used, t, f)
    ensures Owner(e') == Owner(e) && Neighbours(g, e', f)
  {
    SentBefore(h, s, e, t, f);
    NotOpposite(x, e, f);
    g, e' := DecryptKeeps(h, nextPair, sent, delivered, s, e, i, x, n, m, nextPair, aliasing);
    SenderKeeps(h, nextPair, nextPair, g, sent, delivered, t, f, x, n, Decrypt(s, m, KeyPair(nextPair)).saved);
    StillNeighbours(h, nextPair, g, e, e', f);
  }

  /** What a hand-over to a side that has a session brings about. */
  ghost predicate HandedOver(w: World, s: Session, i: nat, m: EncryptedMessage, after: Handover)
    requires i < |w.sent|
  {
    && InRun(after.world)
    && after.world.bob.Some?
    && (BeyondSkipLimit(s, m) ==> after.outcome == Err(TooManySkipped) && after.world.delivered == w.delivered)
    && (!BeyondSkipLimit(s, m) ==>
          && after.world.delivered == w.delivered + {i}
          && w.sent[i].message.ciphertext.SecretBox?
          && after.outcome == Opened(m, w.sent[i].message.ciphertext.key))
  }

  lemma LogKept(w: World, h: History, v: World, g: History)
    requires LogOk(w, h) && SpineOk(g, v.nextPair) && IndexOk(g, v.sent)
    requires v.sent == w.sent && v.aliceIdentity == w.aliceIdentity && v.bobIdentity == w.bobIdentity
    requires forall i | i in v.delivered :: i < |v.sent|
    ensures LogOk(v, g)
  {
  }

  lemma ExchangeInWorld(w: World, h: History, p: Party, s: Session, e: nat, t: Session, f: nat, i: nat, x: nat, n: nat,
                        m: EncryptedMessage)
    requires LogOk(w, h) && w.bob.Some?
    requires SessionOf(w, p) == Some(s) && SessionOf(w, Peer(p)) == Some(t) && Owner(e) == p && Owner(f) == Peer(p)
    requires Arrives(h, w.nextPair, w.sent, w.delivered, s, e, i, x, n, m) && SessionOk(h, w.delivered, t, f)
    requires EnvelopeAt(h, w.sent[i], x, n)
    requires Neighbours(h, e, f)
    ensures HandedOver(w, s, i, m, HandOverOnSession(w, p, s, i, m))
  {
    var g, e' := Exchange(h, w.nextPair, w.sent, w.delivered, s, e, t, f, i, x, n, m, w.aliasing);
    AfterExchange(w, h, p, s, e', t, f, i, m, g);
  }

  lemma AfterExchange(w: World, h: History, p: Party, s: Session, e': nat, t: Session, f: nat, i: nat,
                      m: EncryptedMessage, g: History)
    requires LogOk(w, h) && w.bob.Some? && i < |w.sent|
    requires SessionOf(w, p) == Some(s) && SessionOf(w, Peer(p)) == Some(t) && Owner(e') == p && Owner(f) == Peer(p)
    requires SpineOk(g, w.nextPair + 1) && IndexOk(g, w.sent)
    requires var d := Decrypt(s, m, KeyPair(w.nextPair));
             var used := if d.saved then w.delivered + {i} else w.delivered;
             SessionOk(g, used, Kept(w.aliasing, s, d), e') && SessionOk(g, used, t, f)
    requires Neighbours(g, e', f)
    ensures InRun(HandOverOnSession(w, p, s, i, m).world)
  {
    var d := Decrypt(s, m, KeyPair(w.nextPair));
    var after := HandOverOnSession(w, p, s, i, m).world;
    assert after.delivered == (if d.saved then w.delivered + {i} else w.delivered);
    LogKept(w, h, after, g);
    Assemble(after, g, p, Kept(w.aliasing, s, d), e', t, f);
  }

  lemma ForTheOtherSide(x: nat, e: nat)
    requires Owner(e) == Peer(Owner(x))
    ensures Opposite(x, e)
  {
  }

  /** A hand-over to a side that has a session. */
  lemma OnSession(w: World, h: History, a: nat, b: nat, i: nat, m: EncryptedMessage)
    requires Tied(w, h, a, b) && w.bob.Some?
    requires i < |w.sent| && i !in w.delivered && SameHeader(m, w.sent[i].message)
    ensures var p := Peer(w.sent[i].from);
            HandedOver(w, SessionOf(w, p).value, i, m, HandOverOnSession(w, p, SessionOf(w, p).value, i, m))
  {
    var p := Peer(w.sent[i].from);
    var x, n := Locate(w, h, a, b, i);
    ForTheOtherSide(x, EpochOf(p, a, b));
    ExchangeInWorld(w, h, p, SessionOf(w, p).value, EpochOf(p, a, b), SessionOf(w, Peer(p)).value,
                    EpochOf(Peer(p), a, b), i, x, n, m);
  }

  /** Bob's first envelope, when it names the bundle's one-time prekey, puts him in epoch 1. */
  lemma BobJoins(w: World, h: History, a: nat, b: nat, m: EncryptedMessage, i: nat)
    requires Tied(w, h, a, b) && w.bob.None?
    requires i < |w.sent| && SameHeader(m, w.sent[i].message)
    requires NamesBundlePreKey(w, m)
    ensures w.sent[i].from == Alice
    ensures BobStarts(w, m).Ok?
    ensures var v := BobStarts(w, m).value;
            && v.bob.Some? && v.sent == w.sent && v.delivered == w.delivered && v.aliasing == w.aliasing
            && Tied(v, Grown(h, w.nextPair), 0, 1)
  {
    var x, n := Locate(w, h, a, b, i);
    var k := w.nextPair;
    var g := Grown(h, k);
    GrownSpineOk(h, k, k);
    GrownIndexOk(h, k, k, w.sent);
    GrownKeeps(h, k, k, w.delivered, w.alice, 0);
    var v := BobStarts(w, m).value;
    BobOnLineage(w, h, m, v.bob.value);
  }

  lemma BobOnLineage(w: World, h: History, m: EncryptedMessage, s: Session)
    requires SpineOk(h, w.nextPair) && Unopened(w, h)
    requires m.ephemeral == h.spine.keys[0] && m.initialEphemeral == Some(m.ephemeral)
    requires m.initialIdentity == Some(w.aliceIdentity.publicKey)
    requires NamesBundlePreKey(w, m)
    requires w.signedPreKey.Some?
             && s == ResponderSession(w.bobIdentity, w.signedPreKey.value, Lookup(w, m.oneTimePreKeyId),
                                    m.initialIdentity.value, m.initialEphemeral.value, m.ephemeral, KeyPair(w.nextPair))
    ensures SessionOk(Grown(h, w.nextPair), {}, s, 1)
  {
    var g := Grown(h, w.nextPair);
    RootAtKept(h.spine, w.nextPair, 1);
    assert RootAt(h.spine, 1) == RootOf(RootAt(h.spine, 0), Joint(h.spine, 0));
    assert g.spine.keys[0] == m.ephemeral;
  }

  // ---- Looking at one side ---------------------------------------------------------------------

  /** What the invariant says about one session, without the world around it. */
  ghost predicate Standing(h: History, nextPair: PublicKey, sent: seq<Sent>, delivered: set<nat>, s: Session, e: nat) {
    SpineOk(h, nextPair) && IndexOk(h, sent) && SessionOk(h, delivered, s, e)
  }

  lemma Stand(w: World, p: Party) returns (h: History, e: nat)
    requires InRun(w) && SessionOf(w, p).Some?
    ensures Standing(h, w.nextPair, w.sent, w.delivered, SessionOf(w, p).value, e)
    ensures Owner(e) == p
  {
    var h', a: nat, b: nat :| Tied(w, h', a, b);
    h, e := h', EpochOf(p, a, b);
  }

  /** Both sides at once, once Bob has a session. */
  lemma StandBoth(w: World, p: Party) returns (h: History, e: nat, f: nat)
    requires InRun(w) && w.bob.Some?
    ensures LogOk(w, h) && Owner(e) == p && Neighbours(h, e, f)
    ensures SessionOk(h, w.delivered, SessionOf(w, p).value, e)
    ensures SessionOk(h, w.delivered, SessionOf(w, Peer(p)).value, f)
  {
    var h', a: nat, b: nat :| Tied(w, h', a, b);
    h, e, f := h', EpochOf(p, a, b), EpochOf(Peer(p), a, b);
  }

  /** The epoch and number of one envelope, seen from one session. */
  lemma PlaceOf(h: History, nextPair: PublicKey, sent: seq<Sent>, delivered: set<nat>, s: Session, e: nat, i: nat)
    returns (x: nat, n: nat)
    requires Standing(h, nextPair, sent, delivered, s, e) && i < |sent|
    ensures x < |h.index| && n < |h.index[x]| && h.index[x][n] == i
    ensures EnvelopeAt(h, sent[i], x, n)
    ensures HeaderId(sent[i].message) == SkipId(h.spine.keys[x], n)
    ensures h.epochOf[h.spine.keys[x]] == x
    ensures sent[i].from == Peer(Owner(e)) ==> Opposite(x, e)
    ensures Opposite(x, e) ==> sent[i].from == Peer(Owner(e))
    ensures e > 0 ==> h.epochOf[h.spine.keys[e - 1]] == e - 1
  {
    assert Located(h, sent[i].message, i);
    x := h.epochOf[sent[i].message.ephemeral];
    n := sent[i].message.sequenceNumber;
    assert EnvelopeAt(h, sent[h.index[x][n]], x, n);
  }

  /** The key filed or derived for an envelope that the own counter has not passed. */
  lemma AheadOnChain(h: History, s: Session, e: nat, x: nat, n: nat)
    requires ChainsOk(h, s, e) && x + 1 == e && s.receiveNumber <= n
    ensures s.receiveChain.Some?
    ensures MessageKeyAt(h.spine, x, n) == MessageKeyOf(ChainAt(s.receiveChain.value, n - s.receiveNumber))
  {
    ChainAtAdds(ChainStart(h.spine, x), s.receiveNumber, n - s.receiveNumber);
  }

  /** The envelope with a given number of the live receiving chain. */
  lemma NumberedOnChain(h: History, nextPair: PublicKey, sent: seq<Sent>, delivered: set<nat>, s: Session, e: nat,
                        n: nat)
    returns (i: nat)
    requires Standing(h, nextPair, sent, delivered, s, e) && n < s.receiveNumber
    ensures i < |sent| && sent[i].from == Peer(Owner(e))
    ensures Some(sent[i].message.ephemeral) == s.remoteDh && sent[i].message.sequenceNumber == n
  {
    i := h.index[e - 1][n];
    assert EnvelopeAt(h, sent[h.index[e - 1][n]], e - 1, n);
  }

  /** The unused envelope behind a filed key. */
  lemma BehindFiledKey(h: History, nextPair: PublicKey, sent: seq<Sent>, delivered: set<nat>, s: Session, e: nat,
                       id: SkipId)
    returns (i: nat)
    requires Standing(h, nextPair, sent, delivered, s, e) && id in s.skipped
    ensures i < |sent| && i !in delivered && sent[i].from == Peer(Owner(e))
    ensures HeaderId(sent[i].message) == id && sent[i].message.ciphertext.SecretBox?
    ensures s.skipped[id] == sent[i].message.ciphertext.key
  {
    assert Pending(h, delivered, e, s.receiveNumber, id);
    var x := h.epochOf[id.ratchetKey];
    i := h.index[x][id.number];
    assert EnvelopeAt(h, sent[h.index[x][id.number]], x, id.number);
    OwnersDiffer(x, e);
  }

  lemma OwnersDiffer(x: nat, e: nat)
    requires Opposite(x, e)
    ensures Owner(x) == Peer(Owner(e))
  {
  }

  /** Filed, used, or not yet passed: which of the three an envelope is follows from its place. */
  lemma Disposition(h: History, nextPair: PublicKey, sent: seq<Sent>, delivered: set<nat>, s: Session, e: nat, i: nat,
                    x: nat, n: nat)
    requires Standing(h, nextPair, sent, delivered, s, e)
    requires x < |h.index| && n < |h.index[x]| && h.index[x][n] == i && Opposite(x, e)
    requires h.epochOf[h.spine.keys[x]] == x
    ensures SkipId(h.spine.keys[x], n) in s.skipped <==> n < Limit(h.index, e, s.receiveNumber, x) && i !in delivered
    ensures i in delivered ==> n < Limit(h.index, e, s.receiveNumber, x)
  {
    assert SkipId(h.spine.keys[x], n) in s.skipped <==>
           Pending(h, delivered, e, s.receiveNumber, SkipId(h.spine.keys[x], n));
  }
}
