/** What a second delivery of an envelope does: to that call, and to everything after it. */
module Replays {
  import opened Wrappers
  import opened SymbolicCrypto
  import opened Ratchet
  import opened Protocol
  import opened Lineage
  import opened SessionInvariant
  import opened RunInvariant
  import opened RunTheorems
  import opened X3dh
  import opened Limits

  // ---- The call itself ---------------------------------------------------------------------------

  /** A used envelope has been passed and its key is gone. */
  lemma UsedPlace(h: History, nextPair: PublicKey, sent: seq<Sent>, delivered: set<nat>, s: Session, e: nat, i: nat)
    returns (x: nat, n: nat)
    requires Standing(h, nextPair, sent, delivered, s, e)
    requires i < |sent| && i in delivered && sent[i].from == Peer(Owner(e))
    ensures x < |h.index| && n < |h.index[x]| && EnvelopeAt(h, sent[i], x, n) && x < e
    ensures HeaderId(sent[i].message) !in s.skipped
    ensures x + 1 == e ==> !NeedsRatchet(s, sent[i].message) && n < s.receiveNumber
    ensures x + 1 != e ==> x + 3 <= e && NeedsRatchet(s, sent[i].message)
  {
    x, n := PlaceOf(h, nextPair, sent, delivered, s, e, i);
    Disposition(h, nextPair, sent, delivered, s, e, i, x, n);
    if x + 1 != e {
      assert h.epochOf[h.spine.keys[e - 1]] == e - 1;
    }
  }

  /** On the live chain the key in hand is a later one. */
  lemma LiveReplayed(h: History, s: Session, e: nat, m: EncryptedMessage, n: nat, k: KeyPair)
    requires h.spine.master.Master? && ChainsOk(h, s, e) && e >= 1
    requires HeaderId(m) !in s.skipped && !NeedsRatchet(s, m) && m.sequenceNumber == n < s.receiveNumber
    requires m.ciphertext.SecretBox? && m.ciphertext.key == MessageKeyAt(h.spine, e - 1, n)
    ensures s.receiveChain.Some? && Decrypt(s, m, k) == Decryption(Consume(s), true, Err(DecryptionFailed))
  {
    var start := ChainStart(h.spine, e - 1);
    if ChainAt(start, s.receiveNumber) == ChainAt(start, n) {
      ChainAtInjective(start, s.receiveNumber, start, n);
    }
  }

  /** On a finished chain decrypt ratchets onto the old key, from a root that chain never had. */
  lemma FinishedReplayed(h: History, s: Session, e: nat, m: EncryptedMessage, x: nat, n: nat, k: KeyPair)
    requires h.spine.master.Master? && ChainsOk(h, s, e) && x + 3 <= e
    requires HeaderId(m) !in s.skipped && NeedsRatchet(s, m) && m.sequenceNumber == n && !BeyondSkipLimit(s, m)
    requires m.ciphertext.SecretBox? && m.ciphertext.key == MessageKeyAt(h.spine, x, n)
    ensures var t := Skip(DhRatchet(Skip(s, m.previousChainLength), m.ephemeral, k), n);
            t.receiveChain.Some? && Decrypt(s, m, k) == Decryption(Consume(t), true, Err(DecryptionFailed))
  {
    var t := DhRatchet(Skip(s, m.previousChainLength), m.ephemeral, k);
    var chain := t.receiveChain.value;
    assert Skip(t, n).receiveChain == Some(ChainAt(chain, n));
    if ChainAt(chain, n) == ChainAt(ChainStart(h.spine, x), n) {
      ChainAtInjective(chain, n, ChainStart(h.spine, x), n);
      RootAtInjective(h.spine, e + 1, x);
    }
  }

  lemma SealedUnder(h: History, envelope: Sent, x: nat, n: nat)
    requires EnvelopeAt(h, envelope, x, n)
    ensures envelope.message.ciphertext.SecretBox? && envelope.message.ciphertext.key == MessageKeyAt(h.spine, x, n)
  {
  }

  /** A replay that changes the store: not refused, or only after an aliased session's ratchet step. */
  predicate LeavesTrace(aliasing: bool, s: Session, m: EncryptedMessage) {
    !BeyondSkipLimit(s, m) || (aliasing && RatchetsThenRefuses(s, m))
  }

  /** Replayed on the session of its receiver. */
  lemma ReplayedOnSession(h: History, nextPair: PublicKey, sent: seq<Sent>, delivered: set<nat>, s: Session, e: nat,
                          i: nat, k: KeyPair)
    requires Standing(h, nextPair, sent, delivered, s, e)
    requires i < |sent| && i in delivered && sent[i].from == Peer(Owner(e))
    ensures var d := Decrypt(s, sent[i].message, k);
            && d.outcome == Err(if BeyondSkipLimit(s, sent[i].message) then TooManySkipped else DecryptionFailed)
            && forall aliasing :: Kept(aliasing, s, d) != s <==> LeavesTrace(aliasing, s, sent[i].message)
  {
    var m := sent[i].message;
    RefusalAtomicity(s, m, k);
    var x, n := UsedPlace(h, nextPair, sent, delivered, s, e, i);
    SealedUnder(h, sent[i], x, n);
    if x + 1 == e {
      LiveReplayed(h, s, e, m, n, k);
    } else if !BeyondSkipLimit(s, m) {
      FinishedReplayed(h, s, e, m, x, n, k);
    }
  }

  lemma UsedMeansOpened(w: World)
    requires InRun(w) && w.delivered != {}
    ensures w.bob.Some?
  {
    var h, a: nat, b: nat :| Tied(w, h, a, b);
  }

  lemma ReceiverStands(w: World, i: nat)
    requires InRun(w) && i in w.delivered
    ensures i < |w.sent| && SessionOf(w, Peer(w.sent[i].from)).Some?
  {
    var h, a: nat, b: nat :| Tied(w, h, a, b);
  }

  /**
    A replay opens nothing. It is refused exactly when its header is beyond the skip limit. The copying
    store then holds what it held; the aliasing one does unless the ratchet step came before the refusal.
   */
  lemma ReplayNeverOpens(w: World, i: nat)
    requires InRun(w) && i in w.delivered
    ensures i < |w.sent| && SessionOf(w, Peer(w.sent[i].from)).Some?
    ensures var m, p := w.sent[i].message, Peer(w.sent[i].from);
            var beyond := BeyondSkipLimit(SessionOf(w, p).value, m);
            && HandOver(w, i, m).outcome == Err(if beyond then TooManySkipped else DecryptionFailed)
            && (SessionOf(HandOver(w, i, m).world, p) != SessionOf(w, p)
                <==> LeavesTrace(w.aliasing, SessionOf(w, p).value, m))
  {
    ReceiverStands(w, i);
    var p := Peer(w.sent[i].from);
    var h, e := Stand(w, p);
    ReplayedOnSession(h, w.nextPair, w.sent, w.delivered, SessionOf(w, p).value, e, i, KeyPair(w.nextPair));
  }

  // ---- A replay on the live chain ----------------------------------------------------------------

  /** The envelope whose turn it is. */
  lemma NextOnChain(h: History, nextPair: PublicKey, sent: seq<Sent>, delivered: set<nat>, s: Session, e: nat, j: nat)
    requires Standing(h, nextPair, sent, delivered, s, e) && j < |sent| && sent[j].from == Peer(Owner(e))
    requires !NeedsRatchet(s, sent[j].message) && sent[j].message.sequenceNumber == s.receiveNumber
    ensures j !in delivered && HeaderId(sent[j].message) !in s.skipped
  {
    var x, n := PlaceOf(h, nextPair, sent, delivered, s, e, j);
    OnLiveChain(h, s, e, x);
    Disposition(h, nextPair, sent, delivered, s, e, j, x, n);
  }

  /** The replayed envelope and the next one do the same to the session. */
  lemma LiveSessions(h: History, nextPair: PublicKey, sent: seq<Sent>, delivered: set<nat>, s: Session, e: nat, i: nat,
                     j: nat, k: KeyPair)
    requires Standing(h, nextPair, sent, delivered, s, e) && i < |sent| && j < |sent|
    requires i in delivered && sent[i].from == Peer(Owner(e)) == sent[j].from
    requires !NeedsRatchet(s, sent[i].message) && !NeedsRatchet(s, sent[j].message)
    requires sent[j].message.sequenceNumber == s.receiveNumber
    ensures s.receiveChain.Some? && j !in delivered
    ensures Decrypt(s, sent[i].message, k) == Decryption(Consume(s), true, Err(DecryptionFailed))
    ensures Decrypt(s, sent[j].message, k).session == Consume(s) && Decrypt(s, sent[j].message, k).saved
  {
    var x, n := UsedPlace(h, nextPair, sent, delivered, s, e, i);
    SealedUnder(h, sent[i], x, n);
    LiveReplayed(h, s, e, sent[i].message, n, k);
    NextOnChain(h, nextPair, sent, delivered, s, e, j);
  }

  lemma SameHandOver(w: World, i: nat, j: nat)
    requires i < |w.sent| && j < |w.sent| && w.sent[i].from == w.sent[j].from && i in w.delivered
    requires SessionOf(w, Peer(w.sent[i].from)).Some?
    requires var s, k := SessionOf(w, Peer(w.sent[i].from)).value, KeyPair(w.nextPair);
             var c, d := Decrypt(s, w.sent[i].message, k), Decrypt(s, w.sent[j].message, k);
             c.saved && d.saved && c.session == d.session
    ensures HandOver(w, i, w.sent[i].message).world.(delivered := w.delivered + {j})
            == HandOver(w, j, w.sent[j].message).world
  {
  }

  lemma DeliveredDoesNotMatter(w: World, delivered: set<nat>, j: nat, m: EncryptedMessage)
    requires j < |w.sent|
    ensures HandOver(w.(delivered := delivered), j, m).outcome == HandOver(w, j, m).outcome
  {
  }

  /**
    A replay on the live chain uses up the key of the next envelope j, and nothing else: the run goes on
    exactly as if j had been delivered, so j is lost and the delivery theorem holds for all others.
   */
  lemma LiveReplayLosesTheNext(w: World, i: nat, j: nat)
    requires InRun(w) && i in w.delivered && i < |w.sent| && j < |w.sent| && w.sent[i].from == w.sent[j].from
    requires SessionOf(w, Peer(w.sent[i].from)).Some?
    requires var s := SessionOf(w, Peer(w.sent[i].from)).value;
             && s.remoteDh == Some(w.sent[i].message.ephemeral) == Some(w.sent[j].message.ephemeral)
             && w.sent[j].message.sequenceNumber == s.receiveNumber
    ensures j !in w.delivered
    ensures var v := HandOver(w, i, w.sent[i].message).world;
            && v.(delivered := w.delivered + {j}) == HandOver(w, j, w.sent[j].message).world
            && InRun(v.(delivered := w.delivered + {j}))
            && v.sent == w.sent && HandOver(v, j, w.sent[j].message).outcome.Err?
  {
    var p := Peer(w.sent[i].from);
    var h, e := Stand(w, p);
    LiveSessions(h, w.nextPair, w.sent, w.delivered, SessionOf(w, p).value, e, i, j, KeyPair(w.nextPair));
    SameHandOver(w, i, j);
    StepKeeps(w, Deliver(j));
    var v := HandOver(w, i, w.sent[i].message).world;
    ReplayNeverOpens(v.(delivered := w.delivered + {j}), j);
    DeliveredDoesNotMatter(v, w.delivered + {j}, j, w.sent[j].message);
  }

  /** A send of the other side and a hand-over do not interfere: so j may also be sent after the replay. */
  lemma ReplayThenSend(w: World, i: nat, text: string, context: Option<int>, nonce: nat)
    requires i < |w.sent| && w.bob.Some?
    ensures var q := w.sent[i].from;
            AfterSending(HandOver(w, i, w.sent[i].message).world, q, text, context, nonce)
            == HandOver(AfterSending(w, q, text, context, nonce), i, w.sent[i].message).world
  {
  }

  // ---- A replay on a finished chain --------------------------------------------------------------

  /** One derivation step: a root, and what is mixed into it. */
  datatype Mark = Mark(root: Key, dh: Shared)

  /** The key was derived through that step. */
  predicate Past(k: Key, mark: Mark) {
    match k
    case Master(_) => false
    case RootOf(root, dh) => Mark(root, dh) == mark || Past(root, mark)
    case ChainOf(root, dh) => Mark(root, dh) == mark || Past(root, mark)
    case NextChain(chain) => Past(chain, mark)
    case MessageKeyOf(chain) => Past(chain, mark)
  }

  lemma {:induction false} PastOfChain(chain: Key, n: nat, mark: Mark)
    ensures Past(ChainAt(chain, n), mark) == Past(chain, mark)
  {
    if n > 0 {
      PastOfChain(chain, n - 1, mark);
    }
  }

  /** Everything the session will derive lies past the mark; of its filed keys, all but the old ones do. */
  ghost predicate Off(s: Session, mark: Mark, filed: map<SkipId, Key>) {
    && Past(s.root, mark)
    && (s.sendChain.Some? && Past(s.sendChain.value, mark))
    && (s.receiveChain.Some? && Past(s.receiveChain.value, mark))
    && (forall id | id in s.skipped :: Past(s.skipped[id], mark) || (id in filed && s.skipped[id] == filed[id]))
  }

  /** Nothing of the session lies past the mark, and its ratchet pair is neither of the pair in the mark. */
  ghost predicate On(s: Session, mark: Mark, a: PublicKey, b: PublicKey) {
    && mark.dh == Agree(a, b) && s.localDh.publicKey != a && s.localDh.publicKey != b
    && !Past(s.root, mark)
    && (s.sendChain.Some? ==> !Past(s.sendChain.value, mark))
    && (s.receiveChain.Some? ==> !Past(s.receiveChain.value, mark))
    && (forall id | id in s.skipped :: !Past(s.skipped[id], mark))
  }

  lemma SkippedPast(s: Session, mark: Mark, until: int, id: SkipId)
    requires s.receiveChain.Some? && s.remoteDh.Some?
    requires id in SkippedRange(s.remoteDh.value, s.receiveChain.value, s.receiveNumber, until)
    ensures var range := SkippedRange(s.remoteDh.value, s.receiveChain.value, s.receiveNumber, until);
            Past(range[id], mark) == Past(s.receiveChain.value, mark)
  {
    PastOfChain(s.receiveChain.value, id.number - s.receiveNumber, mark);
  }

  lemma SkipOff(s: Session, mark: Mark, filed: map<SkipId, Key>, until: int)
    requires Off(s, mark, filed)
    ensures Off(Skip(s, until), mark, filed)
  {
    if s.remoteDh.Some? && until > s.receiveNumber {
      PastOfChain(s.receiveChain.value, until - s.receiveNumber, mark);
      forall id | id in SkippedRange(s.remoteDh.value, s.receiveChain.value, s.receiveNumber, until)
        ensures Past(SkippedRange(s.remoteDh.value, s.receiveChain.value, s.receiveNumber, until)[id], mark)
      {
        SkippedPast(s, mark, until, id);
      }
    }
  }

  lemma SkipOn(s: Session, mark: Mark, a: PublicKey, b: PublicKey, until: int)
    requires On(s, mark, a, b)
    ensures On(Skip(s, until), mark, a, b)
  {
    if s.receiveChain.Some? && s.remoteDh.Some? && until > s.receiveNumber {
      PastOfChain(s.receiveChain.value, until - s.receiveNumber, mark);
      forall id | id in SkippedRange(s.remoteDh.value, s.receiveChain.value, s.receiveNumber, until)
        ensures !Past(SkippedRange(s.remoteDh.value, s.receiveChain.value, s.receiveNumber, until)[id], mark)
      {
        SkippedPast(s, mark, until, id);
      }
    }
  }

  lemma OnChainOff(s: Session, mark: Mark, filed: map<SkipId, Key>, m: EncryptedMessage)
    requires Off(s, mark, filed)
    ensures Off(DecryptOnChain(s, m).session, mark, filed)
    ensures m.ciphertext.SecretBox? && !Past(m.ciphertext.key, mark) ==> DecryptOnChain(s, m).outcome.Err?
  {
    SkipOff(s, mark, filed, m.sequenceNumber);
  }

  lemma OnChainOn(s: Session, mark: Mark, a: PublicKey, b: PublicKey, m: EncryptedMessage)
    requires On(s, mark, a, b)
    ensures On(DecryptOnChain(s, m).session, mark, a, b)
    ensures m.ciphertext.SecretBox? && Past(m.ciphertext.key, mark) ==> DecryptOnChain(s, m).outcome.Err?
  {
    SkipOn(s, mark, a, b, m.sequenceNumber);
  }

  lemma RatchetOff(s: Session, mark: Mark, filed: map<SkipId, Key>, ephemeral: PublicKey, k: KeyPair)
    requires Off(s, mark, filed)
    ensures Off(DhRatchet(s, ephemeral, k), mark, filed)
  {
  }

  lemma OtherAgreement(x: PublicKey, y: PublicKey, a: PublicKey, b: PublicKey)
    requires x != a && x != b
    ensures Agree(x, y) != Agree(a, b)
  {
  }

  lemma RatchetOn(s: Session, mark: Mark, a: PublicKey, b: PublicKey, ephemeral: PublicKey, k: KeyPair)
    requires On(s, mark, a, b) && k.publicKey != a && k.publicKey != b
    ensures On(DhRatchet(s, ephemeral, k), mark, a, b)
  {
    OtherAgreement(s.localDh.publicKey, ephemeral, a, b);
    OtherAgreement(k.publicKey, ephemeral, a, b);
  }

  /** The side that is off opens nothing sealed before the mark, but for what it had on file. */
  lemma DecryptOff(s: Session, mark: Mark, filed: map<SkipId, Key>, m: EncryptedMessage, k: KeyPair)
    requires Off(s, mark, filed)
    ensures Off(Decrypt(s, m, k).session, mark, filed)
    ensures m.ciphertext.SecretBox? && !Past(m.ciphertext.key, mark) && Decrypt(s, m, k).outcome.Ok? ==>
            HeaderId(m) in filed
  {
    SkipOff(s, mark, filed, m.previousChainLength);
    RatchetOff(Skip(s, m.previousChainLength), mark, filed, m.ephemeral, k);
    OnChainOff(s, mark, filed, m);
    OnChainOff(DhRatchet(Skip(s, m.previousChainLength), m.ephemeral, k), mark, filed, m);
  }

  /** The side that is on opens nothing sealed past the mark. */
  lemma DecryptOn(s: Session, mark: Mark, a: PublicKey, b: PublicKey, m: EncryptedMessage, k: KeyPair)
    requires On(s, mark, a, b) && k.publicKey != a && k.publicKey != b
    ensures On(Decrypt(s, m, k).session, mark, a, b)
    ensures m.ciphertext.SecretBox? && Past(m.ciphertext.key, mark) ==> Decrypt(s, m, k).outcome.Err?
  {
    SkipOn(s, mark, a, b, m.previousChainLength);
    RatchetOn(Skip(s, m.previousChainLength), mark, a, b, m.ephemeral, k);
    OnChainOn(s, mark, a, b, m);
    OnChainOn(DhRatchet(Skip(s, m.previousChainLength), m.ephemeral, k), mark, a, b, m);
  }

  lemma SendOff(s: Session, mark: Mark, filed: map<SkipId, Key>, identity: PublicKey, text: string,
                context: Option<int>, nonce: nat)
    requires Off(s, mark, filed)
    ensures CanSend(s) && Off(AfterSend(s), mark, filed)
    ensures Past(Envelope(s, identity, text, context, nonce).ciphertext.key, mark)
  {
  }

  lemma SendOn(s: Session, mark: Mark, a: PublicKey, b: PublicKey, identity: PublicKey, text: string,
               context: Option<int>, nonce: nat)
    requires On(s, mark, a, b) && CanSend(s)
    ensures On(AfterSend(s), mark, a, b)
    ensures !Past(Envelope(s, identity, text, context, nonce).ciphertext.key, mark)
  {
    if s.sendChain.None? {
      OtherAgreement(s.localDh.publicKey, s.remoteDh.value, a, b);
    }
  }

  /** Party p has gone past the mark, and so have its boxes from position n on; nothing of the other party has. */
  ghost predicate Severed(w: World, p: Party, mark: Mark, a: PublicKey, b: PublicKey, filed: map<SkipId, Key>, n: nat) {
    && w.bob.Some? && a < w.nextPair && b < w.nextPair && n <= |w.sent|
    && Off(SessionOf(w, p).value, mark, filed)
    && On(SessionOf(w, Peer(p)).value, mark, a, b)
    && (forall j | 0 <= j < |w.sent| :: w.sent[j].message.ciphertext.SecretBox?)
    && (forall j | 0 <= j < |w.sent| && w.sent[j].from != p :: !Past(w.sent[j].message.ciphertext.key, mark))
    && (forall j | n <= j < |w.sent| && w.sent[j].from == p :: Past(w.sent[j].message.ciphertext.key, mark))
  }

  lemma SeveredOnHandOver(w: World, p: Party, mark: Mark, a: PublicKey, b: PublicKey, filed: map<SkipId, Key>, n: nat,
                          i: nat, m: EncryptedMessage)
    requires Severed(w, p, mark, a, b, filed, n) && i < |w.sent|
    ensures Severed(HandOver(w, i, m).world, p, mark, a, b, filed, n)
  {
    var k := KeyPair(w.nextPair);
    if w.sent[i].from == p {
      DecryptOn(SessionOf(w, Peer(p)).value, mark, a, b, m, k);
    } else {
      DecryptOff(SessionOf(w, p).value, mark, filed, m, k);
    }
  }

  lemma SeveredOnSend(w: World, p: Party, mark: Mark, a: PublicKey, b: PublicKey, filed: map<SkipId, Key>, n: nat,
                      from: Party, text: string, context: Option<int>, nonce: nat)
    requires Severed(w, p, mark, a, b, filed, n)
    ensures Severed(AfterSending(w, from, text, context, nonce), p, mark, a, b, filed, n)
  {
    var s := SessionOf(w, from).value;
    var identity := IdentityOf(w, from).publicKey;
    if from == p {
      SendOff(s, mark, filed, identity, text, context, nonce);
    } else if CanSend(s) {
      SendOn(s, mark, a, b, identity, text, context, nonce);
    }
  }

  lemma {:induction false} SeveredForGood(w: World, p: Party, mark: Mark, a: PublicKey, b: PublicKey,
                                        filed: map<SkipId, Key>, n: nat, steps: seq<Step>)
    requires Severed(w, p, mark, a, b, filed, n)
    ensures Severed(Everything(w, steps), p, mark, a, b, filed, n)
    decreases |steps|
  {
    if steps != [] {
      match steps[0] {
        case Send(from, text, context, nonce) =>
          SeveredOnSend(w, p, mark, a, b, filed, n, from, text, context, nonce);
        case Deliver(i) =>
          if i < |w.sent| {
            SeveredOnHandOver(w, p, mark, a, b, filed, n, i, w.sent[i].message);
          }
        case DeliverDamaged(i, c, nonce) =>
          if i < |w.sent| {
            SeveredOnHandOver(w, p, mark, a, b, filed, n, i, Damaged(w.sent[i].message, c, nonce));
          }
      }
      SeveredForGood(Anything(w, steps[0]), p, mark, a, b, filed, n, steps[1..]);
    }
  }

  /** What can still open: what the other side sent, of which p had the key on file, and what p had sent before. */
  lemma OpensWhenSevered(w: World, p: Party, mark: Mark, a: PublicKey, b: PublicKey, filed: map<SkipId, Key>, n: nat,
                         j: nat)
    requires Severed(w, p, mark, a, b, filed, n) && j < |w.sent| && HandOver(w, j, w.sent[j].message).outcome.Ok?
    ensures if w.sent[j].from == p then j < n else HeaderId(w.sent[j].message) in filed
  {
    var k := KeyPair(w.nextPair);
    if w.sent[j].from == p {
      DecryptOn(SessionOf(w, Peer(p)).value, mark, a, b, w.sent[j].message, k);
    } else {
      DecryptOff(SessionOf(w, p).value, mark, filed, w.sent[j].message, k);
    }
  }

  /** The lineage never takes the step from the root in hand with an old key of the other side. */
  lemma {:induction false} LineageStaysOn(h: History, nextPair: PublicKey, e: nat, x: nat, i: nat)
    requires SpineOk(h, nextPair) && e < |h.spine.keys| && x + 3 <= e && i <= |h.spine.keys|
    ensures !Past(RootAt(h.spine, i), Mark(RootAt(h.spine, e + 1), Agree(h.spine.keys[e], h.spine.keys[x])))
  {
    if i > 0 {
      LineageStaysOn(h, nextPair, e, x, i - 1);
      StepStaysOn(h, nextPair, e, x, i - 1);
    }
  }

  lemma StepStaysOn(h: History, nextPair: PublicKey, e: nat, x: nat, i: nat)
    requires SpineOk(h, nextPair) && e < |h.spine.keys| && x + 3 <= e && i < |h.spine.keys|
    ensures RootAt(h.spine, i) == RootAt(h.spine, e + 1) ==>
            Joint(h.spine, i) != Agree(h.spine.keys[e], h.spine.keys[x])
  {
    if RootAt(h.spine, i) == RootAt(h.spine, e + 1) {
      RootAtInjective(h.spine, i, e + 1);
      assert h.epochOf[h.spine.keys[e + 1]] == e + 1 && h.epochOf[h.spine.keys[x]] == x
             && h.epochOf[h.spine.keys[e]] == e;
    }
  }

  lemma ChainStaysOn(h: History, nextPair: PublicKey, e: nat, x: nat, y: nat, n: nat)
    requires SpineOk(h, nextPair) && e < |h.spine.keys| && x + 3 <= e && y < |h.spine.keys|
    ensures var mark := Mark(RootAt(h.spine, e + 1), Agree(h.spine.keys[e], h.spine.keys[x]));
            !Past(ChainAt(ChainStart(h.spine, y), n), mark) && !Past(MessageKeyAt(h.spine, y, n), mark)
  {
    var mark := Mark(RootAt(h.spine, e + 1), Agree(h.spine.keys[e], h.spine.keys[x]));
    LineageStaysOn(h, nextPair, e, x, y);
    StepStaysOn(h, nextPair, e, x, y);
    PastOfChain(ChainStart(h.spine, y), n, mark);
  }

  lemma TableOn(h: History, nextPair: PublicKey, delivered: set<nat>, t: Session, f: nat, e: nat, x: nat)
    requires SpineOk(h, nextPair) && TableOk(h, delivered, t.skipped, f, t.receiveNumber)
    requires e < |h.spine.keys| && x + 3 <= e
    ensures forall id | id in t.skipped ::
              !Past(t.skipped[id], Mark(RootAt(h.spine, e + 1), Agree(h.spine.keys[e], h.spine.keys[x])))
  {
    forall id | id in t.skipped
      ensures !Past(t.skipped[id], Mark(RootAt(h.spine, e + 1), Agree(h.spine.keys[e], h.spine.keys[x])))
    {
      assert Pending(h, delivered, f, t.receiveNumber, id);
      ChainStaysOn(h, nextPair, e, x, h.epochOf[id.ratchetKey], id.number);
    }
  }

  lemma ChainsOn(h: History, nextPair: PublicKey, t: Session, f: nat, e: nat, x: nat)
    requires SpineOk(h, nextPair) && ChainsOk(h, t, f) && e < |h.spine.keys| && x + 3 <= e
    ensures var mark := Mark(RootAt(h.spine, e + 1), Agree(h.spine.keys[e], h.spine.keys[x]));
            && !Past(t.root, mark)
            && (t.sendChain.Some? ==> !Past(t.sendChain.value, mark))
            && (t.receiveChain.Some? ==> !Past(t.receiveChain.value, mark))
  {
    LineageStaysOn(h, nextPair, e, x, if t.sendChain.None? then 1 else f + 1);
    ChainStaysOn(h, nextPair, e, x, f, t.sendNumber);
    if f > 0 {
      ChainStaysOn(h, nextPair, e, x, f - 1, t.receiveNumber);
    }
  }

  lemma KeysDiffer(h: History, nextPair: PublicKey, x: nat, y: nat)
    requires SpineOk(h, nextPair) && x < |h.spine.keys| && y < |h.spine.keys| && x != y
    ensures h.spine.keys[x] != h.spine.keys[y]
  {
    assert h.epochOf[h.spine.keys[x]] == x && h.epochOf[h.spine.keys[y]] == y;
  }

  /** The other side of the conversation, one epoch away. */
  lemma OtherSideOn(h: History, nextPair: PublicKey, delivered: set<nat>, t: Session, f: nat, e: nat, x: nat)
    requires SpineOk(h, nextPair) && SessionOk(h, delivered, t, f) && Neighbours(h, e, f) && x + 3 <= e
    ensures var a, b := h.spine.keys[e], h.spine.keys[x];
            On(t, Mark(RootAt(h.spine, e + 1), Agree(a, b)), a, b)
  {
    ChainsOn(h, nextPair, t, f, e, x);
    TableOn(h, nextPair, delivered, t, f, e, x);
    KeysDiffer(h, nextPair, f, e);
    KeysDiffer(h, nextPair, f, x);
  }

  /** The session that ratchets onto an old key. */
  lemma ReplayGoesOff(h: History, s: Session, e: nat, m: EncryptedMessage, x: nat, n: nat, k: KeyPair)
    requires ChainsOk(h, s, e) && x + 3 <= e && m.ephemeral == h.spine.keys[x]
    ensures var t := Skip(DhRatchet(Skip(s, m.previousChainLength), m.ephemeral, k), n);
            var mark := Mark(RootAt(h.spine, e + 1), Agree(h.spine.keys[e], h.spine.keys[x]));
            && t.receiveChain.Some? && Off(Consume(t), mark, Skip(s, m.previousChainLength).skipped)
            && Off(DhRatchet(Skip(s, m.previousChainLength), m.ephemeral, k), mark,
                   Skip(s, m.previousChainLength).skipped)
  {
    var mark := Mark(RootAt(h.spine, e + 1), Agree(h.spine.keys[e], h.spine.keys[x]));
    var u := DhRatchet(Skip(s, m.previousChainLength), m.ephemeral, k);
    assert Off(u, mark, u.skipped);
    SkipOff(u, mark, u.skipped, n);
  }

  /** The keys that stay good for the receiver: those on file once the finished part of its live chain is filed. */
  function StillGood(w: World, i: nat): map<SkipId, Key>
    requires i < |w.sent| && SessionOf(w, Peer(w.sent[i].from)).Some?
  {
    Skip(SessionOf(w, Peer(w.sent[i].from)).value, w.sent[i].message.previousChainLength).skipped
  }

  lemma FinishedReplaySevers(w: World, h: History, p: Party, s: Session, e: nat, t: Session, f: nat, i: nat)
    requires LogOk(w, h) && w.bob.Some? && SessionOf(w, p) == Some(s) && SessionOf(w, Peer(p)) == Some(t)
    requires SessionOk(h, w.delivered, s, e) && SessionOk(h, w.delivered, t, f) && Neighbours(h, e, f) && Owner(e) == p
    requires i < |w.sent| && i in w.delivered && w.sent[i].from == Peer(p)
    requires NeedsRatchet(s, w.sent[i].message) && LeavesTrace(w.aliasing, s, w.sent[i].message)
    ensures var a, b := s.localDh.publicKey, w.sent[i].message.ephemeral;
            Severed(HandOver(w, i, w.sent[i].message).world, p, Mark(s.root, Agree(a, b)), a, b, StillGood(w, i),
                    |w.sent|)
  {
    var m := w.sent[i].message;
    var x, n := UsedPlace(h, w.nextPair, w.sent, w.delivered, s, e, i);
    SealedUnder(h, w.sent[i], x, n);
    if !BeyondSkipLimit(s, m) {
      FinishedReplayed(h, s, e, m, x, n, KeyPair(w.nextPair));
    }
    ReplayGoesOff(h, s, e, m, x, n, KeyPair(w.nextPair));
    OtherSideOn(h, w.nextPair, w.delivered, t, f, e, x);
    forall j | 0 <= j < |w.sent|
      ensures w.sent[j].message.ciphertext.SecretBox?
      ensures !Past(w.sent[j].message.ciphertext.key,
                    Mark(RootAt(h.spine, e + 1), Agree(h.spine.keys[e], h.spine.keys[x])))
    {
      var y, k := PlaceOf(h, w.nextPair, w.sent, w.delivered, s, e, j);
      ChainStaysOn(h, w.nextPair, e, x, y, k);
    }
  }

  lemma SeveredByReplay(w: World, i: nat)
    requires InRun(w) && i in w.delivered && i < |w.sent| && SessionOf(w, Peer(w.sent[i].from)).Some?
    requires var s := SessionOf(w, Peer(w.sent[i].from)).value;
             NeedsRatchet(s, w.sent[i].message) && LeavesTrace(w.aliasing, s, w.sent[i].message)
    ensures var s, b := SessionOf(w, Peer(w.sent[i].from)).value, w.sent[i].message.ephemeral;
            var a := s.localDh.publicKey;
            Severed(HandOver(w, i, w.sent[i].message).world, Peer(w.sent[i].from), Mark(s.root, Agree(a, b)), a, b,
                    StillGood(w, i), |w.sent|)
  {
    var p := Peer(w.sent[i].from);
    UsedMeansOpened(w);
    var h, e, f := StandBoth(w, p);
    FinishedReplaySevers(w, h, p, SessionOf(w, p).value, e, SessionOf(w, Peer(p)).value, f, i);
  }

  /**
    A replay on a finished chain that leaves a trace ends the conversation, on either store. Whatever is
    sent, delivered, replayed or damaged afterwards, nothing its receiver sends opens, and nothing opens at the receiver
    but envelopes whose key it had on file.
   */
  lemma FinishedReplayIsFatal(w: World, i: nat, steps: seq<Step>, j: nat)
    requires InRun(w) && i in w.delivered && i < |w.sent| && SessionOf(w, Peer(w.sent[i].from)).Some?
    requires var s := SessionOf(w, Peer(w.sent[i].from)).value;
             NeedsRatchet(s, w.sent[i].message) && LeavesTrace(w.aliasing, s, w.sent[i].message)
    ensures var v := Everything(HandOver(w, i, w.sent[i].message).world, steps);
            j < |v.sent| && HandOver(v, j, v.sent[j].message).outcome.Ok? ==>
              if v.sent[j].from == Peer(w.sent[i].from) then j < |w.sent|
                else HeaderId(v.sent[j].message) in StillGood(w, i)
  {
    var p, s := Peer(w.sent[i].from), SessionOf(w, Peer(w.sent[i].from)).value;
    var a, b := s.localDh.publicKey, w.sent[i].message.ephemeral;
    var after := HandOver(w, i, w.sent[i].message).world;
    SeveredByReplay(w, i);
    SeveredForGood(after, p, Mark(s.root, Agree(a, b)), a, b, StillGood(w, i), |w.sent|, steps);
    var v := Everything(after, steps);
    if j < |v.sent| && HandOver(v, j, v.sent[j].message).outcome.Ok? {
      OpensWhenSevered(v, p, Mark(s.root, Agree(a, b)), a, b, StillGood(w, i), |w.sent|, j);
    }
  }
}
