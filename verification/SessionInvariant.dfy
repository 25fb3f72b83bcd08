/**
  The invariant tying one session to the lineage of its conversation, and what each engine
  operation does to it.
 */
module SessionInvariant {
  import opened Wrappers
  import opened SymbolicCrypto
  import opened Ratchet
  import opened Protocol
  import opened Lineage

  /**
    Where everything of a run lies on the lineage: the epoch each ratchet key opened, and for each
    epoch the positions, in the log of sent envelopes, of its envelopes number 0, 1, 2, ...
   */
  datatype History = History(spine: Spine, epochOf: map<PublicKey, nat>, index: seq<seq<nat>>)

  /** Alice opens the even epochs, Bob the odd ones. */
  function Owner(e: nat): Party {
    if e % 2 == 0 then Alice else Bob
  }

  predicate Opposite(x: nat, e: nat) {
    (x + e) % 2 == 1
  }

  /** How many numbers of epoch x a party in epoch e has passed when its own counter stands at nr. */
  function Limit(index: seq<seq<nat>>, e: nat, nr: nat, x: nat): nat {
    if x + 1 == e then nr else if x + 1 < e && x < |index| then |index[x]| else 0
  }

  ghost predicate SpineOk(h: History, nextPair: PublicKey) {
    && h.spine.master.Master?
    && h.spine.keys != []
    && |h.index| == |h.spine.keys|
    && h.spine.base < nextPair
    && h.spine.base !in h.epochOf
    && (forall e | 0 <= e < |h.spine.keys| ::
          h.spine.keys[e] < nextPair && h.spine.keys[e] in h.epochOf && h.epochOf[h.spine.keys[e]] == e)
    && (forall k | k in h.epochOf :: h.epochOf[k] < |h.spine.keys| && h.spine.keys[h.epochOf[k]] == k)
  }

  predicate Passed(h: History, e: nat, nr: nat, id: SkipId) {
    && id.ratchetKey in h.epochOf
    && Opposite(h.epochOf[id.ratchetKey], e)
    && 0 <= id.number < Limit(h.index, e, nr, h.epochOf[id.ratchetKey])
  }

  /** The envelope id names has been passed but not used. */
  predicate Pending(h: History, delivered: set<nat>, e: nat, nr: nat, id: SkipId) {
    && Passed(h, e, nr, id)
    && h.epochOf[id.ratchetKey] < |h.index|
    && id.number < |h.index[h.epochOf[id.ratchetKey]]|
    && h.index[h.epochOf[id.ratchetKey]][id.number] !in delivered
  }

  /** The skipped-key table holds exactly the pending envelopes, each under the sender's own key. */
  ghost predicate TableOk(h: History, delivered: set<nat>, table: map<SkipId, Key>, e: nat, nr: nat)
    requires |h.index| == |h.spine.keys|
  {
    && (forall id :: id in table <==> Pending(h, delivered, e, nr, id))
    && (forall id | id in table :: table[id] == MessageKeyAt(h.spine, h.epochOf[id.ratchetKey], id.number))
  }

  /** Nothing beyond a party's counters has been used. */
  ghost predicate DeliveredOk(h: History, delivered: set<nat>, e: nat, nr: nat) {
    forall x: nat, n: nat | x < |h.index| && n < |h.index[x]| && Opposite(x, e) && h.index[x][n] in delivered ::
      n < Limit(h.index, e, nr, x)
  }

  /** The keys and counters of a session whose party is in epoch e. */
  predicate ChainsOk(h: History, s: Session, e: nat) {
    && e < |h.spine.keys| == |h.index|
    && s.localDh.publicKey == h.spine.keys[e]
    && s.remoteDh == Some(Answered(h.spine, e))
    && s.sendNumber == |h.index[e]|
    && s.previousChainLength == (if e >= 2 then |h.index[e - 2]| else 0)
    && (if s.sendChain.None? then e == 1 && s.sendNumber == 0 && s.root == RootAt(h.spine, 1)
        else s.root == RootAt(h.spine, e + 1) && s.sendChain == Some(ChainAt(ChainStart(h.spine, e), s.sendNumber)))
    && (if e == 0 then s.receiveChain.None? && s.receiveNumber == 0
        else
          && s.receiveNumber <= |h.index[e - 1]|
          && s.receiveChain == Some(ChainAt(ChainStart(h.spine, e - 1), s.receiveNumber)))
    && (e >= 2 ==> |h.index[e - 1]| > 0)
  }

  ghost predicate SessionOk(h: History, delivered: set<nat>, s: Session, e: nat) {
    && ChainsOk(h, s, e)
    && TableOk(h, delivered, s.skipped, e, s.receiveNumber)
    && DeliveredOk(h, delivered, e, s.receiveNumber)
  }

  // ---- Operations on the receiving side --------------------------------------------------------

  /** skipMessageKeys within the peer's count moves the counter and files exactly what it passes. */
  lemma SkipKeeps(h: History, nextPair: PublicKey, delivered: set<nat>, s: Session, e: nat, until: nat)
    requires SpineOk(h, nextPair) && SessionOk(h, delivered, s, e)
    requires e >= 1 && s.receiveNumber <= until <= |h.index[e - 1]|
    ensures SessionOk(h, delivered, Skip(s, until), e)
    ensures Skip(s, until).receiveNumber == until
    ensures Skip(s, until).(receiveChain := s.receiveChain, receiveNumber := s.receiveNumber, skipped := s.skipped) == s
  {
    var t := Skip(s, until);
    var start := ChainStart(h.spine, e - 1);
    ChainAtAdds(start, s.receiveNumber, until - s.receiveNumber);
    forall id
      ensures id in t.skipped <==> Pending(h, delivered, e, until, id)
    {
      SkippedEntry(h, nextPair, delivered, s, e, until, id);
    }
    forall id | id in t.skipped
      ensures t.skipped[id] == MessageKeyAt(h.spine, h.epochOf[id.ratchetKey], id.number)
    {
      SkippedEntry(h, nextPair, delivered, s, e, until, id);
    }
  }

  lemma SkippedEntry(h: History, nextPair: PublicKey, delivered: set<nat>, s: Session, e: nat, until: nat, id: SkipId)
    requires SpineOk(h, nextPair) && SessionOk(h, delivered, s, e)
    requires e >= 1 && s.receiveNumber <= until <= |h.index[e - 1]|
    ensures id in Skip(s, until).skipped <==> Pending(h, delivered, e, until, id)
    ensures id in Skip(s, until).skipped ==>
              Skip(s, until).skipped[id] == MessageKeyAt(h.spine, h.epochOf[id.ratchetKey], id.number)
  {
    assert h.epochOf[h.spine.keys[e - 1]] == e - 1;
    if id.ratchetKey == h.spine.keys[e - 1] && s.receiveNumber <= id.number < until {
      NewlySkipped(h, delivered, s, e, until, id.number);
    } else {
      PendingUnmoved(h, nextPair, delivered, e, s.receiveNumber, until, id);
      OldEntry(h, delivered, s, e, until, id);
    }
  }

  lemma PendingUnmoved(h: History, nextPair: PublicKey, delivered: set<nat>, e: nat, nr: nat, until: nat, id: SkipId)
    requires SpineOk(h, nextPair) && 1 <= e <= |h.spine.keys| && nr <= until
    requires !(id.ratchetKey == h.spine.keys[e - 1] && nr <= id.number < until)
    ensures Pending(h, delivered, e, until, id) == Pending(h, delivered, e, nr, id)
  {
    if id.ratchetKey in h.epochOf {
      assert h.spine.keys[h.epochOf[id.ratchetKey]] == id.ratchetKey;
    }
  }

  lemma OldEntry(h: History, delivered: set<nat>, s: Session, e: nat, until: nat, id: SkipId)
    requires ChainsOk(h, s, e) && TableOk(h, delivered, s.skipped, e, s.receiveNumber)
    requires e >= 1 && !(id.ratchetKey == h.spine.keys[e - 1] && s.receiveNumber <= id.number < until)
    ensures id in Skip(s, until).skipped <==> Pending(h, delivered, e, s.receiveNumber, id)
    ensures id in Skip(s, until).skipped ==>
              Skip(s, until).skipped[id] == MessageKeyAt(h.spine, h.epochOf[id.ratchetKey], id.number)
  {
    assert id in Skip(s, until).skipped <==> id in s.skipped;
  }

  lemma NewlySkipped(h: History, delivered: set<nat>, s: Session, e: nat, until: nat, n: nat)
    requires ChainsOk(h, s, e) && DeliveredOk(h, delivered, e, s.receiveNumber)
    requires e >= 1 && s.receiveNumber <= n < until <= |h.index[e - 1]|
    requires h.spine.keys[e - 1] in h.epochOf && h.epochOf[h.spine.keys[e - 1]] == e - 1
    ensures var id := SkipId(h.spine.keys[e - 1], n);
            && Pending(h, delivered, e, until, id)
            && id in Skip(s, until).skipped
            && Skip(s, until).skipped[id] == MessageKeyAt(h.spine, e - 1, n)
  {
    ChainAtAdds(ChainStart(h.spine, e - 1), s.receiveNumber, n - s.receiveNumber);
    assert h.index[e - 1][n] !in delivered;
  }

  // ---- The log of sent envelopes ---------------------------------------------------------------

  /** Envelope number n of epoch x, as its header and box must read. */
  predicate EnvelopeAt(h: History, envelope: Sent, x: nat, n: nat) {
    var m := envelope.message;
    && envelope.from == Owner(x)
    && x < |h.spine.keys| == |h.index|
    && m.ephemeral == h.spine.keys[x]
    && m.initialEphemeral == Some(h.spine.keys[x])
    && m.sequenceNumber == n
    && m.previousChainLength == (if x >= 2 then |h.index[x - 2]| else 0)
    && m.ciphertext == SecretBox(MessageKeyAt(h.spine, x, n), m.nonce, envelope.text)
  }

  ghost predicate IndexOk(h: History, sent: seq<Sent>) {
    && (forall x: nat, n: nat | x < |h.index| && n < |h.index[x]| ::
          h.index[x][n] < |sent| && EnvelopeAt(h, sent[h.index[x][n]], x, n))
    && (forall i | 0 <= i < |sent| :: Located(h, sent[i].message, i))
  }

  predicate Located(h: History, m: EncryptedMessage, i: nat) {
    && m.ephemeral in h.epochOf
    && h.epochOf[m.ephemeral] < |h.index|
    && 0 <= m.sequenceNumber < |h.index[h.epochOf[m.ephemeral]]|
    && h.index[h.epochOf[m.ephemeral]][m.sequenceNumber] == i
  }

  lemma IndexInjective(h: History, nextPair: PublicKey, sent: seq<Sent>,
                       x: nat, n: nat, y: nat, m: nat)
    requires SpineOk(h, nextPair) && IndexOk(h, sent)
    requires x < |h.index| && n < |h.index[x]| && y < |h.index| && m < |h.index[y]|
    requires h.index[x][n] == h.index[y][m]
    ensures x == y && n == m
  {
    assert EnvelopeAt(h, sent[h.index[x][n]], x, n);
    assert EnvelopeAt(h, sent[h.index[y][m]], y, m);
    assert h.epochOf[h.spine.keys[x]] == x && h.epochOf[h.spine.keys[y]] == y;
  }

  // ---- Using up an envelope --------------------------------------------------------------------

  lemma MarkDelivered(h: History, nextPair: PublicKey, sent: seq<Sent>,
                      delivered: set<nat>, e: nat, nr: nat, x: nat, n: nat, id: SkipId)
    requires SpineOk(h, nextPair) && IndexOk(h, sent)
    requires x < |h.index| && n < |h.index[x]|
    ensures Pending(h, delivered + {h.index[x][n]}, e, nr, id)
            == (Pending(h, delivered, e, nr, id) && id != SkipId(h.spine.keys[x], n))
  {
    if Pending(h, delivered, e, nr, id) {
      var y := h.epochOf[id.ratchetKey];
      assert h.spine.keys[y] == id.ratchetKey;
      if h.index[y][id.number] == h.index[x][n] {
        IndexInjective(h, nextPair, sent, y, id.number, x, n);
      }
      assert h.epochOf[h.spine.keys[x]] == x;
    }
  }

  /** Using up an envelope that is not filed: the table stays as it is when the counter moves past it. */
  lemma ConsumeTable(h: History, nextPair: PublicKey, sent: seq<Sent>,
                     delivered: set<nat>, table: map<SkipId, Key>, e: nat, n: nat)
    requires SpineOk(h, nextPair) && IndexOk(h, sent) && TableOk(h, delivered, table, e, n)
    requires 1 <= e <= |h.index| && n < |h.index[e - 1]|
    ensures TableOk(h, delivered + {h.index[e - 1][n]}, table, e, n + 1)
  {
    forall id
      ensures id in table <==> Pending(h, delivered + {h.index[e - 1][n]}, e, n + 1, id)
    {
      MarkDelivered(h, nextPair, sent, delivered, e, n + 1, e - 1, n, id);
      assert id in table <==> Pending(h, delivered, e, n, id);
      assert h.epochOf[h.spine.keys[e - 1]] == e - 1;
    }
  }

  lemma DeliveredGrows(h: History, nextPair: PublicKey, sent: seq<Sent>,
                       delivered: set<nat>, e: nat, nr: nat, nr': nat, x: nat, n: nat)
    requires SpineOk(h, nextPair) && IndexOk(h, sent) && DeliveredOk(h, delivered, e, nr)
    requires nr <= nr' && x < |h.index| && n < |h.index[x]| && (Opposite(x, e) ==> n < Limit(h.index, e, nr', x))
    ensures DeliveredOk(h, delivered + {h.index[x][n]}, e, nr')
  {
    var used := delivered + {h.index[x][n]};
    forall y: nat, m: nat | y < |h.index| && m < |h.index[y]| && Opposite(y, e) && h.index[y][m] in used
      ensures m < Limit(h.index, e, nr', y)
    {
      if h.index[y][m] == h.index[x][n] {
        IndexInjective(h, nextPair, sent, y, m, x, n);
      }
    }
  }

  /** One symmetric step uses up the envelope the counter stood at. */
  lemma ConsumeKeeps(h: History, nextPair: PublicKey, sent: seq<Sent>,
                     delivered: set<nat>, s: Session, e: nat)
    requires SpineOk(h, nextPair) && IndexOk(h, sent) && SessionOk(h, delivered, s, e)
    requires e >= 1 && s.receiveNumber < |h.index[e - 1]|
    ensures s.receiveChain.Some?
    ensures MessageKeyOf(s.receiveChain.value) == MessageKeyAt(h.spine, e - 1, s.receiveNumber)
    ensures SessionOk(h, delivered + {h.index[e - 1][s.receiveNumber]}, Consume(s), e)
  {
    ConsumeTable(h, nextPair, sent, delivered, s.skipped, e, s.receiveNumber);
    DeliveredGrows(h, nextPair, sent, delivered, e, s.receiveNumber, s.receiveNumber + 1, e - 1, s.receiveNumber);
  }

  /** Taking a filed key uses up exactly the envelope it was filed for. */
  lemma TakeKeeps(h: History, nextPair: PublicKey, sent: seq<Sent>,
                  delivered: set<nat>, s: Session, e: nat, x: nat, n: nat)
    requires SpineOk(h, nextPair) && IndexOk(h, sent) && SessionOk(h, delivered, s, e)
    requires x < |h.index| && n < |h.index[x]| && SkipId(h.spine.keys[x], n) in s.skipped
    ensures SessionOk(h, delivered + {h.index[x][n]}, TakeSkipped(s, SkipId(h.spine.keys[x], n)), e)
  {
    var taken := SkipId(h.spine.keys[x], n);
    var t := TakeSkipped(s, taken);
    var used := delivered + {h.index[x][n]};
    assert Pending(h, delivered, e, s.receiveNumber, taken);
    assert h.epochOf[h.spine.keys[x]] == x;
    forall id
      ensures id in t.skipped <==> Pending(h, used, e, s.receiveNumber, id)
    {
      MarkDelivered(h, nextPair, sent, delivered, e, s.receiveNumber, x, n, id);
      assert id in s.skipped <==> Pending(h, delivered, e, s.receiveNumber, id);
    }
    DeliveredGrows(h, nextPair, sent, delivered, e, s.receiveNumber, s.receiveNumber, x, n);
  }

  /** What one side uses up means nothing to the session of the side that sent it. */
  lemma SenderUntouched(h: History, nextPair: PublicKey, sent: seq<Sent>,
                        delivered: set<nat>, s: Session, e: nat, x: nat, n: nat)
    requires SpineOk(h, nextPair) && IndexOk(h, sent) && SessionOk(h, delivered, s, e)
    requires x < |h.index| && n < |h.index[x]| && !Opposite(x, e)
    ensures SessionOk(h, delivered + {h.index[x][n]}, s, e)
  {
    var used := delivered + {h.index[x][n]};
    forall id
      ensures id in s.skipped <==> Pending(h, used, e, s.receiveNumber, id)
    {
      MarkDelivered(h, nextPair, sent, delivered, e, s.receiveNumber, x, n, id);
      assert id in s.skipped <==> Pending(h, delivered, e, s.receiveNumber, id);
      assert h.epochOf[h.spine.keys[x]] == x;
    }
    DeliveredGrows(h, nextPair, sent, delivered, e, s.receiveNumber, s.receiveNumber, x, n);
  }

  // ---- Opening an epoch ------------------------------------------------------------------------

  function Grown(h: History, k: PublicKey): History {
    History(Extend(h.spine, k), h.epochOf[k := |h.spine.keys|], h.index + [[]])
  }

  lemma GrownSpineOk(h: History, nextPair: PublicKey, k: PublicKey)
    requires SpineOk(h, nextPair) && k >= nextPair
    ensures SpineOk(Grown(h, k), k + 1)
  {
    var g := Grown(h, k);
    forall e | 0 <= e < |g.spine.keys|
      ensures g.spine.keys[e] < k + 1 && g.spine.keys[e] in g.epochOf && g.epochOf[g.spine.keys[e]] == e
    {
      if e < |h.spine.keys| {
        assert g.spine.keys[e] == h.spine.keys[e];
      }
    }
  }

  lemma GrownIndexOk(h: History, nextPair: PublicKey, k: PublicKey, sent: seq<Sent>)
    requires SpineOk(h, nextPair) && k >= nextPair && IndexOk(h, sent)
    ensures IndexOk(Grown(h, k), sent)
  {
    var g := Grown(h, k);
    ChainStartKept(h.spine, k);
    forall x: nat, n: nat | x < |g.index| && n < |g.index[x]|
      ensures g.index[x][n] < |sent| && EnvelopeAt(g, sent[g.index[x][n]], x, n)
    {
      assert x < |h.index| && g.index[x] == h.index[x];
      assert EnvelopeAt(h, sent[h.index[x][n]], x, n);
    }
    forall i | 0 <= i < |sent|
      ensures Located(g, sent[i].message, i)
    {
      assert Located(h, sent[i].message, i);
      var x := h.epochOf[sent[i].message.ephemeral];
      assert h.spine.keys[x] == sent[i].message.ephemeral;
    }
  }

  /** Opening a further epoch changes nothing for a session that has not moved. */
  lemma GrownKeeps(h: History, nextPair: PublicKey, k: PublicKey, delivered: set<nat>, s: Session, e: nat)
    requires SpineOk(h, nextPair) && k >= nextPair && SessionOk(h, delivered, s, e)
    ensures SessionOk(Grown(h, k), delivered, s, e)
  {
    var g := Grown(h, k);
    ChainStartKept(h.spine, k);
    RootAtKept(h.spine, k, e + 1);
    forall id
      ensures id in s.skipped <==> Pending(g, delivered, e, s.receiveNumber, id)
      ensures id in s.skipped ==> s.skipped[id] == MessageKeyAt(g.spine, g.epochOf[id.ratchetKey], id.number)
    {
      assert id in s.skipped <==> Pending(h, delivered, e, s.receiveNumber, id);
      if id.ratchetKey in h.epochOf {
        assert h.spine.keys[h.epochOf[id.ratchetKey]] == id.ratchetKey;
      }
    }
    forall x: nat, n: nat | x < |g.index| && n < |g.index[x]| && Opposite(x, e) && g.index[x][n] in delivered
      ensures n < Limit(g.index, e, s.receiveNumber, x)
    {
      assert x < |h.index| && g.index[x] == h.index[x];
    }
  }

  lemma RatchetChains(h: History, nextPair: PublicKey, k: PublicKey, s: Session, e: nat)
    requires SpineOk(h, nextPair) && k >= nextPair && ChainsOk(h, s, e)
    requires |h.spine.keys| == e + 2 && |h.index[e + 1]| > 0
    requires s.sendChain.Some?
    ensures ChainsOk(Grown(h, k), DhRatchet(s, h.spine.keys[e + 1], KeyPair(k)), e + 2)
  {
    var g := Grown(h, k);
    RootAtKept(h.spine, k, e + 1);
    assert Joint(g.spine, e + 1) == ScalarMult(s.localDh, h.spine.keys[e + 1]);
    assert Joint(g.spine, e + 2) == ScalarMult(KeyPair(k), h.spine.keys[e + 1]);
    assert RootAt(g.spine, e + 2) == RootOf(RootAt(g.spine, e + 1), Joint(g.spine, e + 1));
    assert RootAt(g.spine, e + 3) == RootOf(RootAt(g.spine, e + 2), Joint(g.spine, e + 2));
  }

  /** Once the peer's finished chain has been passed to its end, moving on two epochs passes nothing more. */
  lemma PassedOverRatchet(h: History, nextPair: PublicKey, k: PublicKey, delivered: set<nat>, e: nat, nr: nat,
                          id: SkipId)
    requires SpineOk(h, nextPair) && k >= nextPair
    requires |h.spine.keys| == e + 2
    requires if e >= 1 then nr == |h.index[e - 1]| else nr == 0
    ensures Pending(Grown(h, k), delivered, e + 2, 0, id) == Pending(h, delivered, e, nr, id)
  {
    var g := Grown(h, k);
    if id.ratchetKey in g.epochOf {
      var x := g.epochOf[id.ratchetKey];
      assert Opposite(x, e + 2) == Opposite(x, e);
      if id.ratchetKey in h.epochOf {
        assert h.spine.keys[x] == id.ratchetKey;
        assert Opposite(x, e) ==> Limit(g.index, e + 2, 0, x) == Limit(h.index, e, nr, x);
      }
    }
  }

  lemma RatchetTable(h: History, nextPair: PublicKey, k: PublicKey, delivered: set<nat>, table: map<SkipId, Key>,
                     e: nat, nr: nat)
    requires SpineOk(h, nextPair) && k >= nextPair && TableOk(h, delivered, table, e, nr)
    requires |h.spine.keys| == e + 2
    requires if e >= 1 then nr == |h.index[e - 1]| else nr == 0
    ensures TableOk(Grown(h, k), delivered, table, e + 2, 0)
  {
    ChainStartKept(h.spine, k);
    forall id
      ensures id in table <==> Pending(Grown(h, k), delivered, e + 2, 0, id)
    {
      PassedOverRatchet(h, nextPair, k, delivered, e, nr, id);
      assert id in table <==> Pending(h, delivered, e, nr, id);
    }
    forall id | id in table
      ensures table[id] == MessageKeyAt(Grown(h, k).spine, Grown(h, k).epochOf[id.ratchetKey], id.number)
    {
      assert Pending(h, delivered, e, nr, id);
      assert h.spine.keys[h.epochOf[id.ratchetKey]] == id.ratchetKey;
    }
  }

  lemma RatchetDelivered(h: History, k: PublicKey, delivered: set<nat>, e: nat, nr: nat)
    requires |h.index| == e + 2 && DeliveredOk(h, delivered, e, nr)
    requires e >= 1 ==> nr == |h.index[e - 1]|
    ensures DeliveredOk(Grown(h, k), delivered, e + 2, 0)
  {
    var g := Grown(h, k);
    forall x: nat, n: nat | x < |g.index| && n < |g.index[x]| && Opposite(x, e + 2) && g.index[x][n] in delivered
      ensures n < Limit(g.index, e + 2, 0, x)
    {
      assert x < |h.index| && g.index[x] == h.index[x];
      assert Opposite(x, e);
    }
  }

  /**
    dhRatchetStep, once the finished chain has been skipped to its announced end, lands two epochs
    further on the shared lineage.
   */
  lemma RatchetKeeps(h: History, nextPair: PublicKey, k: PublicKey, delivered: set<nat>, s: Session, e: nat)
    requires SpineOk(h, nextPair) && k >= nextPair && SessionOk(h, delivered, s, e)
    requires |h.spine.keys| == e + 2 && |h.index[e + 1]| > 0
    requires s.sendChain.Some?
    requires e >= 1 ==> s.receiveNumber == |h.index[e - 1]|
    ensures SessionOk(Grown(h, k), delivered, DhRatchet(s, h.spine.keys[e + 1], KeyPair(k)), e + 2)
  {
    RatchetChains(h, nextPair, k, s, e);
    RatchetTable(h, nextPair, k, delivered, s.skipped, e, s.receiveNumber);
    RatchetDelivered(h, k, delivered, e, s.receiveNumber);
  }

  // ---- Sending ---------------------------------------------------------------------------------

  function Logged(h: History, e: nat, i: nat): History
    requires e < |h.index|
  {
    h.(index := h.index[e := h.index[e] + [i]])
  }

  /** The lazy first send chain is the start of the chain of epoch 1. */
  lemma WithSendChainKeeps(h: History, nextPair: PublicKey, delivered: set<nat>, s: Session, e: nat)
    requires SpineOk(h, nextPair) && SessionOk(h, delivered, s, e)
    ensures CanSend(s)
    ensures SessionOk(h, delivered, WithSendChain(s), e) && WithSendChain(s).sendChain.Some?
  {
  }

  lemma SendKeeps(h: History, nextPair: PublicKey, delivered: set<nat>, s: Session, e: nat, i: nat)
    requires SpineOk(h, nextPair) && SessionOk(h, delivered, s, e)
    requires |h.spine.keys| <= e + 2
    ensures CanSend(s)
    ensures SessionOk(Logged(h, e, i), delivered, AfterSend(s), e)
  {
    WithSendChainKeeps(h, nextPair, delivered, s, e);
    OthersKept(h, nextPair, delivered, s, e, e, i);
  }

  /** Logging an envelope of the own or of a later epoch leaves the receiving side as it was. */
  lemma OthersKept(h: History, nextPair: PublicKey, delivered: set<nat>, s: Session, e: nat, x: nat, i: nat)
    requires SpineOk(h, nextPair) && TableOk(h, delivered, s.skipped, e, s.receiveNumber)
    requires DeliveredOk(h, delivered, e, s.receiveNumber)
    requires e <= x + 1 && x < |h.index| && (Opposite(x, e) ==> i !in delivered)
    requires e >= 1 && x == e - 1 ==> s.receiveNumber <= |h.index[x]|
    ensures TableOk(Logged(h, x, i), delivered, s.skipped, e, s.receiveNumber)
    ensures DeliveredOk(Logged(h, x, i), delivered, e, s.receiveNumber)
  {
    var g := Logged(h, x, i);
    forall id
      ensures id in s.skipped <==> Pending(g, delivered, e, s.receiveNumber, id)
    {
      assert id in s.skipped <==> Pending(h, delivered, e, s.receiveNumber, id);
    }
    forall y: nat, n: nat | y < |g.index| && n < |g.index[y]| && Opposite(y, e) && g.index[y][n] in delivered
      ensures n < Limit(g.index, e, s.receiveNumber, y)
    {
      assert n < |h.index[y]| && h.index[y][n] == g.index[y][n];
    }
  }

  lemma PeerSends(h: History, nextPair: PublicKey, delivered: set<nat>, s: Session, e: nat, x: nat, i: nat)
    requires SpineOk(h, nextPair) && SessionOk(h, delivered, s, e)
    requires x < |h.index| && (x == e + 1 || x + 1 == e) && i !in delivered
    ensures SessionOk(Logged(h, x, i), delivered, s, e)
  {
    OthersKept(h, nextPair, delivered, s, e, x, i);
  }

  /** The new envelope is the next one of its epoch, and the log stays indexed. */
  lemma LoggedIndexOk(h: History, nextPair: PublicKey, sent: seq<Sent>,
                      e: nat, envelope: Sent)
    requires SpineOk(h, nextPair) && IndexOk(h, sent)
    requires e < |h.index| <= e + 2
    requires EnvelopeAt(h, envelope, e, |h.index[e]|)
    ensures IndexOk(Logged(h, e, |sent|), sent + [envelope])
  {
    var g := Logged(h, e, |sent|);
    var grown := sent + [envelope];
    forall x: nat, n: nat | x < |g.index| && n < |g.index[x]|
      ensures g.index[x][n] < |grown| && EnvelopeAt(g, grown[g.index[x][n]], x, n)
    {
      if n < |h.index[x]| {
        assert g.index[x][n] == h.index[x][n];
        assert EnvelopeAt(h, sent[h.index[x][n]], x, n);
      }
    }
    forall i | 0 <= i < |grown|
      ensures Located(g, grown[i].message, i)
    {
      if i < |sent| {
        assert Located(h, sent[i].message, i);
      } else {
        assert h.epochOf[h.spine.keys[e]] == e;
      }
    }
  }
}
