/**
  The shared key lineage of one conversation. The initiator's ephemeral key opens epoch 0, the
  responder's first ratchet pair epoch 1, and so on alternately; epoch e is agreed between its own
  ratchet key and that of the epoch before. A history names the position of everything in a run on
  that lineage; it is an observer's record and no part of either party's state.
 */
module Lineage {
  import opened SymbolicCrypto

  datatype Spine = Spine(master: Key, base: PublicKey, keys: seq<PublicKey>)

  /** The key that epoch e answers: the responder's signed prekey for epoch 0. */
  function Answered(sp: Spine, e: nat): PublicKey
    requires e <= |sp.keys|
  {
    if e == 0 then sp.base else sp.keys[e - 1]
  }

  function Joint(sp: Spine, e: nat): Shared
    requires e < |sp.keys|
  {
    Agree(sp.keys[e], Answered(sp, e))
  }

  function RootAt(sp: Spine, i: nat): Key
    requires i <= |sp.keys|
  {
    if i == 0 then sp.master else RootOf(RootAt(sp, i - 1), Joint(sp, i - 1))
  }

  function ChainStart(sp: Spine, e: nat): Key
    requires e < |sp.keys|
  {
    ChainOf(RootAt(sp, e), Joint(sp, e))
  }

  function MessageKeyAt(sp: Spine, e: nat, n: nat): Key
    requires e < |sp.keys|
  {
    MessageKeyOf(ChainAt(ChainStart(sp, e), n))
  }

  function Extend(sp: Spine, k: PublicKey): Spine {
    sp.(keys := sp.keys + [k])
  }

  /** A new epoch leaves every earlier root as it was. */
  lemma {:induction false} RootAtKept(sp: Spine, k: PublicKey, i: nat)
    requires i <= |sp.keys|
    ensures RootAt(Extend(sp, k), i) == RootAt(sp, i)
  {
    if i > 0 {
      RootAtKept(sp, k, i - 1);
    }
  }

  /** A new epoch leaves every earlier chain as it was. */
  lemma ChainStartKept(sp: Spine, k: PublicKey)
    ensures forall e: nat | e < |sp.keys| :: ChainStart(Extend(sp, k), e) == ChainStart(sp, e)
    ensures RootAt(Extend(sp, k), |sp.keys|) == RootAt(sp, |sp.keys|)
  {
    forall e: nat | e < |sp.keys| ensures ChainStart(Extend(sp, k), e) == ChainStart(sp, e) {
      RootAtKept(sp, k, e);
    }
    RootAtKept(sp, k, |sp.keys|);
  }

  /** Roots of different epochs differ. */
  lemma {:induction false} RootAtInjective(sp: Spine, i: nat, j: nat)
    requires sp.master.Master?
    requires i <= |sp.keys| && j <= |sp.keys|
    requires RootAt(sp, i) == RootAt(sp, j)
    ensures i == j
  {
    if i > 0 && j > 0 {
      RootAtInjective(sp, i - 1, j - 1);
    }
  }

  /** A message key determines its epoch and its number. */
  lemma MessageKeyAtInjective(sp: Spine, e: nat, m: nat, f: nat, n: nat)
    requires sp.master.Master?
    requires e < |sp.keys| && f < |sp.keys|
    requires MessageKeyAt(sp, e, m) == MessageKeyAt(sp, f, n)
    ensures e == f && m == n
  {
    ChainAtInjective(ChainStart(sp, e), m, ChainStart(sp, f), n);
    RootAtInjective(sp, e, f);
  }
}
