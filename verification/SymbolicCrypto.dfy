/**
  The primitives the engine calls, as free terms: scalar multiplication is commutative and
  otherwise free, both key derivations are free constructors, and a secretbox opens only under the
  key and nonce it was sealed with.
 */
module SymbolicCrypto {
  import opened Wrappers

  /** The public half of a Curve25519 pair, named by the number the pair was generated under. */
  type PublicKey = nat

  /** Holding a KeyPair is holding the secret half. */
  datatype KeyPair = KeyPair(publicKey: PublicKey)

  /** The public half of an Ed25519 pair. */
  type VerifyKey = nat

  /** A signature over a public key, by the one holder of a signing pair, or bytes that verify under no key. */
  datatype KeySignature = SignedBy(signer: VerifyKey, over: PublicKey) | Forged

  /** The output of scalar multiplication: the unordered pair of the two public halves. */
  datatype Shared = Shared(low: PublicKey, high: PublicKey)

  function ScalarMult(mine: KeyPair, theirs: PublicKey): Shared {
    Agree(mine.publicKey, theirs)
  }

  function Agree(x: PublicKey, y: PublicKey): Shared {
    if x <= y then Shared(x, y) else Shared(y, x)
  }

  datatype Key =
    | Master(agreements: seq<Shared>)
    | RootOf(root: Key, dh: Shared)
    | ChainOf(root: Key, dh: Shared)
    | NextChain(chain: Key)
    | MessageKeyOf(chain: Key)

  /** The chain key after n symmetric steps. */
  function ChainAt(chain: Key, n: nat): Key {
    if n == 0 then chain else NextChain(ChainAt(chain, n - 1))
  }

  /** What secretbox produces, or bytes that no key opens. */
  datatype Ciphertext = SecretBox(key: Key, nonce: nat, text: string) | Noise(bytes: nat)

  function OpenBox(box: Ciphertext, nonce: nat, key: Key): Option<string> {
    if box.SecretBox? && box.key == key && box.nonce == nonce then Some(box.text) else None
  }

  /** Stepping a chain composes. */
  lemma {:induction false} ChainAtAdds(chain: Key, m: nat, n: nat)
    ensures ChainAt(ChainAt(chain, m), n) == ChainAt(chain, m + n)
    decreases n
  {
    if n > 0 {
      ChainAtAdds(chain, m, n - 1);
    }
  }

  /** No two positions of two fresh chains carry the same chain key, unless chain and position agree. */
  lemma {:induction false} ChainAtInjective(c: Key, m: nat, d: Key, n: nat)
    requires c.ChainOf? && d.ChainOf?
    requires ChainAt(c, m) == ChainAt(d, n)
    ensures c == d && m == n
    decreases m
  {
    if m > 0 && n > 0 {
      ChainAtInjective(c, m - 1, d, n - 1);
    }
  }
}
