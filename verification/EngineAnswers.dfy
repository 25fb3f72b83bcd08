/** What an engine call answers when it cannot do its work, and what an envelope tells the other side about prekeys. */
module EngineAnswers {
  import opened Wrappers
  import opened SymbolicCrypto
  import opened Ratchet
  import opened SignalStores
  import opened EngineCalls

  /** encrypt fails without a session, or on one with neither a chain nor a key for one, and changes nothing. */
  lemma EncryptFailsIff(v: StoreView, me: KeyPair, peer: PublicKey, text: string, context: Option<int>, nonce: nat)
    ensures var (after, r) := EncryptCall(v, me, peer, text, context, nonce);
            && (r == Err(NoSession) <==> peer !in v.sessions)
            && (r == Err(NoRemoteKey)
                <==> peer in v.sessions && v.sessions[peer].sendChain.None? && v.sessions[peer].remoteDh.None?)
            && (r.Err? ==> after == v && (r.error.NoSession? || r.error.NoRemoteKey?))
            && (r.Ok? ==> after.sessions - {peer} == v.sessions - {peer})
            && (r.Ok? ==> r.value.initialIdentity == Some(me.publicKey))
  {
  }

  /** The prekey an envelope names: the one the caller gives; else the bundle's on number 0, and none on others. */
  lemma EnvelopeNames(s: Session, identity: PublicKey, text: string, nonce: nat, id: int)
    requires CanSend(s)
    ensures Envelope(s, identity, text, Some(id), nonce).oneTimePreKeyId == Some(id)
    ensures s.sendNumber == 0 ==> Envelope(s, identity, text, None, nonce).oneTimePreKeyId == s.oneTimePreKeyId
    ensures s.sendNumber != 0 ==> Envelope(s, identity, text, None, nonce).oneTimePreKeyId == None
  {
  }

  /** A first envelope without its parameters, or met without a signed prekey, is refused and leaves no trace. */
  lemma FirstRefusedIff(aliasing: bool, v: StoreView, me: KeyPair, peer: PublicKey, m: EncryptedMessage,
                        latest: Option<SignedPreKey>, first: KeyPair, second: KeyPair)
    requires peer !in v.sessions
    ensures var (after, r) := DecryptCall(aliasing, v, me, peer, m, latest, first, second);
            var missing := m.initialEphemeral.None? || m.initialIdentity.None?;
            && (r == Err(MissingX3dhParameters) <==> missing)
            && (r == Err(NoSignedPreKey) <==> !missing && latest.None?)
            && (missing || latest.None? ==> after == v)
            && (!missing && latest.Some? ==> peer in after.sessions)
  {
  }

  /** Before the other side's first envelope there is no chain to read one of its announced key on. */
  lemma NoReceiveChainIff(s: Session, m: EncryptedMessage, k: KeyPair)
    ensures Decrypt(s, m, k).outcome == Err(NoReceiveChain)
            <==> HeaderId(m) !in s.skipped && s.remoteDh == Some(m.ephemeral) && s.receiveChain.None?
    ensures Decrypt(s, m, k).outcome == Err(NoReceiveChain) ==>
              !Decrypt(s, m, k).saved && Decrypt(s, m, k).session == s
  {
  }
}
