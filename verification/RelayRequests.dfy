/** Which requests the relay accepts, in the terms of the request alone, and that a client's own are among them. */
module RelayRequests {
  import opened Wrappers
  import opened AsciiText
  import opened MessageTable
  import opened Relay
  import opened RelayHandlers

  predicate IsHex64(s: string) {
    |s| == 64 && forall i | 0 <= i < 64 :: s[i] in "0123456789abcdefABCDEF"
  }

  predicate IsLowerHex64(s: string) {
    |s| == 64 && forall i | 0 <= i < 64 :: s[i] in "0123456789abcdef"
  }

  predicate PayloadFits(config: Config, request: Request) {
    1 <= |request.payload| <= config.maxPayloadBytes
  }

  predicate NonceFits(request: Request) {
    1 <= |request.nonce| <= 256
  }

  predicate Acceptable(config: Config, request: Request) {
    IsHex64(request.recipient) && PayloadFits(config, request) && NonceFits(request)
  }

  lemma HexDigitIs(c: char)
    ensures IsHexDigit(c) <==> c in "0123456789abcdefABCDEF"
    ensures (IsDigit(c) || 'a' <= c <= 'f') <==> c in "0123456789abcdef"
  {
    HexDigitsAre(c);
    DigitsAre(c);
    assert "0123456789abcdef" == DIGITS + LOWER[..6];
    assert "0123456789abcdefABCDEF" == DIGITS + LOWER[..6] + UPPER[..6];
    assert c in LOWER[..6] <==> 'a' <= c <= 'f' by {
      if 'a' <= c <= 'f' {
        LowerAt(c as int - 'a' as int);
        assert LOWER[..6][c as int - 'a' as int] == c;
      }
      if c in LOWER[..6] {
        var i :| 0 <= i < 6 && LOWER[..6][i] == c;
        LowerAt(i);
      }
    }
  }

  lemma Hex64Is(s: string)
    ensures IsHex64(s) <==> |s| == 64 && forall i | 0 <= i < |s| :: IsHexDigit(s[i])
    ensures IsLowerHex64(s) <==> IsLowerHex(s)
    ensures IsLowerHex64(s) ==> IsHex64(s)
  {
    forall c: char
      ensures IsHexDigit(c) <==> c in "0123456789abcdefABCDEF"
      ensures (IsDigit(c) || 'a' <= c <= 'f') <==> c in "0123456789abcdef"
    {
      HexDigitIs(c);
    }
  }

  lemma AcceptableIff(config: Config, request: Request)
    ensures Acceptable(config, request) <==> Validate(config, request).None?
  {
    Hex64Is(request.recipient);
  }

  /**
    What a POST is answered: refused for its mailbox, its payload or its nonce, in this order and with
    nothing changed; and otherwise not refused.
   */
  lemma RefusedIff(config: Config, held: Holdings, request: Request, now: int, later: int, dbOk: bool, post: nat)
    ensures var (response, after) := Posted(config, held, request, now, later, dbOk, post);
            && (response == BadRequest(BadRecipient) <==> !IsHex64(request.recipient))
            && (response == BadRequest(BadPayloadSize)
                <==> IsHex64(request.recipient) && !PayloadFits(config, request))
            && (response == BadRequest(BadNonce)
                <==> IsHex64(request.recipient) && PayloadFits(config, request) && !NonceFits(request))
            && (response.BadRequest? <==> !Acceptable(config, request))
            && (response.BadRequest? ==> after == held)
  {
    Hex64Is(request.recipient);
  }

  /** What the client posts: the lower-case hash of a key, an envelope, and the hex of 24 nonce bytes. */
  predicate FromClient(config: Config, request: Request) {
    IsLowerHex64(request.recipient) && PayloadFits(config, request) && |request.nonce| == 48
  }

  /** It is never refused. */
  lemma ClientIsAccepted(config: Config, held: Holdings, request: Request, now: int, later: int, dbOk: bool, post: nat)
    requires FromClient(config, request)
    ensures Acceptable(config, request)
    ensures !Posted(config, held, request, now, later, dbOk, post).0.BadRequest?
  {
    Hex64Is(request.recipient);
    RefusedIff(config, held, request, now, later, dbOk, post);
  }

  // ---- Signing in ------------------------------------------------------------------------------------

  /** A reply is taken if and only if it is a key and that key's signature over this very challenge. */
  lemma VerifiesIff(key: KeyText, challenge: nat, signature: SignatureText)
    ensures VerifyChallenge(key, challenge, signature).Ok?
            <==> key.KeyText? && signature == SignatureText(Signed(key.key, challenge))
    ensures VerifyChallenge(key, challenge, signature).Ok? ==>
              VerifyChallenge(key, challenge, signature).value == key.key
    ensures VerifyChallenge(key, challenge, signature)
            == match (key, signature)
               case (KeyNotHex, _) => Err(InvalidKeyHex)
               case (KeyWrongLength, _) => Err(InvalidKeyLength)
               case (KeyNotAPoint, _) => Err(InvalidKey)
               case (_, SignatureNotHex) => Err(InvalidSignatureHex)
               case (_, SignatureWrongLength) => Err(InvalidSignatureLength)
               case (KeyText(k), SignatureText(s)) => if s == Signed(k, challenge) then Ok(k) else Err(BadSignature)
  {
  }

  predicate SignsIn(reply: Reply, challenge: nat) {
    reply.AuthReply? && reply.key.KeyText? && reply.signature == SignatureText(Signed(reply.key.key, challenge))
  }

  /**
    What a session opening begins with, as far as the socket takes it: the challenge; then for a reply that
    signs in the mailbox of its key, for any other reply an error, and without a reply nothing. Only the first
    goes on to the rows.
   */
  lemma GreetingIs(rows: seq<QueuedMessage>, capacity: nat, challenge: nat, reply: Reply, fetchOk: bool)
    ensures var o := Opened(rows, capacity, challenge, reply, fetchOk);
            && (capacity == 0 ==> o == Opening([], rows, false))
            && (capacity >= 1 && (capacity == 1 || reply.NoReply?) ==>
                  o == Opening([ChallengeText(challenge)], rows, false))
            && (capacity >= 2 && !reply.NoReply? && !SignsIn(reply, challenge) ==>
                  o == Opening([ChallengeText(challenge), ErrorText], rows, false))
            && (capacity >= 2 && SignsIn(reply, challenge) ==>
                  |o.sent| >= 2 && o.sent[..2] == [ChallengeText(challenge), AuthenticatedText(reply.key.key.mailbox)])
  {
  }
}
