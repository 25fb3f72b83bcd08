/**
  Which mailboxes can be read at all. A POST may name any 64 hex digits, but a session reads under the
  hash of its key as the encoder writes it, in lower case.
 */
module RelayMailboxes {
  import opened MessageTable
  import opened Relay
  import opened RelayHandlers
  import opened RelayRequests
  import opened RelayInvariant
  import opened RelayKeeps
  import opened RelayTheorems
  import opened RelayOrder
  import opened RelayOvertaking

  lemma PushedIsLowerHex(r: Relay, p: nat)
    requires Inv(r) && p < |r.posts| && r.posts[p].stage.Pushed?
    ensures IsLowerHex(r.posts[p].message.recipient)
  {
    PushedMeansHeld(r, p);
    var c, i :| c in r.channels && 0 <= i < |r.channels[c].pushed| && r.channels[c].pushed[i].1.post == p;
    assert PushOk(r.posts, Hash(r.sessions[c]), r.channels[c].pushed[i]);
    assert SessionOk(r.sessions[c], r.channels, c);
  }

  lemma FramedIsLowerHex(r: Relay, s: nat, i: nat, p: nat)
    requires Inv(r) && FrameAt(r, s, i, p)
    ensures p < |r.posts| && IsLowerHex(r.posts[p].message.recipient)
  {
    FrameMailbox(r, s, i, p);
  }

  /** In every reachable state, a post to any other spelling has been pushed to no session and sent by none. */
  lemma OtherSpellingUnread(config: Config, steps: seq<Step>, p: nat)
    requires var r := Run(config, Empty, steps);
             p < |r.posts| && !IsLowerHex64(r.posts[p].message.recipient)
    ensures var r := Run(config, Empty, steps);
            && !r.posts[p].stage.Pushed?
            && forall s: nat, i: nat :: !FrameAt(r, s, i, p)
  {
    var r := Run(config, Empty, steps);
    Reachable(config, steps);
    Hex64Is(r.posts[p].message.recipient);
    if r.posts[p].stage.Pushed? {
      PushedIsLowerHex(r, p);
    }
    if s: nat, i: nat :| FrameAt(r, s, i, p) {
      FramedIsLowerHex(r, s, i, p);
    }
  }

  /** Some session sends the post, when it arrives first and these steps follow. */
  ghost predicate SentAfter(config: Config, request: Request, now: int, steps: seq<Step>) {
    exists s: nat, i: nat :: FrameAt(Run(config, Empty, [Arrive(request, now)] + steps), s, i, 0)
  }

  /** An accepted request can reach a session, in some run, if and only if its mailbox is in lower case. */
  lemma ReadableIff(config: Config, request: Request, now: int)
    requires Acceptable(config, request)
    ensures (exists steps :: SentAfter(config, request, now, steps)) <==> IsLowerHex64(request.recipient)
  {
    AcceptableIff(config, request);
    Hex64Is(request.recipient);
    if IsLowerHex(request.recipient) {
      var steps := Reading(config, request, now);
      assert SentAfter(config, request, now, steps);
    } else if steps :| SentAfter(config, request, now, steps) {
      StaysAddressed(config, request, now, steps);
      OtherSpellingUnread(config, [Arrive(request, now)] + steps, 0);
    }
  }

  lemma StaysAddressed(config: Config, request: Request, now: int, steps: seq<Step>)
    requires Validate(config, request).None?
    ensures var r := Run(config, Empty, [Arrive(request, now)] + steps);
            |r.posts| > 0 && r.posts[0].message.recipient == request.recipient
  {
    RunSplit(config, Empty, [Arrive(request, now)], steps);
    var r := Run(config, Empty, [Arrive(request, now)]);
    assert r == Arrived(config, Empty, request, now);
    PostsMoveRun(config, r, steps);
  }

  lemma Reading(config: Config, request: Request, now: int) returns (steps: seq<Step>)
    requires Validate(config, request).None? && IsLowerHex(request.recipient)
    ensures FrameAt(Run(config, Empty, [Arrive(request, now)] + steps), 0, 0, 0)
  {
    var key := VerifyingKey(request.recipient);
    var post, opening := PostSteps(0, request, now), SignedOpening(0, key, true);
    PostRun(config, Empty, request, now);
    PostIsQueued(config, Empty, request, now);
    var r := PostedTo(config, Empty, request, now);
    FourSteps(config, r, 0, AuthReply(KeyText(key), SignatureText(Signed(key, 0))), true);
    var begun := Run(config, r, opening);
    var row := Row(config, 1, request, now, 0);
    assert r.rows == [row];
    assert RowsFor([row], request.recipient) == [row] + RowsFor([], request.recipient);
    assert begun.sessions[0].fetched == [row];
    RunSplit(config, Empty, post, opening);
    RunSplit(config, Empty, post + opening, [SendRow(0, true)]);
    steps := [Dispatch(0), Enqueue(0, now, true)] + opening + [SendRow(0, true)];
    assert [Arrive(request, now)] + steps == post + opening + [SendRow(0, true)];
  }
}
