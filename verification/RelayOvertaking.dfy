/** Whenever a session streams and a row of its mailbox is in the table, the next post overtakes that row. */
module RelayOvertaking {
  import opened MessageTable
  import opened PeerRegistry
  import opened Relay
  import opened RelayHandlers
  import opened RelayRequests
  import opened RelayInvariant
  import opened RelayKeeps
  import opened RelayOrder

  function Message(config: Config, request: Request, now: int, post: nat): QueuedMessage {
    QueuedMessage(0, request.recipient, request.payload, request.nonce, now, now + config.ttl, post)
  }

  function Row(config: Config, id: nat, request: Request, now: int, post: nat): QueuedMessage {
    Message(config, request, now, post).(id := id)
  }

  lemma Unclaimed(config: Config, r: Relay, request: Request, now: int)
    requires Validate(config, request).None? && request.recipient !in r.peers
    ensures var p := |r.posts|;
            var v := Dispatched(Arrived(config, r, request, now), p);
            && v.sessions == r.sessions && v.peers == r.peers && v.channels == r.channels
            && v.rows == r.rows && v.lastId == r.lastId
            && |v.posts| == p + 1 && v.posts[p] == Post(Message(config, request, now, p), Stage.Unclaimed)
  {
    var p := |r.posts|;
    assert Arrived(config, r, request, now).posts[p] == Post(Message(config, request, now, p), Validated);
  }

  lemma Inserted(config: Config, r: Relay, p: nat, request: Request, now: int, later: int)
    requires p < |r.posts| && r.posts[p] == Post(Message(config, request, now, p), Stage.Unclaimed)
    ensures var v := Enqueued(config, r, p, later, true);
            && v.sessions == r.sessions && v.peers == r.peers && v.channels == r.channels && |v.posts| == |r.posts|
            && v.rows == r.rows + [Row(config, r.lastId + 1, request, later, p)]
  {
  }

  /** A whole POST to a mailbox nobody streams for. */
  function PostedTo(config: Config, r: Relay, request: Request, now: int): Relay {
    Enqueued(config, Dispatched(Arrived(config, r, request, now), |r.posts|), |r.posts|, now, true)
  }

  function PostSteps(p: nat, request: Request, now: int): seq<Step> {
    [Arrive(request, now), Dispatch(p), Enqueue(p, now, true)]
  }

  lemma PostRun(config: Config, r: Relay, request: Request, now: int)
    ensures Run(config, r, PostSteps(|r.posts|, request, now)) == PostedTo(config, r, request, now)
  {
    ThreeSteps(config, r, Arrive(request, now), Dispatch(|r.posts|), Enqueue(|r.posts|, now, true));
  }

  /** It is queued, and changes nothing else that matters here. */
  lemma PostIsQueued(config: Config, r: Relay, request: Request, now: int)
    requires Validate(config, request).None? && request.recipient !in r.peers
    ensures var v := PostedTo(config, r, request, now);
            && v.sessions == r.sessions && v.peers == r.peers && v.channels == r.channels
            && |v.posts| == |r.posts| + 1
            && v.rows == r.rows + [Row(config, r.lastId + 1, request, now, |r.posts|)]
  {
    Unclaimed(config, r, request, now);
    Inserted(config, Dispatched(Arrived(config, r, request, now), |r.posts|), |r.posts|, request, now, now);
  }

  // ---- From any state --------------------------------------------------------------------------------

  function Streamings(s: nat, count: nat): seq<Step> {
    if count == 0 then [] else [Stream(s, true)] + Streamings(s, count - 1)
  }

  lemma StreamOne(r: Relay, s: nat)
    requires InPhase(r, s, Streaming) && s in r.channels && r.channels[s].taken < |r.channels[s].pushed|
    ensures var v, channel := Streamed(r, s, true), r.channels[s];
            && v.rows == r.rows && v.posts == r.posts && InPhase(v, s, Streaming) && s in v.channels
            && v.channels[s] == channel.(taken := channel.taken + 1)
            && v.sessions[s].frames == r.sessions[s].frames + [channel.pushed[channel.taken].1]
  {
  }

  /** The send task empties the channel. */
  lemma {:induction false} AllStreamed(config: Config, r: Relay, s: nat, count: nat)
    requires InPhase(r, s, Streaming) && s in r.channels
    requires r.channels[s].taken + count == |r.channels[s].pushed|
    ensures var v := Run(config, r, Streamings(s, count));
            && v.rows == r.rows && v.posts == r.posts && InPhase(v, s, Streaming)
            && v.sessions[s].frames
               == r.sessions[s].frames + Messages(r.channels[s].pushed[r.channels[s].taken..])
    decreases count
  {
    var channel := r.channels[s];
    if count == 0 {
      assert Messages(channel.pushed[channel.taken..]) == [];
    } else {
      var next := Streamed(r, s, true);
      StreamOne(r, s);
      AllStreamed(config, next, s, count - 1);
      assert Streamings(s, count)[1..] == Streamings(s, count - 1);
      assert Messages(channel.pushed[channel.taken..])
             == [channel.pushed[channel.taken].1] + Messages(channel.pushed[channel.taken + 1..]);
    }
  }

  /** A post to a mailbox a session streams for goes into that session's channel. */
  lemma PostIsPushed(config: Config, r: Relay, s: nat, request: Request, now: int)
    requires Inv(r) && Validate(config, request).None? && Streams(r, s, request.recipient)
    ensures var p := |r.posts|;
            var v := Dispatched(Arrived(config, r, request, now), p);
            && v.rows == r.rows && v.sessions == r.sessions && s in r.channels && s in v.channels
            && v.channels[s]
               == r.channels[s].(pushed := r.channels[s].pushed + [(r.dispatches, Message(config, request, now, p))])
  {
    var m := Message(config, request, now, |r.posts|);
    assert Arrived(config, r, request, now).posts[|r.posts|] == Post(m, Validated);
    assert SessionOk(r.sessions[s], r.channels, s) && Registered(r, s);
    PushAllExact(r.channels, r.peers[m.recipient], r.dispatches, m);
  }

  function OvertakingSteps(r: Relay, s: nat, request: Request, now: int): seq<Step>
    requires s in r.channels && r.channels[s].taken <= |r.channels[s].pushed|
  {
    [Arrive(request, now), Dispatch(|r.posts|)] + Streamings(s, |r.channels[s].pushed| - r.channels[s].taken + 1)
  }

  lemma MessagesEnd(pushed: seq<(nat, QueuedMessage)>, item: (nat, QueuedMessage), n: nat)
    requires n <= |pushed|
    ensures Messages((pushed + [item])[n..]) == Messages(pushed[n..]) + [item.1]
  {
  }

  /**
    In every state that keeps the invariant, with a session streaming for a mailbox: the next accepted post
    of the mailbox gets onto that session's socket and no row moves, so it overtakes every row still there.
   */
  lemma NextPostOvertakes(config: Config, r: Relay, s: nat, request: Request, now: int)
    requires Inv(r) && Streams(r, s, request.recipient) && Acceptable(config, request)
    ensures s in r.channels && r.channels[s].taken <= |r.channels[s].pushed|
    ensures var v := Run(config, r, OvertakingSteps(r, s, request, now));
            && v.rows == r.rows && s < |v.sessions|
            && v.sessions[s].frames
               == r.sessions[s].frames + Messages(r.channels[s].pushed[r.channels[s].taken..])
                  + [Message(config, request, now, |r.posts|)]
  {
    assert SessionOk(r.sessions[s], r.channels, s);
    var two := [Arrive(request, now), Dispatch(|r.posts|)];
    var channel := r.channels[s];
    var n := |channel.pushed| - channel.taken;
    TwoSteps(config, r, two[0], two[1]);
    AcceptableIff(config, request);
    PostIsPushed(config, r, s, request, now);
    var pushed := Run(config, r, two);
    AllStreamed(config, pushed, s, n + 1);
    MessagesEnd(channel.pushed, (r.dispatches, Message(config, request, now, |r.posts|)), channel.taken);
    RunSplit(config, r, two, Streamings(s, n + 1));
  }

  // ---- From the start --------------------------------------------------------------------------------

  /** A session that has sent all its rows subscribes. */
  lemma Subscribing(config: Config, r: Relay, s: nat)
    requires InPhase(r, s, Draining) && r.sessions[s].drained == |r.sessions[s].fetched|
    requires Hash(r.sessions[s]) !in r.peers
    ensures var v := Run(config, r, [Subscribe(s)]);
            && v.posts == r.posts && v.rows == r.rows && InPhase(v, s, Streaming)
               && v.sessions[s].frames == r.sessions[s].frames
            && s in v.channels && v.channels[s] == Channel(true, [], 0)
            && Hash(r.sessions[s]) in v.peers && v.peers[Hash(r.sessions[s])] == [s]
  {
    assert [Subscribe(s)][1..] == [];
  }

  /** The run from the empty server, once it has come to a fresh stream of session 0. */
  lemma FreshStream(config: Config, steps: seq<Step>, second: Request, now: int)
    requires Acceptable(config, second)
    requires var r := Run(config, Empty, steps);
             Streams(r, 0, second.recipient) && 0 in r.channels && r.channels[0] == Channel(true, [], 0)
             && r.sessions[0].frames == [] && |r.posts| == 1
    ensures var v := Run(config, Empty, steps + [Arrive(second, now), Dispatch(1), Stream(0, true)]);
            && v.rows == Run(config, Empty, steps).rows && 0 < |v.sessions|
            && v.sessions[0].frames == [Message(config, second, now, 1)]
  {
    var r := Run(config, Empty, steps);
    Reachable(config, steps);
    NextPostOvertakes(config, r, 0, second, now);
    assert Messages(r.channels[0].pushed[0..]) == [];
    assert Streamings(0, 1) == [Stream(0, true)];
    assert OvertakingSteps(r, 0, second, now) == [Arrive(second, now), Dispatch(1), Stream(0, true)];
    RunSplit(config, Empty, steps, [Arrive(second, now), Dispatch(1), Stream(0, true)]);
  }

  function SignedOpening(challenge: nat, key: VerifyingKey, fetchOk: bool): seq<Step> {
    [Connect(challenge), Answer(0, AuthReply(KeyText(key), SignatureText(Signed(key, challenge)))),
     Confirm(0, true), Fetch(0, fetchOk)]
  }

  lemma SubscribeLast(config: Config, steps: seq<Step>, hash: string)
    requires var r := Run(config, Empty, steps);
             && InPhase(r, 0, Draining) && r.sessions[0].drained == |r.sessions[0].fetched| && hash !in r.peers
             && Hash(r.sessions[0]) == hash && r.sessions[0].frames == []
    ensures var r, v := Run(config, Empty, steps), Run(config, Empty, steps + [Subscribe(0)]);
            && v.posts == r.posts && v.rows == r.rows && Streams(v, 0, hash) && v.sessions[0].frames == []
            && 0 in v.channels && v.channels[0] == Channel(true, [], 0)
  {
    Subscribing(config, Run(config, Empty, steps), 0);
    RunSplit(config, Empty, steps, [Subscribe(0)]);
  }

  /** A post queued between fetch and subscribe: the session has the second one, the first waits for another session. */
  lemma SecondPostArrivesFirst(config: Config, key: VerifyingKey, challenge: nat, first: Request, second: Request,
                               now: int)
    requires Acceptable(config, first) && Acceptable(config, second)
    requires first.recipient == second.recipient == key.mailbox
    ensures var v := Run(config, Empty, SignedOpening(challenge, key, true) + PostSteps(0, first, now) + [Subscribe(0)]
                                        + [Arrive(second, now), Dispatch(1), Stream(0, true)]);
            && 0 < |v.sessions| && v.sessions[0].frames == [Message(config, second, now, 1)]
            && v.rows == [Row(config, 1, first, now, 0)]
  {
    var opening, post := SignedOpening(challenge, key, true), PostSteps(0, first, now);
    var reply := AuthReply(KeyText(key), SignatureText(Signed(key, challenge)));
    FourSteps(config, Empty, challenge, reply, true);
    var r := Begun(Empty, challenge, reply, true);
    AcceptableIff(config, first);
    PostRun(config, r, first, now);
    PostIsQueued(config, r, first, now);
    RunSplit(config, Empty, opening, post);
    SubscribeLast(config, opening + post, key.mailbox);
    FreshStream(config, opening + post + [Subscribe(0)], second, now);
  }

  /** A post queued long before the session, whose fetch then fails: it is overtaken all the same. */
  lemma FailedFetchOvertakes(config: Config, key: VerifyingKey, challenge: nat, first: Request, second: Request,
                             now: int)
    requires Acceptable(config, first) && Acceptable(config, second)
    requires first.recipient == second.recipient == key.mailbox
    ensures var v := Run(config, Empty, PostSteps(0, first, now) + SignedOpening(challenge, key, false) + [Subscribe(0)]
                                        + [Arrive(second, now), Dispatch(1), Stream(0, true)]);
            && 0 < |v.sessions| && v.sessions[0].frames == [Message(config, second, now, 1)]
            && v.rows == [Row(config, 1, first, now, 0)]
  {
    var opening, post := SignedOpening(challenge, key, false), PostSteps(0, first, now);
    var reply := AuthReply(KeyText(key), SignatureText(Signed(key, challenge)));
    AcceptableIff(config, first);
    PostRun(config, Empty, first, now);
    PostIsQueued(config, Empty, first, now);
    var r := PostedTo(config, Empty, first, now);
    FourSteps(config, r, challenge, reply, false);
    RunSplit(config, Empty, post, opening);
    SubscribeLast(config, post + opening, key.mailbox);
    FreshStream(config, post + opening + [Subscribe(0)], second, now);
  }
}
