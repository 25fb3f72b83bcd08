/**
  The relay's two request handlers as the sequential code they are, and the proof that each one,
  uninterrupted, is a run of the relay's steps.
 */
module RelayHandlers {
  import opened Wrappers
  import opened MessageTable
  import opened PeerRegistry
  import opened Relay

  datatype Response = Accepted(deliveredLive: bool) | BadRequest(reason: RequestError) | InternalError

  /** What the server holds between requests. */
  datatype Holdings = Holdings(rows: seq<QueuedMessage>, lastId: nat, peers: Peers, channels: Channels, dispatches: nat)

  function Held(r: Relay): Holdings {
    Holdings(r.rows, r.lastId, r.peers, r.channels, r.dispatches)
  }

  // ---- Posting a message -------------------------------------------------------------------------

  /** What one uninterrupted POST does. The row gets its own, later, clock reading. */
  function Posted(config: Config, h: Holdings, request: Request, now: int, later: int, dbOk: bool,
                  post: nat): (Response, Holdings) {
    var reason := Validate(config, request);
    var m := QueuedMessage(0, request.recipient, request.payload, request.nonce, now, now + config.ttl, post);
    if reason.Some? then (BadRequest(reason.value), h)
    else
      var dispatched := h.(
        peers := PeersAfterDispatch(h.peers, h.channels, m),
        channels := ChannelsAfterDispatch(h.peers, h.channels, h.dispatches, m),
        dispatches := h.dispatches + 1);
      if ReachesSomeone(h.peers, h.channels, m) then (Accepted(true), dispatched)
      else if !dbOk then (InternalError, dispatched)
      else
        (Accepted(false), dispatched.(
           rows := h.rows + [QueuedMessage(h.lastId + 1, request.recipient, request.payload, request.nonce, later,
                                           later + config.ttl, post)],
           lastId := h.lastId + 1))
  }

  /** How the handler's stage and its answer correspond. */
  predicate Answers(response: Response, stage: Stage) {
    match stage
    case Pushed(stamp) => response == Accepted(true)
    case Queued(id) => response == Accepted(false)
    case Lost => response == InternalError
    case Validated => false
    case Unclaimed => false
  }

  /** Arrive, dispatch and enqueue, with nothing in between, are the handler, and its answer tells the outcome. */
  lemma PostIsThreeSteps(config: Config, r: Relay, request: Request, now: int, later: int, dbOk: bool)
    ensures var p := |r.posts|;
            var after := Run(config, r, [Arrive(request, now), Dispatch(p), Enqueue(p, later, dbOk)]);
            var (response, held) := Posted(config, Held(r), request, now, later, dbOk, p);
            && Held(after) == held
            && (if response.BadRequest? then after == r
                else |after.posts| == p + 1 && Answers(response, after.posts[p].stage))
  {
    var p := |r.posts|;
    var arrived := Arrived(config, r, request, now);
    var dispatched := Dispatched(arrived, p);
    ThreeSteps(config, r, Arrive(request, now), Dispatch(p), Enqueue(p, later, dbOk));
    if Validate(config, request).None? {
      assert arrived.posts[p].stage == Validated;
      assert Held(arrived) == Held(r);
    }
  }

  lemma ThreeSteps(config: Config, r: Relay, a: Step, b: Step, c: Step)
    ensures Run(config, r, [a, b, c]) == Next(config, Next(config, Next(config, r, a), b), c)
  {
    var r1 := Next(config, r, a);
    var r2 := Next(config, r1, b);
    assert [a, b, c][1..] == [b, c] && [b, c][1..] == [c] && [c][1..] == [];
    assert Run(config, r2, [c]) == Next(config, r2, c);
    assert Run(config, r1, [b, c]) == Run(config, r2, [c]);
  }

  // ---- Opening a session -------------------------------------------------------------------------

  datatype Outgoing = ChallengeText(challenge: nat) | AuthenticatedText(hash: string) | ErrorText
    | MessageText(message: QueuedMessage)

  function Frames(sent: seq<Outgoing>): seq<QueuedMessage> {
    if sent == [] then []
    else
      var last := sent[|sent| - 1];
      Frames(sent[..|sent| - 1]) + if last.MessageText? then [last.message] else []
  }

  function Texts(rows: seq<QueuedMessage>): seq<Outgoing> {
    seq(|rows|, i requires 0 <= i < |rows| => MessageText(rows[i]))
  }

  /** A socket that takes some number of messages more, and then fails. */
  class Socket {
    var sent: seq<Outgoing>
    var capacity: nat

    constructor (capacity: nat)
      ensures sent == [] && this.capacity == capacity
    {
      sent := [];
      this.capacity := capacity;
    }

    method Send(text: Outgoing) returns (ok: bool)
      modifies this
      ensures ok == (old(capacity) > 0)
      ensures sent == if ok then old(sent) + [text] else old(sent)
      ensures capacity == old(capacity) - (if ok then 1 else 0)
    {
      ok := capacity > 0;
      if ok {
        sent, capacity := sent + [text], capacity - 1;
      }
    }
  }

  /** What one uninterrupted session opening puts on its socket and leaves in the table. */
  datatype Opening = Opening(sent: seq<Outgoing>, rows: seq<QueuedMessage>, streaming: bool)

  function Min(a: nat, b: nat): nat {
    if a < b then a else b
  }

  /** Challenge, reply and confirmation: what is written, and the mailbox once it is confirmed. */
  function Greeted(capacity: nat, challenge: nat, reply: Reply): (r: (seq<Outgoing>, Option<string>))
    ensures r.1.Some? ==> capacity >= 2
  {
    var greeting := [ChallengeText(challenge)];
    if capacity == 0 then ([], None)
    else if reply.NoReply? then (greeting, None)
    else if reply.OtherText? || VerifyChallenge(reply.key, challenge, reply.signature).Err? then
      (if capacity == 1 then greeting else greeting + [ErrorText], None)
    else if capacity == 1 then (greeting, None)
    else (greeting + [AuthenticatedText(reply.key.key.mailbox)], Some(reply.key.key.mailbox))
  }

  function Opened(rows: seq<QueuedMessage>, capacity: nat, challenge: nat, reply: Reply, fetchOk: bool): Opening {
    var (sent, mailbox) := Greeted(capacity, challenge, reply);
    match mailbox
    case None => Opening(sent, rows, false)
    case Some(hash) =>
      var due := if fetchOk then RowsFor(rows, hash) else [];
      var count := Min(capacity - 2, |due|);
      Opening(sent + Texts(due[..count]), if fetchOk then RowsWithout(rows, hash) else rows, count == |due|)
  }

  /** The server's shared state and its handlers. */
  class Server {
    const config: Config
    const table: Table
    const state: AppState

    constructor (config: Config)
      ensures this.config == config && fresh(table) && fresh(state) && table.Valid()
      ensures View() == Held(Empty)
    {
      this.config := config;
      table := new Table();
      state := new AppState();
    }

    function View(): Holdings
      reads table, state
    {
      Holdings(table.rows, table.lastId, state.activePeers, state.channels, state.dispatches)
    }

    method HandleSendMessage(request: Request, now: int, later: int, dbOk: bool, post: nat) returns (response: Response)
      requires table.Valid()
      modifies table, state
      ensures table.Valid()
      ensures (response, View()) == Posted(config, old(View()), request, now, later, dbOk, post)
    {
      var reason := Validate(config, request);
      if reason.Some? {
        return BadRequest(reason.value);
      }
      var m := QueuedMessage(0, request.recipient, request.payload, request.nonce, now, now + config.ttl, post);
      var deliveredLive := state.DispatchLive(m);
      if !deliveredLive {
        if !dbOk {
          return InternalError;
        }
        var id := table.Enqueue(request.recipient, request.payload, request.nonce, config.ttl, later, post);
      }
      return Accepted(deliveredLive);
    }

    /** Everything up to the live stream; tx names the new channel. */
    method OpenSession(socket: Socket, challenge: nat, reply: Reply, fetchOk: bool, tx: ChannelId)
      returns (streaming: bool)
      requires table.Valid() && socket.sent == []
      modifies table, state, socket
      ensures table.Valid()
      ensures Opening(socket.sent, table.rows, streaming)
              == Opened(old(table.rows), old(socket.capacity), challenge, reply, fetchOk)
      ensures table.lastId == old(table.lastId) && state.dispatches == old(state.dispatches)
      ensures streaming ==> reply.AuthReply? && reply.key.KeyText?
      ensures state.activePeers == (if streaming then Subscribed(old(state.activePeers), reply.key.key.mailbox, tx)
                                    else old(state.activePeers))
      ensures state.channels
              == (if streaming then old(state.channels)[tx := Channel(true, [], 0)] else old(state.channels))
    {
      var mailbox := Greet(socket, challenge, reply);
      if mailbox.None? {
        return false;
      }
      streaming := DrainAndSubscribe(socket, mailbox.value, fetchOk, tx);
    }

    /** Challenge, one reply, confirmation. */
    static method Greet(socket: Socket, challenge: nat, reply: Reply) returns (mailbox: Option<string>)
      requires socket.sent == []
      modifies socket
      ensures (socket.sent, mailbox) == Greeted(old(socket.capacity), challenge, reply)
      ensures mailbox.Some? ==> old(socket.capacity) >= 2 && socket.capacity == old(socket.capacity) - 2
      ensures mailbox.Some? ==> reply.AuthReply? && reply.key.KeyText? && mailbox.value == reply.key.key.mailbox
    {
      var ok := socket.Send(ChallengeText(challenge));
      assert socket.sent == if ok then [ChallengeText(challenge)] else [];
      if !ok || reply.NoReply? {
        return None;
      }
      if reply.OtherText? || VerifyChallenge(reply.key, challenge, reply.signature).Err? {
        ok := socket.Send(ErrorText);
        return None;
      }
      ok := socket.Send(AuthenticatedText(reply.key.key.mailbox));
      if !ok {
        return None;
      }
      return Some(reply.key.key.mailbox);
    }

    /** A failed fetch skips the queued rows; a failed send ends the session before it subscribes. */
    method DrainAndSubscribe(socket: Socket, hash: string, fetchOk: bool, tx: ChannelId) returns (streaming: bool)
      requires table.Valid()
      modifies table`rows, state, socket
      ensures table.Valid()
      ensures table.rows == if fetchOk then RowsWithout(old(table.rows), hash) else old(table.rows)
      ensures var due := if fetchOk then RowsFor(old(table.rows), hash) else [];
              var count := Min(old(socket.capacity), |due|);
              socket.sent == old(socket.sent) + Texts(due[..count]) && streaming == (count == |due|)
      ensures state.dispatches == old(state.dispatches)
      ensures state.activePeers
              == (if streaming then Subscribed(old(state.activePeers), hash, tx) else old(state.activePeers))
      ensures state.channels
              == (if streaming then old(state.channels)[tx := Channel(true, [], 0)] else old(state.channels))
    {
      if fetchOk {
        var queued := table.FetchAndDelete(hash);
        var ok := SendRows(socket, queued);
        if !ok {
          return false;
        }
      }
      state.channels := state.channels[tx := Channel(true, [], 0)];
      state.SubscribePeer(hash, tx);
      return true;
    }

    /** Sends the fetched rows in order and gives up at the first failure. */
    static method SendRows(socket: Socket, queued: seq<QueuedMessage>) returns (ok: bool)
      modifies socket
      ensures var count := Min(old(socket.capacity), |queued|);
              socket.sent == old(socket.sent) + Texts(queued[..count]) && ok == (count == |queued|)
    {
      for i := 0 to |queued|
        invariant socket.sent == old(socket.sent) + Texts(queued[..i])
        invariant socket.capacity == old(socket.capacity) - i
      {
        var sent := socket.Send(MessageText(queued[i]));
        if !sent {
          return false;
        }
        assert Texts(queued[..i + 1]) == Texts(queued[..i]) + [MessageText(queued[i])];
      }
      assert queued[..|queued|] == queued;
      return true;
    }
  }

  // ---- The opening as steps ----------------------------------------------------------------------

  function Rows(s: nat, count: nat): seq<Step> {
    seq(count, _ => SendRow(s, true))
  }

  /** The steps an opening takes on session s. */
  function OpeningSteps(r: Relay, capacity: nat, challenge: nat, reply: Reply, fetchOk: bool): seq<Step> {
    var s := |r.sessions|;
    if capacity == 0 then [Connect(challenge), Drop(s)]
    else
      [Connect(challenge), Answer(s, reply)]
      + if !(reply.AuthReply? && VerifyChallenge(reply.key, challenge, reply.signature).Ok?) then []
        else if capacity == 1 then [Confirm(s, false)]
        else
          var due := if fetchOk then RowsFor(r.rows, reply.key.key.mailbox) else [];
          var count := Min(capacity - 2, |due|);
          [Confirm(s, true), Fetch(s, fetchOk)] + Rows(s, count)
            + [if count == |due| then Subscribe(s) else SendRow(s, false)]
  }

  lemma {:induction false} RunSplit(config: Config, r: Relay, a: seq<Step>, b: seq<Step>)
    ensures Run(config, r, a + b) == Run(config, Run(config, r, a), b)
    decreases |a|
  {
    if a == [] {
      assert a + b == b;
    } else {
      assert (a + b)[1..] == a[1..] + b;
      RunSplit(config, Next(config, r, a[0]), a[1..], b);
    }
  }

  /** Sending rows only moves the session's own cursor. */
  lemma {:induction false} RowsSent(config: Config, r: Relay, s: nat, count: nat)
    requires InPhase(r, s, Draining) && r.sessions[s].drained + count <= |r.sessions[s].fetched|
    ensures var w := r.sessions[s];
            Run(config, r, Rows(s, count))
            == With(r, s, w.(drained := w.drained + count,
                             frames := w.frames + w.fetched[w.drained..w.drained + count]))
    decreases count
  {
    var w := r.sessions[s];
    if count == 0 {
      assert w.frames + w.fetched[w.drained..w.drained] == w.frames;
      assert r.sessions[s := w] == r.sessions;
    } else {
      var next := RowSent(r, s, true);
      assert Rows(s, count)[1..] == Rows(s, count - 1);
      RowsSent(config, next, s, count - 1);
      var all := w.fetched[w.drained..w.drained + count];
      assert all == [w.fetched[w.drained]] + w.fetched[w.drained + 1..w.drained + count];
      assert (w.frames + [w.fetched[w.drained]]) + w.fetched[w.drained + 1..w.drained + count] == w.frames + all;
    }
  }

  lemma {:induction false} FramesSplit(a: seq<Outgoing>, b: seq<Outgoing>)
    ensures Frames(a + b) == Frames(a) + Frames(b)
  {
    if b == [] {
      assert a + b == a;
    } else {
      assert (a + b)[..|a + b| - 1] == a + b[..|b| - 1];
      FramesSplit(a, b[..|b| - 1]);
    }
  }

  lemma {:induction false} FramesOfTexts(rows: seq<QueuedMessage>)
    ensures Frames(Texts(rows)) == rows
  {
    if rows != [] {
      assert Texts(rows)[..|rows| - 1] == Texts(rows[..|rows| - 1]);
      FramesOfTexts(rows[..|rows| - 1]);
    }
  }

  lemma FramesOfOpening(challenge: nat, hash: string, rows: seq<QueuedMessage>)
    ensures Frames([ChallengeText(challenge), AuthenticatedText(hash)] + Texts(rows)) == rows
  {
    FramesSplit([ChallengeText(challenge), AuthenticatedText(hash)], Texts(rows));
    FramesOfTexts(rows);
    FramesSplit([ChallengeText(challenge)], [AuthenticatedText(hash)]);
    assert [ChallengeText(challenge)] + [AuthenticatedText(hash)]
           == [ChallengeText(challenge), AuthenticatedText(hash)];
  }

  /** The session once its rows are fetched, and its server. */
  function Begun(r: Relay, challenge: nat, reply: Reply, fetchOk: bool): Relay
    requires reply.AuthReply? && VerifyChallenge(reply.key, challenge, reply.signature).Ok?
  {
    var hash := reply.key.key.mailbox;
    var due := if fetchOk then RowsFor(r.rows, hash) else [];
    var session := WsSession(challenge, Draining, Some(reply.key.key), Some(reply.signature.signature), due,
                             if fetchOk then Some(r.lastId) else None, 0, 0, []);
    r.(sessions := r.sessions + [session], rows := if fetchOk then RowsWithout(r.rows, hash) else r.rows)
  }

  lemma FourSteps(config: Config, r: Relay, challenge: nat, reply: Reply, fetchOk: bool)
    requires reply.AuthReply? && VerifyChallenge(reply.key, challenge, reply.signature).Ok?
    ensures Run(config, r, [Connect(challenge), Answer(|r.sessions|, reply), Confirm(|r.sessions|, true),
                            Fetch(|r.sessions|, fetchOk)])
         == Begun(r, challenge, reply, fetchOk)
  {
    var s := |r.sessions|;
    var r1 := Connected(r, challenge);
    var r2 := Answered(r1, s, reply);
    var r3 := Confirmed(r2, s, true);
    RunSplit(config, r, [Connect(challenge)], [Answer(s, reply), Confirm(s, true), Fetch(s, fetchOk)]);
    ThreeSteps(config, r1, Answer(s, reply), Confirm(s, true), Fetch(s, fetchOk));
    assert [Connect(challenge)] + [Answer(s, reply), Confirm(s, true), Fetch(s, fetchOk)]
        == [Connect(challenge), Answer(s, reply), Confirm(s, true), Fetch(s, fetchOk)];
    assert Run(config, r, [Connect(challenge)]) == r1;
    assert Fetched(r3, s, fetchOk).sessions == Begun(r, challenge, reply, fetchOk).sessions;
  }

  /** After the opening there is one session more; its frames, its phase and the server's state are the handler's. */
  ghost predicate Opens(r: Relay, after: Relay, o: Opening, reply: Reply) {
    var s := |r.sessions|;
    && |after.sessions| == s + 1 && after.sessions[..s] == r.sessions && after.posts == r.posts
    && after.sessions[s].frames == Frames(o.sent)
    && after.sessions[s].phase == (if o.streaming then Streaming else Closed)
    && (o.streaming ==> reply.AuthReply? && reply.key.KeyText?)
    && Held(after) == Held(r).(
         rows := o.rows,
         peers := if o.streaming then Subscribed(r.peers, reply.key.key.mailbox, s) else r.peers,
         channels := if o.streaming then r.channels[s := Channel(true, [], 0)] else r.channels)
  }

  lemma RefusedOpening(config: Config, r: Relay, capacity: nat, challenge: nat, reply: Reply, fetchOk: bool)
    requires |r.sessions| !in r.channels && capacity > 0
    requires !(reply.AuthReply? && VerifyChallenge(reply.key, challenge, reply.signature).Ok?)
    ensures Opens(r, Run(config, r, OpeningSteps(r, capacity, challenge, reply, fetchOk)),
                  Opened(r.rows, capacity, challenge, reply, fetchOk), reply)
  {
    var s := |r.sessions|;
    var o := Opened(r.rows, capacity, challenge, reply, fetchOk);
    assert OpeningSteps(r, capacity, challenge, reply, fetchOk) == [Connect(challenge), Answer(s, reply)];
    TwoSteps(config, r, Connect(challenge), Answer(s, reply));
    FramesSplit([ChallengeText(challenge)], [ErrorText]);
    assert Frames([ChallengeText(challenge)]) == [];
    assert Frames([ErrorText]) == [];
    assert Frames(o.sent) == [];
  }

  lemma TwoSteps(config: Config, r: Relay, a: Step, b: Step)
    ensures Run(config, r, [a, b]) == Next(config, Next(config, r, a), b)
  {
    assert [a, b][1..] == [b] && [b][1..] == [];
    assert Run(config, Next(config, r, a), [b]) == Next(config, Next(config, r, a), b);
  }

  /** The socket fails on the challenge, or on the confirmation. */
  lemma BrokenOpening(config: Config, r: Relay, capacity: nat, challenge: nat, reply: Reply, fetchOk: bool)
    requires |r.sessions| !in r.channels
    requires capacity == 0
             || (capacity == 1 && reply.AuthReply? && VerifyChallenge(reply.key, challenge, reply.signature).Ok?)
    ensures Opens(r, Run(config, r, OpeningSteps(r, capacity, challenge, reply, fetchOk)),
                  Opened(r.rows, capacity, challenge, reply, fetchOk), reply)
  {
    var s := |r.sessions|;
    if capacity == 0 {
      TwoSteps(config, r, Connect(challenge), Drop(s));
    } else {
      assert OpeningSteps(r, capacity, challenge, reply, fetchOk)
             == [Connect(challenge), Answer(s, reply), Confirm(s, false)];
      ThreeSteps(config, r, Connect(challenge), Answer(s, reply), Confirm(s, false));
      assert Frames([ChallengeText(challenge)]) == [];
    }
  }

  function Due(r: Relay, reply: Reply, fetchOk: bool): seq<QueuedMessage>
    requires reply.AuthReply? && reply.key.KeyText?
  {
    if fetchOk then RowsFor(r.rows, reply.key.key.mailbox) else []
  }

  /** The session with count of its rows sent. */
  function Sent(begun: Relay, s: nat, due: seq<QueuedMessage>, count: nat): Relay
    requires s < |begun.sessions| && count <= |due|
  {
    With(begun, s, begun.sessions[s].(drained := count, frames := due[..count]))
  }

  lemma RowsOfBegun(config: Config, begun: Relay, s: nat, due: seq<QueuedMessage>, count: nat, last: Step)
    requires InPhase(begun, s, Draining) && count <= |due|
    requires begun.sessions[s].fetched == due && begun.sessions[s].drained == 0 && begun.sessions[s].frames == []
    ensures Run(config, begun, Rows(s, count) + [last]) == Next(config, Sent(begun, s, due, count), last)
  {
    RunSplit(config, begun, Rows(s, count), [last]);
    RowsSent(config, begun, s, count);
    assert [] + due[0..count] == due[..count];
    var sent := Run(config, begun, Rows(s, count));
    assert Run(config, sent, [last]) == Next(config, sent, last);
  }

  lemma DrainedRun(config: Config, r: Relay, capacity: nat, challenge: nat, reply: Reply, fetchOk: bool)
    requires capacity >= 2
    requires reply.AuthReply? && VerifyChallenge(reply.key, challenge, reply.signature).Ok?
    ensures var s, due := |r.sessions|, Due(r, reply, fetchOk);
            var count := Min(capacity - 2, |due|);
            Run(config, r, OpeningSteps(r, capacity, challenge, reply, fetchOk))
            == Next(config, Sent(Begun(r, challenge, reply, fetchOk), s, due, count),
                    if count == |due| then Subscribe(s) else SendRow(s, false))
  {
    var s, due := |r.sessions|, Due(r, reply, fetchOk);
    var count := Min(capacity - 2, |due|);
    var start := [Connect(challenge), Answer(s, reply), Confirm(s, true), Fetch(s, fetchOk)];
    var last := if count == |due| then Subscribe(s) else SendRow(s, false);
    assert OpeningSteps(r, capacity, challenge, reply, fetchOk) == start + (Rows(s, count) + [last]);
    RunSplit(config, r, start, Rows(s, count) + [last]);
    FourSteps(config, r, challenge, reply, fetchOk);
    RowsOfBegun(config, Begun(r, challenge, reply, fetchOk), s, due, count, last);
  }

  /** The last step of the opening, on a session with count of its rows sent. */
  lemma LastStep(config: Config, r: Relay, challenge: nat, reply: Reply, fetchOk: bool, count: nat)
    requires |r.sessions| !in r.channels
    requires reply.AuthReply? && VerifyChallenge(reply.key, challenge, reply.signature).Ok?
    requires count <= |Due(r, reply, fetchOk)|
    ensures var s, due, hash := |r.sessions|, Due(r, reply, fetchOk), reply.key.key.mailbox;
            var streaming := count == |due|;
            var rows := if fetchOk then RowsWithout(r.rows, hash) else r.rows;
            Opens(r, Next(config, Sent(Begun(r, challenge, reply, fetchOk), s, due, count),
                          if streaming then Subscribe(s) else SendRow(s, false)),
                  Opening(Texts(due[..count]), rows, streaming), reply)
  {
    FramesOfTexts(Due(r, reply, fetchOk)[..count]);
  }

  lemma OpensBySentFrames(r: Relay, after: Relay, o: Opening, q: Opening, reply: Reply)
    requires Opens(r, after, o, reply) && Frames(o.sent) == Frames(q.sent) && o.rows == q.rows
             && o.streaming == q.streaming
    ensures Opens(r, after, q, reply)
  {
  }

  lemma DrainedOpening(config: Config, r: Relay, capacity: nat, challenge: nat, reply: Reply, fetchOk: bool)
    requires |r.sessions| !in r.channels && capacity >= 2
    requires reply.AuthReply? && VerifyChallenge(reply.key, challenge, reply.signature).Ok?
    ensures Opens(r, Run(config, r, OpeningSteps(r, capacity, challenge, reply, fetchOk)),
                  Opened(r.rows, capacity, challenge, reply, fetchOk), reply)
  {
    var due := Due(r, reply, fetchOk);
    var count := Min(capacity - 2, |due|);
    var rows := if fetchOk then RowsWithout(r.rows, reply.key.key.mailbox) else r.rows;
    DrainedRun(config, r, capacity, challenge, reply, fetchOk);
    LastStep(config, r, challenge, reply, fetchOk, count);
    DrainedSends(r, capacity, challenge, reply, fetchOk);
    FramesOfTexts(due[..count]);
    OpensBySentFrames(r, Run(config, r, OpeningSteps(r, capacity, challenge, reply, fetchOk)),
                      Opening(Texts(due[..count]), rows, count == |due|),
                      Opened(r.rows, capacity, challenge, reply, fetchOk), reply);
  }

  lemma DrainedSends(r: Relay, capacity: nat, challenge: nat, reply: Reply, fetchOk: bool)
    requires capacity >= 2
    requires reply.AuthReply? && VerifyChallenge(reply.key, challenge, reply.signature).Ok?
    ensures var due := Due(r, reply, fetchOk);
            Frames(Opened(r.rows, capacity, challenge, reply, fetchOk).sent) == due[..Min(capacity - 2, |due|)]
  {
    var due := Due(r, reply, fetchOk);
    var hash := reply.key.key.mailbox;
    assert [ChallengeText(challenge)] + [AuthenticatedText(hash)]
           == [ChallengeText(challenge), AuthenticatedText(hash)];
    FramesOfOpening(challenge, hash, due[..Min(capacity - 2, |due|)]);
  }

  /** An uninterrupted opening is a run of the session's steps. */
  lemma OpeningIsSteps(config: Config, r: Relay, capacity: nat, challenge: nat, reply: Reply, fetchOk: bool)
    requires |r.sessions| !in r.channels
    ensures Opens(r, Run(config, r, OpeningSteps(r, capacity, challenge, reply, fetchOk)),
                  Opened(r.rows, capacity, challenge, reply, fetchOk), reply)
  {
    if capacity > 0 && !(reply.AuthReply? && VerifyChallenge(reply.key, challenge, reply.signature).Ok?) {
      RefusedOpening(config, r, capacity, challenge, reply, fetchOk);
    } else if capacity <= 1 {
      BrokenOpening(config, r, capacity, challenge, reply, fetchOk);
    } else {
      DrainedOpening(config, r, capacity, challenge, reply, fetchOk);
    }
  }

  // ---- What a failing socket costs ---------------------------------------------------------------

  predicate Accepts(challenge: nat, reply: Reply) {
    reply.AuthReply? && VerifyChallenge(reply.key, challenge, reply.signature).Ok?
  }

  lemma TextsHold(rows: seq<QueuedMessage>, m: QueuedMessage)
    ensures MessageText(m) in Texts(rows) <==> m in rows
  {
    if m in rows {
      var i :| 0 <= i < |rows| && rows[i] == m;
      assert Texts(rows)[i] == MessageText(m);
    }
  }

  /** What an accepted opening writes and takes. */
  lemma AcceptedOpening(rows: seq<QueuedMessage>, capacity: nat, challenge: nat, reply: Reply, m: QueuedMessage)
    requires Accepts(challenge, reply) && capacity >= 2
    ensures var due := RowsFor(rows, reply.key.key.mailbox);
            var o := Opened(rows, capacity, challenge, reply, true);
            && (MessageText(m) in o.sent <==> m in due[..Min(capacity - 2, |due|)])
            && o.rows == RowsWithout(rows, reply.key.key.mailbox)
  {
    var due := RowsFor(rows, reply.key.key.mailbox);
    TextsHold(due[..Min(capacity - 2, |due|)], m);
  }

  /**
    Whatever the reply and wherever the socket fails: every row that leaves the table is written to the
    socket if and only if the socket takes the greeting and all the rows that were due.
   */
  lemma TakenRowsAreSentIff(rows: seq<QueuedMessage>, capacity: nat, challenge: nat, reply: Reply, fetchOk: bool)
    requires Increasing(rows)
    ensures var o := Opened(rows, capacity, challenge, reply, fetchOk);
            (forall m | m in rows && m !in o.rows :: MessageText(m) in o.sent)
            <==> (Accepts(challenge, reply) && fetchOk && capacity >= 2 ==>
                  |RowsFor(rows, reply.key.key.mailbox)| + 2 <= capacity)
  {
    var o := Opened(rows, capacity, challenge, reply, fetchOk);
    if Accepts(challenge, reply) && fetchOk && capacity >= 2 {
      var due := RowsFor(rows, reply.key.key.mailbox);
      FetchPartitions(rows, reply.key.key.mailbox);
      if |due| + 2 <= capacity {
        forall m | m in rows && m !in o.rows
          ensures MessageText(m) in o.sent
        {
          AcceptedOpening(rows, capacity, challenge, reply, m);
          assert due[..|due|] == due;
        }
      } else {
        var lost := due[capacity - 2];
        AcceptedOpening(rows, capacity, challenge, reply, lost);
        assert lost in due && lost !in due[..capacity - 2];
      }
    } else {
      assert o.rows == rows;
    }
  }

  /** One queued message, and a socket that takes the greeting only: the message is gone. */
  lemma RowLost(m: QueuedMessage, challenge: nat, key: VerifyingKey)
    requires m.recipient == key.mailbox
    ensures var reply := AuthReply(KeyText(key), SignatureText(Signed(key, challenge)));
            var o := Opened([m], 2, challenge, reply, true);
            o.rows == [] && o.sent == [ChallengeText(challenge), AuthenticatedText(key.mailbox)]
  {
    assert RowsFor([m], key.mailbox) == [m] + RowsFor([], key.mailbox);
    assert RowsWithout([m], key.mailbox) == RowsWithout([], key.mailbox);
  }
}
