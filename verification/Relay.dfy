/**
  The relay as a step system. POST handlers, WebSocket sessions and the clean-up worker each run as a
  few atomic steps on the queue table and the peer registry, and interleave without restriction.
  Clock readings, database failures and socket failures are parameters of the steps.
 */
module Relay {
  import opened Wrappers
  import opened MessageTable
  import opened PeerRegistry
  import AsciiText

  // ---- Authentication --------------------------------------------------------------------------

  predicate IsLowerHex(s: string) {
    |s| == 64 && forall i | 0 <= i < |s| :: AsciiText.IsDigit(s[i]) || 'a' <= s[i] <= 'f'
  }

  /** A SHA-256 as the hex encoder writes it. */
  type Sha256Hex = s: string | IsLowerHex(s) witness seq(64, _ => '0')

  /** A 32-byte Ed25519 key, named by the hex SHA-256 of its bytes. */
  datatype VerifyingKey = VerifyingKey(mailbox: Sha256Hex)

  datatype Signature = Signed(signer: VerifyingKey, challenge: nat) | Garbage

  datatype KeyText = KeyNotHex | KeyWrongLength | KeyNotAPoint | KeyText(key: VerifyingKey)

  datatype SignatureText = SignatureNotHex | SignatureWrongLength | SignatureText(signature: Signature)

  datatype AuthError = InvalidKeyHex | InvalidKeyLength | InvalidKey | InvalidSignatureHex | InvalidSignatureLength
    | BadSignature

  function VerifyChallenge(key: KeyText, challenge: nat, signature: SignatureText): Result<VerifyingKey, AuthError> {
    match key
    case KeyNotHex => Err(InvalidKeyHex)
    case KeyWrongLength => Err(InvalidKeyLength)
    case KeyNotAPoint => Err(InvalidKey)
    case KeyText(k) =>
      match signature
      case SignatureNotHex => Err(InvalidSignatureHex)
      case SignatureWrongLength => Err(InvalidSignatureLength)
      case SignatureText(sig) => if sig == Signed(k, challenge) then Ok(k) else Err(BadSignature)
  }

  /** What arrives, or does not, in the ten seconds after the challenge. */
  datatype Reply = AuthReply(key: KeyText, signature: SignatureText) | OtherText | NoReply

  // ---- Requests --------------------------------------------------------------------------------

  datatype Config = Config(maxPayloadBytes: nat, ttl: int)

  datatype Request = Request(recipient: string, payload: string, nonce: string)

  datatype RequestError = BadRecipient | BadPayloadSize | BadNonce

  function Validate(config: Config, request: Request): Option<RequestError> {
    if |request.recipient| != 64
      || exists i :: 0 <= i < |request.recipient| && !AsciiText.IsHexDigit(request.recipient[i]) then Some(BadRecipient)
    else if |request.payload| == 0 || |request.payload| > config.maxPayloadBytes then Some(BadPayloadSize)
    else if |request.nonce| == 0 || |request.nonce| > 256 then Some(BadNonce)
    else None
  }

  // ---- State -----------------------------------------------------------------------------------

  /** How far the handler of an accepted request has come. */
  datatype Stage =
    | Validated            // before dispatch_live
    | Unclaimed            // dispatched to nobody, before enqueue_message
    | Pushed(stamp: nat)   // live: pushed by the dispatch with this number
    | Queued(id: nat)      // in the table under this id, at least at first
    | Lost                 // the INSERT failed and the sender was told so

  datatype Post = Post(message: QueuedMessage, stage: Stage)

  datatype Phase =
    | AwaitingAuth
    | Confirming           // authenticated, about to say so
    | Fetching
    | Draining             // sending the fetched rows
    | Streaming
    | Closed

  /**
    One WebSocket session and the payload frames it has put on its socket. `upTo` is an observer's note,
    the last id handed out when its fetch succeeded; no step reads it.
   */
  datatype WsSession = WsSession(
    challenge: nat,
    phase: Phase,
    key: Option<VerifyingKey>,
    signature: Option<Signature>,
    fetched: seq<QueuedMessage>,
    upTo: Option<nat>,
    drained: nat,          // rows of fetched sent so far
    streamed: nat,         // live messages sent so far
    frames: seq<QueuedMessage>)

  datatype Relay = Relay(
    posts: seq<Post>,
    sessions: seq<WsSession>,
    rows: seq<QueuedMessage>,
    lastId: nat,
    peers: Peers,
    channels: Channels,    // the channel of session s has id s
    dispatches: nat,
    removed: seq<(QueuedMessage, int)>)   // rows deleted by a tick, with the time it read

  const Empty: Relay := Relay([], [], [], 0, map[], map[], 0, [])

  datatype Step =
    | Arrive(request: Request, now: int)
    | Dispatch(post: nat)
    | Enqueue(post: nat, now: int, ok: bool)
    | Connect(challenge: nat)
    | Answer(session: nat, reply: Reply)
    | Confirm(session: nat, ok: bool)
    | Fetch(session: nat, ok: bool)
    | SendRow(session: nat, ok: bool)
    | Subscribe(session: nat)
    | Stream(session: nat, ok: bool)
    | Drop(session: nat)
    | Tick(now: int)

  // ---- POST handlers ---------------------------------------------------------------------------

  function Arrived(config: Config, r: Relay, request: Request, now: int): Relay {
    if Validate(config, request).Some? then r
    else
      var m := QueuedMessage(0, request.recipient, request.payload, request.nonce, now, now + config.ttl, |r.posts|);
      r.(posts := r.posts + [Post(m, Validated)])
  }

  function WithStage(r: Relay, p: nat, stage: Stage): Relay
    requires p < |r.posts|
  {
    r.(posts := r.posts[p := r.posts[p].(stage := stage)])
  }

  function Dispatched(r: Relay, p: nat): Relay {
    if p >= |r.posts| || !r.posts[p].stage.Validated? then r
    else
      var m := r.posts[p].message;
      var live := ReachesSomeone(r.peers, r.channels, m);
      WithStage(r, p, if live then Pushed(r.dispatches) else Unclaimed).(
        peers := PeersAfterDispatch(r.peers, r.channels, m),
        channels := ChannelsAfterDispatch(r.peers, r.channels, r.dispatches, m),
        dispatches := r.dispatches + 1)
  }

  function Enqueued(config: Config, r: Relay, p: nat, now: int, ok: bool): Relay {
    if p >= |r.posts| || !r.posts[p].stage.Unclaimed? then r
    else if !ok then WithStage(r, p, Lost)
    else
      var m := r.posts[p].message;
      WithStage(r, p, Queued(r.lastId + 1)).(
        lastId := r.lastId + 1,
        rows := r.rows + [QueuedMessage(r.lastId + 1, m.recipient, m.payload, m.nonce, now, now + config.ttl, p)])
  }

  // ---- WebSocket sessions ----------------------------------------------------------------------

  function Connected(r: Relay, challenge: nat): Relay {
    r.(sessions := r.sessions + [WsSession(challenge, AwaitingAuth, None, None, [], None, 0, 0, [])])
  }

  predicate InPhase(r: Relay, s: nat, phase: Phase) {
    s < |r.sessions| && r.sessions[s].phase == phase
  }

  function With(r: Relay, s: nat, session: WsSession): Relay
    requires s < |r.sessions|
  {
    r.(sessions := r.sessions[s := session])
  }

  function Answered(r: Relay, s: nat, reply: Reply): Relay {
    if !InPhase(r, s, AwaitingAuth) then r
    else
      var session := r.sessions[s];
      if reply.AuthReply? && VerifyChallenge(reply.key, session.challenge, reply.signature).Ok? then
        With(r, s, session.(phase := Confirming, key := Some(reply.key.key),
                            signature := Some(reply.signature.signature)))
      else With(r, s, session.(phase := Closed))
  }

  function Confirmed(r: Relay, s: nat, ok: bool): Relay {
    if !InPhase(r, s, Confirming) then r
    else With(r, s, r.sessions[s].(phase := if ok then Fetching else Closed))
  }

  function Hash(session: WsSession): string {
    if session.key.Some? then session.key.value.mailbox else ""
  }

  /** A database error skips the drain and goes on. */
  function Fetched(r: Relay, s: nat, ok: bool): Relay {
    if !InPhase(r, s, Fetching) then r
    else if !ok then With(r, s, r.sessions[s].(phase := Draining))
    else
      var hash := Hash(r.sessions[s]);
      With(r, s, r.sessions[s].(phase := Draining, fetched := RowsFor(r.rows, hash), upTo := Some(r.lastId)))
      .(rows := RowsWithout(r.rows, hash))
  }

  function RowSent(r: Relay, s: nat, ok: bool): Relay {
    if !InPhase(r, s, Draining) || r.sessions[s].drained >= |r.sessions[s].fetched| then r
    else if !ok then With(r, s, r.sessions[s].(phase := Closed))
    else
      var session := r.sessions[s];
      With(r, s, session.(drained := session.drained + 1,
                          frames := session.frames + [session.fetched[session.drained]]))
  }

  function SubscribedSession(r: Relay, s: nat): Relay {
    if !InPhase(r, s, Draining) || r.sessions[s].drained < |r.sessions[s].fetched| then r
    else
      With(r, s, r.sessions[s].(phase := Streaming)).(
        channels := r.channels[s := Channel(true, [], 0)],
        peers := Subscribed(r.peers, Hash(r.sessions[s]), s))
  }

  function CloseChannel(channels: Channels, s: nat): Channels {
    if s in channels then channels[s := channels[s].(open := false)] else channels
  }

  function Dropped(r: Relay, s: nat): Relay {
    if s >= |r.sessions| then r
    else With(r, s, r.sessions[s].(phase := Closed)).(channels := CloseChannel(r.channels, s))
  }

  /** The send task takes one message; when the socket refuses it, the session ends. */
  function Streamed(r: Relay, s: nat, ok: bool): Relay {
    if !InPhase(r, s, Streaming) || s !in r.channels || r.channels[s].taken >= |r.channels[s].pushed| then r
    else
      var channel := r.channels[s];
      var taken := r.(channels := r.channels[s := channel.(taken := channel.taken + 1)]);
      if !ok then Dropped(taken, s)
      else
        var session := r.sessions[s];
        With(taken, s, session.(streamed := session.streamed + 1,
                                frames := session.frames + [channel.pushed[channel.taken].1]))
  }

  // ---- The worker ------------------------------------------------------------------------------

  function Stamped(rows: seq<QueuedMessage>, now: int): seq<(QueuedMessage, int)> {
    seq(|rows|, i requires 0 <= i < |rows| => (rows[i], now))
  }

  function Cleaned(r: Relay, now: int): Relay {
    r.(rows := Unexpired(r.rows, now), removed := r.removed + Stamped(Expired(r.rows, now), now))
  }

  // ---- Runs ------------------------------------------------------------------------------------

  function Next(config: Config, r: Relay, step: Step): Relay {
    match step
    case Arrive(request, now) => Arrived(config, r, request, now)
    case Dispatch(p) => Dispatched(r, p)
    case Enqueue(p, now, ok) => Enqueued(config, r, p, now, ok)
    case Connect(challenge) => Connected(r, challenge)
    case Answer(s, reply) => Answered(r, s, reply)
    case Confirm(s, ok) => Confirmed(r, s, ok)
    case Fetch(s, ok) => Fetched(r, s, ok)
    case SendRow(s, ok) => RowSent(r, s, ok)
    case Subscribe(s) => SubscribedSession(r, s)
    case Stream(s, ok) => Streamed(r, s, ok)
    case Drop(s) => Dropped(r, s)
    case Tick(now) => Cleaned(r, now)
  }

  function Run(config: Config, r: Relay, steps: seq<Step>): Relay
    decreases |steps|
  {
    if steps == [] then r else Run(config, Next(config, r, steps[0]), steps[1..])
  }
}
