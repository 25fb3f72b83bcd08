/** One connection of the WebSocket client, from the upgrade response to the close frame, fed chunk by chunk. */
module WebSocketReader {
  import opened Wrappers
  import opened WebSocketFrames
  import opened Sequences
  import Search

  /** The empty line that ends the upgrade response. */
  const HEADER_END: seq<bv8> := [13, 10, 13, 10]

  /** The bytes of "HTTP/1.1 101". */
  const SWITCHING_PROTOCOLS: seq<bv8> := [0x48, 0x54, 0x54, 0x50, 0x2f, 0x31, 0x2e, 0x31, 0x20, 0x31, 0x30, 0x31]

  /** What the client keeps of a connection, and the frames it has dispatched so far. */
  datatype Connection =
    | Handshaking(raw: seq<bv8>)
    | Rejected
    | Open(buffer: seq<bv8>, frames: seq<Frame>)
    | Closed(frames: seq<Frame>)

  /** The state after the reading loop has run on everything the buffer holds. */
  function Read(frames: seq<Frame>, bytes: seq<bv8>): Connection {
    var d := Drain(bytes);
    if d.closed then Closed(frames + d.frames) else Open(d.rest, frames + d.frames)
  }

  /** The upgrade response, once its empty line is there; what follows it is the start of the stream. */
  function Upgrade(raw: seq<bv8>): Connection {
    match Search.IndexOf(raw, HEADER_END)
    case None => Handshaking(raw)
    case Some(end) =>
      if SWITCHING_PROTOCOLS <= raw[..end] then Read([], raw[end + 4..]) else Rejected
  }

  function Feed(c: Connection, chunk: seq<bv8>): Connection {
    match c
    case Handshaking(raw) => Upgrade(raw + chunk)
    case Open(buffer, frames) => Read(frames, buffer + chunk)
    case Rejected => c
    case Closed(frames) => c
  }

  const CONNECTED := Handshaking([])

  function FeedAll(c: Connection, chunks: seq<seq<bv8>>): Connection
    decreases |chunks|
  {
    if chunks == [] then c else FeedAll(Feed(c, chunks[0]), chunks[1..])
  }

  function Joined(chunks: seq<seq<bv8>>): seq<bv8> {
    if chunks == [] then [] else chunks[0] + Joined(chunks[1..])
  }

  /** What is kept is never more than is needed: an unfinished response, or an unfinished frame. */
  predicate Settled(c: Connection) {
    match c
    case Handshaking(raw) => Search.IndexOf(raw, HEADER_END).None?
    case Open(buffer, frames) => ParseFrame(buffer).Incomplete?
    case Rejected => true
    case Closed(frames) => true
  }

  lemma FeedSettles(c: Connection, chunk: seq<bv8>)
    requires Settled(c)
    ensures Settled(Feed(c, chunk))
  {
    match c
    case Handshaking(raw) =>
      var end := Search.IndexOf(raw + chunk, HEADER_END);
      if end.Some? {
        RestIncomplete((raw + chunk)[end.value + 4..]);
      }
    case Open(buffer, frames) => RestIncomplete(buffer + chunk);
    case Rejected =>
    case Closed(frames) =>
  }

  /** Reading as a whole, once it is known how the frames of two portions add up. */
  lemma ReadSplit(frames: seq<Frame>, bytes: seq<bv8>, more: seq<bv8>)
    ensures Feed(Read(frames, bytes), more) == Read(frames, bytes + more)
  {
    DrainSplit(bytes, more);
    var first := Drain(bytes);
    if first.closed {
      assert Read(frames, bytes) == Closed(frames + first.frames);
    } else {
      assert Read(frames, bytes) == Open(first.rest, frames + first.frames);
      Associate(frames, first.frames, Drain(first.rest + more).frames);
    }
  }

  lemma UpgradeSplit(raw: seq<bv8>, more: seq<bv8>)
    ensures Feed(Upgrade(raw), more) == Upgrade(raw + more)
  {
    match Search.IndexOf(raw, HEADER_END)
    case None =>
    case Some(end) =>
      Search.IndexOfStable(raw, HEADER_END, more);
      assert (raw + more)[..end] == raw[..end];
      assert (raw + more)[end + 4..] == raw[end + 4..] + more;
      ReadSplit([], raw[end + 4..], more);
  }

  lemma HandshakingSplit(raw: seq<bv8>, chunk: seq<bv8>, more: seq<bv8>)
    ensures Feed(Upgrade(raw + chunk), more) == Upgrade(raw + (chunk + more))
  {
    UpgradeSplit(raw + chunk, more);
    Associate(raw, chunk, more);
  }

  lemma OpenSplit(frames: seq<Frame>, buffer: seq<bv8>, chunk: seq<bv8>, more: seq<bv8>)
    ensures Feed(Read(frames, buffer + chunk), more) == Read(frames, buffer + (chunk + more))
  {
    ReadSplit(frames, buffer + chunk, more);
    Associate(buffer, chunk, more);
  }

  /** Two chunks do what their concatenation does, wherever the cut falls. */
  lemma FeedSplit(c: Connection, chunk: seq<bv8>, more: seq<bv8>)
    ensures Feed(Feed(c, chunk), more) == Feed(c, chunk + more)
  {
    match c
    case Handshaking(raw) => HandshakingSplit(raw, chunk, more);
    case Open(buffer, frames) => OpenSplit(frames, buffer, chunk, more);
    case Rejected =>
    case Closed(frames) =>
  }

  lemma FeedNothing(c: Connection)
    requires Settled(c)
    ensures Feed(c, []) == c
  {
    match c
    case Handshaking(raw) => assert raw + [] == raw;
    case Open(buffer, frames) =>
      assert buffer + [] == buffer;
      assert frames + [] == frames;
    case Rejected =>
    case Closed(frames) =>
  }

  /** However a byte stream is cut into chunks, the client ends where the whole stream at once would take it. */
  lemma {:induction false} ChunkIndependence(c: Connection, chunks: seq<seq<bv8>>)
    requires Settled(c)
    ensures FeedAll(c, chunks) == Feed(c, Joined(chunks))
    ensures Settled(FeedAll(c, chunks))
    decreases |chunks|
  {
    if chunks == [] {
      FeedNothing(c);
    } else {
      FeedSettles(c, chunks[0]);
      ChunkIndependence(Feed(c, chunks[0]), chunks[1..]);
      FeedSplit(c, chunks[0], Joined(chunks[1..]));
    }
  }

  /**
   * From the first byte of the response on: frames sent after an accepting response arrive as they were,
   * under every chunking, and nothing is left in the buffer.
   */
  lemma StreamDelivered(response: seq<bv8>, frames: seq<Frame>, masks: seq<Option<Mask>>, chunks: seq<seq<bv8>>)
    requires |response| >= 4 && response[|response| - 4..] == HEADER_END
    requires Search.IndexOf(response, HEADER_END) == Some(|response| - 4)
    requires SWITCHING_PROTOCOLS <= response[..|response| - 4]
    requires |masks| == |frames|
    requires forall f | f in frames :: f.opcode < 16 && f.opcode != CLOSE && |f.payload| < MAX_EXACT
    requires Joined(chunks) == response + EncodeAll(frames, masks)
    ensures FeedAll(CONNECTED, chunks) == Open([], frames)
  {
    var stream := EncodeAll(frames, masks);
    assert Search.IndexOf<bv8>([], HEADER_END).None?;
    ChunkIndependence(CONNECTED, chunks);
    assert [] + (response + stream) == response + stream;
    Upgraded(response, stream);
    StreamRead(frames, masks);
  }

  lemma Upgraded(response: seq<bv8>, stream: seq<bv8>)
    requires |response| >= 4 && response[|response| - 4..] == HEADER_END
    requires Search.IndexOf(response, HEADER_END) == Some(|response| - 4)
    requires SWITCHING_PROTOCOLS <= response[..|response| - 4]
    ensures Upgrade(response + stream) == Read([], stream)
  {
    Search.IndexOfStable(response, HEADER_END, stream);
    assert (response + stream)[|response|..] == stream;
    assert (response + stream)[..|response| - 4] == response[..|response| - 4];
  }

  lemma StreamRead(frames: seq<Frame>, masks: seq<Option<Mask>>)
    requires |masks| == |frames|
    requires forall f | f in frames :: f.opcode < 16 && f.opcode != CLOSE && |f.payload| < MAX_EXACT
    ensures Read([], EncodeAll(frames, masks)) == Open([], frames)
  {
    StreamRoundTrip(frames, masks);
    assert [] + frames == frames;
  }

  /** And with a close frame among them: what came before it arrives, what comes after it does not. */
  lemma StreamClosed(response: seq<bv8>, frames: seq<Frame>, masks: seq<Option<Mask>>, close: Frame,
                     mask: Option<Mask>, more: seq<bv8>, chunks: seq<seq<bv8>>)
    requires |response| >= 4 && response[|response| - 4..] == HEADER_END
    requires Search.IndexOf(response, HEADER_END) == Some(|response| - 4)
    requires SWITCHING_PROTOCOLS <= response[..|response| - 4]
    requires |masks| == |frames|
    requires forall f | f in frames :: f.opcode < 16 && f.opcode != CLOSE && |f.payload| < MAX_EXACT
    requires close.opcode == CLOSE && |close.payload| < MAX_EXACT
    requires Joined(chunks) == response + (EncodeAll(frames, masks) + (OnWire(close, mask) + more))
    ensures FeedAll(CONNECTED, chunks) == Closed(frames + [close])
  {
    var stream := EncodeAll(frames, masks) + (OnWire(close, mask) + more);
    assert Search.IndexOf<bv8>([], HEADER_END).None?;
    ChunkIndependence(CONNECTED, chunks);
    assert [] + (response + stream) == response + stream;
    Upgraded(response, stream);
    StreamUpToClose(frames, masks, close, mask, more);
    assert [] + (frames + [close]) == frames + [close];
  }

  /** ASCII text as bytes. */
  function Bytes(s: string): seq<bv8>
    requires forall i | 0 <= i < |s| :: s[i] < 128 as char
  {
    seq(|s|, i requires 0 <= i < |s| => s[i] as bv8)
  }

  lemma ResponseBytes()
    ensures SWITCHING_PROTOCOLS == Bytes("HTTP/1.1 101") && HEADER_END == Bytes("\r\n\r\n")
  {
  }

  /** A complete response is refused, however it is cut, if and only if it does not begin with "HTTP/1.1 101". */
  lemma RefusedIff(response: seq<bv8>, more: seq<bv8>, chunks: seq<seq<bv8>>)
    requires Search.IndexOf(response + Bytes("\r\n\r\n"), Bytes("\r\n\r\n")) == Some(|response|)
    requires Joined(chunks) == response + Bytes("\r\n\r\n") + more
    ensures FeedAll(CONNECTED, chunks).Rejected? <==> !(Bytes("HTTP/1.1 101") <= response)
    ensures !FeedAll(CONNECTED, chunks).Handshaking?
  {
    ResponseBytes();
    var all := response + HEADER_END;
    assert Search.IndexOf<bv8>([], HEADER_END).None?;
    ChunkIndependence(CONNECTED, chunks);
    assert [] + Joined(chunks) == Joined(chunks);
    Search.IndexOfStable(all, HEADER_END, more);
    assert (all + more)[..|response|] == response;
  }
}
