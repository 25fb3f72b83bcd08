/** The WebSocket client's receive loop and frame writer, on its own fields. */
module WebSocketClient {
  import opened WebSocketFrames
  import opened WebSocketReader
  import opened Sequences
  import Search

  /** Which listener the socket has. */
  datatype Phase = Upgrading | Streaming | Refused | Disconnected

  const TEXT: bv8 := 1

  /** The payloads of the text frames, which go to the message handler. */
  function Texts(frames: seq<Frame>): seq<seq<bv8>> {
    if frames == [] then []
    else
      var last := frames[|frames| - 1];
      Texts(frames[..|frames| - 1]) + if last.opcode == TEXT then [last.payload] else []
  }

  /** The pings among the frames. */
  function Pings(frames: seq<Frame>): nat {
    if frames == [] then 0
    else Pings(frames[..|frames| - 1]) + if frames[|frames| - 1].opcode == PING then 1 else 0
  }

  /** What is written on a frame. */
  function Reply(frame: Frame, mask: Mask): seq<seq<bv8>> {
    if frame.opcode == PING then [Encode(PONG, frame.payload, mask)] else []
  }

  /** What is written for the frames: every ping comes back as a pong, under the next mask drawn. */
  function Pongs(frames: seq<Frame>, masks: nat -> Mask, drawn: nat): seq<seq<bv8>> {
    if frames == [] then []
    else
      var earlier, last := frames[..|frames| - 1], frames[|frames| - 1];
      Pongs(earlier, masks, drawn) + Reply(last, masks(drawn + Pings(earlier)))
  }

  /** What the client has done with the stream: dispatched frames, handed out texts, written frames, drawn masks. */
  datatype Log = Log(dispatched: seq<Frame>, texts: seq<seq<bv8>>, written: seq<seq<bv8>>, drawn: nat)

  function AfterOne(log: Log, frame: Frame, masks: nat -> Mask): Log {
    Log(
      log.dispatched + [frame],
      log.texts + if frame.opcode == TEXT then [frame.payload] else [],
      log.written + Reply(frame, masks(log.drawn)),
      log.drawn + if frame.opcode == PING then 1 else 0)
  }

  /** One frame after the other, in order. */
  function After(log: Log, frames: seq<Frame>, masks: nat -> Mask): Log {
    if frames == [] then log
    else AfterOne(After(log, frames[..|frames| - 1], masks), frames[|frames| - 1], masks)
  }

  lemma OneMore(log: Log, frames: seq<Frame>, frame: Frame, masks: nat -> Mask)
    ensures After(log, frames + [frame], masks) == AfterOne(After(log, frames, masks), frame, masks)
  {
    assert (frames + [frame])[..|frames|] == frames;
  }

  /** All texts reach the handler and all pings are answered, in the order of the frames. */
  lemma {:induction false} AfterMeans(log: Log, frames: seq<Frame>, masks: nat -> Mask)
    ensures After(log, frames, masks) == Log(
              log.dispatched + frames,
              log.texts + Texts(frames),
              log.written + Pongs(frames, masks, log.drawn),
              log.drawn + Pings(frames))
  {
    if frames == [] {
      assert log.dispatched + [] == log.dispatched && log.texts + [] == log.texts && log.written + [] == log.written;
    } else {
      var earlier, last := frames[..|frames| - 1], frames[|frames| - 1];
      AfterMeans(log, earlier, masks);
      assert earlier + [last] == frames;
      Associate(log.dispatched, earlier, [last]);
      Associate(log.texts, Texts(earlier), if last.opcode == TEXT then [last.payload] else []);
      Associate(log.written, Pongs(earlier, masks, log.drawn), Reply(last, masks(log.drawn + Pings(earlier))));
    }
  }

  /** The payloads of the pings, opcode 9, in order. */
  function PingPayloads(frames: seq<Frame>): seq<seq<bv8>> {
    if frames == [] then []
    else PingPayloads(frames[..|frames| - 1]) + PingPayload(frames[|frames| - 1])
  }

  /** The bytes are one pong, opcode 10, with this payload. */
  predicate IsPong(bytes: seq<bv8>, payload: seq<bv8>) {
    ParseFrame(bytes) == Complete(Frame(0xa, payload), |bytes|)
  }

  lemma PongIsPong(payload: seq<bv8>, mask: Mask)
    requires |payload| < MAX_EXACT
    ensures IsPong(Encode(PONG, payload, mask), payload)
  {
    FrameRoundTrip(PONG, payload, mask, []);
    assert Encode(PONG, payload, mask) + [] == Encode(PONG, payload, mask);
  }

  function PingPayload(frame: Frame): seq<seq<bv8>> {
    if frame.opcode == 0x9 then [frame.payload] else []
  }

  lemma {:induction false} PingsCounted(frames: seq<Frame>, masks: nat -> Mask, drawn: nat)
    ensures |PingPayloads(frames)| == |Pongs(frames, masks, drawn)| == Pings(frames)
  {
    if frames != [] {
      PingsCounted(frames[..|frames| - 1], masks, drawn);
    }
  }

  lemma {:induction false} PongAt(frames: seq<Frame>, masks: nat -> Mask, drawn: nat, i: nat)
    requires i < Pings(frames)
    ensures |PingPayloads(frames)| == |Pongs(frames, masks, drawn)| == Pings(frames)
    ensures Pongs(frames, masks, drawn)[i] == Encode(PONG, PingPayloads(frames)[i], masks(drawn + i))
  {
    var earlier := frames[..|frames| - 1];
    PingsCounted(frames, masks, drawn);
    PingsCounted(earlier, masks, drawn);
    if i < Pings(earlier) {
      PongAt(earlier, masks, drawn, i);
    }
  }

  /** What is written is one pong for every ping, in order and with its payload. */
  lemma PongsReadBack(frames: seq<Frame>, masks: nat -> Mask, drawn: nat, i: nat)
    requires i < |Pongs(frames, masks, drawn)|
    ensures |Pongs(frames, masks, drawn)| == |PingPayloads(frames)|
    ensures |PingPayloads(frames)[i]| < MAX_EXACT ==> IsPong(Pongs(frames, masks, drawn)[i], PingPayloads(frames)[i])
  {
    PingsCounted(frames, masks, drawn);
    PongAt(frames, masks, drawn, i);
    if |PingPayloads(frames)[i]| < MAX_EXACT {
      PongIsPong(PingPayloads(frames)[i], masks(drawn + i));
    }
  }

  /** The handler gets the payloads of the frames of opcode 1; those of 8 end the stream. */
  lemma TextsOf(frames: seq<Frame>, frame: Frame)
    ensures Texts([]) == []
    ensures Texts(frames + [frame]) == Texts(frames) + if frame.opcode == 0x1 then [frame.payload] else []
    ensures CLOSE == 0x8
  {
    assert (frames + [frame])[..|frames|] == frames;
  }

  /** The first two bytes, the length field, the mask and the masked payload, by position. */
  lemma FrameLayout(frame: seq<bv8>, header: seq<bv8>, opcode: bv8, payload: seq<bv8>, mask: Mask)
    requires header == [0x80 | (opcode & 0x0f)] + LengthField(|payload|)
    requires |frame| == |header| + 4 + |payload|
    requires frame[..|header|] == header
    requires frame[|header|..|header| + 4] == mask
    requires forall i | 0 <= i < |payload| :: frame[|header| + 4 + i] == payload[i] ^ mask[i % 4]
    ensures frame == Encode(opcode, payload, mask)
  {
    assert frame[|header| + 4..] == Unmask(payload, mask);
    assert frame == frame[..|header|] + frame[|header|..|header| + 4] + frame[|header| + 4..];
  }

  class TorWebSocketClient {
    var phase: Phase
    var rawBytes: seq<bv8>
    var buffer: seq<bv8>
    /** Text payloads handed to the message handler. */
    var texts: seq<seq<bv8>>
    /** Frames handed to the socket. */
    var written: seq<seq<bv8>>
    /** The masks of the random source, and how many are used up. */
    const masks: nat -> Mask
    var drawn: nat
    /** Every frame that was dispatched since the upgrade. */
    ghost var dispatched: seq<Frame>

    ghost function View(): Connection
      reads this
    {
      match phase
      case Upgrading => Handshaking(rawBytes)
      case Refused => Rejected
      case Streaming => Open(buffer, dispatched)
      case Disconnected => Closed(dispatched)
    }

    ghost function Logged(): Log
      reads this
    {
      Log(dispatched, texts, written, drawn)
    }

    constructor (masks: nat -> Mask)
      ensures View() == CONNECTED && texts == [] && written == [] && drawn == 0 && dispatched == [] && buffer == []
      ensures this.masks == masks
    {
      this.masks := masks;
      phase, rawBytes, buffer, texts, written, drawn := Upgrading, [], [], [], [], 0;
      dispatched := [];
    }

    /** Builds the frame in place in a buffer of exactly its size, and writes it. */
    method SendRawFrame(opcode: bv8, payload: seq<bv8>)
      modifies this`written, this`drawn
      ensures phase != Streaming ==> written == old(written) && drawn == old(drawn)
      ensures phase == Streaming ==>
              written == old(written) + [Encode(opcode, payload, masks(old(drawn)))] && drawn == old(drawn) + 1
    {
      if phase != Streaming {
        return;
      }
      var payloadLen := |payload|;
      var headerLen := 2 + 4;
      if payloadLen > 125 && payloadLen <= 0xffff {
        headerLen := headerLen + 2;
      } else if payloadLen > 0xffff {
        headerLen := headerLen + 8;
      }
      var frame := new bv8[headerLen + payloadLen](_ => 0);
      WriteHeader(frame, opcode, payloadLen);
      ghost var header := frame[..headerLen - 4];
      var mask := masks(drawn);
      var offset := headerLen - 4;
      forall i | 0 <= i < 4 {
        frame[offset + i] := mask[i];
      }
      offset := offset + 4;
      for i := 0 to payloadLen
        modifies frame
        invariant frame[..headerLen - 4] == header && frame[headerLen - 4..headerLen] == mask
        invariant forall j | 0 <= j < i :: frame[offset + j] == payload[j] ^ mask[j % 4]
      {
        frame[offset + i] := payload[i] ^ mask[i % 4];
      }
      FrameLayout(frame[..], header, opcode, payload, mask);
      written, drawn := written + [frame[..]], drawn + 1;
    }

    /** The opcode byte and the shortest of the three length forms, with the mask bit. */
    static method WriteHeader(frame: array<bv8>, opcode: bv8, payloadLen: nat)
      requires frame.Length >= 1 + |LengthField(payloadLen)|
      modifies frame
      ensures frame[..1 + |LengthField(payloadLen)|] == [0x80 | (opcode & 0x0f)] + LengthField(payloadLen)
    {
      frame[0] := 0x80 | (opcode & 0x0f);
      if payloadLen <= 125 {
        frame[1] := 0x80 | (payloadLen as bv8);
      } else if payloadLen <= 0xffff {
        frame[1] := 0x80 | 126;
        PutBE(frame, payloadLen, 2);
      } else {
        frame[1] := 0x80 | 127;
        PutBE(frame, payloadLen, 8);
      }
    }

    /** Writes a big-endian number at offset 2. */
    static method PutBE(frame: array<bv8>, n: nat, width: nat)
      requires frame.Length >= 2 + width
      modifies frame
      ensures frame[..2] == old(frame[..2]) && frame[2..2 + width] == WriteBE(n, width)
    {
      var bytes := WriteBE(n, width);
      forall i | 0 <= i < width {
        frame[2 + i] := bytes[i];
      }
    }

    method ProcessFrame(opcode: bv8, payload: seq<bv8>)
      requires phase == Streaming
      modifies this
      ensures rawBytes == old(rawBytes)
      ensures Logged() == AfterOne(old(Logged()), Frame(opcode, payload), masks)
      ensures phase == (if opcode == CLOSE then Disconnected else Streaming)
      ensures buffer == (if opcode == CLOSE then [] else old(buffer))
    {
      dispatched := dispatched + [Frame(opcode, payload)];
      if opcode == TEXT {
        texts := texts + [payload];
      } else if opcode == CLOSE {
        Disconnect();
      } else if opcode == PING {
        SendRawFrame(PONG, payload);
      }
    }

    method Disconnect()
      modifies this`phase, this`buffer
      ensures phase == Disconnected && buffer == []
    {
      buffer := [];
      phase := Disconnected;
    }

    /** Unmasks a payload byte by byte into a new buffer. */
    static method Unmasked(payload: seq<bv8>, mask: Mask) returns (bytes: seq<bv8>)
      ensures bytes == Unmask(payload, mask)
    {
      var unmasked := new bv8[|payload|](_ => 0);
      for i := 0 to |payload|
        invariant forall j | 0 <= j < i :: unmasked[j] == payload[j] ^ mask[j % 4]
      {
        unmasked[i] := payload[i] ^ mask[i % 4];
      }
      bytes := unmasked[..];
    }

    /** Parses one frame off the front, or reports that it is not all there. */
    static method TakeFrame(b: seq<bv8>) returns (p: Parsed)
      requires 2 <= |b| < MAX_EXACT
      ensures p == ParseFrame(b)
    {
      var opcode := b[0] & 0x0f;
      var isMasked := (b[1] & 0x80) != 0;
      var payloadLen := (b[1] & 0x7f) as nat;
      var offset := 2;
      if b[1] & 0x7f == 126 {
        if |b| < offset + 2 {
          return Incomplete;
        }
        payloadLen := ReadBE(b[offset..offset + 2]);
        offset := offset + 2;
      } else if b[1] & 0x7f == 127 {
        if |b| < offset + 8 {
          return Incomplete;
        }
        payloadLen := ReadBE(b[offset..offset + 8]);
        offset := offset + 8;
      }
      var mask: Mask := [0, 0, 0, 0];
      if isMasked {
        if |b| < offset + 4 {
          return Incomplete;
        }
        mask := b[offset..offset + 4];
        offset := offset + 4;
      }
      if |b| < offset + payloadLen {
        return Incomplete;
      }
      var payload := b[offset..offset + payloadLen];
      if isMasked {
        payload := Unmasked(payload, mask);
      }
      return Complete(Frame(opcode, payload), offset + payloadLen);
    }

    /** Appends the chunk and consumes every complete frame, stopping at a close. No buffer reaches 2^53 bytes. */
    method HandleRawData(chunk: seq<bv8>)
      requires phase == Streaming && |buffer| + |chunk| < MAX_EXACT
      modifies this
      ensures View() == Read(old(dispatched), old(buffer) + chunk)
      ensures Logged() == After(old(Logged()), Drain(old(buffer) + chunk).frames, masks)
      ensures rawBytes == old(rawBytes)
    {
      buffer := buffer + chunk;
      ghost var all, done := buffer, [];
      while |buffer| >= 2
        invariant |buffer| < MAX_EXACT && rawBytes == old(rawBytes)
        invariant Logged() == After(old(Logged()), done, masks)
        invariant phase == Streaming || (phase == Disconnected && buffer == [])
        invariant Remaining(all, done, buffer, phase == Disconnected)
        decreases |buffer|
      {
        var p := TakeFrame(buffer);
        if p.Incomplete? {
          break;
        }
        OneTaken(all, done, buffer);
        OneMore(old(Logged()), done, p.frame, masks);
        buffer := buffer[p.size..];
        ProcessFrame(p.frame.opcode, p.frame.payload);
        done := done + [p.frame];
      }
      AllTaken(all, done, buffer, phase == Disconnected);
      AfterMeans(old(Logged()), done, masks);
    }

    /** The frames taken so far, and what the buffer still holds, make up the whole reading. */
    static ghost predicate Remaining(all: seq<bv8>, done: seq<Frame>, buffer: seq<bv8>, closed: bool) {
      var d := Drain(buffer);
      Drain(all) == if closed then Reading(done, [], true) else Reading(done + d.frames, d.rest, d.closed)
    }

    static lemma OneTaken(all: seq<bv8>, done: seq<Frame>, buffer: seq<bv8>)
      requires Remaining(all, done, buffer, false) && ParseFrame(buffer).Complete?
      ensures var p := ParseFrame(buffer);
              var closed := p.frame.opcode == CLOSE;
              Remaining(all, done + [p.frame], if closed then [] else buffer[p.size..], closed)
    {
      var p := ParseFrame(buffer);
      if p.frame.opcode != CLOSE {
        Associate(done, [p.frame], Drain(buffer[p.size..]).frames);
      }
    }

    static lemma AllTaken(all: seq<bv8>, done: seq<Frame>, buffer: seq<bv8>, closed: bool)
      requires Remaining(all, done, buffer, closed) && ParseFrame(buffer).Incomplete?
      requires closed ==> buffer == []
      ensures Drain(all) == Reading(done, buffer, closed)
    {
      assert done + [] == done;
    }

    static lemma ReadNothing(bytes: seq<bv8>)
      requires bytes == []
      ensures Read([], bytes) == Open([], [])
    {
    }

    /** Bytes that came with the response go to the reading loop at once. */
    method StartStream(leftover: seq<bv8>)
      requires phase == Upgrading && buffer == [] && dispatched == [] && |leftover| < MAX_EXACT
      modifies this
      ensures View() == Read([], leftover)
      ensures phase != Upgrading
    {
      phase := Streaming;
      if |leftover| > 0 {
        assert buffer + leftover == leftover;
        HandleRawData(leftover);
      } else {
        ReadNothing(leftover);
      }
    }

    /** The handshake listener: waits for the empty line, then starts the stream with what follows it. */
    method OnHandshakeData(chunk: seq<bv8>)
      requires phase == Upgrading && buffer == [] && dispatched == []
      requires |rawBytes| + |chunk| < MAX_EXACT
      modifies this
      ensures View() == Upgrade(old(rawBytes) + chunk)
      ensures phase == Upgrading ==> buffer == [] && dispatched == []
    {
      rawBytes := rawBytes + chunk;
      var headerEnd := Search.IndexOf(rawBytes, HEADER_END);
      if headerEnd.Some? {
        if SWITCHING_PROTOCOLS <= rawBytes[..headerEnd.value] {
          StartStream(rawBytes[headerEnd.value + 4..]);
        } else {
          phase := Refused;
        }
      }
    }

    /** A chunk arrives on the socket. */
    method OnData(chunk: seq<bv8>)
      requires phase == Upgrading ==> buffer == [] && dispatched == []
      requires |rawBytes| + |buffer| + |chunk| < MAX_EXACT
      modifies this
      ensures View() == Feed(old(View()), chunk)
      ensures phase == Upgrading ==> buffer == [] && dispatched == []
    {
      if phase == Upgrading {
        OnHandshakeData(chunk);
      } else if phase == Streaming {
        HandleRawData(chunk);
      }
    }
  }
}
