/** Frames of the WebSocket protocol (sections 5.2 and 5.3 of RFC 6455), as the client reads and writes them. */
module WebSocketFrames {
  import opened Wrappers
  import opened Sequences

  type Mask = s: seq<bv8> | |s| == 4 witness [0, 0, 0, 0]

  datatype Frame = Frame(opcode: bv8, payload: seq<bv8>)

  const CLOSE: bv8 := 8
  const PING: bv8 := 9
  const PONG: bv8 := 10

  /** No buffer, and no number the client converts a 64-bit length to, is exact from here on. */
  const MAX_EXACT: nat := 0x20_0000_0000_0000

  // ---- Reading ---------------------------------------------------------------------------------

  /** An unsigned big-endian number. */
  function ReadBE(s: seq<bv8>): nat {
    if s == [] then 0 else ReadBE(s[..|s| - 1]) * 256 + s[|s| - 1] as nat
  }

  function Unmask(payload: seq<bv8>, mask: Mask): seq<bv8> {
    seq(|payload|, i requires 0 <= i < |payload| => payload[i] ^ mask[i % 4])
  }

  datatype Parsed = Incomplete | Complete(frame: Frame, size: nat)

  /** How many bytes the length field adds to the first two. */
  function ExtraLength(b: seq<bv8>): nat
    requires |b| >= 2
  {
    if b[1] & 0x7f == 126 then 2 else if b[1] & 0x7f == 127 then 8 else 0
  }

  function PayloadLength(b: seq<bv8>): nat
    requires |b| >= 2 && |b| >= 2 + ExtraLength(b)
  {
    if ExtraLength(b) == 0 then (b[1] & 0x7f) as nat else ReadBE(b[2..2 + ExtraLength(b)])
  }

  predicate IsMasked(b: seq<bv8>)
    requires |b| >= 2
  {
    b[1] & 0x80 != 0
  }

  /** Where the payload starts: after the length field and, if there is one, the mask. */
  function PayloadStart(b: seq<bv8>): nat
    requires |b| >= 2
  {
    2 + ExtraLength(b) + if IsMasked(b) then 4 else 0
  }

  /** The frame whose payload starts at start. */
  function FrameAt(b: seq<bv8>, start: nat, length: nat): Frame
    requires |b| >= 2 && start == PayloadStart(b) && |b| >= start + length
  {
    var payload := b[start..start + length];
    Frame(b[0] & 0x0f, if IsMasked(b) then Unmask(payload, b[start - 4..start]) else payload)
  }

  /** The first frame of the buffer, if all of it is there. */
  function ParseFrame(b: seq<bv8>): (p: Parsed)
    ensures p.Complete? ==> 2 <= p.size <= |b|
  {
    if |b| < 2 || |b| < 2 + ExtraLength(b) then Incomplete
    else
      var length := PayloadLength(b);
      var start := PayloadStart(b);
      if |b| < start || length >= MAX_EXACT || |b| < start + length then Incomplete
      else Complete(FrameAt(b, start, length), start + length)
  }

  /** What the reading loop does with a buffer: the frames it dispatches, and what is left. */
  datatype Reading = Reading(frames: seq<Frame>, rest: seq<bv8>, closed: bool)

  function Drain(b: seq<bv8>): Reading {
    match ParseFrame(b)
    case Incomplete => Reading([], b, false)
    case Complete(frame, size) =>
      if frame.opcode == CLOSE then Reading([frame], [], true)
      else
        var r := Drain(b[size..]);
        Reading([frame] + r.frames, r.rest, r.closed)
  }

  lemma SliceStable(b: seq<bv8>, more: seq<bv8>, i: nat, j: nat)
    requires i <= j <= |b|
    ensures (b + more)[i..j] == b[i..j]
  {
  }

  lemma HeaderStable(b: seq<bv8>, more: seq<bv8>)
    requires |b| >= 2 && |b| >= 2 + ExtraLength(b)
    ensures (b + more)[0] == b[0] && (b + more)[1] == b[1]
    ensures ExtraLength(b + more) == ExtraLength(b) && IsMasked(b + more) == IsMasked(b)
    ensures PayloadLength(b + more) == PayloadLength(b) && PayloadStart(b + more) == PayloadStart(b)
  {
    SliceStable(b, more, 2, 2 + ExtraLength(b));
  }

  /** A complete frame reads the same whatever follows it. */
  lemma FrameStable(b: seq<bv8>, more: seq<bv8>)
    requires ParseFrame(b).Complete?
    ensures ParseFrame(b + more) == ParseFrame(b)
  {
    HeaderStable(b, more);
    var start, length := PayloadStart(b), PayloadLength(b);
    SliceStable(b, more, start, start + length);
    if IsMasked(b) {
      SliceStable(b, more, start - 4, start);
    }
  }

  /** Reading in two portions is reading at once. */
  lemma {:induction false} DrainSplit(b: seq<bv8>, more: seq<bv8>)
    ensures var first := Drain(b);
            var second := Drain(first.rest + more);
            Drain(b + more) == if first.closed then first
              else Reading(first.frames + second.frames, second.rest, second.closed)
    decreases |b|
  {
    match ParseFrame(b)
    case Incomplete =>
      assert Drain(b) == Reading([], b, false);
      assert [] + Drain(b + more).frames == Drain(b + more).frames;
    case Complete(frame, size) =>
      FrameStable(b, more);
      if frame.opcode != CLOSE {
        assert (b + more)[size..] == b[size..] + more;
        DrainSplit(b[size..], more);
        Associate([frame], Drain(b[size..]).frames, Drain(Drain(b[size..]).rest + more).frames);
      }
  }

  /** What stays in the buffer of an open connection is always an incomplete frame. */
  lemma {:induction false} RestIncomplete(b: seq<bv8>)
    ensures !Drain(b).closed ==> ParseFrame(Drain(b).rest).Incomplete?
    ensures Drain(b).closed ==> Drain(b).rest == []
    decreases |b|
  {
    match ParseFrame(b)
    case Incomplete =>
    case Complete(frame, size) =>
      if frame.opcode != CLOSE {
        RestIncomplete(b[size..]);
      }
  }

  // ---- Writing ---------------------------------------------------------------------------------

  function WriteBE(n: nat, width: nat): (s: seq<bv8>)
    ensures |s| == width
  {
    if width == 0 then [] else WriteBE(n / 256, width - 1) + [(n % 256) as bv8]
  }

  /** The second byte and the length field: the shortest of the three forms. */
  function LengthField(n: nat): seq<bv8> {
    if n <= 125 then [0x80 | (n as bv8)]
    else if n <= 0xffff then [0x80 | 126] + WriteBE(n, 2)
    else [0x80 | 127] + WriteBE(n, 8)
  }

  function Encode(opcode: bv8, payload: seq<bv8>, mask: Mask): seq<bv8> {
    [0x80 | (opcode & 0x0f)] + LengthField(|payload|) + mask + Unmask(payload, mask)
  }

  function Pow256(k: nat): nat {
    if k == 0 then 1 else 256 * Pow256(k - 1)
  }

  lemma NextByte(b: bv8)
    requires b as int < 255
    ensures (b + 1) as int == b as int + 1
  {
  }

  /** Every number below 256 is the value of a byte. */
  lemma {:induction false} ByteFor(n: int) returns (b: bv8)
    requires 0 <= n < 256
    ensures b as int == n
    decreases n
  {
    if n == 0 {
      b := 0;
    } else {
      var c := ByteFor(n - 1);
      NextByte(c);
      b := c + 1;
    }
  }

  lemma ByteRoundTrip(n: int)
    requires 0 <= n < 256
    ensures (n as bv8) as int == n
  {
    var b := ByteFor(n);
    assert (b as int) as bv8 == b;
  }

  lemma {:induction false} NumberRoundTrip(n: nat, width: nat)
    requires n < Pow256(width)
    ensures ReadBE(WriteBE(n, width)) == n
  {
    if width > 0 {
      NumberRoundTrip(n / 256, width - 1);
      assert WriteBE(n, width)[..width - 1] == WriteBE(n / 256, width - 1);
      ByteRoundTrip(n % 256);
    }
  }

  lemma MaskBit(x: bv8)
    requires x < 0x80
    ensures (0x80 | x) & 0x7f == x && (0x80 | x) & 0x80 != 0
  {
  }

  lemma ShortByte(n: nat)
    requires n < 0x80
    ensures (n as bv8) < 0x80
  {
  }

  lemma OpcodeBits(opcode: bv8)
    ensures (0x80 | (opcode & 0x0f)) & 0x0f == opcode & 0x0f
    ensures opcode < 16 ==> opcode & 0x0f == opcode
  {
  }

  lemma XorTwice(a: bv8, b: bv8)
    ensures (a ^ b) ^ b == a
  {
  }

  lemma UnmaskTwice(payload: seq<bv8>, mask: Mask)
    ensures Unmask(Unmask(payload, mask), mask) == payload
  {
    forall i | 0 <= i < |payload|
      ensures Unmask(Unmask(payload, mask), mask)[i] == payload[i]
    {
      XorTwice(payload[i], mask[i % 4]);
    }
  }

  /** The length field reads back, and takes one, three or nine bytes with the mask bit set. */
  lemma LengthRoundTrip(n: nat, first: bv8, more: seq<bv8>)
    requires n < MAX_EXACT
    ensures var b := [first] + LengthField(n) + more;
            && IsMasked(b)
            && 2 + ExtraLength(b) == 1 + |LengthField(n)|
            && PayloadLength(b) == n
    ensures ExtraLength([first] + LengthField(n) + more) == (if n <= 125 then 0 else if n <= 0xffff then 2 else 8)
  {
    var b := [first] + LengthField(n) + more;
    if n <= 125 {
      ShortByte(n);
      MaskBit(n as bv8);
      ByteRoundTrip(n);
      NotAnEscape(n);
    } else if n <= 0xffff {
      MaskBit(126);
      assert b[1] == 0x80 | 126;
      assert b[2..4] == WriteBE(n, 2);
      assert Pow256(2) == 0x1_0000;
      NumberRoundTrip(n, 2);
    } else {
      MaskBit(127);
      assert b[1] == 0x80 | 127;
      assert b[2..10] == WriteBE(n, 8);
      Pow256Of8();
      NumberRoundTrip(n, 8);
    }
  }

  lemma NotAnEscape(n: nat)
    requires n <= 125
    ensures (n as bv8) != 126 && (n as bv8) != 127
  {
    ByteRoundTrip(n);
    ByteRoundTrip(126);
    ByteRoundTrip(127);
  }

  lemma Pow256Of8()
    ensures Pow256(8) == 0x1_0000_0000_0000_0000
  {
    assert Pow256(2) == 0x1_0000;
    assert Pow256(4) == 0x1_0000_0000;
    assert Pow256(6) == 0x1_0000_0000_0000;
  }

  lemma Parts(first: bv8, field: seq<bv8>, mask: Mask, body: seq<bv8>, more: seq<bv8>)
    ensures var b := [first] + field + mask + body + more;
            var start := 5 + |field|;
            && |b| >= start + |body| && b[0] == first
            && b[start - 4..start] == mask && b[start..start + |body|] == body
  {
  }

  lemma Regrouped(first: bv8, field: seq<bv8>, mask: Mask, body: seq<bv8>, more: seq<bv8>)
    ensures [first] + field + mask + body + more == [first] + field + (mask + body + more)
  {
  }

  /** The parts of a written frame, by position. */
  lemma EncodedParts(opcode: bv8, payload: seq<bv8>, mask: Mask, more: seq<bv8>)
    ensures var b := Encode(opcode, payload, mask) + more;
            var start := 5 + |LengthField(|payload|)|;
            && |b| >= start + |payload| >= 2
            && b[0] == 0x80 | (opcode & 0x0f)
            && b[start - 4..start] == mask
            && b[start..start + |payload|] == Unmask(payload, mask)
            && b == [0x80 | (opcode & 0x0f)] + LengthField(|payload|) + (mask + Unmask(payload, mask) + more)
  {
    var first, field, body := 0x80 | (opcode & 0x0f), LengthField(|payload|), Unmask(payload, mask);
    Parts(first, field, mask, body, more);
    Regrouped(first, field, mask, body, more);
  }

  /** Whatever is written reads back, alone or followed by anything, and has the shortest form's size. */
  lemma FrameRoundTrip(opcode: bv8, payload: seq<bv8>, mask: Mask, more: seq<bv8>)
    requires |payload| < MAX_EXACT
    ensures ParseFrame(Encode(opcode, payload, mask) + more)
            == Complete(Frame(opcode & 0x0f, payload), |Encode(opcode, payload, mask)|)
    ensures |Encode(opcode, payload, mask)|
            == (if |payload| <= 125 then 6 else if |payload| <= 0xffff then 8 else 14) + |payload|
  {
    var b := Encode(opcode, payload, mask) + more;
    EncodedParts(opcode, payload, mask, more);
    LengthRoundTrip(|payload|, 0x80 | (opcode & 0x0f), mask + Unmask(payload, mask) + more);
    WholeFrame(b, 5 + |LengthField(|payload|)|, |payload|);
    OpcodeBits(opcode);
    UnmaskTwice(payload, mask);
  }

  /** A frame that is all there, whatever follows. */
  lemma WholeFrame(b: seq<bv8>, start: nat, length: nat)
    requires |b| >= 2 && |b| >= 2 + ExtraLength(b) && PayloadLength(b) == length && PayloadStart(b) == start
    requires |b| >= start + length && length < MAX_EXACT
    ensures ParseFrame(b) == Complete(FrameAt(b, start, length), start + length)
  {
  }

  // ---- What a server writes ------------------------------------------------------------------------

  /** The second byte and the length field of a frame without a mask. */
  function PlainLength(n: nat): seq<bv8> {
    if n <= 125 then [n as bv8]
    else if n <= 0xffff then [126] + WriteBE(n, 2)
    else [127] + WriteBE(n, 8)
  }

  /** A frame without a mask, as servers send them: the payload stands there as it is. */
  function EncodePlain(opcode: bv8, payload: seq<bv8>): seq<bv8> {
    [0x80 | (opcode & 0x0f)] + PlainLength(|payload|) + payload
  }

  lemma NoMaskBit(x: bv8)
    requires x < 0x80
    ensures x & 0x7f == x && x & 0x80 == 0
  {
  }

  lemma PlainLengthRoundTrip(n: nat, first: bv8, more: seq<bv8>)
    requires n < MAX_EXACT
    ensures var b := [first] + PlainLength(n) + more;
            && !IsMasked(b)
            && 2 + ExtraLength(b) == 1 + |PlainLength(n)|
            && PayloadLength(b) == n
  {
    var b := [first] + PlainLength(n) + more;
    if n <= 125 {
      ShortByte(n);
      NoMaskBit(n as bv8);
      ByteRoundTrip(n);
      NotAnEscape(n);
    } else if n <= 0xffff {
      NoMaskBit(126);
      assert b[1] == 126;
      assert b[2..4] == WriteBE(n, 2);
      assert Pow256(2) == 0x1_0000;
      NumberRoundTrip(n, 2);
    } else {
      NoMaskBit(127);
      assert b[1] == 127;
      assert b[2..10] == WriteBE(n, 8);
      Pow256Of8();
      NumberRoundTrip(n, 8);
    }
  }

  lemma PlainParts(opcode: bv8, payload: seq<bv8>, more: seq<bv8>)
    ensures var b := EncodePlain(opcode, payload) + more;
            var start := 1 + |PlainLength(|payload|)|;
            && |b| >= start + |payload| >= 2
            && b[0] == 0x80 | (opcode & 0x0f)
            && b[start..start + |payload|] == payload
            && b == [0x80 | (opcode & 0x0f)] + PlainLength(|payload|) + (payload + more)
  {
  }

  /** It reads back with its payload, whatever follows. */
  lemma PlainRoundTrip(opcode: bv8, payload: seq<bv8>, more: seq<bv8>)
    requires |payload| < MAX_EXACT
    ensures ParseFrame(EncodePlain(opcode, payload) + more)
            == Complete(Frame(opcode & 0x0f, payload), |EncodePlain(opcode, payload)|)
    ensures |EncodePlain(opcode, payload)|
            == (if |payload| <= 125 then 2 else if |payload| <= 0xffff then 4 else 10) + |payload|
  {
    var b := EncodePlain(opcode, payload) + more;
    PlainParts(opcode, payload, more);
    PlainLengthRoundTrip(|payload|, 0x80 | (opcode & 0x0f), payload + more);
    WholeFrame(b, 1 + |PlainLength(|payload|)|, |payload|);
    OpcodeBits(opcode);
  }

  // ---- Streams -------------------------------------------------------------------------------------

  /** A frame on the wire, with a mask or without one. */
  function OnWire(frame: Frame, mask: Option<Mask>): seq<bv8> {
    if mask.Some? then Encode(frame.opcode, frame.payload, mask.value) else EncodePlain(frame.opcode, frame.payload)
  }

  function EncodeAll(frames: seq<Frame>, masks: seq<Option<Mask>>): seq<bv8>
    requires |masks| == |frames|
  {
    if frames == [] then [] else OnWire(frames[0], masks[0]) + EncodeAll(frames[1..], masks[1..])
  }

  /** Masked or not, a frame on the wire is read as what it is. */
  lemma WireRoundTrip(frame: Frame, mask: Option<Mask>, more: seq<bv8>)
    requires frame.opcode < 16 && |frame.payload| < MAX_EXACT
    ensures ParseFrame(OnWire(frame, mask) + more) == Complete(frame, |OnWire(frame, mask)|)
  {
    OpcodeBits(frame.opcode);
    if mask.Some? {
      FrameRoundTrip(frame.opcode, frame.payload, mask.value, more);
    } else {
      PlainRoundTrip(frame.opcode, frame.payload, more);
    }
  }

  lemma FirstFrame(frame: Frame, mask: Option<Mask>, tail: seq<bv8>)
    requires frame.opcode < 16 && |frame.payload| < MAX_EXACT
    ensures var r := Drain(tail);
            Drain(OnWire(frame, mask) + tail)
            == if frame.opcode == CLOSE then Reading([frame], [], true)
               else Reading([frame] + r.frames, r.rest, r.closed)
  {
    var head := OnWire(frame, mask);
    WireRoundTrip(frame, mask, tail);
    assert (head + tail)[|head|..] == tail;
  }

  /** Any number of frames on the wire, none of them a close, read back as they were, and leave nothing behind. */
  lemma {:induction false} StreamRoundTrip(frames: seq<Frame>, masks: seq<Option<Mask>>)
    requires |masks| == |frames|
    requires forall f | f in frames :: f.opcode < 16 && f.opcode != CLOSE && |f.payload| < MAX_EXACT
    ensures Drain(EncodeAll(frames, masks)) == Reading(frames, [], false)
  {
    if frames != [] {
      StreamRoundTrip(frames[1..], masks[1..]);
      FirstFrame(frames[0], masks[0], EncodeAll(frames[1..], masks[1..]));
      assert [frames[0]] + frames[1..] == frames;
    }
  }

  lemma FrameBefore(frame: Frame, mask: Option<Mask>, stream: seq<bv8>, tail: seq<bv8>, read: seq<Frame>)
    requires frame.opcode < 16 && frame.opcode != CLOSE && |frame.payload| < MAX_EXACT
    requires Drain(stream + tail) == Reading(read, [], true)
    ensures Drain((OnWire(frame, mask) + stream) + tail) == Reading([frame] + read, [], true)
  {
    Associate(OnWire(frame, mask), stream, tail);
    FirstFrame(frame, mask, stream + tail);
  }

  /** And up to a close frame they are read the same way; what comes after it is dropped. */
  lemma {:induction false} StreamUpToClose(frames: seq<Frame>, masks: seq<Option<Mask>>, close: Frame,
                                           mask: Option<Mask>, more: seq<bv8>)
    requires |masks| == |frames|
    requires forall f | f in frames :: f.opcode < 16 && f.opcode != CLOSE && |f.payload| < MAX_EXACT
    requires close.opcode == CLOSE && |close.payload| < MAX_EXACT
    ensures Drain(EncodeAll(frames, masks) + (OnWire(close, mask) + more)) == Reading(frames + [close], [], true)
    decreases |frames|
  {
    var tail := OnWire(close, mask) + more;
    if frames == [] {
      FirstFrame(close, mask, more);
      assert [] + tail == tail;
    } else {
      StreamUpToClose(frames[1..], masks[1..], close, mask, more);
      FrameBefore(frames[0], masks[0], EncodeAll(frames[1..], masks[1..]), tail, frames[1..] + [close]);
      assert [frames[0]] + (frames[1..] + [close]) == frames + [close];
    }
  }

  /** Every written frame is final, and sets no reserved bit. */
  lemma WrittenIsFinal(frame: Frame, mask: Option<Mask>)
    requires frame.opcode < 16
    ensures OnWire(frame, mask) != []
    ensures OnWire(frame, mask)[0] & 0xf0 == 0x80 && OnWire(frame, mask)[0] & 0x0f == frame.opcode
  {
    FinalBits(frame.opcode);
  }

  lemma FinalBits(opcode: bv8)
    requires opcode < 16
    ensures (0x80 | (opcode & 0x0f)) & 0xf0 == 0x80 && (0x80 | (opcode & 0x0f)) & 0x0f == opcode
  {
  }

  // ---- Numbers and bytes as the standard has them ----------------------------------------------------

  lemma Shifted(high: nat, place: nat, low: nat, last: nat)
    ensures (high * place + low) * 256 + last == high * (256 * place) + (low * 256 + last)
  {
  }

  /** The first byte of a number is its highest. */
  lemma {:induction false} HighestFirst(high: bv8, rest: seq<bv8>)
    ensures ReadBE([high] + rest) == high as nat * Pow256(|rest|) + ReadBE(rest)
    decreases |rest|
  {
    var all := [high] + rest;
    if rest == [] {
      assert all[..0] == [];
    } else {
      var init, last := rest[..|rest| - 1], rest[|rest| - 1];
      assert all[..|rest|] == [high] + init && all[|rest|] == last;
      HighestFirst(high, init);
      Shifted(high as nat, Pow256(|init|), ReadBE(init), last as nat);
    }
  }

  /** The numbers below 2^53 are exact. */
  lemma ExactIs2To53()
    ensures MAX_EXACT == 32 * Pow256(6)
  {
    assert Pow256(2) == 0x1_0000;
    assert Pow256(4) == 0x1_0000_0000;
  }

  const HELLO: seq<bv8> := [0x48, 0x65, 0x6c, 0x6c, 0x6f]

  lemma PlainHello(more: seq<bv8>)
    ensures ParseFrame([0x81, 0x05, 0x48, 0x65, 0x6c, 0x6c, 0x6f] + more) == Complete(Frame(0x1, HELLO), 7)
  {
    var b: seq<bv8> := [0x81, 0x05, 0x48, 0x65, 0x6c, 0x6c, 0x6f] + more;
    assert b[2..7] == HELLO;
    WholeFrame(b, 2, 5);
  }

  const HELLO_MASK: Mask := [0x37, 0xfa, 0x21, 0x3d]

  const HELLO_MASKED: seq<bv8> := [0x7f, 0x9f, 0x4d, 0x51, 0x58]

  lemma HelloUnmasked()
    ensures Unmask(HELLO_MASKED, HELLO_MASK) == HELLO
  {
  }

  lemma HelloParts(more: seq<bv8>)
    ensures var b := [0x81, 0x85] + HELLO_MASK + HELLO_MASKED + more;
            b[0] == 0x81 && b[1] == 0x85 && b[2..6] == HELLO_MASK && b[6..11] == HELLO_MASKED
  {
  }

  lemma MaskedHello(more: seq<bv8>)
    ensures ParseFrame([0x81, 0x85] + HELLO_MASK + HELLO_MASKED + more) == Complete(Frame(0x1, HELLO), 11)
  {
    HelloParts(more);
    HelloUnmasked();
    WholeFrame([0x81, 0x85] + HELLO_MASK + HELLO_MASKED + more, 6, 5);
  }

  /** The examples of section 5.7 of RFC 6455: a text of "Hello" unmasked and masked. */
  lemma FramesOfHello(more: seq<bv8>)
    ensures ParseFrame([0x81, 0x05, 0x48, 0x65, 0x6c, 0x6c, 0x6f] + more) == Complete(Frame(0x1, HELLO), 7)
    ensures ParseFrame([0x81, 0x85] + HELLO_MASK + HELLO_MASKED + more) == Complete(Frame(0x1, HELLO), 11)
  {
    PlainHello(more);
    MaskedHello(more);
  }
}
