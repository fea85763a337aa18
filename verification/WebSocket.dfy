/**
The WebSocket frame codec (tako-channels/src/websocket.rs), sections 5.2 and 5.3 of RFC 6455:
unfragmented frames, parsed from a buffer that grows chunk by chunk.
*/
module WebSocket {
  import opened Results
  import opened Bytes

  const MAX_PAYLOAD: nat := 134_217_728

  datatype Frame = Frame(opcode: Byte, payload: seq<Byte>)
  datatype Error = Fragmented | BadControl | TooLarge

  /** `Complete` also says how many bytes the frame took. */
  datatype Parsed = Incomplete | Bad(error: Error) | Complete(frame: Frame, used: nat)

  // ----- Masking -----

  /** Exclusive or of the low `n` bits. */
  function XorBits(a: nat, b: nat, n: nat): nat {
    if n == 0 then 0 else 2 * XorBits(a / 2, b / 2, n - 1) + (a + b) % 2
  }

  function Pow2(n: nat): nat { if n == 0 then 1 else 2 * Pow2(n - 1) }

  lemma LowBit(a: nat, b: nat, h: nat)
    ensures (2 * h + (a + b) % 2) / 2 == h && (2 * h + (a + b) % 2 + b) % 2 == a % 2
  {}

  lemma {:induction false} XorTwice(a: nat, b: nat, n: nat)
    requires a < Pow2(n)
    ensures XorBits(XorBits(a, b, n), b, n) == a
    decreases n
  {
    if n > 0 {
      var high := XorBits(a / 2, b / 2, n - 1);
      XorTwice(a / 2, b / 2, n - 1);
      LowBit(a, b, high);
      assert XorBits(2 * high + (a + b) % 2, b, n) == 2 * XorBits(high, b / 2, n - 1) + a % 2;
    }
  }

  lemma {:induction false} XorFits(a: nat, b: nat, n: nat)
    ensures XorBits(a, b, n) < Pow2(n)
    decreases n
  {
    if n > 0 { XorFits(a / 2, b / 2, n - 1); }
  }

  lemma EightBits()
    ensures Pow2(8) == 256
  {
    assert Pow2(4) == 16;
    assert Pow2(6) == 64;
  }

  function Xor(a: Byte, b: Byte): Byte {
    XorFits(a as nat, b as nat, 8);
    EightBits();
    XorBits(a as nat, b as nat, 8) as Byte
  }

  lemma XorUndoes(a: Byte, b: Byte)
    ensures Xor(Xor(a, b), b) == a
  {
    EightBits();
    XorTwice(a as nat, b as nat, 8);
  }

  /** Every byte combined with the mask, four bytes at a time. */
  function Masked(payload: seq<Byte>, mask: seq<Byte>): (r: seq<Byte>)
    requires |mask| == 4
    ensures |r| == |payload|
  {
    seq(|payload|, i requires 0 <= i < |payload| => Xor(payload[i], mask[i % 4]))
  }

  lemma MaskTwice(payload: seq<Byte>, mask: seq<Byte>)
    requires |mask| == 4
    ensures Masked(Masked(payload, mask), mask) == payload
  {
    forall i | 0 <= i < |payload|
      ensures Masked(Masked(payload, mask), mask)[i] == payload[i]
    {
      XorUndoes(payload[i], mask[i % 4]);
    }
  }

  // ----- Parsing -----

  predicate Control(opcode: Byte) { 8 <= opcode <= 10 }

  function LengthBytes(second: Byte): nat {
    if second % 128 == 126 then 2 else if second % 128 == 127 then 8 else 0
  }

  function PayloadLength(buffer: seq<Byte>): nat
    requires |buffer| >= 2 && |buffer| >= 2 + LengthBytes(buffer[1])
  {
    var extra := LengthBytes(buffer[1]);
    if extra == 0 then (buffer[1] % 128) as nat else FromBytes(buffer[2..2 + extra])
  }

  function LengthError(opcode: Byte, length: nat): Option<Error> {
    if Control(opcode) && length > 125 then Some(BadControl)
    else if length > MAX_PAYLOAD then Some(TooLarge)
    else None
  }

  function MaskBytes(second: Byte): nat { if second >= 128 then 4 else 0 }

  function Payload(bytes: seq<Byte>, mask: seq<Byte>): seq<Byte>
    requires |mask| == 4 || |mask| == 0
  {
    if |mask| == 4 then Masked(bytes, mask) else bytes
  }

  /** `next_frame` on the bytes received so far. */
  function Parse(buffer: seq<Byte>): Parsed {
    if |buffer| < 2 then Incomplete
    else if buffer[0] < 128 then Bad(Fragmented)
    else if |buffer| < 2 + LengthBytes(buffer[1]) then Incomplete
    else
      var opcode, length := buffer[0] % 16, PayloadLength(buffer);
      var start := 2 + LengthBytes(buffer[1]);
      var body := start + MaskBytes(buffer[1]);
      var bad := LengthError(opcode, length);
      if bad.Some? then Bad(bad.value)
      else if |buffer| < body + length then Incomplete
      else Complete(Frame(opcode, Payload(buffer[body..body + length], buffer[start..body])), body + length)
  }

  lemma HeaderIsStable(buffer: seq<Byte>, more: seq<Byte>)
    requires |buffer| >= 2 && |buffer| >= 2 + LengthBytes(buffer[1])
    ensures PayloadLength(buffer + more) == PayloadLength(buffer)
  {
    var start := 2 + LengthBytes(buffer[1]);
    assert (buffer + more)[2..start] == buffer[2..start];
  }

  lemma SliceIsStable(buffer: seq<Byte>, more: seq<Byte>, from: nat, to: nat)
    requires from <= to <= |buffer|
    ensures (buffer + more)[from..to] == buffer[from..to]
  {}

  /** Later bytes never change what has been parsed. */
  lemma ParseIsStable(buffer: seq<Byte>, more: seq<Byte>)
    requires !Parse(buffer).Incomplete?
    ensures Parse(buffer + more) == Parse(buffer)
    ensures Parse(buffer).Complete? ==> 2 <= Parse(buffer).used <= |buffer|
  {
    if buffer[0] >= 128 {
      HeaderIsStable(buffer, more);
      var start := 2 + LengthBytes(buffer[1]);
      var body := start + MaskBytes(buffer[1]);
      var length := PayloadLength(buffer);
      if LengthError(buffer[0] % 16, length).None? {
        SliceIsStable(buffer, more, start, body);
        SliceIsStable(buffer, more, body, body + length);
      }
    }
  }

  // ----- Encoding -----

  function MaskBit(masked: bool): Byte { if masked then 128 else 0 }

  function Header(opcode: Byte, length: nat, masked: bool): seq<Byte> {
    [128 + opcode % 16] +
    if length < 126 then [MaskBit(masked) + length as Byte]
    else if length <= 0xffff then [MaskBit(masked) + 126] + ToBytes(length, 2)
    else [MaskBit(masked) + 127] + ToBytes(length, 8)
  }

  /** `websocket_frame` */
  function Encode(opcode: Byte, payload: seq<Byte>): seq<Byte> { Header(opcode, |payload|, false) + payload }

  /** The same frame as a client sends it. */
  function EncodeMasked(opcode: Byte, payload: seq<Byte>, mask: seq<Byte>): seq<Byte>
    requires |mask| == 4
  {
    Header(opcode, |payload|, true) + mask + Masked(payload, mask)
  }

  lemma HeaderParses(opcode: Byte, length: nat, masked: bool, rest: seq<Byte>)
    requires length < 0x1_0000_0000_0000_0000
    ensures var header := Header(opcode, length, masked);
            var buffer := header + rest;
            && |buffer| >= 2 && buffer[0] >= 128 && buffer[0] % 16 == opcode % 16
            && |header| == 2 + LengthBytes(buffer[1]) && PayloadLength(buffer) == length
            && MaskBytes(buffer[1]) == if masked then 4 else 0
  {
    SmallPowers();
    var header := Header(opcode, length, masked);
    var buffer := header + rest;
    if 126 <= length <= 0xffff {
      assert buffer[2..4] == ToBytes(length, 2);
      BytesRoundTrip(length, 2);
    } else if length > 0xffff {
      assert buffer[2..10] == ToBytes(length, 8);
      BytesRoundTrip(length, 8);
    }
  }

  /**
  Parsing an encoded frame gives it back and leaves the following bytes, exactly when its
  length is allowed; a control frame over 125 bytes and a frame over the limit are rejected.
  */
  lemma EncodeRoundTrip(opcode: Byte, payload: seq<Byte>, rest: seq<Byte>)
    requires |payload| < 0x1_0000_0000_0000_0000
    ensures var frame := Encode(opcode, payload);
            Parse(frame + rest) ==
            match LengthError(opcode % 16, |payload|)
            case None => Complete(Frame(opcode % 16, payload), |frame|)
            case Some(error) => Bad(error)
  {
    var header := Header(opcode, |payload|, false);
    var buffer := Encode(opcode, payload) + rest;
    assert buffer == header + (payload + rest);
    HeaderParses(opcode, |payload|, false, payload + rest);
    assert buffer[|header|..|header| + |payload|] == payload;
  }

  lemma MaskedRoundTrip(opcode: Byte, payload: seq<Byte>, mask: seq<Byte>, rest: seq<Byte>)
    requires |payload| < 0x1_0000_0000_0000_0000 && |mask| == 4
    ensures var frame := EncodeMasked(opcode, payload, mask);
            Parse(frame + rest) ==
            match LengthError(opcode % 16, |payload|)
            case None => Complete(Frame(opcode % 16, payload), |frame|)
            case Some(error) => Bad(error)
  {
    var header := Header(opcode, |payload|, true);
    var hidden := Masked(payload, mask);
    var buffer := EncodeMasked(opcode, payload, mask) + rest;
    assert buffer == header + (mask + hidden + rest);
    HeaderParses(opcode, |payload|, true, mask + hidden + rest);
    var body := |header| + 4;
    assert buffer[|header|..body] == mask;
    assert buffer[body..body + |payload|] == hidden;
    MaskTwice(payload, mask);
  }

  // ----- Streams -----

  /** Frames in order, the bytes left over, and the error that stopped the reader. */
  datatype Reading = Reading(frames: seq<Frame>, rest: seq<Byte>, error: Option<Error>)

  function Then(frames: seq<Frame>, r: Reading): Reading { Reading(frames + r.frames, r.rest, r.error) }

  function Drain(buffer: seq<Byte>): Reading
    decreases |buffer|
  {
    match Parse(buffer)
    case Incomplete => Reading([], buffer, None)
    case Bad(error) => Reading([], buffer, Some(error))
    case Complete(frame, used) =>
      ParseIsStable(buffer, []);
      Then([frame], Drain(buffer[used..]))
  }

  /** One more chunk, unless an error has stopped the reader. */
  function Feed(r: Reading, chunk: seq<Byte>): Reading {
    if r.error.Some? then r else Then(r.frames, Drain(r.rest + chunk))
  }

  function FeedAll(chunks: seq<seq<Byte>>): Reading {
    if chunks == [] then Reading([], [], None)
    else Feed(FeedAll(chunks[..|chunks| - 1]), chunks[|chunks| - 1])
  }

  function Joined(chunks: seq<seq<Byte>>): seq<Byte> {
    if chunks == [] then [] else Joined(chunks[..|chunks| - 1]) + chunks[|chunks| - 1]
  }

  /** The same, with the bytes that an error leaves unread. */
  function Resume(r: Reading, more: seq<Byte>): Reading {
    if r.error.Some? then r.(rest := r.rest + more) else Then(r.frames, Drain(r.rest + more))
  }

  lemma ResumeAfter(frame: Frame, r: Reading, more: seq<Byte>)
    ensures Resume(Then([frame], r), more) == Then([frame], Resume(r, more))
  {
    var next := Drain(r.rest + more);
    assert [frame] + r.frames + next.frames == [frame] + (r.frames + next.frames);
  }

  lemma DrainStep(buffer: seq<Byte>, more: seq<Byte>)
    requires Parse(buffer).Complete?
    ensures Parse(buffer).used <= |buffer|
    ensures Drain(buffer + more) == Then([Parse(buffer).frame], Drain(buffer[Parse(buffer).used..] + more))
  {
    ParseIsStable(buffer, more);
    var used := Parse(buffer).used;
    assert (buffer + more)[used..] == buffer[used..] + more;
  }

  lemma {:induction false} DrainSplits(a: seq<Byte>, b: seq<Byte>)
    ensures Drain(a + b) == Resume(Drain(a), b)
    decreases |a|
  {
    match Parse(a)
    case Incomplete =>
    case Bad(_) => ParseIsStable(a, b);
    case Complete(frame, used) =>
      ParseIsStable(a, b);
      DrainStep(a, b);
      DrainSplits(a[used..], b);
      ResumeAfter(frame, Drain(a[used..]), b);
  }

  /**
  Chunking does not matter: the frames and the first error are those of the whole stream,
  and without an error so is the residue.
  */
  lemma {:induction false} ChunkingIsInvisible(chunks: seq<seq<Byte>>)
    ensures var fed, whole := FeedAll(chunks), Drain(Joined(chunks));
            && fed.frames == whole.frames && fed.error == whole.error && fed.rest <= whole.rest
            && (fed.error.None? ==> fed.rest == whole.rest)
  {
    if chunks != [] {
      ChunkingIsInvisible(chunks[..|chunks| - 1]);
      DrainSplits(Joined(chunks[..|chunks| - 1]), chunks[|chunks| - 1]);
    }
  }

  /** A frame on the wire, masked if a client sends it. */
  datatype Sent = Sent(frame: Frame, mask: Option<seq<Byte>>)

  predicate Sendable(s: Sent) {
    && s.frame.opcode < 16 && LengthError(s.frame.opcode, |s.frame.payload|).None?
    && (s.mask.Some? ==> |s.mask.value| == 4)
  }

  function Wire(s: Sent): seq<Byte>
    requires Sendable(s)
  {
    if s.mask.Some? then EncodeMasked(s.frame.opcode, s.frame.payload, s.mask.value) else Encode(s.frame.opcode, s.frame.payload)
  }

  /** Encoded frames, then other bytes. */
  function Stream(sent: seq<Sent>, tail: seq<Byte>): seq<Byte>
    requires forall s | s in sent :: Sendable(s)
  {
    if sent == [] then tail else Wire(sent[0]) + Stream(sent[1..], tail)
  }

  function Frames(sent: seq<Sent>): seq<Frame> { if sent == [] then [] else [sent[0].frame] + Frames(sent[1..]) }

  lemma DrainAfter(bytes: seq<Byte>, rest: seq<Byte>, frame: Frame)
    requires Parse(bytes + rest) == Complete(frame, |bytes|)
    ensures Drain(bytes + rest) == Then([frame], Drain(rest))
  {
    assert (bytes + rest)[|bytes|..] == rest;
  }

  lemma PlainFirst(frame: Frame, rest: seq<Byte>)
    requires frame.opcode < 16 && LengthError(frame.opcode, |frame.payload|).None?
    ensures var bytes := Encode(frame.opcode, frame.payload); Parse(bytes + rest) == Complete(frame, |bytes|)
  {
    EncodeRoundTrip(frame.opcode, frame.payload, rest);
  }

  lemma MaskedFirst(frame: Frame, mask: seq<Byte>, rest: seq<Byte>)
    requires frame.opcode < 16 && LengthError(frame.opcode, |frame.payload|).None? && |mask| == 4
    ensures var bytes := EncodeMasked(frame.opcode, frame.payload, mask); Parse(bytes + rest) == Complete(frame, |bytes|)
  {
    MaskedRoundTrip(frame.opcode, frame.payload, mask, rest);
  }

  lemma FirstOfStream(s: Sent, rest: seq<Byte>)
    requires Sendable(s)
    ensures Parse(Wire(s) + rest) == Complete(s.frame, |Wire(s)|)
  {
    if s.mask.Some? {
      MaskedFirst(s.frame, s.mask.value, rest);
    } else {
      PlainFirst(s.frame, rest);
    }
  }

  lemma ThenJoins(frame: Frame, frames: seq<Frame>, r: Reading)
    ensures Then([frame], Then(frames, r)) == Then([frame] + frames, r)
  {
    assert [frame] + (frames + r.frames) == [frame] + frames + r.frames;
  }

  /** A stream of sendable frames, masked or not, is read back as these frames. */
  lemma {:induction false} StreamRoundTrip(sent: seq<Sent>, tail: seq<Byte>)
    requires forall s | s in sent :: Sendable(s)
    ensures Drain(Stream(sent, tail)) == Then(Frames(sent), Drain(tail))
    decreases |sent|
  {
    if sent != [] {
      StreamRoundTrip(sent[1..], tail);
      FirstOfStream(sent[0], Stream(sent[1..], tail));
      DrainAfter(Wire(sent[0]), Stream(sent[1..], tail), sent[0].frame);
      ThenJoins(sent[0].frame, Frames(sent[1..]), Drain(tail));
    }
  }

  // ----- The reader -----

  method Unmask(payload: array<Byte>, mask: seq<Byte>)
    requires |mask| == 4
    modifies payload
    ensures payload[..] == Masked(old(payload[..]), mask)
  {
    for i := 0 to payload.Length
      invariant forall k | 0 <= k < i :: payload[k] == Xor(old(payload[k]), mask[k % 4])
      invariant forall k | i <= k < payload.Length :: payload[k] == old(payload[k])
    {
      payload[i] := Xor(payload[i], mask[i % 4]);
    }
  }

  class FrameReader {
    var buffer: seq<Byte>

    constructor ()
      ensures buffer == []
    {
      buffer := [];
    }

    method Extend(chunk: seq<Byte>)
      modifies this
      ensures buffer == old(buffer) + chunk
    {
      buffer := buffer + chunk;
    }

    /** `next_frame`: takes the first frame off the buffer, if it is there. */
    method NextFrame() returns (r: Result<Option<Frame>, Error>)
      modifies this
      ensures match Parse(old(buffer))
              case Incomplete => r == Ok(None) && buffer == old(buffer)
              case Bad(error) => r == Err(error) && buffer == old(buffer)
              case Complete(frame, used) => r == Ok(Some(frame)) && used <= |old(buffer)| && buffer == old(buffer)[used..]
    {
      if |buffer| < 2 {
        return Ok(None);
      }
      var first, second := buffer[0], buffer[1];
      if first < 128 {
        return Err(Fragmented);
      }
      var opcode := first % 16;
      var length, offset := (second % 128) as nat, 2;
      if length == 126 {
        if |buffer| < offset + 2 {
          return Ok(None);
        }
        length, offset := FromBytes(buffer[2..4]), 4;
      } else if length == 127 {
        if |buffer| < offset + 8 {
          return Ok(None);
        }
        length, offset := FromBytes(buffer[2..10]), 10;
      }
      if Control(opcode) && length > 125 {
        return Err(BadControl);
      }
      if length > MAX_PAYLOAD {
        return Err(TooLarge);
      }
      var mask: seq<Byte> := [];
      if second >= 128 {
        if |buffer| < offset + 4 {
          return Ok(None);
        }
        mask, offset := buffer[offset..offset + 4], offset + 4;
      }
      var total := offset + length;
      if |buffer| < total {
        return Ok(None);
      }
      var payload := buffer[offset..total];
      if |mask| == 4 {
        var bytes := new Byte[|payload|](i requires 0 <= i < |payload| => payload[i]);
        assert bytes[..] == payload;
        Unmask(bytes, mask);
        payload := bytes[..];
      }
      buffer := buffer[total..];
      r := Ok(Some(Frame(opcode, payload)));
    }

    /** Takes every complete frame off the buffer. */
    method TakeFrames() returns (frames: seq<Frame>, error: Option<Error>)
      modifies this
      ensures Reading(frames, buffer, error) == Drain(old(buffer))
    {
      frames, error := [], None;
      while true
        invariant |buffer| <= |old(buffer)|
        invariant Drain(old(buffer)) == Then(frames, Drain(buffer))
        decreases |buffer|
      {
        ghost var before := buffer;
        if !Parse(before).Incomplete? { ParseIsStable(before, []); }
        var r := NextFrame();
        match r {
          case Err(e) => return frames, Some(e);
          case Ok(None) => return;
          case Ok(Some(frame)) =>
            assert frames + ([frame] + Drain(buffer).frames) == frames + [frame] + Drain(buffer).frames;
            frames := frames + [frame];
        }
      }
    }
  }

  lemma FeedOne(chunks: seq<seq<Byte>>, i: nat)
    requires i < |chunks|
    ensures FeedAll(chunks[..i + 1]) == Feed(FeedAll(chunks[..i]), chunks[i])
  {
    assert chunks[..i + 1][..i] == chunks[..i];
  }

  /** Reads a stream that arrives in any chunks: the result is that of the whole stream. */
  method ReadStream(chunks: seq<seq<Byte>>) returns (frames: seq<Frame>, error: Option<Error>)
    ensures var whole := Drain(Joined(chunks)); frames == whole.frames && error == whole.error
  {
    var reader := new FrameReader();
    frames, error := [], None;
    ChunkingIsInvisible(chunks);
    for i := 0 to |chunks|
      invariant fresh(reader) && error.None?
      invariant FeedAll(chunks[..i]) == Reading(frames, reader.buffer, error)
    {
      FeedOne(chunks, i);
      reader.Extend(chunks[i]);
      var more;
      more, error := reader.TakeFrames();
      frames := frames + more;
      if error.Some? {
        StaysStopped(chunks, i + 1);
        return;
      }
    }
    assert chunks[..|chunks|] == chunks;
  }

  /** After an error nothing more is read. */
  lemma {:induction false} StaysStopped(chunks: seq<seq<Byte>>, n: nat)
    requires n <= |chunks| && FeedAll(chunks[..n]).error.Some?
    ensures FeedAll(chunks) == FeedAll(chunks[..n])
    decreases |chunks|
  {
    if n == |chunks| {
      assert chunks[..n] == chunks;
    } else {
      var init := chunks[..|chunks| - 1];
      assert init[..n] == chunks[..n];
      StaysStopped(init, n);
    }
  }
}
