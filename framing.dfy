/** Length-prefixed framing of the relay stream. The writer (`send_or_panic`)
    sends each serialised message as its length, four bytes little-endian,
    followed by the bytes; the readers take a frame at a time off a byte
    stream. The payload codec itself is a parameter: a decoder returns the
    value and how many bytes it consumed. */
module Framing {
  import opened Wrappers
  import opened Ints

  /** Largest declared frame size a reader accepts. */
  const MAX_FRAME: int := 0x80_000_000

  /** `u32::to_le_bytes`. */
  function Le32(n: u32): (b: seq<u8>)
    ensures |b| == 4
  {
    var v := n as int;
    [(v % 0x100) as u8, (v / 0x100 % 0x100) as u8,
     (v / 0x100 / 0x100 % 0x100) as u8, (v / 0x100 / 0x100 / 0x100 % 0x100) as u8]
  }

  /** `u32::from_le_bytes` (what `read_u32_le` returns). */
  function U32Le(b: seq<u8>): (n: u32)
    requires |b| == 4
  {
    (b[0] as int + 0x100 * b[1] as int + 0x1_0000 * b[2] as int + 0x100_0000 * b[3] as int) as u32
  }

  lemma Le32RoundTrip(n: u32)
    ensures U32Le(Le32(n)) == n
  {
    var v := n as int;
    var v1, v2, v3 := v / 0x100, v / 0x100 / 0x100, v / 0x100 / 0x100 / 0x100;
    assert v == v % 0x100 + 0x100 * v1;
    assert v1 == v1 % 0x100 + 0x100 * v2;
    assert v2 == v2 % 0x100 + 0x100 * v3;
    assert v3 < 0x100;
  }

  /** One byte off the bottom of a number. */
  lemma ByteSplit(lo: int, hi: int)
    requires 0 <= lo < 0x100
    ensures (lo + 0x100 * hi) % 0x100 == lo && (lo + 0x100 * hi) / 0x100 == hi
  {
  }

  /** `v.len() as u32`: the length, truncated to 32 bits. */
  function LengthField(payload: seq<u8>): (n: u32)
    ensures |payload| < U32_LIMIT ==> n as int == |payload|
  {
    (|payload| % U32_LIMIT) as u32
  }

  /** The bytes `send_or_panic` writes for one serialised message. */
  function Frame(payload: seq<u8>): (f: seq<u8>)
    ensures |f| == 4 + |payload| && f[4..] == payload
  {
    Le32(LengthField(payload)) + payload
  }

  datatype ReadError =
    | EndOfStream          // no byte left where a length was expected
    | Truncated            // fewer bytes than the length or the payload needs
    | Excessive(size: u32) // declared size above MAX_FRAME
    | Malformed            // the decoder refused the payload
    | TrailingBytes        // the decoder left bytes of the frame unused

  /** One frame off the front of `stream`: its payload and what follows. The
      size check comes before anything of the payload is looked at, so an
      oversized declaration is refused whatever follows it. */
  function ReadFrame(stream: seq<u8>): (r: Result<(seq<u8>, seq<u8>), ReadError>)
    ensures r.Ok? ==> |r.value.0| <= MAX_FRAME && stream == Le32(|r.value.0| as u32) + r.value.0 + r.value.1
    ensures r.Ok? ==> |r.value.1| + 4 <= |stream|
  {
    if |stream| == 0 then Err(EndOfStream)
    else if |stream| < 4 then Err(Truncated)
    else
      var size := U32Le(stream[..4]);
      if size as int > MAX_FRAME then Err(Excessive(size))
      else if |stream| - 4 < size as int then Err(Truncated)
      else
        var payload, rest := stream[4..4 + size as int], stream[4 + size as int..];
        assert Le32(size) == stream[..4] by { Le32OfU32Le(stream[..4]); }
        assert stream == stream[..4] + payload + rest;
        Ok((payload, rest))
  }

  lemma Le32OfU32Le(b: seq<u8>)
    requires |b| == 4
    ensures Le32(U32Le(b)) == b
  {
    var hi3 := b[3] as int;
    var hi2 := b[2] as int + 0x100 * hi3;
    var hi1 := b[1] as int + 0x100 * hi2;
    var v := b[0] as int + 0x100 * hi1;
    assert U32Le(b) as int == v;
    ByteSplit(b[0] as int, hi1);
    ByteSplit(b[1] as int, hi2);
    ByteSplit(b[2] as int, hi3);
    ByteSplit(b[3] as int, 0);
  }

  /** The payload must decode and use every byte of the frame: the check after
      `decode_from_slice` in src/bin/server.rs, and the `reject_trailing_bytes`
      option of the other readers. */
  function DecodeExact<T>(payload: seq<u8>, decode: seq<u8> -> Option<(T, nat)>): (r: Result<T, ReadError>)
    ensures r.Ok? <==> decode(payload).Some? && decode(payload).value.1 == |payload|
    ensures r.Ok? ==> r.value == decode(payload).value.0
    ensures decode(payload).Some? && decode(payload).value.1 != |payload| ==> r == Err(TrailingBytes)
  {
    match decode(payload)
    case None => Err(Malformed)
    case Some((v, used)) => if used != |payload| then Err(TrailingBytes) else Ok(v)
  }

  /** A whole message off the front of the stream. */
  function ReadMessage<T>(stream: seq<u8>, decode: seq<u8> -> Option<(T, nat)>)
    : (r: Result<(T, seq<u8>), ReadError>)
    ensures r.Ok? ==> |r.value.1| + 4 <= |stream|
  {
    match ReadFrame(stream)
    case Err(e) => Err(e)
    case Ok((payload, rest)) =>
      match DecodeExact(payload, decode)
      case Err(e) => Err(e)
      case Ok(v) => Ok((v, rest))
  }

  /** Reading back what the writer framed yields exactly the payload and the
      untouched remainder, for every payload within the bound. */
  lemma {:induction false} FrameRoundTrip(payload: seq<u8>, rest: seq<u8>)
    requires |payload| <= MAX_FRAME
    ensures ReadFrame(Frame(payload) + rest) == Ok((payload, rest))
  {
    var s := Frame(payload) + rest;
    assert s[..4] == Le32(LengthField(payload));
    Le32RoundTrip(LengthField(payload));
    assert s[4..4 + |payload|] == payload;
    assert s[4 + |payload|..] == rest;
  }

  /** A declared size above the bound is refused however many bytes follow. */
  lemma {:induction false} OversizeRejected(header: seq<u8>, rest: seq<u8>)
    requires |header| == 4 && U32Le(header) as int > MAX_FRAME
    ensures ReadFrame(header + rest) == Err(Excessive(U32Le(header)))
  {
    assert (header + rest)[..4] == header;
  }

  /** A payload the writer cannot frame within the bound is not relayed: a
      reader refuses it from its length field alone. */
  lemma {:induction false} OversizedPayloadRefused(payload: seq<u8>, rest: seq<u8>)
    requires MAX_FRAME < |payload| < U32_LIMIT
    ensures ReadFrame(Frame(payload) + rest) == Err(Excessive(|payload| as u32))
  {
    var s := Frame(payload) + rest;
    assert s[..4] == Le32(LengthField(payload));
    Le32RoundTrip(LengthField(payload));
  }

  /** Round trip of a whole message, for a codec that decodes what it encoded
      and consumes all of it. */
  lemma {:induction false} MessageRoundTrip<T>(m: T, encoded: seq<u8>, rest: seq<u8>,
                                               decode: seq<u8> -> Option<(T, nat)>)
    requires decode(encoded) == Some((m, |encoded|))
    requires |encoded| <= MAX_FRAME
    ensures ReadMessage(Frame(encoded) + rest, decode) == Ok((m, rest))
  {
    FrameRoundTrip(encoded, rest);
  }

  /** A payload that decodes but leaves bytes over is refused. */
  lemma {:induction false} TrailingRejected<T>(m: T, encoded: seq<u8>, extra: seq<u8>, rest: seq<u8>,
                                               decode: seq<u8> -> Option<(T, nat)>)
    requires extra != [] && |encoded + extra| <= MAX_FRAME
    requires decode(encoded + extra) == Some((m, |encoded|))
    ensures ReadMessage(Frame(encoded + extra) + rest, decode) == Err(TrailingBytes)
  {
    FrameRoundTrip(encoded + extra, rest);
  }

  /** The bytes written for a sequence of payloads, one frame after another. */
  function FrameAll(payloads: seq<seq<u8>>): (s: seq<u8>)
  {
    if payloads == [] then [] else Frame(payloads[0]) + FrameAll(payloads[1..])
  }

  /** Every message of a stream in order, and why reading stopped. A reader
      always stops with an error: at the latest, the stream ends. */
  function ReadMessages<T>(stream: seq<u8>, decode: seq<u8> -> Option<(T, nat)>)
    : (r: (seq<T>, ReadError))
    ensures 4 * |r.0| <= |stream|
    ensures stream == [] ==> r == ([], EndOfStream)
    decreases |stream|
  {
    match ReadMessage(stream, decode)
    case Err(e) => ([], e)
    case Ok((m, rest)) =>
      var more := ReadMessages(rest, decode);
      ([m] + more.0, more.1)
  }

  /** The readers recover exactly the messages the writer framed, in order,
      and then meet the end of the stream. */
  lemma {:induction false} ReadMessagesOfFrames<T>(msgs: seq<T>, encoded: seq<seq<u8>>,
                                                   decode: seq<u8> -> Option<(T, nat)>)
    requires |msgs| == |encoded|
    requires forall i | 0 <= i < |encoded| :: |encoded[i]| <= MAX_FRAME
    requires forall i | 0 <= i < |encoded| :: decode(encoded[i]) == Some((msgs[i], |encoded[i]|))
    ensures ReadMessages(FrameAll(encoded), decode) == (msgs, EndOfStream)
    decreases |msgs|
  {
    if msgs != [] {
      MessageRoundTrip(msgs[0], encoded[0], FrameAll(encoded[1..]), decode);
      ReadMessagesOfFrames(msgs[1..], encoded[1..], decode);
      assert [msgs[0]] + msgs[1..] == msgs;
    }
  }
}
