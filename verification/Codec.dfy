/** Transport framing: each message body behind a 2-byte little-endian length. */
module Codec {
  import opened Machine
  import opened Wrappers
  import opened Sequences

  const MAX_FRAME_LEN: nat := 65535

  datatype FrameError = TooLong | Truncated(offset: nat)

  /** The value of a little-endian byte pair. */
  function LengthOf(lo: u8, hi: u8): nat {
    var low: int, high: int := lo, hi;
    low + 256 * high
  }

  function LengthPrefix(n: nat): (p: seq<u8>)
    requires n <= MAX_FRAME_LEN
    ensures |p| == 2 && LengthOf(p[0], p[1]) == n
  {
    [n % 256, n / 256]
  }

  /** The wire form of a list of bodies. */
  function Encoded(bodies: seq<seq<u8>>): seq<u8>
    requires forall b | b in bodies :: |b| <= MAX_FRAME_LEN
    decreases |bodies|
  {
    if bodies == [] then [] else LengthPrefix(|bodies[0]|) + bodies[0] + Encoded(bodies[1..])
  }

  /** A complete frame begins at `offset`. */
  predicate Complete(buf: seq<u8>, offset: nat) {
    offset + 2 <= |buf| && offset + 2 + LengthOf(buf[offset], buf[offset + 1]) <= |buf|
  }

  function FrameEnd(buf: seq<u8>, offset: nat): nat
    requires Complete(buf, offset)
  {
    offset + 2 + LengthOf(buf[offset], buf[offset + 1])
  }

  function DecodedFrom(buf: seq<u8>, offset: nat): Result<seq<seq<u8>>, FrameError>
    requires offset <= |buf|
    decreases |buf| - offset
  {
    if offset == |buf| then Ok([])
    else if !Complete(buf, offset) then Err(Truncated(offset))
    else
      var end := FrameEnd(buf, offset);
      match DecodedFrom(buf, end)
      case Err(e) => Err(e)
      case Ok(rest) => Ok([buf[offset + 2..end]] + rest)
  }

  function Decoded(buf: seq<u8>): Result<seq<seq<u8>>, FrameError> { DecodedFrom(buf, 0) }

  /** An outgoing buffer that frames are appended to. */
  class Buffer {
    var bytes: seq<u8>

    constructor ()
      ensures bytes == []
    {
      bytes := [];
    }

    /** An oversized body is refused and nothing is written. */
    method EncodeFrame(body: seq<u8>) returns (r: Result<(), FrameError>)
      modifies this
      ensures |body| <= 65535 ==> r == Ok(()) && bytes == old(bytes) + Encoded([body])
      ensures |body| > 65535 ==> r == Err(TooLong) && bytes == old(bytes)
    {
      if |body| > MAX_FRAME_LEN {
        return Err(TooLong);
      }
      bytes := bytes + LengthPrefix(|body|);
      bytes := bytes + body;
      assert [body][1..] == [];
      assert Encoded([body]) == LengthPrefix(|body|) + body;
      return Ok(());
    }
  }

  method Frame(body: seq<u8>) returns (r: Result<seq<u8>, FrameError>)
    ensures r == if |body| <= MAX_FRAME_LEN then Ok(Encoded([body])) else Err(TooLong)
  {
    var out := new Buffer();
    var done := out.EncodeFrame(body);
    assert |body| <= MAX_FRAME_LEN ==> [] + Encoded([body]) == Encoded([body]);
    match done {
      case Err(e) => return Err(e);
      case Ok(_) => return Ok(out.bytes);
    }
  }

  method DecodeFrames(buf: seq<u8>) returns (r: Result<seq<seq<u8>>, FrameError>)
    ensures r == Decoded(buf)
  {
    var frames: seq<seq<u8>> := [];
    var offset := 0;
    assert forall rest: seq<seq<u8>> :: [] + rest == rest;
    while offset < |buf|
      invariant 0 <= offset <= |buf|
      invariant Decoded(buf) == match DecodedFrom(buf, offset)
                                case Err(e) => Err(e)
                                case Ok(rest) => Ok(frames + rest)
    {
      if |buf| - offset < 2 {
        return Err(Truncated(offset));
      }
      var len := LengthOf(buf[offset], buf[offset + 1]);
      var end := offset + 2 + len;
      if |buf| < end {
        return Err(Truncated(offset));
      }
      ghost var rest := DecodedFrom(buf, end);
      assert rest.Ok? ==> frames + ([buf[offset + 2..end]] + rest.value) == frames + [buf[offset + 2..end]] + rest.value;
      frames := frames + [buf[offset + 2..end]];
      offset := end;
    }
    assert frames + [] == frames;
    return Ok(frames);
  }

  /** A frame is the low byte of the body's length, its high byte, and the body. */
  lemma FrameLayout(body: seq<u8>)
    requires |body| <= 65535
    ensures var frame := Encoded([body]);
            && |frame| == 2 + |body|
            && frame[0] == |body| % 256 && frame[1] == |body| / 256
            && frame[2..] == body
  {
    assert [body][1..] == [];
    assert Encoded([body]) == LengthPrefix(|body|) + body;
  }

  // ---- The two directions are inverse ----

  lemma {:induction false} DecodeAfter(head: seq<u8>, bodies: seq<seq<u8>>)
    requires forall b | b in bodies :: |b| <= MAX_FRAME_LEN
    ensures DecodedFrom(head + Encoded(bodies), |head|) == Ok(bodies)
    decreases |bodies|
  {
    if bodies != [] {
      var body, rest := bodies[0], bodies[1..];
      var prefix := LengthPrefix(|body|);
      var buf := head + Encoded(bodies);
      var next := head + prefix + body;
      assert buf == next + Encoded(rest) by {
        Regroup(head, prefix + body, Encoded(rest));
        Regroup(head, prefix, body);
      }
      FrameAt(head, prefix, body, Encoded(rest));
      DecodeAfter(next, rest);
      assert bodies == [body] + rest;
    }
  }

  lemma FrameAt(head: seq<u8>, prefix: seq<u8>, body: seq<u8>, tail: seq<u8>)
    requires |body| <= MAX_FRAME_LEN && prefix == LengthPrefix(|body|)
    ensures var buf := head + prefix + body + tail;
            && Complete(buf, |head|)
            && FrameEnd(buf, |head|) == |head + prefix + body|
            && buf[|head| + 2..|head + prefix + body|] == body
  {
    var buf := head + prefix + body + tail;
    assert buf[|head|] == prefix[0] && buf[|head| + 1] == prefix[1];
  }

  /** Decoding any list of encodable bodies returns that list. */
  lemma {:induction false} DecodeEncode(bodies: seq<seq<u8>>)
    requires forall b | b in bodies :: |b| <= MAX_FRAME_LEN
    ensures Decoded(Encoded(bodies)) == Ok(bodies)
  {
    DecodeAfter([], bodies);
    assert [] + Encoded(bodies) == Encoded(bodies);
  }

  lemma {:induction false} EncodeDecodedFrom(buf: seq<u8>, offset: nat)
    requires offset <= |buf| && DecodedFrom(buf, offset).Ok?
    ensures var bodies := DecodedFrom(buf, offset).value;
            && (forall b | b in bodies :: |b| <= MAX_FRAME_LEN)
            && Encoded(bodies) == buf[offset..]
    decreases |buf| - offset
  {
    if offset < |buf| {
      var end := FrameEnd(buf, offset);
      EncodeDecodedFrom(buf, end);
      var rest := DecodedFrom(buf, end).value;
      assert ([buf[offset + 2..end]] + rest)[1..] == rest;
      FrameBytes(buf, offset);
    }
  }

  /** A complete frame is its body behind its length. */
  lemma FrameBytes(buf: seq<u8>, offset: nat)
    requires Complete(buf, offset)
    ensures var end := FrameEnd(buf, offset);
            var body := buf[offset + 2..end];
            |body| <= MAX_FRAME_LEN && LengthPrefix(|body|) + body + buf[end..] == buf[offset..]
  {
    var end := FrameEnd(buf, offset);
    var body := buf[offset + 2..end];
    assert LengthPrefix(|body|) == buf[offset..offset + 2];
    Regroup(buf[offset..offset + 2], body, buf[end..]);
    SplitAt(buf, offset + 2, end);
    SplitAt(buf, offset, offset + 2);
  }

  /** Every buffer that decodes is the encoding of what it decoded to, so no two buffers decode alike. */
  lemma EncodeDecode(buf: seq<u8>)
    requires Decoded(buf).Ok?
    ensures var bodies := Decoded(buf).value;
            && (forall b | b in bodies :: |b| <= MAX_FRAME_LEN)
            && Encoded(bodies) == buf
  {
    EncodeDecodedFrom(buf, 0);
  }

  // ---- Where a truncation is reported ----

  lemma {:induction false} TruncationFrom(buf: seq<u8>, offset: nat, m: nat)
    requires offset <= m <= |buf|
    ensures DecodedFrom(buf, offset).Err? ==>
              && DecodedFrom(buf, offset).error.Truncated?
              && var t := DecodedFrom(buf, offset).error.offset;
                 && offset <= t < |buf|
                 && DecodedFrom(buf[..t], offset).Ok?
                 && (DecodedFrom(buf[..m], offset).Ok? ==> m <= t)
    decreases |buf| - offset
  {
    if offset < |buf| && Complete(buf, offset) && DecodedFrom(buf, offset).Err? {
      var end := FrameEnd(buf, offset);
      TruncationFrom(buf, end, if end <= m then m else end);
      var t := DecodedFrom(buf, end).error.offset;
      assert Complete(buf[..t], offset) && FrameEnd(buf[..t], offset) == end;
      if DecodedFrom(buf[..m], offset).Ok? && offset < m {
        assert Complete(buf[..m], offset) && FrameEnd(buf[..m], offset) == end;
      }
    }
  }

  /** A failed decode reports the end of the longest run of complete frames: the buffer up to that
      offset decodes, no longer prefix does, and the offset lies inside the buffer. */
  lemma TruncationIsLongestRun(buf: seq<u8>, m: nat)
    requires Decoded(buf).Err? && m <= |buf|
    ensures Decoded(buf).error.Truncated?
    ensures var t := Decoded(buf).error.offset;
            t < |buf| && Decoded(buf[..t]).Ok? && (Decoded(buf[..m]).Ok? ==> m <= t)
  {
    TruncationFrom(buf, 0, m);
  }
}
