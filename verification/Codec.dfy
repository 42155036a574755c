/** Framing of the byte stream (src/bgp/codec.rs, section 4.1 of RFC 4271). */
module Codec {
  import opened Basics
  import opened Bytes
  import opened Types

  datatype Decoded =
    | NeedMore
    | Failed
    | Frame(data: seq<Byte>, rest: seq<Byte>)

  /** What one `decode` does to the buffered octets. */
  function DecodeOne(buf: seq<Byte>): Decoded {
    if |buf| < MIN_MESSAGE_LENGTH then NeedMore
    else if buf[..16] != MARKER then Failed
    else
      var length := GetU16(buf[16], buf[17]);
      if !ValidMessageLength(length) then Failed
      else if |buf| < length then NeedMore
      else if MessageTypeOf(buf[18]).None? then Failed
      else Frame(buf[..length], buf[length..])
  }

  /** A message behind its marker and length. */
  function Framed(body: seq<Byte>): seq<Byte> {
    MARKER + PutU16(|body| + 18) + body
  }

  /** What `encode` appends for a message without its header. */
  function EncodeOne(body: seq<Byte>): Result<seq<Byte>> {
    if ValidMessageLength(|body| + 18) then Ok(Framed(body)) else Err
  }

  /** Framing in octets: a frame is sixteen 0xff octets, a length in two octets, most significant first,
      of 19 to 4096 that counts all of them, and one of the four types; what is not one yet may become
      one unless an octet already there is against it. */
  lemma FrameInOctets(buf: seq<Byte>)
    ensures |buf| < 19 ==> DecodeOne(buf) == NeedMore
    ensures |buf| >= 19 ==>
              var n := 256 * buf[16] as int + buf[17];
              var marked := forall i | 0 <= i < 16 :: buf[i] == 0xff;
              && (DecodeOne(buf).Frame? <==> marked && 19 <= n <= 4096 && n <= |buf| && buf[18] in {1, 2, 3, 4})
              && (DecodeOne(buf).NeedMore? <==> marked && 19 <= n <= 4096 && n > |buf|)
              && (DecodeOne(buf).Frame? ==> DecodeOne(buf).data == buf[..n] && DecodeOne(buf).rest == buf[n..])
  {
    if |buf| >= 19 {
      assert buf[..16] == MARKER <==> forall i | 0 <= i < 16 :: buf[i] == 0xff;
    }
  }

  /** What is encoded: exactly the bodies of 1 to 4078 octets, behind sixteen 0xff octets and the length
      of all of it. */
  lemma EncodedInOctets(body: seq<Byte>)
    ensures EncodeOne(body).Ok? <==> 1 <= |body| <= 4078
    ensures EncodeOne(body).Ok? ==>
              var e := EncodeOne(body).value;
              && |e| == 18 + |body| && (forall i | 0 <= i < 16 :: e[i] == 0xff)
              && 256 * e[16] as int + e[17] == |e| && e[18..] == body
  {
    if EncodeOne(body).Ok? {
      var e, n := EncodeOne(body).value, |body| + 18;
      assert e[16] == PutU16(n)[0] && e[17] == PutU16(n)[1];
      assert forall i | 0 <= i < 16 :: e[i] == MARKER[i];
    }
  }

  /** The receive and send buffer, `bytes::BytesMut`. */
  class BytesMut {
    var bytes: seq<Byte>

    constructor ()
      ensures bytes == []
    {
      bytes := [];
    }
  }

  method Decode(src: BytesMut) returns (r: Result<Option<seq<Byte>>>)
    modifies src
    ensures match DecodeOne(old(src.bytes))
            case NeedMore => r == Ok(None) && src.bytes == old(src.bytes)
            case Failed => r == Err && src.bytes == old(src.bytes)
            case Frame(data, rest) => r == Ok(Some(data)) && src.bytes == rest && data + rest == old(src.bytes)
  {
    if |src.bytes| < MIN_MESSAGE_LENGTH {
      return Ok(None);
    }
    if src.bytes[..16] != MARKER {
      return Err;
    }
    var length := GetU16(src.bytes[16], src.bytes[17]);
    if !ValidMessageLength(length) {
      return Err;
    }
    if |src.bytes| < length {
      return Ok(None);
    }
    if MessageTypeOf(src.bytes[18]).None? {
      return Err;
    }
    var data := src.bytes[..length];
    src.bytes := src.bytes[length..];
    r := Ok(Some(data));
  }

  method Encode(data: seq<Byte>, buf: BytesMut) returns (r: Result<()>)
    modifies buf
    ensures match EncodeOne(data)
            case Err => r == Err && buf.bytes == old(buf.bytes)
            case Ok(octets) => r == Ok(()) && buf.bytes == old(buf.bytes) + octets
  {
    var total := |data| + |MARKER| + 2;
    if !ValidMessageLength(total) {
      return Err;
    }
    buf.bytes := buf.bytes + MARKER;
    buf.bytes := buf.bytes + PutU16(total);
    buf.bytes := buf.bytes + data;
    r := Ok(());
  }

  /** A connection being read: the frames handed out so far, the buffered octets, and
      whether reading stopped with an error. Octets that arrive later change nothing then. */
  datatype Stream = Stream(frames: seq<seq<Byte>>, pending: seq<Byte>, failed: bool)

  const START := Stream([], [], false)

  /** Repeated `decode` until it wants more octets or fails. */
  function Drain(s: Stream): (t: Stream)
    requires !s.failed
    decreases |s.pending|
  {
    match DecodeOne(s.pending)
    case NeedMore => s
    case Failed => s.(failed := true)
    case Frame(data, rest) => Drain(Stream(s.frames + [data], rest, false))
  }

  function Feed(s: Stream, chunk: seq<Byte>): Stream {
    if s.failed then s else Drain(s.(pending := s.pending + chunk))
  }

  function FeedAll(chunks: seq<seq<Byte>>): Stream {
    if chunks == [] then START else Feed(FeedAll(chunks[..|chunks| - 1]), chunks[|chunks| - 1])
  }

  /** Equal up to the octets left behind by an error. */
  predicate SameReading(s: Stream, t: Stream) {
    s.frames == t.frames && s.failed == t.failed && (!s.failed ==> s.pending == t.pending)
  }

  lemma DecodeExtends(buf: seq<Byte>, more: seq<Byte>)
    ensures DecodeOne(buf).Failed? ==> DecodeOne(buf + more).Failed?
    ensures DecodeOne(buf).Frame? ==>
              DecodeOne(buf + more) == Frame(DecodeOne(buf).data, DecodeOne(buf).rest + more)
  {
    var all := buf + more;
    if |buf| >= MIN_MESSAGE_LENGTH {
      assert all[..16] == buf[..16];
      var length := GetU16(buf[16], buf[17]);
      if length <= |buf| {
        assert all[..length] == buf[..length];
        assert all[length..] == buf[length..] + more;
      }
    }
  }

  /** Octets that arrive after a drain might as well have been there before it. */
  lemma {:induction false} DrainThenFeed(s: Stream, more: seq<Byte>)
    requires !s.failed
    ensures SameReading(Feed(Drain(s), more), Drain(s.(pending := s.pending + more)))
    decreases |s.pending|
  {
    DecodeExtends(s.pending, more);
    match DecodeOne(s.pending)
    case NeedMore =>
    case Failed =>
    case Frame(data, rest) => DrainThenFeed(Stream(s.frames + [data], rest, false), more);
  }

  /** The frames read, and whether reading fails, do not depend on how the stream was cut. */
  lemma {:induction false} ChunkingIsIrrelevant(chunks: seq<seq<Byte>>)
    ensures SameReading(FeedAll(chunks), Drain(START.(pending := Concat(chunks))))
  {
    if chunks != [] {
      var init, last := chunks[..|chunks| - 1], chunks[|chunks| - 1];
      ChunkingIsIrrelevant(init);
      assert chunks == init + [last];
      ConcatSnoc(init, last);
      DrainThenFeed(START.(pending := Concat(init)), last);
    }
  }

  lemma SameStreamSameFrames(chunks: seq<seq<Byte>>, other: seq<seq<Byte>>)
    requires Concat(chunks) == Concat(other)
    ensures SameReading(FeedAll(chunks), FeedAll(other))
  {
    ChunkingIsIrrelevant(chunks);
    ChunkingIsIrrelevant(other);
  }

  /** A frame is the front of the buffer, and a whole message by itself. */
  lemma FrameIsWhole(buf: seq<Byte>)
    requires DecodeOne(buf).Frame?
    ensures buf == DecodeOne(buf).data + DecodeOne(buf).rest && |DecodeOne(buf).rest| < |buf|
    ensures DecodeOne(DecodeOne(buf).data) == Frame(DecodeOne(buf).data, [])
  {
    var data := DecodeOne(buf).data;
    assert data[..16] == buf[..16];
    assert data[..|data|] == data && data[|data|..] == [];
  }

  /** No octet is lost or invented: frames and buffer make up the octets drained, and
      every frame is one whole message. */
  lemma {:induction false} DrainConserves(s: Stream)
    requires !s.failed
    ensures var t := Drain(s);
            && s.frames <= t.frames
            && Concat(t.frames) + t.pending == Concat(s.frames) + s.pending
            && (forall k | |s.frames| <= k < |t.frames| :: DecodeOne(t.frames[k]) == Frame(t.frames[k], []))
            && (if t.failed then DecodeOne(t.pending).Failed? else DecodeOne(t.pending).NeedMore?)
    decreases |s.pending|
  {
    hide DecodeOne, Concat;
    if DecodeOne(s.pending).Frame? {
      var data, rest := DecodeOne(s.pending).data, DecodeOne(s.pending).rest;
      var next := Stream(s.frames + [data], rest, false);
      FrameIsWhole(s.pending);
      assert Drain(s) == Drain(next);
      hide Drain;
      ConcatSnoc(s.frames, data);
      DrainConserves(next);
      assert Concat(s.frames) + data + rest == Concat(s.frames) + (data + rest);
      assert next.frames[|s.frames|] == data;
      assert Drain(next).frames[|s.frames|] == data;
    }
  }

  lemma ReadingConserves(chunks: seq<seq<Byte>>)
    ensures var t := FeedAll(chunks);
            && (!t.failed ==> Concat(t.frames) + t.pending == Concat(chunks))
            && Concat(t.frames) <= Concat(chunks)
            && forall k | 0 <= k < |t.frames| :: DecodeOne(t.frames[k]) == Frame(t.frames[k], [])
  {
    ChunkingIsIrrelevant(chunks);
    var whole := START.(pending := Concat(chunks));
    DrainConserves(whole);
    assert Concat(whole.frames) + whole.pending == Concat(chunks);
    assert Concat(FeedAll(chunks).frames) + Drain(whole).pending == Concat(chunks);
  }

  /** A body the peer's codec will hand back: it fits a message and names a known type. */
  predicate Sendable(body: seq<Byte>) {
    1 <= |body| <= 4078 && MessageTypeOf(body[0]).Some?
  }

  /** Exactly the sendable bodies are encoded into something that decodes to one frame. */
  lemma EncodeDecodeOne(body: seq<Byte>, rest: seq<Byte>)
    ensures Sendable(body) <==>
            EncodeOne(body).Ok? &&
            DecodeOne(EncodeOne(body).value + rest) == Frame(EncodeOne(body).value, rest)
  {
    if EncodeOne(body).Ok? {
      var e := EncodeOne(body).value;
      var all := e + rest;
      PutGetU16(|body| + 18);
      assert all[..16] == MARKER;
      assert all[16] == PutU16(|body| + 18)[0] && all[17] == PutU16(|body| + 18)[1];
      assert all[18] == body[0];
      assert all[..|e|] == e && all[|e|..] == rest;
    }
  }

  function FramedAll(bodies: seq<seq<Byte>>): seq<seq<Byte>> {
    seq(|bodies|, i requires 0 <= i < |bodies| => Framed(bodies[i]))
  }

  lemma {:induction false} DrainEncoded(done: seq<seq<Byte>>, bodies: seq<seq<Byte>>)
    requires forall b <- bodies :: Sendable(b)
    ensures Drain(Stream(done, Concat(FramedAll(bodies)), false)) == Stream(done + FramedAll(bodies), [], false)
    decreases |bodies|
  {
    if bodies == [] {
      assert done + FramedAll(bodies) == done;
    } else {
      var frames := FramedAll(bodies);
      assert frames[1..] == FramedAll(bodies[1..]);
      EncodeDecodeOne(bodies[0], Concat(frames[1..]));
      DrainEncoded(done + [frames[0]], bodies[1..]);
      assert done + [frames[0]] + frames[1..] == done + frames;
    }
  }

  /** Whatever was sent arrives, frame by frame, in order and with nothing left over,
      however the network cuts the stream. */
  lemma StreamRoundTrip(bodies: seq<seq<Byte>>, chunks: seq<seq<Byte>>)
    requires forall b <- bodies :: Sendable(b)
    requires Concat(chunks) == Concat(FramedAll(bodies))
    ensures FeedAll(chunks) == Stream(FramedAll(bodies), [], false)
  {
    ChunkingIsIrrelevant(chunks);
    DrainEncoded([], bodies);
    assert [] + FramedAll(bodies) == FramedAll(bodies);
  }
}
