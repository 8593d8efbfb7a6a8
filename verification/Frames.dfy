/**
 Wire formats: relay frames, lane envelopes and chunk envelopes, with the agent's one-shot decoders
 and the browser's incremental frame decoder.
 */
module Frames {
  import opened Basics
  import opened Traffic

  // ----- big-endian integers

  function Pow256(width: nat): nat {
    if width == 0 then 1 else 256 * Pow256(width - 1)
  }

  function BigEndian(n: nat, width: nat): (bs: Bytes)
    ensures |bs| == width
  {
    if width == 0 then [] else BigEndian(n / 256, width - 1) + [n % 256]
  }

  function FromBigEndian(bs: Bytes): nat {
    if bs == [] then 0 else 256 * FromBigEndian(bs[..|bs| - 1]) + bs[|bs| - 1]
  }

  lemma {:induction false} FromTo(n: nat, width: nat)
    requires n < Pow256(width)
    ensures FromBigEndian(BigEndian(n, width)) == n
  {
    if width > 0 {
      FromTo(n / 256, width - 1);
      assert BigEndian(n, width)[..width - 1] == BigEndian(n / 256, width - 1);
    }
  }

  lemma {:induction false} ToFrom(bs: Bytes)
    ensures BigEndian(FromBigEndian(bs), |bs|) == bs
    ensures FromBigEndian(bs) < Pow256(|bs|)
  {
    if bs != [] {
      ToFrom(bs[..|bs| - 1]);
    }
  }

  lemma Pow256Values()
    ensures Pow256(2) == 0x1_0000 && Pow256(4) == 0x1_0000_0000 && Pow256(8) == 0x1_0000_0000_0000_0000
  {
    assert Pow256(3) == 256 * Pow256(2) && Pow256(5) == 256 * Pow256(4);
    assert Pow256(6) == 256 * Pow256(5) && Pow256(7) == 256 * Pow256(6);
  }

  // ----- relay frames: kind, length in four bytes, payload

  const HANDSHAKE: byte := 0
  const TEXT: byte := 1
  const BINARY: byte := 2
  const MAX_HANDSHAKE_PAYLOAD := 4 * 1024
  const MAX_FRAME_PAYLOAD := 8 * 1024 * 1024

  datatype Frame = Frame(kind: byte, payload: Bytes)

  datatype FrameError = UnknownFrameKind | FrameTooLarge | IncompleteHeader | IncompletePayload {
    /** More bytes may still turn this into a frame. */
    predicate Incomplete() { IncompleteHeader? || IncompletePayload? }
  }

  function CapForKind(kind: byte): Option<nat> {
    if kind == HANDSHAKE then Some(MAX_HANDSHAKE_PAYLOAD)
    else if kind == TEXT || kind == BINARY then Some(MAX_FRAME_PAYLOAD)
    else None
  }

  function WriteFrame(kind: byte, payload: Bytes): Result<Bytes, FrameError> {
    match CapForKind(kind)
    case None => Err(UnknownFrameKind)
    case Some(cap) =>
      if |payload| > cap then Err(FrameTooLarge)
      else Ok([kind] + BigEndian(|payload|, 4) + payload)
  }

  function DecodeOneFrame(buf: Bytes): Result<(Frame, Bytes), FrameError> {
    if |buf| < 5 then Err(IncompleteHeader)
    else match CapForKind(buf[0])
      case None => Err(UnknownFrameKind)
      case Some(cap) =>
        var length := FromBigEndian(buf[1..5]);
        if length > cap then Err(FrameTooLarge)
        else if |buf| < 5 + length then Err(IncompletePayload)
        else Ok((Frame(buf[0], buf[5..5 + length]), buf[5 + length..]))
  }

  /** What is written is what is decoded, whatever follows it. */
  lemma DecodeWritten(kind: byte, payload: Bytes, rest: Bytes)
    requires WriteFrame(kind, payload).Ok?
    ensures DecodeOneFrame(WriteFrame(kind, payload).value + rest) == Ok((Frame(kind, payload), rest))
  {
    Pow256Values();
    FromTo(|payload|, 4);
    var buf := WriteFrame(kind, payload).value + rest;
    assert buf[1..5] == BigEndian(|payload|, 4);
    assert buf[5..5 + |payload|] == payload;
    assert buf[5 + |payload|..] == rest;
  }

  /** And what is decoded is what was written: a decoded frame's bytes can only be its encoding. */
  lemma WriteDecoded(buf: Bytes)
    requires DecodeOneFrame(buf).Ok?
    ensures var (f, rest) := DecodeOneFrame(buf).value;
      WriteFrame(f.kind, f.payload).Ok? && buf == WriteFrame(f.kind, f.payload).value + rest
  {
    var (f, rest) := DecodeOneFrame(buf).value;
    ToFrom(buf[1..5]);
    assert buf == [buf[0]] + buf[1..5] + f.payload + rest;
  }

  lemma DecodeExtended(buf: Bytes, more: Bytes)
    ensures match DecodeOneFrame(buf)
      case Ok(p) => DecodeOneFrame(buf + more) == Ok((p.0, p.1 + more))
      case Err(e) => !e.Incomplete() ==> DecodeOneFrame(buf + more) == Err(e)
  {
    if |buf| >= 5 {
      assert (buf + more)[1..5] == buf[1..5];
      if DecodeOneFrame(buf).Ok? {
        var n := FromBigEndian(buf[1..5]);
        assert (buf + more)[5..5 + n] == buf[5..5 + n];
        assert (buf + more)[5 + n..] == buf[5 + n..] + more;
      }
    }
  }

  // ----- the incremental decoder

  datatype Parsed = Parsed(frames: seq<Frame>, rest: Bytes, error: Option<FrameError>)

  /** Every complete frame at the front of a byte stream, what is left, and the error that stopped
      it if it was not the end of the bytes. */
  function Parse(buf: Bytes): Parsed
    decreases |buf|
  {
    match DecodeOneFrame(buf)
    case Ok((f, rest)) =>
      var p := Parse(rest);
      p.(frames := [f] + p.frames)
    case Err(e) => Parsed([], buf, if e.Incomplete() then None else Some(e))
  }

  class FrameDecoder {
    var buffer: Bytes

    constructor ()
      ensures buffer == []
    {
      buffer := [];
    }

    /** Takes a chunk and yields the frames it completes. */
    method Push(chunk: Bytes) returns (frames: seq<Frame>, error: Option<FrameError>)
      modifies this
      ensures Parsed(frames, buffer, error) == Parse(old(buffer) + chunk)
    {
      buffer := buffer + chunk;
      frames := [];
      ghost var all := Parse(buffer);
      while |buffer| >= 5
        invariant all == Parse(buffer).(frames := frames + Parse(buffer).frames)
        decreases |buffer|
      {
        var kind := buffer[0];
        var cap := CapForKind(kind);
        if cap.None? {
          return frames, Some(UnknownFrameKind);
        }
        var length := FromBigEndian(buffer[1..5]);
        if length > cap.value {
          return frames, Some(FrameTooLarge);
        }
        if |buffer| < 5 + length {
          break;
        }
        var payload := buffer[5..5 + length];
        buffer := buffer[5 + length..];
        frames := frames + [Frame(kind, payload)];
      }
      return frames, None;
    }
  }

  /** A decoder fed chunk after chunk, stopping at the first error. */
  function Feed(buffer: Bytes, chunks: seq<Bytes>): Parsed
    decreases |chunks|
  {
    if chunks == [] then Parsed([], buffer, None)
    else
      var p := Parse(buffer + chunks[0]);
      if p.error.Some? then p
      else
        var q := Feed(p.rest, chunks[1..]);
        q.(frames := p.frames + q.frames)
  }

  lemma {:induction false} ParseExtended(buf: Bytes, more: Bytes)
    ensures Parse(buf).error.Some? ==>
      Parse(buf + more).frames == Parse(buf).frames && Parse(buf + more).error == Parse(buf).error
    ensures Parse(buf).error.None? ==>
      var q := Parse(Parse(buf).rest + more);
      Parse(buf + more) == q.(frames := Parse(buf).frames + q.frames)
    decreases |buf|
  {
    DecodeExtended(buf, more);
    match DecodeOneFrame(buf) {
      case Ok((f, rest)) =>
        ParseExtended(rest, more);
        assert DecodeOneFrame(buf + more) == Ok((f, rest + more));
        if Parse(buf).error.None? {
          var q := Parse(Parse(rest).rest + more);
          assert [f] + (Parse(rest).frames + q.frames) == ([f] + Parse(rest).frames) + q.frames;
        }
      case Err(e) =>
        if e.Incomplete() {
          var q := Parse(buf + more);
          assert [] + q.frames == q.frames;
        }
    }
  }

  /** What a decoder keeps is less than one complete frame. */
  lemma {:induction false} RestIsIncomplete(buf: Bytes)
    requires Parse(buf).error.None?
    ensures var rest := Parse(buf).rest;
      DecodeOneFrame(rest).Err? && DecodeOneFrame(rest).error.Incomplete() && |rest| < 5 + MAX_FRAME_PAYLOAD
    decreases |buf|
  {
    if DecodeOneFrame(buf).Ok? {
      RestIsIncomplete(DecodeOneFrame(buf).value.1);
    }
  }

  lemma {:induction false} FeedIsParse(buffer: Bytes, chunks: seq<Bytes>)
    requires Parse(buffer) == Parsed([], buffer, None)
    ensures var p, q := Feed(buffer, chunks), Parse(buffer + Concat(chunks));
      p.frames == q.frames && p.error == q.error && (p.error.None? ==> p.rest == q.rest)
    decreases |chunks|
  {
    if chunks == [] {
      assert buffer + [] == buffer;
    } else {
      var rest := Concat(chunks[1..]);
      assert buffer + Concat(chunks) == (buffer + chunks[0]) + rest;
      ParseExtended(buffer + chunks[0], rest);
      var p := Parse(buffer + chunks[0]);
      if p.error.None? {
        RestIsIncomplete(buffer + chunks[0]);
        FeedIsParse(p.rest, chunks[1..]);
      }
    }
  }

  /** Frames and error point depend on the bytes only, not on how they were cut into chunks. */
  lemma ChunkingIndependent(chunks: seq<Bytes>, other: seq<Bytes>)
    requires Concat(chunks) == Concat(other)
    ensures var p, q := Feed([], chunks), Feed([], other);
      p.frames == q.frames && p.error == q.error && (p.error.None? ==> p.rest == q.rest)
  {
    FeedIsParse([], chunks);
    FeedIsParse([], other);
  }

  /** A frame can be written. */
  predicate Writable(f: Frame) {
    WriteFrame(f.kind, f.payload).Ok?
  }

  predicate AllWritable(fs: seq<Frame>) {
    forall i :: 0 <= i < |fs| ==> Writable(fs[i])
  }

  function Encode(fs: seq<Frame>): Bytes
    requires AllWritable(fs)
  {
    if fs == [] then []
    else
      assert Writable(fs[0]);
      WriteFrame(fs[0].kind, fs[0].payload).value + Encode(fs[1..])
  }

  lemma {:induction false} ParseEncoded(fs: seq<Frame>)
    requires AllWritable(fs)
    ensures Parse(Encode(fs)) == Parsed(fs, [], None)
  {
    if fs != [] {
      assert Writable(fs[0]);
      DecodeWritten(fs[0].kind, fs[0].payload, Encode(fs[1..]));
      ParseEncoded(fs[1..]);
      assert fs == [fs[0]] + fs[1..];
    }
  }

  /** Any concatenation of written frames, cut anywhere, decodes to exactly those frames. */
  lemma FramesRoundTrip(fs: seq<Frame>, chunks: seq<Bytes>)
    requires AllWritable(fs)
    requires Concat(chunks) == Encode(fs)
    ensures Feed([], chunks) == Parsed(fs, [], None)
  {
    ParseEncoded(fs);
    assert [] + Concat(chunks) == Encode(fs);
    FeedIsParse([], chunks);
  }

  // ----- lane envelopes: the lane in one byte, payload

  datatype EnvelopeError = InvalidLane | EmptyEnvelope

  function LaneCode(lane: Lane): byte {
    match lane
    case ControlLane => 0
    case MediaLane => 1
    case BulkLane => 2
  }

  function LaneOfCode(code: byte): Option<Lane> {
    if code == 0 then Some(ControlLane)
    else if code == 1 then Some(MediaLane)
    else if code == 2 then Some(BulkLane)
    else None
  }

  function EncodeEnvelope(lane: byte, payload: Bytes): Result<Bytes, EnvelopeError> {
    if LaneOfCode(lane).None? then Err(InvalidLane) else Ok([lane] + payload)
  }

  function DecodeEnvelope(encoded: Bytes): Result<(Lane, Bytes), EnvelopeError> {
    if encoded == [] then Err(EmptyEnvelope)
    else match LaneOfCode(encoded[0])
      case None => Err(InvalidLane)
      case Some(lane) => Ok((lane, encoded[1..]))
  }

  lemma EnvelopeRoundTrip(lane: Lane, payload: Bytes)
    ensures EncodeEnvelope(LaneCode(lane), payload).Ok?
    ensures DecodeEnvelope(EncodeEnvelope(LaneCode(lane), payload).value) == Ok((lane, payload))
  {
    assert ([LaneCode(lane)] + payload)[1..] == payload;
  }

  lemma EnvelopeRoundTripBack(encoded: Bytes)
    requires DecodeEnvelope(encoded).Ok?
    ensures var (lane, payload) := DecodeEnvelope(encoded).value;
      EncodeEnvelope(LaneCode(lane), payload) == Ok(encoded)
  {
    assert encoded == [encoded[0]] + encoded[1..];
  }

  // ----- chunk envelopes: type, version, operation in eight bytes, generation in four, payload

  const FILE_CHUNK: byte := 0x10
  const THUMBNAIL: byte := 0x11
  const CHUNK_VERSION: byte := 0x01
  const CHUNK_ENVELOPE_BYTES := 14

  datatype Binary =
    | Chunk(operation: nat, generation: nat, payload: Bytes)
    | Thumb(index: nat, payload: Bytes)

  datatype BinaryError =
    ChunkTooShort | ThumbTooShort | NotAChunk | UnsupportedVersion | ZeroOperation | UnknownBinaryKind | BadOperation | BadGeneration

  /** The agent's encoder; its arguments are a uint64 and a uint32. */
  function EncodeChunkFrame(operation: nat, generation: nat, data: Bytes): Bytes {
    [FILE_CHUNK, CHUNK_VERSION] + BigEndian(operation, 8) + BigEndian(generation, 4) + data
  }

  /** The agent's decoder. */
  function DecodeChunkFrame(frame: Bytes): Result<Binary, BinaryError> {
    if |frame| < CHUNK_ENVELOPE_BYTES then Err(ChunkTooShort)
    else if frame[0] != FILE_CHUNK then Err(NotAChunk)
    else if frame[1] != CHUNK_VERSION then Err(UnsupportedVersion)
    else Ok(Chunk(FromBigEndian(frame[2..10]), FromBigEndian(frame[10..14]), frame[14..]))
  }

  /** The browser's encoder, which checks the ranges. */
  function EncodeChunkEnvelope(operation: int, generation: int, payload: Bytes): Result<Bytes, BinaryError> {
    if operation <= 0 || operation > 0xffff_ffff_ffff_ffff then Err(BadOperation)
    else if generation < 0 || generation > 0xffff_ffff then Err(BadGeneration)
    else Ok(EncodeChunkFrame(operation, generation, payload))
  }

  /** The thumbnail encoders of both sides; the index is a uint16. */
  function EncodeThumbnail(index: nat, payload: Bytes): Bytes {
    [THUMBNAIL] + BigEndian(index, 2) + payload
  }

  /** The browser's decoder of everything binary. */
  function DecodeBinaryEnvelope(data: Bytes): Result<Binary, BinaryError> {
    if data != [] && data[0] == THUMBNAIL then
      if |data| < 3 then Err(ThumbTooShort) else Ok(Thumb(FromBigEndian(data[1..3]), data[3..]))
    else if data != [] && data[0] == FILE_CHUNK then
      if |data| < CHUNK_ENVELOPE_BYTES then Err(ChunkTooShort)
      else if data[1] != CHUNK_VERSION then Err(UnsupportedVersion)
      else if FromBigEndian(data[2..10]) == 0 then Err(ZeroOperation)
      else Ok(Chunk(FromBigEndian(data[2..10]), FromBigEndian(data[10..14]), data[14..]))
    else Err(UnknownBinaryKind)
  }

  /** Every chunk the agent encodes for a real operation decodes to itself on both sides. */
  lemma ChunkRoundTrip(operation: nat, generation: nat, data: Bytes)
    requires operation < 0x1_0000_0000_0000_0000 && generation < 0x1_0000_0000
    ensures DecodeChunkFrame(EncodeChunkFrame(operation, generation, data)) == Ok(Chunk(operation, generation, data))
    ensures DecodeBinaryEnvelope(EncodeChunkFrame(operation, generation, data)) ==
            if operation == 0 then Err(ZeroOperation) else Ok(Chunk(operation, generation, data))
  {
    Pow256Values();
    FromTo(operation, 8);
    FromTo(generation, 4);
    var f := EncodeChunkFrame(operation, generation, data);
    assert f[2..10] == BigEndian(operation, 8);
    assert f[10..14] == BigEndian(generation, 4);
    assert f[14..] == data;
  }

  /** Every encoded thumbnail decodes to itself. */
  lemma ThumbnailRoundTrip(index: nat, payload: Bytes)
    requires index < 0x1_0000
    ensures DecodeBinaryEnvelope(EncodeThumbnail(index, payload)) == Ok(Thumb(index, payload))
  {
    Pow256Values();
    FromTo(index, 2);
    var f := EncodeThumbnail(index, payload);
    assert f[1..3] == BigEndian(index, 2);
    assert f[3..] == payload;
  }

  /** The browser accepts exactly the agent's encodings of nonzero operations, and thumbnails. */
  lemma DecodedIsEncoded(data: Bytes)
    requires DecodeBinaryEnvelope(data).Ok?
    ensures match DecodeBinaryEnvelope(data).value
      case Chunk(operation, generation, payload) =>
        && EncodeChunkEnvelope(operation, generation, payload) == Ok(data)
        && DecodeChunkFrame(data) == DecodeBinaryEnvelope(data)
      case Thumb(index, payload) => data == EncodeThumbnail(index, payload) && index < 0x1_0000
  {
    Pow256Values();
    match DecodeBinaryEnvelope(data).value {
      case Chunk(operation, generation, payload) =>
        ToFrom(data[2..10]);
        ToFrom(data[10..14]);
        assert data == [data[0], data[1]] + data[2..10] + data[10..14] + data[14..];
      case Thumb(index, payload) =>
        ToFrom(data[1..3]);
        assert data == [data[0]] + data[1..3] + data[3..];
    }
  }
}
