/**
 The encrypted relay: a scheduled request becomes a lane envelope, a ciphertext and a frame, and on
 the other side a frame becomes a payload on a lane again. The agent reads one frame from each
 socket message, the browser decodes frames from whatever bytes arrive.
 */
module Relay {
  import opened Basics
  import opened Traffic
  import opened Frames
  import opened Noise
  import opened SchedulerModel
  import opened SchedulerRuns
  import opened SchedulerOrder
  import Runs
  import W = WireFormat

  /** Room for the lane byte and the authentication tag. */
  const MAX_RELAY_PAYLOAD_BYTES := MAX_FRAME_PAYLOAD - 1 - TAG_BYTES

  datatype RelayError =
    | NotOpen
    | CipherError(noise: NoiseError)
    | FramingError(frame: FrameError)
    | TrailingBytes
    | UnexpectedKind
    | LaneError(envelope: EnvelopeError)
    | PayloadTooLarge

  datatype Delivery = Delivery(lane: Lane, kind: Kind, payload: Bytes)

  function KindCode(kind: Kind): byte {
    match kind case Text => TEXT case Binary => BINARY
  }

  /** The size check of an endpoint, before the scheduler sees the payload. */
  predicate EndpointAccepts(r: Request) {
    |r.payload| <= MAX_RELAY_PAYLOAD_BYTES
  }

  // ----- writing

  /** What one scheduled write puts on the socket, and the send cipher after it. */
  function WriteOne(c: Suite, send: Cipher, r: Request): (Result<Bytes, RelayError>, Cipher) {
    var plaintext := [LaneCode(LaneForClass(r.cls))] + r.payload;
    var (ciphertext, send') := Encrypt(c, send, [], plaintext);
    if ciphertext.Err? then (Err(CipherError(ciphertext.error)), send')
    else
      var frame := WriteFrame(KindCode(r.kind), ciphertext.value);
      if frame.Err? then (Err(FramingError(frame.error)), send') else (Ok(frame.value), send')
  }

  /** The socket messages of a sequence of writes; the first failure ends it. */
  function WriteAll(c: Suite, send: Cipher, rs: seq<Request>): (Result<seq<Bytes>, RelayError>, Cipher)
    decreases |rs|
  {
    if rs == [] then (Ok([]), send)
    else
      var (first, send1) := WriteOne(c, send, rs[0]);
      if first.Err? then (Err(first.error), send1)
      else
        var (rest, send2) := WriteAll(c, send1, rs[1..]);
        (if rest.Err? then rest else Ok([first.value] + rest.value), send2)
  }

  /** No size is refused below the endpoints' limit, and every size above it is. */
  lemma SizeLimitIsExact(c: Suite, send: Cipher, r: Request)
    requires Laws(c) && send.key != ZERO_KEY && send.n < LAST_NONCE
    ensures WriteOne(c, send, r).0.Ok? <==> EndpointAccepts(r)
    ensures WriteOne(c, send, r).0.Err? ==> WriteOne(c, send, r).0 == Err(FramingError(FrameTooLarge))
  {
    var plaintext := [LaneCode(LaneForClass(r.cls))] + r.payload;
    assert |c.seal(send.key, NonceBytes(send.n), [], plaintext)| == |plaintext| + TAG_BYTES;
  }

  // ----- reading

  /** A decoded frame: decrypt, split off the lane, deliver. */
  function ReadFrame(c: Suite, recv: Cipher, f: Frame): (Result<Delivery, RelayError>, Cipher) {
    if f.kind != TEXT && f.kind != BINARY then (Err(UnexpectedKind), recv)
    else
      var (plaintext, recv') := Decrypt(c, recv, [], f.payload);
      if plaintext.Err? then (Err(CipherError(plaintext.error)), recv')
      else match DecodeEnvelope(plaintext.value)
        case Err(e) => (Err(LaneError(e)), recv')
        case Ok((lane, payload)) => (Ok(Delivery(lane, if f.kind == TEXT then Text else Binary, payload)), recv')
  }

  /** What a reader has delivered, its cipher, and why it stopped. */
  datatype Reader = Reader(delivered: seq<Delivery>, recv: Cipher, stopped: Option<RelayError>)

  function TakeFrame(c: Suite, s: Reader, f: Frame): Reader {
    if s.stopped.Some? then s
    else match ReadFrame(c, s.recv, f)
      case (Ok(d), recv') => Reader(s.delivered + [d], recv', None)
      case (Err(e), recv') => Reader(s.delivered, recv', Some(e))
  }

  function TakeFrames(c: Suite, s: Reader, fs: seq<Frame>): Reader
    decreases |fs|
  {
    if fs == [] then s else TakeFrames(c, TakeFrame(c, s, fs[0]), fs[1..])
  }

  /** The agent's reader: one socket message must be exactly one frame. */
  function TakeMessage(c: Suite, s: Reader, message: Bytes): Reader {
    if s.stopped.Some? then s
    else match DecodeOneFrame(message)
      case Err(e) => s.(stopped := Some(FramingError(e)))
      case Ok((f, rest)) => if rest != [] then s.(stopped := Some(TrailingBytes)) else TakeFrame(c, s, f)
  }

  function TakeMessages(c: Suite, s: Reader, messages: seq<Bytes>): Reader
    decreases |messages|
  {
    if messages == [] then s else TakeMessages(c, TakeMessage(c, s, messages[0]), messages[1..])
  }

  /** The browser's reader, which keeps undecoded bytes between messages. Once it has stopped, its
      buffer no longer matters. */
  datatype StreamReader = StreamReader(reader: Reader, buffer: Bytes)

  function TakeChunk(c: Suite, s: StreamReader, chunk: Bytes): StreamReader {
    if s.reader.stopped.Some? then s
    else
      var p := Parse(s.buffer + chunk);
      var r := TakeFrames(c, s.reader, p.frames);
      StreamReader(if r.stopped.None? && p.error.Some? then r.(stopped := Some(FramingError(p.error.value))) else r, p.rest)
  }

  function TakeChunks(c: Suite, s: StreamReader, chunks: seq<Bytes>): StreamReader
    decreases |chunks|
  {
    if chunks == [] then s else TakeChunks(c, TakeChunk(c, s, chunks[0]), chunks[1..])
  }

  // ----- end to end

  function Expected(rs: seq<Request>): seq<Delivery> {
    if rs == [] then []
    else [Delivery(LaneForClass(rs[0].cls), rs[0].kind, rs[0].payload)] + Expected(rs[1..])
  }

  /** One written message, read with the counter it was written with, delivers its request. */
  lemma OneThrough(c: Suite, s: Cipher, r: Request)
    requires Laws(c) && WriteOne(c, s, r).0.Ok?
    ensures var (m, s') := WriteOne(c, s, r);
      && s' == s.(n := s.n + 1)
      && DecodeOneFrame(m.value).Ok? && DecodeOneFrame(m.value).value.1 == []
      && ReadFrame(c, s, DecodeOneFrame(m.value).value.0) ==
         (Ok(Delivery(LaneForClass(r.cls), r.kind, r.payload)), s')
  {
    var (m, s') := WriteOne(c, s, r);
    var plaintext := [LaneCode(LaneForClass(r.cls))] + r.payload;
    var ciphertext := Encrypt(c, s, [], plaintext).0.value;
    DecodeWritten(KindCode(r.kind), ciphertext, []);
    assert m.value + [] == m.value;
    assert c.open(s.key, NonceBytes(s.n), [], c.seal(s.key, NonceBytes(s.n), [], plaintext)) == Some(plaintext);
    EnvelopeRoundTrip(LaneForClass(r.cls), r.payload);
  }

  /** The agent's reader delivers, in order, exactly what was written, with the counters in step. */
  lemma {:induction false} MessagesDeliver(c: Suite, s: Cipher, rs: seq<Request>, before: seq<Delivery>)
    requires Laws(c) && WriteAll(c, s, rs).0.Ok?
    ensures TakeMessages(c, Reader(before, s, None), WriteAll(c, s, rs).0.value)
         == Reader(before + Expected(rs), WriteAll(c, s, rs).1, None)
    ensures WriteAll(c, s, rs).1 == s.(n := s.n + |rs|)
    decreases |rs|
  {
    if rs != [] {
      OneThrough(c, s, rs[0]);
      var (m, s1) := WriteOne(c, s, rs[0]);
      var d := Delivery(LaneForClass(rs[0].cls), rs[0].kind, rs[0].payload);
      MessagesDeliver(c, s1, rs[1..], before + [d]);
      var ms := WriteAll(c, s, rs).0.value;
      assert ms[0] == m.value && ms[1..] == WriteAll(c, s1, rs[1..]).0.value;
      assert TakeMessage(c, Reader(before, s, None), ms[0]) == Reader(before + [d], s1, None);
      assert (before + [d]) + Expected(rs[1..]) == before + ([d] + Expected(rs[1..]));
    } else {
      assert before + [] == before;
    }
  }

  /** The frames that successful writes put on the wire. */
  function FramesOf(c: Suite, s: Cipher, rs: seq<Request>): seq<Frame>
    decreases |rs|
  {
    if rs == [] then []
    else
      var (m, s1) := WriteOne(c, s, rs[0]);
      if m.Err? || DecodeOneFrame(m.value).Err? then []
      else [DecodeOneFrame(m.value).value.0] + FramesOf(c, s1, rs[1..])
  }

  lemma {:induction false} FramesEncode(c: Suite, s: Cipher, rs: seq<Request>)
    requires Laws(c) && WriteAll(c, s, rs).0.Ok?
    ensures AllWritable(FramesOf(c, s, rs)) && Encode(FramesOf(c, s, rs)) == Concat(WriteAll(c, s, rs).0.value)
    decreases |rs|
  {
    if rs != [] {
      OneThrough(c, s, rs[0]);
      var (m, s1) := WriteOne(c, s, rs[0]);
      var f := DecodeOneFrame(m.value).value.0;
      WriteDecoded(m.value);
      assert WriteFrame(f.kind, f.payload).value + [] == WriteFrame(f.kind, f.payload).value;
      FramesEncode(c, s1, rs[1..]);
      assert FramesOf(c, s, rs)[1..] == FramesOf(c, s1, rs[1..]);
      assert WriteAll(c, s, rs).0.value[1..] == WriteAll(c, s1, rs[1..]).0.value;
    }
  }

  lemma {:induction false} FramesDeliver(c: Suite, s: Cipher, rs: seq<Request>, before: seq<Delivery>)
    requires Laws(c) && WriteAll(c, s, rs).0.Ok?
    ensures TakeFrames(c, Reader(before, s, None), FramesOf(c, s, rs))
         == Reader(before + Expected(rs), WriteAll(c, s, rs).1, None)
    decreases |rs|
  {
    if rs != [] {
      OneThrough(c, s, rs[0]);
      var d := Delivery(LaneForClass(rs[0].cls), rs[0].kind, rs[0].payload);
      FramesDeliver(c, WriteOne(c, s, rs[0]).1, rs[1..], before + [d]);
      assert FramesOf(c, s, rs)[1..] == FramesOf(c, WriteOne(c, s, rs[0]).1, rs[1..]);
      assert (before + [d]) + Expected(rs[1..]) == before + ([d] + Expected(rs[1..]));
    } else {
      assert before + [] == before;
    }
  }

  lemma {:induction false} TakeFramesAppend(c: Suite, s: Reader, a: seq<Frame>, b: seq<Frame>)
    ensures TakeFrames(c, s, a + b) == TakeFrames(c, TakeFrames(c, s, a), b)
    decreases |a|
  {
    if a == [] {
      assert a + b == b;
    } else {
      assert (a + b)[0] == a[0] && (a + b)[1..] == a[1..] + b;
      TakeFramesAppend(c, TakeFrame(c, s, a[0]), a[1..], b);
    }
  }

  lemma {:induction false} StoppedStays(c: Suite, s: Reader, fs: seq<Frame>)
    requires s.stopped.Some?
    ensures TakeFrames(c, s, fs) == s
    decreases |fs|
  {
    if fs != [] {
      StoppedStays(c, s, fs[1..]);
    }
  }

  /** The browser's reader depends on the bytes only: it delivers what the frames decoded from all of them
      deliver, up to the first that is refused, and stops at bytes that are no frame. */
  lemma {:induction false} ChunksAreFrames(c: Suite, s: StreamReader, chunks: seq<Bytes>)
    requires s.reader.stopped.None? && Parse(s.buffer) == Parsed([], s.buffer, None)
    ensures TakeChunks(c, s, chunks).reader == ReadParsed(c, s.reader, Feed(s.buffer, chunks))
    decreases |chunks|
  {
    if chunks != [] {
      var p := Parse(s.buffer + chunks[0]);
      var t := TakeChunk(c, s, chunks[0]);
      if p.error.Some? {
        StoppedChunks(c, t, chunks[1..]);
      } else {
        var rest := Feed(p.rest, chunks[1..]);
        TakeFramesAppend(c, s.reader, p.frames, rest.frames);
        RestIsIncomplete(s.buffer + chunks[0]);
        if t.reader.stopped.None? {
          ChunksAreFrames(c, t, chunks[1..]);
        } else {
          StoppedStays(c, t.reader, rest.frames);
          StoppedChunks(c, t, chunks[1..]);
        }
      }
    }
  }

  function ReadParsed(c: Suite, s: Reader, p: Parsed): Reader {
    var r := TakeFrames(c, s, p.frames);
    if r.stopped.None? && p.error.Some? then r.(stopped := Some(FramingError(p.error.value))) else r
  }

  lemma {:induction false} StoppedChunks(c: Suite, s: StreamReader, chunks: seq<Bytes>)
    requires s.reader.stopped.Some?
    ensures TakeChunks(c, s, chunks) == s
    decreases |chunks|
  {
    if chunks != [] {
      StoppedChunks(c, s, chunks[1..]);
    }
  }

  /** The browser delivers the same, however the bytes are cut. */
  lemma ChunksDeliver(c: Suite, s: Cipher, rs: seq<Request>, chunks: seq<Bytes>)
    requires Laws(c) && WriteAll(c, s, rs).0.Ok?
    requires Concat(chunks) == Concat(WriteAll(c, s, rs).0.value)
    ensures TakeChunks(c, StreamReader(Reader([], s, None), []), chunks).reader
         == Reader(Expected(rs), WriteAll(c, s, rs).1, None)
  {
    FramesEncode(c, s, rs);
    FramesDeliver(c, s, rs, []);
    FramesRoundTrip(FramesOf(c, s, rs), chunks);
    ChunksAreFrames(c, StreamReader(Reader([], s, None), []), chunks);
    assert [] + Expected(rs) == Expected(rs);
  }

  // ----- with the scheduler in front

  /** Payloads delivered on one lane, in order. */
  function OnLane(ds: seq<Delivery>, lane: Lane): seq<Bytes> {
    if ds == [] then [] else (if ds[0].lane == lane then [ds[0].payload] else []) + OnLane(ds[1..], lane)
  }

  function Payloads(rs: seq<Request>): seq<Bytes> {
    if rs == [] then [] else [rs[0].payload] + Payloads(rs[1..])
  }

  function ForLane(rs: seq<Request>, lane: Lane): seq<Request> {
    if rs == [] then [] else (if LaneForClass(rs[0].cls) == lane then [rs[0]] else []) + ForLane(rs[1..], lane)
  }

  lemma {:induction false} PayloadsPrefix(a: seq<Request>, b: seq<Request>)
    ensures Payloads(a + b) == Payloads(a) + Payloads(b)
  {
    if a == [] {
      assert a + b == b;
    } else {
      PayloadsPrefix(a[1..], b);
      assert (a + b)[1..] == a[1..] + b;
    }
  }

  lemma {:induction false} LanePayloads(rs: seq<Request>, lane: Lane)
    ensures OnLane(Expected(rs), lane) == Payloads(ForLane(rs, lane))
  {
    if rs != [] {
      LanePayloads(rs[1..], lane);
      assert Expected(rs)[1..] == Expected(rs[1..]);
      PayloadsPrefix(if LaneForClass(rs[0].cls) == lane then [rs[0]] else [], ForLane(rs[1..], lane));
      assert Payloads([rs[0]]) == [rs[0].payload];
    }
  }

  lemma {:induction false} SingleClassLane(rs: seq<Request>, c: Class)
    requires c == Control || c == Bulk
    ensures ForLane(rs, LaneForClass(c)) == OfClass(rs, c)
  {
    if rs != [] {
      SingleClassLane(rs[1..], c);
    }
  }

  /** Writes within the endpoints' limit all succeed while the counter lasts. */
  lemma {:induction false} AllWritten(c: Suite, s: Cipher, rs: seq<Request>)
    requires Laws(c) && s.key != ZERO_KEY && s.n + |rs| <= LAST_NONCE
    requires forall r :: r in rs ==> EndpointAccepts(r)
    ensures WriteAll(c, s, rs).0.Ok?
    decreases |rs|
  {
    if rs != [] {
      assert rs[0] in rs && forall r :: r in rs[1..] ==> r in rs;
      SizeLimitIsExact(c, s, rs[0]);
      OneThrough(c, s, rs[0]);
      AllWritten(c, WriteOne(c, s, rs[0]).1, rs[1..]);
    }
  }

  lemma {:induction false} InOfClass(rs: seq<Request>, r: Request, c: Class)
    ensures r in OfClass(rs, c) <==> r in rs && r.cls == c
  {
    if rs != [] {
      InOfClass(rs[1..], r, c);
    }
  }

  lemma {:induction false} InWithout(rs: seq<Request>, r: Request, gone: set<nat>)
    requires r in Without(rs, gone)
    ensures r in rs
  {
    if rs != [] && r !in (if rs[0].id in gone then [] else [rs[0]]) {
      InWithout(rs[1..], r, gone);
    }
  }

  /** Only what was sent by somebody is ever written. */
  lemma SentArrived(es: seq<Event>, r: Request)
    requires r in SentOf(Run(START, es).notices)
    ensures r in Run(START, es).arrived
  {
    var w := Run(START, es);
    var arrived := OfClass(w.arrived, r.cls);
    EveryRun(es);
    assert OrderAt(w, r.cls);
    InOfClass(SentOf(w.notices), r, r.cls);
    assert r in OfClass(SentOf(w.notices), r.cls) + InFlight(w.s, r.cls);
    InWithout(arrived, r, GoneIds(w.notices));
    InOfClass(w.arrived, r, r.cls);
  }

  /** End to end, for every run of the sending scheduler in which the endpoints let through only what
      is within their limit, and the counter lasts: no write is refused, and each lane delivers, in
      order, the payloads of the requests written on it; on the control and the bulk lane these are,
      from the first on, the payloads of the class's sends in the order they were made, less those
      that were cancelled or failed. */
  lemma EndToEnd(c: Suite, s: Cipher, es: seq<Event>, lane: Lane)
    requires Laws(c) && s.key != ZERO_KEY && s.n + |SentOf(Run(START, es).notices)| <= LAST_NONCE
    requires forall r :: r in Run(START, es).arrived ==> EndpointAccepts(r)
    ensures WriteAll(c, s, SentOf(Run(START, es).notices)).0.Ok?
    ensures Delivered(c, s, es, lane)
  {
    forall r | r in SentOf(Run(START, es).notices) ensures EndpointAccepts(r) {
      SentArrived(es, r);
    }
    AllWritten(c, s, SentOf(Run(START, es).notices));
    WrittenIsDelivered(c, s, es, lane);
  }

  predicate Delivered(c: Suite, s: Cipher, es: seq<Event>, lane: Lane)
    requires WriteAll(c, s, SentOf(Run(START, es).notices)).0.Ok?
  {
    var w := Run(START, es);
    var (messages, send) := WriteAll(c, s, SentOf(w.notices));
    var got := TakeMessages(c, Reader([], s, None), messages.value);
    && got.stopped.None? && got.recv == send
    && OnLane(got.delivered, lane) == Payloads(ForLane(SentOf(w.notices), lane))
    && (lane != MediaLane ==>
          var cls := if lane == ControlLane then Control else Bulk;
          OnLane(got.delivered, lane) <= Payloads(Without(OfClass(w.arrived, cls), GoneIds(w.notices))))
  }

  /** The same for any run whose writes succeeded. */
  lemma WrittenIsDelivered(c: Suite, s: Cipher, es: seq<Event>, lane: Lane)
    requires Laws(c)
    requires WriteAll(c, s, SentOf(Run(START, es).notices)).0.Ok?
    ensures Delivered(c, s, es, lane)
  {
    var w := Run(START, es);
    var sent := SentOf(w.notices);
    MessagesDeliver(c, s, sent, []);
    assert [] + Expected(sent) == Expected(sent);
    LanePayloads(sent, lane);
    if lane != MediaLane {
      OneClassInOrder(es, if lane == ControlLane then Control else Bulk);
    }
  }

  lemma OneClassInOrder(es: seq<Event>, cls: Class)
    requires cls == Control || cls == Bulk
    ensures var w := Run(START, es);
      Payloads(ForLane(SentOf(w.notices), LaneForClass(cls))) <= Payloads(Without(OfClass(w.arrived, cls), GoneIds(w.notices)))
  {
    var w := Run(START, es);
    SingleClassLane(SentOf(w.notices), cls);
    EveryRun(es);
    assert OrderAt(w, cls);
    PayloadsPrefix(OfClass(SentOf(w.notices), cls), InFlight(w.s, cls));
  }

  /** Every byte of a relayed message: the frame's kind, 1 for text and 2 for binary, the length, and the
      sealed lane byte and payload. A payload goes out exactly if it has at most 8,388,591 bytes. */
  lemma MessageLayout(c: Suite, send: Cipher, r: Request)
    requires Laws(c) && send.key != ZERO_KEY && send.n < LAST_NONCE
    ensures var lane: byte := match r.cls case Control => 0 case Interactive => 1 case Thumbnail => 1 case Bulk => 2;
      var sealed := c.seal(send.key, NonceBytes(send.n), [], [lane] + r.payload);
      && |sealed| == |r.payload| + 17
      && (WriteOne(c, send, r).0.Ok? <==> |r.payload| <= 8388591)
      && (WriteOne(c, send, r).0.Ok? ==>
            WriteOne(c, send, r).0 == Ok([if r.kind.Text? then 1 else 2] + W.Four(|sealed|) + sealed))
  {
    SizeLimitIsExact(c, send, r);
    W.FourBytes(|r.payload| + 17);
  }

  /** A message that a reader with this cipher takes: one frame of text or binary and nothing after it,
      whose bytes open under the present counter to a lane of 0 to 2 and a payload. */
  predicate Readable(c: Suite, recv: Cipher, message: Bytes, kind: byte, sealed: Bytes, lane: byte, payload: Bytes) {
    && kind in {1, 2} && |sealed| <= 8388608 && message == [kind] + W.Four(|sealed|) + sealed
    && recv.key != ZERO_KEY && recv.n != 0xffff_ffff_ffff_ffff
    && lane <= 2 && c.open(recv.key, NonceBytes(recv.n), [], sealed) == Some([lane] + payload)
  }

  /** Such a message is delivered on its lane and moves the counter on. */
  lemma ReadableIsRead(c: Suite, s: Reader, message: Bytes, kind: byte, sealed: Bytes, lane: byte, payload: Bytes)
    requires s.stopped.None? && Readable(c, s.recv, message, kind, sealed, lane, payload)
    ensures TakeMessage(c, s, message) == Reader(
      s.delivered + [Delivery(if lane == 0 then ControlLane else if lane == 1 then MediaLane else BulkLane,
                              if kind == 1 then Text else Binary, payload)],
      s.recv.(n := s.recv.n + 1), None)
  {
    W.FrameLayout(kind, sealed);
    DecodeWritten(kind, sealed, []);
    assert message + [] == message;
    assert ([lane] + payload)[1..] == payload;
  }

  /** Anything else stops the reader with nothing delivered. */
  lemma OnlyReadableIsRead(c: Suite, s: Reader, message: Bytes)
    requires s.stopped.None?
    ensures var t := TakeMessage(c, s, message);
      if t.stopped.None? then
        exists kind: byte, sealed: Bytes, lane: byte, payload: Bytes :: Readable(c, s.recv, message, kind, sealed, lane, payload)
      else t.delivered == s.delivered && t.recv.key == s.recv.key && s.recv.n <= t.recv.n <= s.recv.n + 1
  {
    if TakeMessage(c, s, message).stopped.None? {
      WriteDecoded(message);
      var (f, rest) := DecodeOneFrame(message).value;
      W.FrameLayout(f.kind, f.payload);
      assert WriteFrame(f.kind, f.payload).value + [] == WriteFrame(f.kind, f.payload).value;
      var plaintext := Decrypt(c, s.recv, [], f.payload).0.value;
      assert plaintext == [plaintext[0]] + plaintext[1..];
      assert Readable(c, s.recv, message, f.kind, f.payload, plaintext[0], plaintext[1..]);
    }
  }

  // ----- the channels

  /** The agent's side. Its cipher states are those of the handshake's split. */
  class SecureRelayChannel {
    const suite: Suite
    var send: Option<Cipher>
    var recv: Cipher
    var delivered: seq<Delivery>

    constructor (suite: Suite, recv: Cipher)
      ensures this.suite == suite && send == None && this.recv == recv && delivered == []
    {
      this.suite, this.send, this.recv, delivered := suite, None, recv, [];
    }

    /** The scheduler's writer; the result is the message put on the socket. */
    method WriteScheduled(cls: nat, kind: Kind, payload: Bytes) returns (res: Result<Bytes, RelayError>)
      modifies this`send
      ensures ClassOfCode(cls).None? || old(send).None? ==> res.Err? && send == old(send)
      ensures ClassOfCode(cls).Some? && old(send).Some? ==>
        && send.Some?
        && (res, send.value) == WriteOne(suite, old(send).value, Request(0, ClassOfCode(cls).value, kind, payload))
    {
      var class' := ClassOfCode(cls);
      if class'.None? { return Err(NotOpen); }
      // The lane of a class is always valid, so the envelope is always there.
      var plaintext := EncodeEnvelope(LaneCode(LaneForClass(class'.value)), payload);
      if send.None? { return Err(NotOpen); }
      var (ciphertext, after) := Encrypt(suite, send.value, [], plaintext.value);
      send := Some(after);
      if ciphertext.Err? { return Err(CipherError(ciphertext.error)); }
      var frame := WriteFrame(KindCode(kind), ciphertext.value);
      if frame.Err? { return Err(FramingError(frame.error)); }
      return Ok(frame.value);
    }

    /** The read loop over the socket's messages, until one is refused or they end. */
    method ReadLoop(messages: seq<Bytes>) returns (stopped: Option<RelayError>)
      modifies this`recv, this`delivered
      ensures Reader(delivered, recv, stopped) == TakeMessages(suite, Reader(old(delivered), old(recv), None), messages)
    {
      ghost var goal := TakeMessages(suite, Reader(delivered, recv, None), messages);
      for i := 0 to |messages|
        invariant TakeMessages(suite, Reader(delivered, recv, None), messages[i..]) == goal
      {
        ghost var s := Reader(delivered, recv, None);
        ghost var rest := messages[i..];
        assert rest[0] == messages[i] && rest[1..] == messages[i + 1..];
        var decoded := DecodeOneFrame(messages[i]);
        if decoded.Err? {
          StoppedMessages(suite, s.(stopped := Some(FramingError(decoded.error))), rest[1..]);
          return Some(FramingError(decoded.error));
        }
        var (frame, trailing) := decoded.value;
        if trailing != [] {
          StoppedMessages(suite, s.(stopped := Some(TrailingBytes)), rest[1..]);
          return Some(TrailingBytes);
        }
        if frame.kind != TEXT && frame.kind != BINARY {
          StoppedMessages(suite, s.(stopped := Some(UnexpectedKind)), rest[1..]);
          return Some(UnexpectedKind);
        }
        var (plaintext, after) := Decrypt(suite, recv, [], frame.payload);
        recv := after;
        if plaintext.Err? {
          StoppedMessages(suite, Reader(delivered, recv, Some(CipherError(plaintext.error))), rest[1..]);
          return Some(CipherError(plaintext.error));
        }
        var envelope := DecodeEnvelope(plaintext.value);
        if envelope.Err? {
          StoppedMessages(suite, Reader(delivered, recv, Some(LaneError(envelope.error))), rest[1..]);
          return Some(LaneError(envelope.error));
        }
        delivered := delivered + [Delivery(envelope.value.0, if frame.kind == TEXT then Text else Binary, envelope.value.1)];
      }
      return None;
    }
  }

  lemma {:induction false} StoppedMessages(c: Suite, s: Reader, messages: seq<Bytes>)
    requires s.stopped.Some?
    ensures TakeMessages(c, s, messages) == s
    decreases |messages|
  {
    if messages != [] {
      StoppedMessages(c, s, messages[1..]);
    }
  }

  /** The browser's side after the handshake. */
  class BrowserRelayChannel {
    const suite: Suite
    const decoder: FrameDecoder
    var recv: Cipher
    var delivered: seq<Delivery>
    var closed: Option<RelayError>

    constructor (suite: Suite, recv: Cipher)
      ensures this.suite == suite && Snapshot() == StreamReader(Reader([], recv, None), []) && fresh(decoder)
    {
      this.suite, this.recv, delivered, closed := suite, recv, [], None;
      decoder := new FrameDecoder();
    }

    ghost function Snapshot(): StreamReader
      reads this, decoder
    {
      StreamReader(Reader(delivered, recv, closed), decoder.buffer)
    }

    /** One socket message: every frame it completes, until one is refused. */
    method ProcessMessage(chunk: Bytes)
      modifies this, decoder
      ensures Snapshot() == TakeChunk(suite, old(Snapshot()), chunk)
    {
      if closed.Some? { return; }
      var frames, error := decoder.Push(chunk);
      ghost var goal := TakeFrames(suite, Reader(delivered, recv, None), frames);
      var i := 0;
      while i < |frames| && closed.None?
        invariant 0 <= i <= |frames|
        invariant TakeFrames(suite, Reader(delivered, recv, closed), frames[i..]) == goal
        invariant decoder.buffer == Parse(old(decoder.buffer) + chunk).rest
      {
        assert frames[i..][0] == frames[i] && frames[i..][1..] == frames[i + 1..];
        DeliverFrame(frames[i]);
        i := i + 1;
      }
      if closed.Some? {
        StoppedStays(suite, Reader(delivered, recv, closed), frames[i..]);
      } else {
        assert frames[i..] == [];
        if error.Some? { closed := Some(FramingError(error.value)); }
      }
    }

    method DeliverFrame(frame: Frame)
      requires closed.None?
      modifies this
      ensures Reader(delivered, recv, closed) == TakeFrame(suite, Reader(old(delivered), old(recv), None), frame)
    {
      if frame.kind != TEXT && frame.kind != BINARY {
        closed := Some(UnexpectedKind);
        return;
      }
      var (plaintext, after) := Decrypt(suite, recv, [], frame.payload);
      recv := after;
      if plaintext.Err? {
        closed := Some(CipherError(plaintext.error));
        return;
      }
      var envelope := DecodeEnvelope(plaintext.value);
      if envelope.Err? {
        closed := Some(LaneError(envelope.error));
        return;
      }
      delivered := delivered + [Delivery(envelope.value.0, if frame.kind == TEXT then Text else Binary, envelope.value.1)];
    }
  }
}
