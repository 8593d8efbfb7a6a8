/**
 How the browser puts operations back together. Headers and ends come on the control lane, chunk
 frames on the media or bulk lane, in any interleaving: frames that are early are buffered until
 their header, an end that is early is deferred until the last byte.
 */
module Reassembly {
  import opened Basics
  import opened EarlyFrames
  import opened Retired

  datatype Lane = Media | Bulk

  datatype Kind = Still | Video | File

  /** A consumer. A video session exists before its first header, with id 0, and outlives its
      operations; `chunks` are those of the present operation. `announced` remembers the end heard. */
  datatype Operation = Operation(
    id: nat, request: nat, asset: nat, generation: nat, kind: Kind, album: bool,
    chunks: seq<Bytes>, wire: nat, declared: Option<nat>, announced: Option<nat>)

  /** The request on its way. A media header must be for its asset, and for its generation if it has one. */
  datatype Pending = Pending(request: nat, asset: Option<nat>, generation: Option<nat>)

  /** `video` says that the content is a video, `album` that the file is part of an album. */
  datatype Header = Header(op: nat, request: nat, asset: nat, generation: Option<nat>, video: bool, album: bool)

  datatype End = End(op: nat, request: nat, generation: Option<nat>, bytes: nat)

  /** A completed operation's content; `seen` frames had arrived on its lane by then. `tracked` is
      false if the browser had already given the operation up. */
  datatype Delivery = Delivery(op: nat, generation: nat, content: Bytes, bytes: nat, seen: nat, tracked: bool)

  /** The state of one lane. `arrived`, `heard` and `delivered` are histories; `gone` holds the
      operations that are over: completed, failed, superseded or abandoned. */
  datatype Side = Side(
    early: Table, retired: seq<nat>, current: Option<Operation>, pending: Option<Pending>, end: Option<End>,
    arrived: seq<Frame>, heard: seq<End>, delivered: seq<Delivery>, gone: set<nat>)

  const EMPTY := Side([], [], None, None, None, [], [], [], {})

  datatype State = State(media: Side, bulk: Side, bytes: int, count: int, abandoned: seq<nat>, closed: bool) {
    function Of(lane: Lane): Side {
      if lane.Media? then media else bulk
    }

    function With(lane: Lane, d: Side): State {
      if lane.Media? then this.(media := d) else this.(bulk := d)
    }

    function Close(): State {
      this.(closed := true)
    }
  }

  const START := State(EMPTY, EMPTY, 0, 0, [], false)

  const UINT64 := 0x1_0000_0000_0000_0000
  const MAX_SAFE_INTEGER := 0x20_0000_0000_0000 - 1

  /** A protocol violation closes the session. */
  datatype Outcome = Fine(side: Side) | Violation

  // ----- ends

  predicate Matches(current: Option<Operation>, e: End) {
    && e.op != 0 && current.Some? && e.op == current.value.id && e.request == current.value.request
    && (e.generation.None? || e.generation.value == current.value.generation)
  }

  function GiveUp(d: Side, op: nat): Side {
    d.(retired := Retire(d.retired, op), gone := d.gone + {op})
  }

  /** Every byte is there: a still image is handed over and forgotten, a range of a video ends, a
      file goes to its final checks. */
  function Completed(d: Side, e: End): Side
    requires d.current.Some?
  {
    var c := d.current.value;
    var d := d.(delivered := d.delivered +
                [Delivery(c.id, c.generation, Concat(c.chunks), e.bytes, |d.arrived|, c.id !in d.gone)]);
    match c.kind
    case Still => GiveUp(d.(current := None), c.id)
    case Video => d.(current := Some(c.(declared := Some(e.bytes), announced := Some(e.bytes))))
    case File => d.(retired := Retire(d.retired, c.id),
                    current := Some(c.(declared := Some(e.bytes), announced := Some(e.bytes))))
  }

  /** Sizes that an end must not declare: the browser counts an album's parts in safe integers. */
  predicate TooLarge(d: Side, bytes: nat) {
    bytes >= UINT64 || (d.current.Some? && d.current.value.album && bytes > MAX_SAFE_INTEGER)
  }

  function Received(d: Side): nat {
    if d.current.Some? then d.current.value.wire else 0
  }

  function CompleteDeferred(d: Side): Outcome {
    if d.end.None? then Fine(d)
    else
      var e := d.end.value;
      if TooLarge(d, e.bytes) || Received(d) > e.bytes then Violation
      else if Received(d) < e.bytes then Fine(d)
      else if Matches(d.current, e) then Fine(Completed(d.(end := None), e))
      else Fine(d.(end := None))
  }

  function HearEnd(d: Side, e: End): Outcome {
    var d := d.(heard := d.heard + [e]);
    if !Matches(d.current, e) then Fine(d)
    else if TooLarge(d, e.bytes) || d.current.value.wire > e.bytes then Violation
    else if d.current.value.wire < e.bytes then
      Fine(d.(end := Some(e), current := Some(d.current.value.(announced := Some(e.bytes)))))
    else Fine(Completed(d, e))
  }

  // ----- frames

  /** The current operation's frame. Bulk frames have generation 0, as have files. */
  function Take(d: Side, f: Frame): Outcome
    requires d.current.Some?
  {
    var c := d.current.value;
    if f.generation != c.generation then Fine(d)
    else
      var wire := c.wire + |f.payload|;
      if c.declared.Some? && wire > c.declared.value then Violation
      else Fine(d.(current := Some(c.(chunks := c.chunks + [f.payload], wire := wire))))
  }

  function Consume(d: Side, f: Frame): Outcome
    requires d.current.Some?
  {
    match Take(d, f)
    case Fine(d') => if f.generation != d.current.value.generation then Fine(d') else CompleteDeferred(d')
    case Violation => Violation
  }

  function Buffer(s: State, lane: Lane, f: Frame): State {
    var d := s.Of(lane);
    var held := Find(d.early, f.op);
    var joins := Coalesces(held, f);
    if || |f.payload| + s.bytes > MAX_BYTES
       || (!joins && s.count >= MAX_COUNT)
       || (!Has(d.early, f.op) && |s.media.early| + |s.bulk.early| >= MAX_OPERATIONS)
    then s.Close()
    else
      s.With(lane, d.(early := Put(d.early, f.op, Stored(held, f))))
       .(bytes := s.bytes + |f.payload|, count := s.count + (if joins then 0 else 1))
  }

  predicate IsCurrent(d: Side, op: nat) {
    op != 0 && d.current.Some? && d.current.value.id == op
  }

  function Settle(s: State, lane: Lane, o: Outcome): State {
    match o
    case Fine(d) => s.With(lane, d)
    case Violation => s.Close()
  }

  function Route(s: State, lane: Lane, f: Frame): State {
    var d := s.Of(lane);
    if IsCurrent(d, f.op) then Settle(s, lane, Consume(d, f))
    else if f.op in d.retired then s
    else Buffer(s, lane, f)
  }

  /** A frame from the wire. */
  function Arrive(s: State, lane: Lane, f: Frame): State {
    if lane.Bulk? && f.generation != 0 then s.Close()
    else Route(s.With(lane, s.Of(lane).(arrived := s.Of(lane).arrived + [f])), lane, f)
  }

  /** The buffered frames of an operation, replayed as one step. */
  function Replay(s: State, lane: Lane, op: nat, held: seq<Held>): State
    decreases |held|
  {
    if s.closed || held == [] then s
    else
      var h := held[0];
      var s := s.(bytes := s.bytes - |h.payload|, count := s.count - 1);
      Replay(Route(s, lane, Frame(op, h.generation, h.payload)), lane, op, held[1..])
  }

  function Drain(s: State, lane: Lane, op: nat): State {
    var d := s.Of(lane);
    Replay(s.With(lane, d.(early := Delete(d.early, op))), lane, op, Find(d.early, op))
  }

  function DiscardEarly(s: State, lane: Lane, op: nat): State {
    var d := s.Of(lane);
    var held := Find(d.early, op);
    s.With(lane, d.(early := Delete(d.early, op))).(bytes := s.bytes - BytesOf(held), count := s.count - |held|)
  }

  // ----- headers

  predicate Accepts(d: Side, h: Header) {
    && h.op != 0 && d.pending.Some? && d.pending.value.request == h.request
    && (d.pending.value.asset.Some? ==> h.asset == d.pending.value.asset.value)
    && (d.pending.value.generation.Some? ==> h.generation == d.pending.value.generation)
  }

  function NewOperation(h: Header, generation: nat, kind: Kind): Operation {
    Operation(h.op, h.request, h.asset, generation, kind, h.album && kind.File?, [], 0, None, None)
  }

  /** The consumer for an accepted header. A video header continues its session; without one it is ignored. */
  function Begin(d: Side, lane: Lane, h: Header): Side {
    var d' := d.(pending := None, end := None,
                    gone := if IsCurrent(d, h.op) then d.gone + {h.op} else d.gone);
    if lane.Bulk? then d'.(current := Some(NewOperation(h, 0, File)))
    else if d.current.Some? && d.current.value.kind.Video? then
      if h.video then d'.(current := Some(NewOperation(h, d.current.value.generation, Video)))
      else d'
    else if h.video then d'
    else d'.(current := Some(NewOperation(h, if h.generation.Some? then h.generation.value else 0, Still)))
  }

  /** The operation that an accepted header puts an end to. */
  function Replaced(d: Side, op: nat): Side {
    if d.current.Some? && d.current.value.id != 0 && d.current.value.id != op then GiveUp(d, d.current.value.id) else d
  }

  function HearHeader(s: State, lane: Lane, h: Header): State {
    var d := s.Of(lane);
    if lane.Media? && h.request in s.abandoned then
      DiscardEarly(s.(abandoned := Without(s.abandoned, h.request)).With(lane, GiveUp(d, h.op)), lane, h.op)
    else if !Accepts(d, h) then s
    else Drain(s.With(lane, Begin(Replaced(d, h.op), lane, h)), lane, h.op)
  }

  function Without(xs: seq<nat>, x: nat): seq<nat> {
    if xs == [] then [] else if xs[0] == x then xs[1..] else [xs[0]] + Without(xs[1..], x)
  }

  // ----- the user, errors and timers

  function Ask(s: State, lane: Lane, request: nat, asset: Option<nat>): State {
    s.With(lane, s.Of(lane).(pending := Some(Pending(request, asset, None))))
  }

  /** A new video session and the request for its first range. */
  function OpenVideo(s: State, request: nat, asset: nat, generation: nat): State {
    if s.media.current.Some? then s
    else s.(media := s.media.(current := Some(Operation(0, 0, asset, generation, Video, false, [], 0, None, None)),
                              pending := Some(Pending(request, Some(asset), Some(generation)))))
  }

  /** The user seeks: data of the generation before is no longer wanted. */
  function MoveOn(s: State, generation: nat): State {
    var c := s.media.current;
    if c.None? || !c.value.kind.Video? || generation <= c.value.generation then s
    else s.(media := s.media.(current := Some(c.value.(generation := generation)), gone := s.media.gone + {c.value.id}))
  }

  function AskSeek(s: State, request: nat): State {
    var c := s.media.current;
    if c.None? || !c.value.kind.Video? || c.value.id == 0 || s.media.pending.Some? then s
    else s.(media := s.media.(pending := Some(Pending(request, Some(c.value.asset), Some(c.value.generation)))))
  }

  /** The current operation is given up; a request under way for a video is abandoned. */
  function Halt(s: State, lane: Lane, c: Operation): State {
    var d := s.Of(lane);
    var stale := lane.Media? && c.kind.Video? && d.pending.Some?;
    var d' := GiveUp(d, c.id).(current := None, pending := if stale then None else d.pending,
                               end := if d.end.Some? && d.end.value.op == c.id then None else d.end);
    s.(abandoned := if stale then Retire(s.abandoned, d.pending.value.request) else s.abandoned).With(lane, d')
  }

  /** The current operation ends without being complete. */
  function Stop(s: State, lane: Lane): State {
    var c := s.Of(lane).current;
    if c.None? then s else DiscardEarly(Halt(s, lane, c.value), lane, c.value.id)
  }

  datatype Event =
    | Frames(lane: Lane, frame: Frame)
    | Head(lane: Lane, header: Header)
    | Tail(lane: Lane, end: End)
    | Request(lane: Lane, request: nat, asset: Option<nat>)
    | Open(request: nat, video: nat, generation: nat)
    | Seek(generation: nat)
    | SeekRequest(request: nat)
    | Over(lane: Lane)
    | Expire

  function Step(s: State, e: Event): State {
    if s.closed then s
    else
      match e
      case Frames(lane, f) => Arrive(s, lane, f)
      case Head(lane, h) => HearHeader(s, lane, h)
      case Tail(lane, end) => Settle(s, lane, HearEnd(s.Of(lane), end))
      case Request(lane, request, asset) => Ask(s, lane, request, asset)
      case Open(request, asset, generation) => OpenVideo(s, request, asset, generation)
      case Seek(generation) => MoveOn(s, generation)
      case SeekRequest(request) => AskSeek(s, request)
      case Over(lane) => Stop(s, lane)
      case Expire => s.Close()
  }
}
