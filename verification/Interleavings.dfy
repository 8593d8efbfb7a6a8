/**
 One operation's frames, its header and its end, in whatever order they are handled: the stages that
 the operation goes through, and what each of its events does at each stage.
 */
module Interleavings {
  import opened Basics
  import opened Runs
  import opened EarlyFrames
  import opened Retired
  import opened Reassembly
  import opened ReassemblyOk
  import opened ReassemblyRuns

  /** An operation as its sender sees it: a still image on the media lane or a file on the bulk lane. */
  datatype Transfer = Transfer(lane: Lane, op: nat, request: nat, asset: nat, generation: nat, album: bool, total: nat)

  function HeaderOf(x: Transfer): Header {
    Header(x.op, x.request, x.asset, if x.lane.Media? then Some(x.generation) else None, false, x.album)
  }

  function TailOf(x: Transfer): End {
    End(x.op, x.request, if x.lane.Media? then Some(x.generation) else None, x.total)
  }

  predicate Declarable(x: Transfer) {
    x.total < UINT64 && (x.album ==> x.total <= MAX_SAFE_INTEGER)
  }

  function AskedAsset(x: Transfer): Option<nat> {
    if x.lane.Media? then Some(x.asset) else None
  }

  function Size(fs: seq<Frame>): nat {
    if fs == [] then 0 else |fs[0].payload| + Size(fs[1..])
  }

  predicate FramesFor(x: Transfer, fs: seq<Frame>) {
    forall f :: f in fs ==> f.op == x.op && f.generation == x.generation
  }

  /** Frames still to come fit into what the declared size leaves. */
  ghost predicate Sized(s: State, x: Transfer, fs: seq<Frame>) {
    && Inv(s) && !s.closed && FramesFor(x, fs)
    && x.op != 0 && Declarable(x) && (x.lane.Bulk? ==> x.generation == 0)
    && |Got(s.Of(x.lane).arrived, x.op, x.generation)| + Size(fs) == x.total
  }

  predicate OfGeneration(held: seq<Held>, generation: nat) {
    forall h :: h in held ==> h.generation == generation
  }

  /** What other operations may still take of the buffer before this one has its header. */
  datatype Room = Room(bytes: nat, count: nat, operations: nat)

  /** The header is still to come: the frames are being buffered, and there is room for the rest. */
  ghost predicate Before(s: State, x: Transfer, fs: seq<Frame>, room: Room) {
    var d := s.Of(x.lane);
    && Sized(s, x, fs)
    && !IsCurrent(d, x.op) && x.op !in d.gone && x.op !in d.retired
    && Accepts(d, HeaderOf(x)) && !(x.lane.Media? && x.request in s.abandoned)
    && (x.lane.Media? && d.current.Some? ==> !d.current.value.kind.Video?)
    && OfGeneration(Find(d.early, x.op), x.generation)
    && s.bytes + Size(fs) + room.bytes <= MAX_BYTES && s.count + |fs| + room.count <= MAX_COUNT
    && (Has(d.early, x.op) || |s.media.early| + |s.bulk.early| + room.operations < MAX_OPERATIONS)
  }

  /** The operation has its consumer and waits for bytes, or for its end. */
  ghost predicate During(s: State, x: Transfer, fs: seq<Frame>, announced: Option<nat>) {
    var d := s.Of(x.lane);
    && Sized(s, x, fs)
    && IsCurrent(d, x.op) && x.op !in d.gone
    && var c := d.current.value;
    && c.request == x.request && (c.album ==> x.album) && c.generation == x.generation && !c.kind.Video?
    && c.declared.None? && c.announced == announced
    && d.end == (if announced.Some? then Some(TailOf(x)) else None)
  }

  /** The operation was delivered, in its generation and with the size its end declares. */
  predicate DeliveredWhole(d: Side, op: nat, generation: nat, total: nat) {
    exists i :: 0 <= i < |d.delivered| && WholeDelivery(d.delivered[i], op, generation, total)
  }

  predicate WholeDelivery(y: Delivery, op: nat, generation: nat, total: nat) {
    y.op == op && y.tracked && y.generation == generation && y.bytes == total
  }

  lemma WholeStays(a: Side, b: Side, op: nat, generation: nat, total: nat)
    requires DeliveredWhole(a, op, generation, total) && GrowsBy(a, b)
    ensures DeliveredWhole(b, op, generation, total)
  {
    var i :| 0 <= i < |a.delivered| && WholeDelivery(a.delivered[i], op, generation, total);
    assert b.delivered[i] == a.delivered[i];
  }

  lemma CompletedWhole(d: Side, e: End)
    requires d.current.Some? && d.current.value.id !in d.gone
    ensures DeliveredWhole(Completed(d, e), d.current.value.id, d.current.value.generation, e.bytes)
  {
    var t := Completed(d, e);
    assert WholeDelivery(t.delivered[|d.delivered|], d.current.value.id, d.current.value.generation, e.bytes);
  }

  /** The operation has been delivered; only empty frames can follow. */
  ghost predicate Finished(s: State, x: Transfer, fs: seq<Frame>) {
    var d := s.Of(x.lane);
    && Sized(s, x, fs) && DeliveredWhole(d, x.op, x.generation, x.total) && Size(fs) == 0
    && x.op in d.retired && d.end.None? && (d.current.Some? ==> d.current.value.id == x.op)
    && (IsCurrent(d, x.op) ==>
          d.current.value.declared == Some(x.total) && d.current.value.wire == x.total)
  }

  lemma {:induction false} GenerationBytes(held: seq<Held>, generation: nat)
    requires OfGeneration(held, generation)
    ensures BytesOf(held) == |BytesAt(held, generation)|
  {
    if held != [] {
      assert held[0] in held && forall h :: h in held[1..] ==> h in held;
      GenerationBytes(held[1..], generation);
    }
  }

  /** The bytes that have arrived are with the consumer. */
  lemma WireIsGot(d: Side, op: nat)
    requires SideOk(d) && IsCurrent(d, op) && op !in d.gone
    ensures d.current.value.wire == |Got(d.arrived, op, d.current.value.generation)|
  {
    var g := d.current.value.generation;
    assert Relevant(d, op, g);
    assert Claim(d, op, g) + (if op == 0 then BytesAt([], g) else []) == Got(d.arrived, op, g);
  }

  /** Received bytes and what is to come, after one more frame. */
  lemma StillSized(s: State, x: Transfer, fs: seq<Frame>)
    requires Sized(s, x, fs) && fs != [] && !Arrive(s, x.lane, fs[0]).closed
    ensures Sized(Arrive(s, x.lane, fs[0]), x, fs[1..])
  {
    var f := fs[0];
    assert f in fs && forall y :: y in fs[1..] ==> y in fs;
    ArriveKeeps(s, x.lane, f);
    ArrivedOne(s, x.lane, f);
    GotSnoc(s.Of(x.lane).arrived, f, x.op, x.generation);
  }

  lemma ArrivedOne(s: State, lane: Lane, f: Frame)
    requires !Arrive(s, lane, f).closed
    ensures Arrive(s, lane, f).Of(lane).arrived == s.Of(lane).arrived + [f]
  {
  }

  lemma StoredGeneration(held: seq<Held>, f: Frame)
    requires OfGeneration(held, f.generation)
    ensures OfGeneration(Stored(held, f), f.generation)
  {
    if Coalesces(held, f) {
      var front := held[..|held| - 1];
      assert held == front + [held[|held| - 1]];
    }
  }

  /** One more early frame is buffered. */
  lemma BeforeFrame(s: State, x: Transfer, fs: seq<Frame>, room: Room)
    requires Before(s, x, fs, room) && fs != []
    ensures Before(Step(s, Frames(x.lane, fs[0])), x, fs[1..], room)
  {
    var f := fs[0];
    var d := s.Of(x.lane);
    assert f in fs;
    var d' := d.(arrived := d.arrived + [f]);
    var s' := s.With(x.lane, d');
    assert !Buffer(s', x.lane, f).closed;
    PutFinds(d.early, f.op, Stored(Find(d.early, f.op), f));
    StoredGeneration(Find(d.early, f.op), f);
    StillSized(s, x, fs);
  }

  /** A consumer that can take whatever comes: no end is known yet. */
  predicate Taking(d: Side, op: nat, request: nat, generation: nat) {
    && IsCurrent(d, op) && op !in d.gone && d.end.None?
    && var c := d.current.value;
    && c.request == request && c.generation == generation && !c.kind.Video?
    && c.declared.None? && c.announced.None?
  }

  lemma {:induction false} ReplayStays(s: State, lane: Lane, op: nat, request: nat, generation: nat, held: seq<Held>)
    requires !s.closed && Taking(s.Of(lane), op, request, generation) && OfGeneration(held, generation)
    ensures var t := Replay(s, lane, op, held);
      !t.closed && Taking(t.Of(lane), op, request, generation) && t.Of(lane).arrived == s.Of(lane).arrived
      && t.Of(lane).current.value.album == s.Of(lane).current.value.album
    decreases |held|
  {
    if held != [] {
      assert held[0] in held && forall h :: h in held[1..] ==> h in held;
      var s' := s.(bytes := s.bytes - |held[0].payload|, count := s.count - 1);
      OpenTakes(s', lane, Frame(op, held[0].generation, held[0].payload), request);
      ReplayStays(Route(s', lane, Frame(op, held[0].generation, held[0].payload)), lane, op, request, generation, held[1..]);
    }
  }

  lemma OpenTakes(s: State, lane: Lane, f: Frame, request: nat)
    requires !s.closed && Taking(s.Of(lane), f.op, request, f.generation)
    ensures var t := Route(s, lane, f);
      !t.closed && Taking(t.Of(lane), f.op, request, f.generation) && t.Of(lane).arrived == s.Of(lane).arrived
      && t.Of(lane).current.value.album == s.Of(lane).current.value.album
  {
  }

  lemma HeaderOpens(s: State, x: Transfer, fs: seq<Frame>, room: Room)
    requires Before(s, x, fs, room)
    ensures During(Step(s, Head(x.lane, HeaderOf(x))), x, fs, None)
  {
    var h := HeaderOf(x);
    var d := s.Of(x.lane);
    var b := Begin(Replaced(d, h.op), x.lane, h);
    var s' := s.With(x.lane, b.(early := Delete(b.early, h.op)));
    HeaderKeeps(s, x.lane, h);
    ReplayStays(s', x.lane, h.op, x.request, x.generation, Find(d.early, h.op));
    assert HearHeader(s, x.lane, h) == Replay(s', x.lane, h.op, Find(d.early, h.op));
  }

  /** A frame of an operation under way: it completes the operation if its end is known and nothing is missing. */
  lemma DuringFrame(s: State, x: Transfer, fs: seq<Frame>, announced: Option<nat>)
    requires During(s, x, fs, announced) && fs != [] && (announced.Some? ==> announced.value == x.total)
    ensures var t := Step(s, Frames(x.lane, fs[0])); During(t, x, fs[1..], announced) || Finished(t, x, fs[1..])
  {
    var f := fs[0];
    var d := s.Of(x.lane);
    assert f in fs;
    WireIsGot(d, x.op);
    var d' := d.(arrived := d.arrived + [f]);
    FrameOutcome(d', f, x.total);
    StillSized(s, x, fs);
  }

  lemma FrameOutcome(d: Side, f: Frame, total: nat)
    requires IsCurrent(d, f.op) && f.op !in d.gone && d.current.value.generation == f.generation && !d.current.value.kind.Video?
    requires d.current.value.declared.None? && d.current.value.wire + |f.payload| <= total
    requires d.end.Some? ==> d.end.value.bytes == total && Matches(d.current, d.end.value) && !TooLarge(d, total)
    ensures var c := d.current.value;
      Consume(d, f).Fine? &&
      var t := Consume(d, f).side;
      if d.end.Some? && c.wire + |f.payload| == total
      then DeliveredWhole(t, f.op, f.generation, total) && f.op in t.retired && t.end.None?
           && (t.current.Some? ==> t.current.value.id == f.op)
           && (IsCurrent(t, f.op) ==> t.current.value.declared == Some(total) && t.current.value.wire == total)
      else t == d.(current := Some(c.(chunks := c.chunks + [f.payload], wire := c.wire + |f.payload|)))
  {
    var c := d.current.value;
    var k := d.(current := Some(c.(chunks := c.chunks + [f.payload], wire := c.wire + |f.payload|)));
    if d.end.Some? && c.wire + |f.payload| == total {
      CompletedWhole(k.(end := None), d.end.value);
    }
  }

  lemma TailArrives(s: State, x: Transfer, fs: seq<Frame>)
    requires During(s, x, fs, None)
    ensures var t := Step(s, Tail(x.lane, TailOf(x))); During(t, x, fs, Some(x.total)) || Finished(t, x, fs)
  {
    var d := s.Of(x.lane);
    var e := TailOf(x);
    WireIsGot(d, x.op);
    TailKeeps(s, x.lane, e);
    if d.current.value.wire == x.total {
      CompletedWhole(d.(heard := d.heard + [e]), e);
    }
  }

  /** After delivery the empty frames that are left do nothing. */
  lemma FinishedFrame(s: State, x: Transfer, fs: seq<Frame>)
    requires Finished(s, x, fs) && fs != []
    ensures Finished(Step(s, Frames(x.lane, fs[0])), x, fs[1..])
  {
    var f := fs[0];
    var d := s.Of(x.lane);
    assert f in fs;
    EmptyFrame(s.With(x.lane, d.(arrived := d.arrived + [f])), x.lane, f, x.total);
    StillSized(s, x, fs);
    WholeStays(d, Step(s, Frames(x.lane, f)).Of(x.lane), x.op, x.generation, x.total);
  }

  lemma EmptyFrame(s: State, lane: Lane, f: Frame, total: nat)
    requires !s.closed && f.payload == [] && f.op in s.Of(lane).retired && s.Of(lane).end.None?
    requires IsCurrent(s.Of(lane), f.op) ==>
      s.Of(lane).current.value.declared == Some(total) && s.Of(lane).current.value.wire == total
    ensures var d, t := s.Of(lane), Route(s, lane, f);
      && !t.closed && t.Of(lane) == d.(current := t.Of(lane).current)
      && (t.Of(lane).current.Some? ==> d.current.Some? && t.Of(lane).current.value.id == d.current.value.id)
      && (IsCurrent(t.Of(lane), f.op) ==>
            t.Of(lane).current.value.declared == Some(total) && t.Of(lane).current.value.wire == total)
  {
  }

  // ----- the histories

  lemma {:induction false} ReplayHistory(s: State, lane: Lane, op: nat, held: seq<Held>)
    ensures var t := Replay(s, lane, op, held);
      t.Of(lane).arrived == s.Of(lane).arrived && t.Of(lane).heard == s.Of(lane).heard
    decreases |held|
  {
    if !s.closed && held != [] {
      var s' := s.(bytes := s.bytes - |held[0].payload|, count := s.count - 1);
      var f := Frame(op, held[0].generation, held[0].payload);
      RouteHistory(s', lane, f);
      ReplayHistory(Route(s', lane, f), lane, op, held[1..]);
    }
  }

  lemma RouteHistory(s: State, lane: Lane, f: Frame)
    ensures var t := Route(s, lane, f);
      t.Of(lane).arrived == s.Of(lane).arrived && t.Of(lane).heard == s.Of(lane).heard
  {
  }

  lemma StepHistory(s: State, x: Transfer, e: Event)
    requires !s.closed && !Step(s, e).closed
    ensures var d, t := s.Of(x.lane), Step(s, e).Of(x.lane);
      && (e.Frames? && e.lane == x.lane ==> t.arrived == d.arrived + [e.frame] && t.heard == d.heard)
      && (e == Head(x.lane, HeaderOf(x)) ==> t.arrived == d.arrived && t.heard == d.heard)
      && (e == Tail(x.lane, TailOf(x)) ==> t.arrived == d.arrived && t.heard == d.heard + [TailOf(x)])
  {
    var d := s.Of(x.lane);
    if e.Frames? && e.lane == x.lane {
      RouteHistory(s.With(x.lane, d.(arrived := d.arrived + [e.frame])), x.lane, e.frame);
    } else if e == Head(x.lane, HeaderOf(x)) && !(x.lane.Media? && x.request in s.abandoned) && Accepts(d, HeaderOf(x)) {
      var b := Begin(Replaced(d, x.op), x.lane, HeaderOf(x));
      ReplayHistory(s.With(x.lane, b.(early := Delete(b.early, x.op))), x.lane, x.op, Find(b.early, x.op));
    }
  }

  function Payloads(fs: seq<Frame>): seq<Bytes> {
    if fs == [] then [] else [fs[0].payload] + Payloads(fs[1..])
  }

  lemma {:induction false} GotMore(arrived: seq<Frame>, fs: seq<Frame>, x: Transfer)
    requires FramesFor(x, fs)
    ensures Got(arrived + fs, x.op, x.generation) == Got(arrived, x.op, x.generation) + Concat(Payloads(fs))
    decreases |fs|
  {
    if fs == [] {
      assert arrived + fs == arrived;
    } else {
      var f := fs[0];
      assert f in fs && forall y :: y in fs[1..] ==> y in fs;
      GotSnoc(arrived, f, x.op, x.generation);
      GotMore(arrived + [f], fs[1..], x);
      assert arrived + [f] + fs[1..] == arrived + fs;
      Associative(Got(arrived, x.op, x.generation), f.payload, Concat(Payloads(fs[1..])));
    }
  }

  // ----- the stages

  /** The control messages still to come, and the state that goes with them. */
  ghost predicate Stage(s: State, x: Transfer, fs: seq<Frame>, control: seq<Event>, room: Room) {
    || (control == [Head(x.lane, HeaderOf(x)), Tail(x.lane, TailOf(x))] && Before(s, x, fs, room))
    || (control == [Tail(x.lane, TailOf(x))] && During(s, x, fs, None))
    || (control == [] && (During(s, x, fs, Some(x.total)) || Finished(s, x, fs)))
  }

  lemma FrameStage(s: State, x: Transfer, fs: seq<Frame>, control: seq<Event>, room: Room)
    requires Stage(s, x, fs, control, room) && fs != []
    ensures Stage(Step(s, Frames(x.lane, fs[0])), x, fs[1..], control, room)
  {
    if |control| == 2 {
      BeforeFrame(s, x, fs, room);
    } else if |control| == 1 {
      DuringFrame(s, x, fs, None);
      NotWithoutEnd(s, x, fs);
    } else if Finished(s, x, fs) {
      FinishedFrame(s, x, fs);
    } else {
      DuringFrame(s, x, fs, Some(x.total));
    }
  }

  /** Without its end, an operation is not complete. */
  lemma NotWithoutEnd(s: State, x: Transfer, fs: seq<Frame>)
    requires During(s, x, fs, None) && fs != []
    ensures IsCurrent(Step(s, Frames(x.lane, fs[0])).Of(x.lane), x.op)
    ensures Step(s, Frames(x.lane, fs[0])).Of(x.lane).current.value.declared.None?
  {
    WireIsGot(s.Of(x.lane), x.op);
    assert fs[0] in fs;
    FrameOutcome(s.Of(x.lane).(arrived := s.Of(x.lane).arrived + [fs[0]]), fs[0], x.total);
  }

  lemma ControlStage(s: State, x: Transfer, fs: seq<Frame>, control: seq<Event>, room: Room)
    requires Stage(s, x, fs, control, room) && control != []
    ensures Stage(Step(s, control[0]), x, fs, control[1..], room)
  {
    if |control| == 2 {
      HeaderOpens(s, x, fs, room);
    } else {
      TailArrives(s, x, fs);
    }
  }

  lemma StageOpen(s: State, x: Transfer, fs: seq<Frame>, control: seq<Event>, room: Room)
    requires Stage(s, x, fs, control, room)
    ensures Inv(s) && !s.closed
  {
  }

  lemma WholeContent(d: Side, i: nat, x: Transfer)
    requires DeliveredOk(d) && Once(d) && Ends(d.heard, x.op) <= 1
    requires i < |d.delivered| && WholeDelivery(d.delivered[i], x.op, x.generation, x.total)
    requires |Got(d.arrived, x.op, x.generation)| == x.total
    ensures d.delivered[i].content == Got(d.arrived, x.op, x.generation) && Deliveries(d.delivered, x.op) == 1
  {
    var y := d.delivered[i];
    assert DeliveryOk(d.arrived, y);
    assert Deliveries(d.delivered, x.op) + (if d.end.Some? && d.end.value.op == x.op then 1 else 0) <= Ends(d.heard, x.op);
    DeliveredCounts(d.delivered, i);
    GotPrefix(d.arrived[..y.seen], d.arrived, x.op, x.generation);
  }

  lemma Asked(start: State, lane: Lane, request: nat, asset: Option<nat>) returns (s: State)
    requires start == START
    ensures s == Step(start, Request(lane, request, asset)) && Inv(s)
    ensures s == start.With(lane, EMPTY.(pending := Some(Pending(request, asset, None))))
  {
    s := Step(start, Request(lane, request, asset));
    SameSide(start.Of(lane), s.Of(lane));
  }

  /** A new session that has asked for the operation is a state to begin from, if all frames are within the limits. */
  lemma FreshSession(x: Transfer, fs: seq<Frame>, room: Room) returns (s: State)
    requires x.op != 0 && Declarable(x) && (x.lane.Bulk? ==> x.generation == 0) && FramesFor(x, fs)
    requires Size(fs) == x.total && x.total + room.bytes <= MAX_BYTES && |fs| + room.count <= MAX_COUNT
    requires room.operations < MAX_OPERATIONS
    ensures s == Step(START, Request(x.lane, x.request, AskedAsset(x))) && Before(s, x, fs, room)
    ensures Got(s.Of(x.lane).arrived, x.op, x.generation) == [] && Ends(s.Of(x.lane).heard, x.op) == 0
  {
    s := Asked(START, x.lane, x.request, AskedAsset(x));
  }
}
