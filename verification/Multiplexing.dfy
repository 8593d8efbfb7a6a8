/**
 Every interleaving of one operation's frames with its header and its end, and with the traffic of
 other operations, from any state with room for it: the operation is delivered, whole and once.
 */
module Multiplexing {
  import opened Basics
  import opened Runs
  import opened EarlyFrames
  import opened Retired
  import opened Reassembly
  import opened ReassemblyOk
  import opened ReassemblyRuns
  import opened Interleavings

  /** An event that is about other operations and does not replace this one: any of the other lane's,
      and on the operation's own lane frames and ends of others and headers that nobody asked for. */
  predicate Foreign(s: State, x: Transfer, e: Event) {
    match e
    case Frames(lane, f) => lane != x.lane || f.op != x.op
    case Tail(lane, end) => lane != x.lane || end.op != x.op
    case Head(lane, h) => lane != x.lane || (!Accepts(s.Of(lane), h) && !(lane.Media? && h.request in s.abandoned))
    case Request(lane, _, _) => lane != x.lane
    case Over(lane) => lane != x.lane
    case Open(_, _, _) => x.lane.Bulk?
    case Seek(_) => x.lane.Bulk?
    case SeekRequest(_) => x.lane.Bulk?
    case Expire => false
  }

  /** What a frame of another operation may take of the buffer. */
  function Cost(e: Event): Room {
    if e.Frames? then Room(|e.frame.payload|, 1, 1) else Room(0, 0, 0)
  }

  predicate Covers(room: Room, cost: Room) {
    cost.bytes <= room.bytes && cost.count <= room.count && cost.operations <= room.operations
  }

  function Left(room: Room, cost: Room): Room
    requires Covers(room, cost)
  {
    Room(room.bytes - cost.bytes, room.count - cost.count, room.operations - cost.operations)
  }

  /** `es`, handled from s on, mixes the frames and the control messages, each in its own order, with
      foreign events that stay within the room reserved for them and do not close the session. */
  predicate Mixes(s: State, es: seq<Event>, x: Transfer, fs: seq<Frame>, control: seq<Event>, room: Room)
    decreases |es|
  {
    if es == [] then fs == [] && control == []
    else
      var t := Step(s, es[0]);
      || (fs != [] && es[0] == Frames(x.lane, fs[0]) && Mixes(t, es[1..], x, fs[1..], control, room))
      || (control != [] && es[0] == control[0] && Mixes(t, es[1..], x, fs, control[1..], room))
      || (Foreign(s, x, es[0]) && !t.closed && Covers(room, Cost(es[0]))
          && Mixes(t, es[1..], x, fs, control, Left(room, Cost(es[0]))))
  }

  // ----- the room that foreign events take

  function Operations(s: State): nat {
    |s.media.early| + |s.bulk.early|
  }

  predicate Within(s: State, t: State, cost: Room) {
    t.bytes <= s.bytes + cost.bytes && t.count <= s.count + cost.count && Operations(t) <= Operations(s) + cost.operations
  }

  lemma RouteWithin(s: State, lane: Lane, f: Frame)
    requires Proper(s.Of(lane).early)
    ensures Within(s, Route(s, lane, f), Room(|f.payload|, 1, if Has(s.Of(lane).early, f.op) then 0 else 1))
    ensures Proper(Route(s, lane, f).Of(lane).early)
    ensures Has(s.Of(lane).early, f.op) ==> Has(Route(s, lane, f).Of(lane).early, f.op)
    ensures Operations(Route(s, lane, f)) > Operations(s) ==> Has(Route(s, lane, f).Of(lane).early, f.op)
  {
    var d := s.Of(lane);
    if IsCurrent(d, f.op) {
      EarlyUntouched(d, f);
    } else if f.op !in d.retired {
      PutFinds(d.early, f.op, Stored(Find(d.early, f.op), f));
    }
  }

  /** A replay gives back at least what it takes, save for one slot in the table. */
  lemma {:induction false} ReplayWithin(s: State, lane: Lane, op: nat, held: seq<Held>)
    requires Proper(s.Of(lane).early)
    ensures Within(s, Replay(s, lane, op, held), Room(0, 0, if held == [] || Has(s.Of(lane).early, op) then 0 else 1))
    decreases |held|
  {
    if !s.closed && held != [] {
      var s' := s.(bytes := s.bytes - |held[0].payload|, count := s.count - 1);
      var f := Frame(op, held[0].generation, held[0].payload);
      RouteWithin(s', lane, f);
      ReplayWithin(Route(s', lane, f), lane, op, held[1..]);
    }
  }

  lemma HeaderWithin(s: State, lane: Lane, h: Header)
    requires Proper(s.Of(lane).early)
    ensures Within(s, HearHeader(s, lane, h), Room(0, 0, 0))
  {
    var d := s.Of(lane);
    DeleteFinds(d.early, h.op);
    if Find(d.early, h.op) != [] {
      DeleteShrinks(d.early, h.op);
    }
    if !(lane.Media? && h.request in s.abandoned) && Accepts(d, h) {
      var b := Begin(Replaced(d, h.op), lane, h);
      ReplayWithin(s.With(lane, b.(early := Delete(b.early, h.op))), lane, h.op, Find(b.early, h.op));
    }
  }

  lemma {:induction false} DeleteShrinks(t: Table, op: nat)
    requires Find(t, op) != []
    ensures |Delete(t, op)| == |t| - 1
  {
    if t[0].op != op {
      DeleteShrinks(t[1..], op);
    }
  }

  lemma StepWithin(s: State, x: Transfer, e: Event)
    requires Inv(s) && !s.closed && Foreign(s, x, e)
    ensures Within(s, Step(s, e), Cost(e))
  {
    match e
    case Frames(lane, f) =>
      if lane.Media? || f.generation == 0 {
        RouteWithin(s.With(lane, s.Of(lane).(arrived := s.Of(lane).arrived + [f])), lane, f);
      }
    case Head(lane, h) => HeaderWithin(s, lane, h);
    case Tail(lane, end) => EndLeavesEarly(s.Of(lane), end);
    case Over(lane) =>
      if s.Of(lane).current.Some? {
        DeleteFinds(s.Of(lane).early, s.Of(lane).current.value.id);
      }
    case _ =>
  }

  // ----- foreign events leave the operation alone

  /** What a frame of another operation does to the side of the lane it comes on. */
  predicate Beside(d: Side, t: Side, x: Transfer) {
    && t.pending == d.pending && Find(t.early, x.op) == Find(d.early, x.op) && (Has(t.early, x.op) <==> Has(d.early, x.op))
    && (x.op in t.gone ==> x.op in d.gone) && (x.op in t.retired ==> x.op in d.retired)
    && (t.current != d.current ==> !IsCurrent(d, x.op))
    && (t.current.Some? ==> d.current.Some? && t.current.value.id == d.current.value.id && t.current.value.kind == d.current.value.kind)
    && Got(t.arrived, x.op, x.generation) == Got(d.arrived, x.op, x.generation)
    && Ends(t.heard, x.op) == Ends(d.heard, x.op)
    && GrowsBy(d, t)
    && (d.current.None? || IsCurrent(d, x.op) ==>
          t.current == d.current && t.end == d.end && t.gone == d.gone && t.retired == d.retired && t.delivered == d.delivered)
  }

  lemma FrameBeside(s: State, x: Transfer, f: Frame)
    requires Proper(s.Of(x.lane).early) && !s.closed && f.op != x.op && x.op != 0
    ensures var t := Arrive(s, x.lane, f); !t.closed ==> Beside(s.Of(x.lane), t.Of(x.lane), x)
  {
    var d := s.Of(x.lane);
    var d' := d.(arrived := d.arrived + [f]);
    GotSnoc(d.arrived, f, x.op, x.generation);
    if !Arrive(s, x.lane, f).closed {
      if IsCurrent(d', f.op) {
        ConsumedBeside(d', f, x.op);
      } else if f.op !in d.retired {
        PutFinds(d.early, f.op, Stored(Find(d.early, f.op), f));
      }
    }
  }

  lemma ConsumedBeside(d: Side, f: Frame, op: nat)
    requires IsCurrent(d, f.op) && Consume(d, f).Fine? && f.op != op
    ensures var t := Consume(d, f).side;
      && t.pending == d.pending && t.early == d.early && t.arrived == d.arrived && t.heard == d.heard && GrowsBy(d, t)
      && (op in t.gone ==> op in d.gone) && (op in t.retired ==> op in d.retired)
      && (t.current.Some? ==> t.current.value.id == d.current.value.id && t.current.value.kind == d.current.value.kind)
  {
  }

  lemma EndBeside(d: Side, e: End, x: Transfer)
    requires HearEnd(d, e).Fine? && e.op != x.op
    ensures Beside(d, HearEnd(d, e).side, x)
  {
    EndsSnoc(d.heard, e, x.op);
  }

  lemma Itself(d: Side, x: Transfer)
    ensures Beside(d, d, x)
  {
  }

  lemma ForeignBeside(s: State, x: Transfer, e: Event)
    requires Inv(s) && !s.closed && Foreign(s, x, e) && !Step(s, e).closed && x.op != 0
    ensures Beside(s.Of(x.lane), Step(s, e).Of(x.lane), x)
    ensures x.lane.Media? && x.request in Step(s, e).abandoned ==> x.request in s.abandoned
  {
    Itself(s.Of(x.lane), x);
    match e
    case Frames(lane, f) =>
      if lane == x.lane { FrameBeside(s, x, f); } else { OtherLane(s, x.lane, e); }
      FramesAbandonNothing(s, lane, f);
    case Tail(lane, end) =>
      if lane == x.lane { EndBeside(s.Of(lane), end, x); } else { OtherLane(s, x.lane, e); }
    case Head(lane, h) =>
      if lane != x.lane { OtherLane(s, x.lane, e); }
      HeaderAbandonsNothing(s, lane, h, x.request);
    case Request(lane, _, _) => OtherLane(s, x.lane, e);
    case Over(lane) => OtherLane(s, x.lane, e);
    case Open(_, _, _) =>
    case Seek(_) =>
    case SeekRequest(_) =>
    case Expire =>
  }

  lemma FramesAbandonNothing(s: State, lane: Lane, f: Frame)
    ensures Arrive(s, lane, f).abandoned == s.abandoned
  {
  }

  lemma {:induction false} ReplayAbandonsNothing(s: State, lane: Lane, op: nat, held: seq<Held>)
    ensures Replay(s, lane, op, held).abandoned == s.abandoned
    decreases |held|
  {
    if !s.closed && held != [] {
      var s' := s.(bytes := s.bytes - |held[0].payload|, count := s.count - 1);
      ReplayAbandonsNothing(Route(s', lane, Frame(op, held[0].generation, held[0].payload)), lane, op, held[1..]);
    }
  }

  lemma {:induction false} WithoutFewer(xs: seq<nat>, x: nat, y: nat)
    ensures y in Without(xs, x) ==> y in xs
  {
    if xs != [] {
      WithoutFewer(xs[1..], x, y);
    }
  }

  lemma HeaderAbandonsNothing(s: State, lane: Lane, h: Header, request: nat)
    ensures request in HearHeader(s, lane, h).abandoned ==> request in s.abandoned
  {
    WithoutFewer(s.abandoned, h.request, request);
    if !(lane.Media? && h.request in s.abandoned) && Accepts(s.Of(lane), h) {
      var b := Begin(Replaced(s.Of(lane), h.op), lane, h);
      ReplayAbandonsNothing(s.With(lane, b.(early := Delete(b.early, h.op))), lane, h.op, Find(b.early, h.op));
    }
  }

  lemma ForeignStage(s: State, x: Transfer, fs: seq<Frame>, control: seq<Event>, room: Room, e: Event)
    requires Stage(s, x, fs, control, room) && Foreign(s, x, e) && !Step(s, e).closed && Covers(room, Cost(e))
    ensures Stage(Step(s, e), x, fs, control, Left(room, Cost(e)))
  {
    StageOpen(s, x, fs, control, room);
    StepKeeps(s, e);
    ForeignBeside(s, x, e);
    StepWithin(s, x, e);
    var d, t := s.Of(x.lane), Step(s, e).Of(x.lane);
    if control == [] && Finished(s, x, fs) {
      WholeStays(d, t, x.op, x.generation, x.total);
    }
  }

  // ----- the theorem

  /** What a run that ends in t makes of an operation whose remaining frames were fs in s. */
  ghost predicate Outcome(s: State, t: State, x: Transfer, fs: seq<Frame>, ends: nat) {
    var d, e := s.Of(x.lane), t.Of(x.lane);
    && Inv(t) && !t.closed && DeliveredWhole(e, x.op, x.generation, x.total)
    && |Got(e.arrived, x.op, x.generation)| == x.total
    && Got(e.arrived, x.op, x.generation) == Got(d.arrived, x.op, x.generation) + Concat(Payloads(fs))
    && Ends(e.heard, x.op) == Ends(d.heard, x.op) + ends
  }

  lemma LastStage(s: State, x: Transfer, room: Room)
    requires Stage(s, x, [], [], room)
    ensures Outcome(s, s, x, [], 0)
  {
    if !Finished(s, x, []) {
      WireIsGot(s.Of(x.lane), x.op);
    }
  }

  lemma AfterFrame(s: State, t: State, x: Transfer, fs: seq<Frame>, ends: nat)
    requires fs != [] && fs[0].op == x.op && fs[0].generation == x.generation
    requires !s.closed && !Step(s, Frames(x.lane, fs[0])).closed
    requires Outcome(Step(s, Frames(x.lane, fs[0])), t, x, fs[1..], ends)
    ensures Outcome(s, t, x, fs, ends)
  {
    StepHistory(s, x, Frames(x.lane, fs[0]));
    GotSnoc(s.Of(x.lane).arrived, fs[0], x.op, x.generation);
    Associative(Got(s.Of(x.lane).arrived, x.op, x.generation), fs[0].payload, Concat(Payloads(fs[1..])));
    assert Payloads(fs)[1..] == Payloads(fs[1..]);
  }

  lemma AfterControl(s: State, t: State, x: Transfer, fs: seq<Frame>, control: seq<Event>, room: Room)
    requires Stage(s, x, fs, control, room) && control != [] && !Step(s, control[0]).closed
    requires Outcome(Step(s, control[0]), t, x, fs, if control[1..] == [] then 0 else 1)
    ensures Outcome(s, t, x, fs, 1)
  {
    StepHistory(s, x, control[0]);
    EndsSnoc(s.Of(x.lane).heard, TailOf(x), x.op);
  }

  lemma {:induction false} Finishes(s: State, x: Transfer, es: seq<Event>, fs: seq<Frame>, control: seq<Event>, room: Room)
    requires Stage(s, x, fs, control, room) && Mixes(s, es, x, fs, control, room)
    ensures Outcome(s, Run(Step, s, es), x, fs, if control == [] then 0 else 1)
    decreases |es|
  {
    StageOpen(s, x, fs, control, room);
    if es == [] {
      LastStage(s, x, room);
    } else {
      var t := Step(s, es[0]);
      if fs != [] && es[0] == Frames(x.lane, fs[0]) && Mixes(t, es[1..], x, fs[1..], control, room) {
        assert fs[0] in fs;
        FrameStage(s, x, fs, control, room);
        StageOpen(t, x, fs[1..], control, room);
        Finishes(t, x, es[1..], fs[1..], control, room);
        AfterFrame(s, Run(Step, t, es[1..]), x, fs, if control == [] then 0 else 1);
      } else if control != [] && es[0] == control[0] && Mixes(t, es[1..], x, fs, control[1..], room) {
        ControlStage(s, x, fs, control, room);
        StageOpen(t, x, fs, control[1..], room);
        Finishes(t, x, es[1..], fs, control[1..], room);
        AfterControl(s, Run(Step, t, es[1..]), x, fs, control, room);
      } else {
        ForeignStage(s, x, fs, control, room, es[0]);
        ForeignBeside(s, x, es[0]);
        Finishes(t, x, es[1..], fs, control, Left(room, Cost(es[0])));
      }
    }
  }

  /** From any state in which a new operation has been asked for and there is room: in every
      interleaving of its frames with its header and its end, and with the traffic of other operations
      within the room reserved for it, none of the operation's own events closes the session, and
      exactly the concatenation of its payloads is delivered, once. */
  lemma AnyInterleaving(s: State, x: Transfer, fs: seq<Frame>, es: seq<Event>, room: Room) returns (i: nat)
    requires Before(s, x, fs, room)
    requires Got(s.Of(x.lane).arrived, x.op, x.generation) == [] && Ends(s.Of(x.lane).heard, x.op) == 0
    requires Mixes(s, es, x, fs, [Head(x.lane, HeaderOf(x)), Tail(x.lane, TailOf(x))], room)
    ensures var t := Run(Step, s, es);
      var d := t.Of(x.lane);
      && !t.closed && Deliveries(d.delivered, x.op) == 1
      && i < |d.delivered| && d.delivered[i].op == x.op && d.delivered[i].content == Concat(Payloads(fs))
  {
    Finishes(s, x, es, fs, [Head(x.lane, HeaderOf(x)), Tail(x.lane, TailOf(x))], room);
    var d := Run(Step, s, es).Of(x.lane);
    i :| 0 <= i < |d.delivered| && WholeDelivery(d.delivered[i], x.op, x.generation, x.total);
    WholeContent(d, i, x);
  }

  /** An interleaving of the frames with the control messages alone. */
  predicate Merges(es: seq<Event>, x: Transfer, fs: seq<Frame>, control: seq<Event>)
    decreases |es|
  {
    if es == [] then fs == [] && control == []
    else
      || (fs != [] && es[0] == Frames(x.lane, fs[0]) && Merges(es[1..], x, fs[1..], control))
      || (control != [] && es[0] == control[0] && Merges(es[1..], x, fs, control[1..]))
  }

  /** Every interleaving with nothing foreign in it is one of those, whatever the room. */
  lemma {:induction false} MergesMixes(s: State, es: seq<Event>, x: Transfer, fs: seq<Frame>, control: seq<Event>, room: Room)
    requires Merges(es, x, fs, control)
    ensures Mixes(s, es, x, fs, control, room)
    decreases |es|
  {
    if es != [] {
      var t := Step(s, es[0]);
      if fs != [] && es[0] == Frames(x.lane, fs[0]) && Merges(es[1..], x, fs[1..], control) {
        MergesMixes(t, es[1..], x, fs[1..], control, room);
      } else {
        MergesMixes(t, es[1..], x, fs, control[1..], room);
      }
    }
  }
}
