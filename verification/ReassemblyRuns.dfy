/**
 What the reassembly guarantees over whole runs: exact content, completion at most once per end and
 as soon as every byte is there, and the same from end to end with the agent's media trace.
 */
module ReassemblyRuns {
  import opened Basics
  import opened Runs
  import opened EarlyFrames
  import opened Retired
  import opened Reassembly
  import opened ReassemblyOk
  import M = MediaTrace

  lemma RunKeeps(s: State, es: seq<Event>)
    requires Inv(s)
    ensures Inv(Run(Step, s, es))
  {
    forall t: State, e: Event | Inv(t) ensures Inv(Step(t, e)) {
      StepKeeps(t, e);
    }
    Invariant(Step, Inv, s, es);
  }

  lemma EveryRun(es: seq<Event>)
    ensures Inv(Run(Step, START, es))
  {
    RunKeeps(START, es);
  }

  /** The early-frame counters are the sizes of what is buffered, and stay within their limits. */
  lemma CountersMatch(es: seq<Event>)
    requires !Run(Step, START, es).closed
    ensures var s := Run(Step, START, es);
      && s.bytes == TableBytes(s.media.early) + TableBytes(s.bulk.early) <= 5308416
      && s.count == TableCount(s.media.early) + TableCount(s.bulk.early) <= 128
      && |s.media.early| + |s.bulk.early| <= 128
  {
    EveryRun(es);
  }

  /** At every moment of every run, the bytes of an operation that have arrived are, in order, what
      its consumer has or what is buffered for it. */
  lemma NothingLost(es: seq<Event>, lane: Lane, op: nat, generation: nat)
    requires var s := Run(Step, START, es);
      !s.closed && op !in s.Of(lane).gone && Relevant(s.Of(lane), op, generation)
    ensures var d := Run(Step, START, es).Of(lane);
      Got(d.arrived, op, generation) ==
        if IsCurrent(d, op) then Concat(d.current.value.chunks) else BytesAt(Find(d.early, op), generation)
  {
    EveryRun(es);
    var d := Run(Step, START, es).Of(lane);
    assert Claim(d, op, generation) + (if op == 0 then BytesAt([], generation) else []) == Got(d.arrived, op, generation);
  }

  /** What a completed operation delivered is all that had arrived for it, of the declared length; and
      no operation completes more often than it was told to. */
  lemma DeliveredExactly(es: seq<Event>, lane: Lane, i: nat)
    requires var s := Run(Step, START, es); !s.closed && i < |s.Of(lane).delivered|
    ensures var d := Run(Step, START, es).Of(lane);
      var x := d.delivered[i];
      && |x.content| == x.bytes && HeardFor(d.heard, x) && x.seen <= |d.arrived|
      && (x.tracked ==> x.content == Got(d.arrived[..x.seen], x.op, x.generation))
      && Deliveries(d.delivered, x.op) <= Ends(d.heard, x.op)
  {
    EveryRun(es);
    var d := Run(Step, START, es).Of(lane);
    assert DeliveryOk(d.arrived, d.delivered[i]);
    assert Deliveries(d.delivered, d.delivered[i].op) + 0 <= Ends(d.heard, d.delivered[i].op);
  }

  // ----- completion comes with the last byte

  predicate HasDelivered(d: Side, op: nat) {
    exists i :: 0 <= i < |d.delivered| && d.delivered[i].op == op && d.delivered[i].tracked
  }

  /** The operation is current; if its end was declared complete, it has been delivered. */
  predicate Underway(d: Side, op: nat, request: nat, generation: nat) {
    && IsCurrent(d, op) && op !in d.gone
    && d.current.value.request == request && d.current.value.generation == generation
    && (d.current.value.declared.Some? ==> HasDelivered(d, op))
  }

  /** The user, errors and timers leave the operation alone, and its end is not heard. */
  predicate Undisturbed(lane: Lane, op: nat, s: State, e: Event) {
    match e
    case Over(l) => l != lane
    case Seek(_) => lane.Bulk?
    case Tail(l, end) => l != lane || end.op != op
    case Head(l, h) => l != lane || (!Accepts(s.Of(lane), h) && h.op != op)
    case _ => true
  }

  predicate Fate(s: State, lane: Lane, op: nat, request: nat, generation: nat, announced: Option<nat>) {
    var d := s.Of(lane);
    || s.closed
    || HasDelivered(d, op)
    || (Underway(d, op, request, generation) && d.current.value.announced == announced)
  }

  lemma DeliveredStays(a: Side, b: Side, op: nat)
    requires HasDelivered(a, op) && |a.delivered| <= |b.delivered| && b.delivered[..|a.delivered|] == a.delivered
    ensures HasDelivered(b, op)
  {
    var i :| 0 <= i < |a.delivered| && a.delivered[i].op == op && a.delivered[i].tracked;
    assert b.delivered[i] == a.delivered[i];
  }

  predicate GrowsBy(a: Side, b: Side) {
    |a.delivered| <= |b.delivered| && b.delivered[..|a.delivered|] == a.delivered
  }

  lemma CompletedDelivers(d: Side, e: End)
    requires d.current.Some?
    ensures GrowsBy(d, Completed(d, e))
    ensures d.current.value.id !in d.gone ==> HasDelivered(Completed(d, e), d.current.value.id)
  {
    var t := Completed(d, e);
    assert t.delivered[|d.delivered|].op == d.current.value.id;
  }

  /** A frame leaves every operation under way, or delivers it. */
  lemma ConsumeFate(d: Side, f: Frame, op: nat, request: nat, generation: nat)
    requires d.current.Some? && Consume(d, f).Fine?
    ensures var t := Consume(d, f).side;
      && GrowsBy(d, t)
      && (Underway(d, op, request, generation) ==>
            HasDelivered(t, op) ||
            (Underway(t, op, request, generation) && t.current.value.announced == d.current.value.announced))
  {
    if Take(d, f).Fine? && f.generation == d.current.value.generation {
      var k := Take(d, f).side;
      if k.end.Some? && Received(k) == k.end.value.bytes && Matches(k.current, k.end.value) {
        CompletedDelivers(k.(end := None), k.end.value);
      }
      if Underway(d, op, request, generation) && d.current.value.declared.Some? {
        DeliveredStays(d, Consume(d, f).side, op);
      }
    }
  }

  lemma RouteFate(s: State, lane: Lane, f: Frame, op: nat, request: nat, generation: nat, announced: Option<nat>)
    requires Fate(s, lane, op, request, generation, announced) && !s.closed
    ensures Fate(Route(s, lane, f), lane, op, request, generation, announced)
  {
    var d := s.Of(lane);
    if IsCurrent(d, f.op) {
      if Consume(d, f).Fine? {
        ConsumeFate(d, f, op, request, generation);
        if HasDelivered(d, op) {
          DeliveredStays(d, Consume(d, f).side, op);
        }
      }
    } else {
      RouteElsewhere(s, lane, f);
      if HasDelivered(d, op) && !Route(s, lane, f).closed {
        DeliveredStays(d, Route(s, lane, f).Of(lane), op);
      }
    }
  }

  lemma RouteElsewhere(s: State, lane: Lane, f: Frame)
    requires !IsCurrent(s.Of(lane), f.op)
    ensures var d, t := s.Of(lane), Route(s, lane, f);
      !t.closed ==> t.Of(lane) == d.(early := t.Of(lane).early) && t.Of(Other(lane)) == s.Of(Other(lane))
  {
  }

  lemma TailFate(d: Side, e: End, op: nat, request: nat, generation: nat)
    requires HearEnd(d, e).Fine?
    ensures var t := HearEnd(d, e).side;
      && GrowsBy(d, t)
      && (e.op != op && Underway(d, op, request, generation) ==>
            Underway(t, op, request, generation) && t.current.value.announced == d.current.value.announced)
      && (Matches(d.current, e) && d.current.value.id !in d.gone && d.current.value.declared.None? ==>
            HasDelivered(t, e.op) ||
            (t.current == Some(d.current.value.(announced := Some(e.bytes))) && t.gone == d.gone))
  {
    var h := d.(heard := d.heard + [e]);
    if Matches(d.current, e) && !TooLarge(d, e.bytes) && d.current.value.wire == e.bytes {
      CompletedDelivers(h, e);
    }
    if Underway(d, op, request, generation) && d.current.value.declared.Some? {
      DeliveredStays(d, HearEnd(d, e).side, op);
    }
  }

  lemma {:induction false} ReplayElsewhere(s: State, lane: Lane, op: nat, held: seq<Held>)
    ensures var t := Replay(s, lane, op, held); !t.closed ==> t.Of(Other(lane)) == s.Of(Other(lane))
    decreases |held|
  {
    if !s.closed && held != [] {
      var s' := s.(bytes := s.bytes - |held[0].payload|, count := s.count - 1);
      ReplayElsewhere(Route(s', lane, Frame(op, held[0].generation, held[0].payload)), lane, op, held[1..]);
    }
  }

  /** Steps of the other lane leave this one alone. */
  lemma OtherLane(s: State, lane: Lane, e: Event)
    requires !s.closed
    requires match e
      case Frames(l, _) => l == Other(lane)
      case Head(l, _) => l == Other(lane)
      case Tail(l, _) => l == Other(lane)
      case Request(l, _, _) => l == Other(lane)
      case Over(l) => l == Other(lane)
      case _ => false
    ensures !Step(s, e).closed ==> Step(s, e).Of(lane) == s.Of(lane)
  {
    if e.Head? && !(e.lane.Media? && e.header.request in s.abandoned) && Accepts(s.Of(e.lane), e.header) {
      var h := e.header;
      var d := Begin(Replaced(s.Of(e.lane), h.op), e.lane, h);
      ReplayElsewhere(s.With(e.lane, d.(early := Delete(d.early, h.op))), e.lane, h.op, Find(d.early, h.op));
    }
  }

  lemma FateStep(s: State, lane: Lane, e: Event, op: nat, request: nat, generation: nat, announced: Option<nat>)
    requires Fate(s, lane, op, request, generation, announced) && Undisturbed(lane, op, s, e)
    ensures Fate(Step(s, e), lane, op, request, generation, announced)
  {
    if !s.closed {
      match e
      case Frames(l, f) =>
        if l != lane {
          OtherLane(s, lane, e);
        } else if !Arrive(s, l, f).closed {
          var d := s.Of(lane);
          var s' := s.With(lane, d.(arrived := d.arrived + [f]));
          SameFate(s, s', lane, op, request, generation, announced);
          RouteFate(s', lane, f, op, request, generation, announced);
        }
      case Tail(l, end) =>
        if l != lane {
          OtherLane(s, lane, e);
        } else if HearEnd(s.Of(lane), end).Fine? {
          TailFate(s.Of(lane), end, op, request, generation);
          if HasDelivered(s.Of(lane), op) {
            DeliveredStays(s.Of(lane), Step(s, e).Of(lane), op);
          }
        }
      case Head(l, h) =>
        if l != lane {
          OtherLane(s, lane, e);
        } else {
          SameFate(s, Step(s, e), lane, op, request, generation, announced);
        }
      case Over(l) => OtherLane(s, lane, e);
      case Request(l, _, _) => SameFate(s, Step(s, e), lane, op, request, generation, announced);
      case Open(_, _, _) => OpenFate(s, e, lane, op, request, generation, announced);
      case Seek(_) => SameFate(s, Step(s, e), lane, op, request, generation, announced);
      case SeekRequest(_) => SameFate(s, Step(s, e), lane, op, request, generation, announced);
      case Expire =>
    }
  }

  lemma OpenFate(s: State, e: Event, lane: Lane, op: nat, request: nat, generation: nat, announced: Option<nat>)
    requires e.Open? && !s.closed && Fate(s, lane, op, request, generation, announced)
    ensures Fate(Step(s, e), lane, op, request, generation, announced)
  {
    if HasDelivered(s.Of(lane), op) {
      DeliveredStays(s.Of(lane), Step(s, e).Of(lane), op);
    }
  }

  lemma SameFate(s: State, t: State, lane: Lane, op: nat, request: nat, generation: nat, announced: Option<nat>)
    requires Fate(s, lane, op, request, generation, announced) && !s.closed
    requires t.Of(lane).delivered == s.Of(lane).delivered && t.Of(lane).current == s.Of(lane).current
    requires op in t.Of(lane).gone ==> op in s.Of(lane).gone
    ensures Fate(t, lane, op, request, generation, announced)
  {
    if HasDelivered(s.Of(lane), op) {
      DeliveredStays(s.Of(lane), t.Of(lane), op);
    }
  }

  lemma RunFate(s: State, lane: Lane, es: seq<Event>, op: nat, request: nat, generation: nat, announced: Option<nat>)
    requires Fate(s, lane, op, request, generation, announced)
    requires EachStep(Step, (t: State, e: Event) => Undisturbed(lane, op, t, e), s, es)
    ensures Fate(Run(Step, s, es), lane, op, request, generation, announced)
  {
    var fate := (t: State) => Fate(t, lane, op, request, generation, announced);
    var calm := (t: State, e: Event) => Undisturbed(lane, op, t, e);
    forall t: State, e: Event | fate(t) && calm(t, e) ensures fate(Step(t, e)) {
      FateStep(t, lane, e, op, request, generation, announced);
    }
    InvariantWhere(Step, fate, calm, s, es);
  }

  /** From the moment an operation has its consumer: however its remaining frames and its end come,
      and whatever else goes on, it is delivered as soon as as many bytes have arrived as its end says. */
  lemma EveryInterleaving(s: State, lane: Lane, before: seq<Event>, end: End, after: seq<Event>)
    requires Inv(s) && IsCurrent(s.Of(lane), end.op) && end.op !in s.Of(lane).gone
    requires var c := s.Of(lane).current.value;
      c.declared.None? && c.announced.None? && end.request == c.request && (end.generation.Some? ==> end.generation.value == c.generation)
    requires EachStep(Step, (t: State, e: Event) => Undisturbed(lane, end.op, t, e), s, before)
    requires var m := Step(Run(Step, s, before), Tail(lane, end));
      EachStep(Step, (t: State, e: Event) => Undisturbed(lane, end.op, t, e), m, after)
    ensures var t := Run(Step, Step(Run(Step, s, before), Tail(lane, end)), after);
      var d := t.Of(lane);
      t.closed || HasDelivered(d, end.op) || |Got(d.arrived, end.op, s.Of(lane).current.value.generation)| < end.bytes
  {
    var op, c := end.op, s.Of(lane).current.value;
    var m := Run(Step, s, before);
    var n := Step(m, Tail(lane, end));
    var t := Run(Step, n, after);
    RunKeeps(s, before);
    StepKeeps(m, Tail(lane, end));
    RunKeeps(n, after);
    RunFate(s, lane, before, op, c.request, c.generation, None);
    AtTheEnd(m, lane, end, c);
    RunFate(n, lane, after, op, c.request, c.generation, Some(end.bytes));
    if !t.closed && !HasDelivered(t.Of(lane), op) {
      NotYet(t.Of(lane), op, c.request, c.generation, end.bytes);
    }
  }

  lemma AtTheEnd(m: State, lane: Lane, end: End, c: Operation)
    requires Inv(m) && Fate(m, lane, end.op, c.request, c.generation, None)
    requires end.request == c.request && (end.generation.Some? ==> end.generation.value == c.generation)
    ensures Fate(Step(m, Tail(lane, end)), lane, end.op, c.request, c.generation, Some(end.bytes))
  {
    if !m.closed && HearEnd(m.Of(lane), end).Fine? {
      TailFate(m.Of(lane), end, end.op, c.request, c.generation);
      if HasDelivered(m.Of(lane), end.op) {
        DeliveredStays(m.Of(lane), Step(m, Tail(lane, end)).Of(lane), end.op);
      }
    }
  }

  /** An operation whose end was heard and that is not delivered still lacks bytes. */
  lemma NotYet(d: Side, op: nat, request: nat, generation: nat, bytes: nat)
    requires SideOk(d) && Underway(d, op, request, generation) && d.current.value.announced == Some(bytes)
    requires !HasDelivered(d, op)
    ensures |Got(d.arrived, op, generation)| < bytes
  {
    assert Relevant(d, op, generation);
    assert Claim(d, op, generation) + (if op == 0 then BytesAt([], generation) else []) == Got(d.arrived, op, generation);
  }

  // ----- end to end with the agent

  /** The frames and the ends of a trace, as the media and control lanes carry them. */
  function FramesOf(trace: seq<M.Sent>): seq<Frame> {
    if trace == [] then []
    else (if trace[0].Frame? then [Frame(trace[0].op, trace[0].generation, trace[0].payload)] else []) + FramesOf(trace[1..])
  }

  function EndsOf(trace: seq<M.Sent>): seq<End> {
    if trace == [] then []
    else (if trace[0].EndOf? then [End(trace[0].op, trace[0].request, Some(trace[0].generation), trace[0].bytes)] else [])
         + EndsOf(trace[1..])
  }

  /** Everything that was sent for an operation. */
  function Whole(msgs: seq<M.Sent>): Bytes {
    if msgs == [] then [] else (if msgs[0].Frame? then msgs[0].payload else []) + Whole(msgs[1..])
  }

  lemma {:induction false} WholeIsVolume(msgs: seq<M.Sent>)
    ensures |Whole(msgs)| == M.Volume(msgs)
  {
    if msgs != [] {
      WholeIsVolume(msgs[1..]);
    }
  }

  lemma {:induction false} GotOfTrace(trace: seq<M.Sent>, op: nat, generation: nat)
    requires forall m :: m in M.Own(trace, op) && m.Frame? ==> m.generation == generation
    ensures Got(FramesOf(trace), op, generation) == Whole(M.Own(trace, op))
  {
    if trace != [] {
      var own := M.Own(trace[1..], op);
      assert forall m :: m in own ==> m in M.Own(trace, op);
      GotOfTrace(trace[1..], op, generation);
      var m := trace[0];
      if m.Frame? {
        var f := Frame(m.op, m.generation, m.payload);
        assert FramesOf(trace) == [f] + FramesOf(trace[1..]);
        assert ([f] + FramesOf(trace[1..]))[1..] == FramesOf(trace[1..]);
      } else {
        assert FramesOf(trace) == [] + FramesOf(trace[1..]) == FramesOf(trace[1..]);
      }
      if m.op == op && !m.Failure? {
        assert m in M.Own(trace, op);
        assert M.Own(trace, op) == [m] + own;
        assert ([m] + own)[1..] == own;
      } else {
        assert M.Own(trace, op) == own;
      }
    }
  }

  lemma {:induction false} GotNothing(trace: seq<M.Sent>, op: nat, generation: nat)
    requires forall m :: m in M.Own(trace, op) && m.Frame? ==> m.generation != generation
    ensures Got(FramesOf(trace), op, generation) == []
  {
    if trace != [] {
      assert forall m :: m in M.Own(trace[1..], op) ==> m in M.Own(trace, op);
      GotNothing(trace[1..], op, generation);
      var m := trace[0];
      if m.Frame? {
        var f := Frame(m.op, m.generation, m.payload);
        assert FramesOf(trace) == [f] + FramesOf(trace[1..]);
        assert ([f] + FramesOf(trace[1..]))[1..] == FramesOf(trace[1..]);
        if m.op == op {
          assert m in M.Own(trace, op);
        }
      } else {
        assert FramesOf(trace) == [] + FramesOf(trace[1..]) == FramesOf(trace[1..]);
      }
    }
  }

  lemma {:induction false} EndInTrace(trace: seq<M.Sent>, e: End)
    requires e in EndsOf(trace)
    ensures e.generation.Some? && M.EndOf(e.op, e.request, e.generation.value, e.bytes) in M.Own(trace, e.op)
  {
    if !(trace[0].EndOf? && e == End(trace[0].op, trace[0].request, Some(trace[0].generation), trace[0].bytes)) {
      EndInTrace(trace[1..], e);
    }
  }

  lemma {:induction false} EndsInTrace(trace: seq<M.Sent>, op: nat)
    ensures Ends(EndsOf(trace), op) == EndCount(M.Own(trace, op))
  {
    if trace != [] {
      EndsInTrace(trace[1..], op);
      var m := trace[0];
      var rest := EndsOf(trace[1..]);
      if m.EndOf? {
        var e := End(m.op, m.request, Some(m.generation), m.bytes);
        assert EndsOf(trace) == [e] + rest && ([e] + rest)[1..] == rest;
      } else {
        assert EndsOf(trace) == [] + rest == rest;
      }
      if m.op == op && !m.Failure? {
        var own := M.Own(trace[1..], op);
        assert M.Own(trace, op) == [m] + own && ([m] + own)[1..] == own;
      } else {
        assert M.Own(trace, op) == M.Own(trace[1..], op);
      }
    }
  }

  function EndCount(msgs: seq<M.Sent>): nat {
    if msgs == [] then 0 else (if msgs[0].EndOf? then 1 else 0) + EndCount(msgs[1..])
  }

  lemma {:induction false} EndCountOne(msgs: seq<M.Sent>)
    requires forall i :: 0 <= i < |msgs| - 1 ==> !msgs[i].EndOf?
    ensures EndCount(msgs) <= 1
  {
    if |msgs| > 1 {
      EndCountOne(msgs[1..]);
    }
  }

  lemma {:induction false} EndsPrefix(a: seq<End>, b: seq<End>, op: nat)
    requires a <= b
    ensures Ends(a, op) <= Ends(b, op)
  {
    if a != [] {
      assert a[0] == b[0] && a[1..] <= b[1..];
      EndsPrefix(a[1..], b[1..], op);
    }
  }

  lemma {:induction false} GotPrefix(a: seq<Frame>, b: seq<Frame>, op: nat, generation: nat)
    requires a <= b
    ensures Got(a, op, generation) <= Got(b, op, generation)
  {
    if a != [] {
      assert a[0] == b[0] && a[1..] <= b[1..];
      GotPrefix(a[1..], b[1..], op, generation);
    }
  }

  lemma LifecycleEnds(own: seq<M.Sent>, e: M.Sent)
    requires M.Lifecycle(own) && e in own && e.EndOf?
    ensures e.bytes == |Whole(own)|
  {
    var front := own[..|own| - 1];
    assert own == front + [own[|own| - 1]];
    M.VolumeSnoc(front, own[|own| - 1]);
    WholeIsVolume(own);
  }

  /** What the agent's trace says about an operation: its frames bear one generation, and its only
      end counts all its bytes. */
  lemma AgentSays(past: seq<M.Event>, op: nat) returns (generation: nat)
    ensures var own := M.Own(Run(M.Step, M.IDLE, past).trace, op);
      && (forall m :: m in own && m.Frame? ==> m.generation == generation)
      && M.Lifecycle(own) && EndCount(own) <= 1
  {
    var s := Run(M.Step, M.IDLE, past);
    var own := M.Own(s.trace, op);
    M.EveryRun(past);
    M.TraceSafety(past, op);
    generation := 0;
    if op in s.jobs {
      assert M.JobOk(op, s.jobs[op], op in s.cancelled, own);
      generation := s.jobs[op].generation;
    } else {
      M.OwnNone(s.trace, op);
    }
    forall i | 0 <= i < |own| - 1 ensures !own[i].EndOf? {
      if !M.Opened(own) {
        assert own[i] == own[..|own| - 1][i];
      }
    }
    EndCountOne(own);
  }

  /** Any run of the agent's media operations, any run of the browser that has heard some of the ends
      and seen some of the frames of that trace, in the order of their lanes but interleaved in any
      way: what the browser delivers for an operation it had not given up is everything the agent
      sent for it, and it delivers it once. */
  lemma EndToEnd(past: seq<M.Event>, es: seq<Event>, i: nat)
    requires var s := Run(Step, START, es);
      var trace := Run(M.Step, M.IDLE, past).trace;
      && !s.closed && i < |s.media.delivered| && s.media.delivered[i].tracked
      && s.media.arrived <= FramesOf(trace) && s.media.heard <= EndsOf(trace)
    ensures var d := Run(Step, START, es).media;
      var x := d.delivered[i];
      x.content == Whole(M.Own(Run(M.Step, M.IDLE, past).trace, x.op)) && Deliveries(d.delivered, x.op) == 1
  {
    var d := Run(Step, START, es).media;
    var x := d.delivered[i];
    var trace := Run(M.Step, M.IDLE, past).trace;
    var own := M.Own(trace, x.op);
    DeliveredExactly(es, Media, i);
    var generation := AgentSays(past, x.op);
    var e :| e in d.heard && e.op == x.op && e.bytes == x.bytes;
    EndInTrace(trace, e);
    LifecycleEnds(own, M.EndOf(e.op, e.request, e.generation.value, e.bytes));
    GotPrefix(d.arrived[..x.seen], FramesOf(trace), x.op, x.generation);
    if x.generation == generation {
      GotOfTrace(trace, x.op, generation);
    } else {
      GotNothing(trace, x.op, x.generation);
      assert x.content == [];
    }
    EndsPrefix(d.heard, EndsOf(trace), x.op);
    EndsInTrace(trace, x.op);
    DeliveredCounts(d.delivered, i);
  }

  lemma {:induction false} DeliveredCounts(delivered: seq<Delivery>, i: nat)
    requires i < |delivered|
    ensures Deliveries(delivered, delivered[i].op) >= 1
  {
    if i > 0 {
      DeliveredCounts(delivered[1..], i - 1);
    }
  }
}
