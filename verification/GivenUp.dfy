/**
 What becomes of an operation that the browser has given up: it is remembered, and its late frames are
 dropped for as long as it is.
 */
module GivenUp {
  import opened Basics
  import opened Runs
  import opened EarlyFrames
  import opened Retired
  import opened Reassembly
  import opened ReassemblyOk

  // ----- how a step changes the lane's memory

  predicate RetiresOne(r: seq<nat>, r': seq<nat>, x: nat) {
    r' == r || r' == Retire(r, x)
  }

  /** A frame that is routed retires its own operation or none, and makes nothing current. */
  lemma RouteRetires(s: State, lane: Lane, f: Frame, op: nat)
    ensures var d, t := s.Of(lane), Route(s, lane, f).Of(lane);
      RetiresOne(d.retired, t.retired, f.op) && (IsCurrent(t, op) ==> IsCurrent(d, op))
    ensures Route(s, lane, f).Of(Other(lane)) == s.Of(Other(lane))
  {
  }

  /** A replay completes nothing, since no end is deferred. */
  lemma {:induction false} ReplayRetires(s: State, lane: Lane, op: nat, held: seq<Held>, x: nat)
    requires s.Of(lane).end.None?
    ensures var d, t := s.Of(lane), Replay(s, lane, op, held).Of(lane);
      t.retired == d.retired && (IsCurrent(t, x) ==> IsCurrent(d, x)) && (IsCurrent(d, x) ==> IsCurrent(t, x))
    ensures Replay(s, lane, op, held).Of(Other(lane)) == s.Of(Other(lane))
    decreases |held|
  {
    if !s.closed && held != [] {
      var s' := s.(bytes := s.bytes - |held[0].payload|, count := s.count - 1);
      var f := Frame(op, held[0].generation, held[0].payload);
      QuietRoute(s', lane, f, x);
      ReplayRetires(Route(s', lane, f), lane, op, held[1..], x);
    }
  }

  lemma QuietRoute(s: State, lane: Lane, f: Frame, x: nat)
    requires s.Of(lane).end.None?
    ensures var d, t := s.Of(lane), Route(s, lane, f).Of(lane);
      t.end.None? && t.retired == d.retired && (IsCurrent(t, x) <==> IsCurrent(d, x))
    ensures Route(s, lane, f).Of(Other(lane)) == s.Of(Other(lane))
  {
  }

  /** The operation a step gives up on a lane, if it gives one up. */
  function Retiree(s: State, e: Event, lane: Lane): nat {
    var d := s.Of(lane);
    var current := if d.current.Some? then d.current.value.id else 0;
    match e
    case Head(l, h) => if l.Media? && h.request in s.abandoned then h.op else current
    case _ => current
  }

  lemma StepRetires(s: State, e: Event, lane: Lane)
    ensures RetiresOne(s.Of(lane).retired, Step(s, e).Of(lane).retired, Retiree(s, e, lane))
  {
    if !s.closed {
      match e
      case Frames(l, f) =>
        RouteRetires(s.With(l, s.Of(l).(arrived := s.Of(l).arrived + [f])), l, f, f.op);
      case Head(l, h) =>
        if !(l.Media? && h.request in s.abandoned) && Accepts(s.Of(l), h) {
          var b := Begin(Replaced(s.Of(l), h.op), l, h);
          ReplayRetires(s.With(l, b.(early := Delete(b.early, h.op))), l, h.op, Find(b.early, h.op), h.op);
        }
      case _ =>
    }
  }

  // ----- leaving

  /** Whatever makes a current operation not current any more retires it: completion, failure,
      replacement, or the user turning away. */
  lemma LeavingRetires(s: State, e: Event, lane: Lane, op: nat)
    requires IsCurrent(s.Of(lane), op) && !IsCurrent(Step(s, e).Of(lane), op)
    ensures op in Step(s, e).Of(lane).retired
  {
    match e
    case Frames(l, f) =>
      RouteRetires(s.With(l, s.Of(l).(arrived := s.Of(l).arrived + [f])), l, f, op);
    case Head(l, h) =>
      if !(l.Media? && h.request in s.abandoned) && Accepts(s.Of(l), h) {
        var b := Begin(Replaced(s.Of(l), h.op), l, h);
        ReplayRetires(s.With(l, b.(early := Delete(b.early, h.op))), l, h.op, Find(b.early, h.op), op);
      }
    case _ =>
  }

  /** The header of an abandoned request retires its operation and empties the buffer of it. */
  lemma AbandonedIsRetired(s: State, h: Header)
    requires Inv(s) && !s.closed && h.request in s.abandoned && h.op != 0
    ensures var t := Step(s, Head(Media, h)); h.op in t.media.retired && Find(t.media.early, h.op) == [] && !t.closed
  {
    DeleteFinds(s.media.early, h.op);
  }

  /** A video that the user leaves while a request is under way abandons the request. */
  lemma LeavingAbandons(s: State)
    requires !s.closed && s.media.current.Some? && s.media.current.value.kind.Video? && s.media.pending.Some?
    requires s.media.pending.value.request != 0
    ensures var t := Step(s, Over(Media)); s.media.pending.value.request in t.abandoned && t.media.pending.None?
  {
  }

  // ----- how long it is remembered

  /** Steps of a run that retire an operation on the lane. */
  function Retirements(s: State, es: seq<Event>, lane: Lane): nat
    decreases |es|
  {
    if es == [] then 0
    else
      (if Step(s, es[0]).Of(lane).retired != s.Of(lane).retired then 1 else 0) + Retirements(Step(s, es[0]), es[1..], lane)
  }

  /** No header of the operation comes again. */
  predicate NotBegun(es: seq<Event>, lane: Lane, op: nat) {
    forall e :: e in es ==> !(e.Head? && e.lane == lane && e.header.op == op)
  }

  lemma StaysAway(s: State, e: Event, lane: Lane, op: nat)
    requires !IsCurrent(s.Of(lane), op) && !(e.Head? && e.lane == lane && e.header.op == op)
    ensures !IsCurrent(Step(s, e).Of(lane), op)
  {
    if !s.closed {
      match e
      case Frames(l, f) =>
        RouteRetires(s.With(l, s.Of(l).(arrived := s.Of(l).arrived + [f])), l, f, op);
      case Head(l, h) =>
        if !(l.Media? && h.request in s.abandoned) && Accepts(s.Of(l), h) {
          var b := Begin(Replaced(s.Of(l), h.op), l, h);
          ReplayRetires(s.With(l, b.(early := Delete(b.early, h.op))), l, h.op, Find(b.early, h.op), op);
        }
      case _ =>
    }
  }

  lemma {:induction false} Remembered(s: State, es: seq<Event>, lane: Lane, op: nat)
    requires op != 0 && op in s.Of(lane).retired && |s.Of(lane).retired| <= 64 && !IsCurrent(s.Of(lane), op) && NotBegun(es, lane, op)
    requires Newer(s.Of(lane).retired, op) + Retirements(s, es, lane) < 64
    ensures var d := Run(Step, s, es).Of(lane); op in d.retired && |d.retired| <= 64 && !IsCurrent(d, op)
    decreases |es|
  {
    if es != [] {
      var t := Step(s, es[0]);
      assert es[0] in es && forall e :: e in es[1..] ==> e in es;
      StepRetires(s, es[0], lane);
      StaysAway(s, es[0], lane, op);
      if t.Of(lane).retired != s.Of(lane).retired {
        RetireKeeps(s.Of(lane).retired, Retiree(s, es[0], lane), op);
      }
      Remembered(t, es[1..], lane, op);
    }
  }

  /** A frame of a remembered operation changes nothing but the history. */
  lemma LateFrame(s: State, lane: Lane, f: Frame)
    requires !s.closed && f.op in s.Of(lane).retired && !IsCurrent(s.Of(lane), f.op) && (lane.Bulk? ==> f.generation == 0)
    ensures Step(s, Frames(lane, f)) == s.With(lane, s.Of(lane).(arrived := s.Of(lane).arrived + [f]))
  {
  }

  ghost predicate Short(s: State) {
    |s.media.retired| <= 64 && |s.bulk.retired| <= 64
  }

  lemma EveryRunShort(es: seq<Event>)
    ensures Short(Run(Step, START, es))
  {
    forall s: State, e: Event | Short(s) ensures Short(Step(s, e)) {
      StepRetires(s, e, Media);
      StepRetires(s, e, Bulk);
    }
    Invariant(Step, Short, START, es);
  }

  /** From any state of any run: once an operation stops being current, and for every continuation in
      which no new header of it comes and fewer than 64 operations of its lane are retired after it,
      its late frames leave an open session exactly as it is. */
  lemma LateFramesAreDropped(past: seq<Event>, e: Event, es: seq<Event>, lane: Lane, f: Frame)
    requires var s := Run(Step, START, past);
      IsCurrent(s.Of(lane), f.op) && !IsCurrent(Step(s, e).Of(lane), f.op)
    requires var t := Step(Run(Step, START, past), e);
      NotBegun(es, lane, f.op) && Newer(t.Of(lane).retired, f.op) + Retirements(t, es, lane) < 64
    requires lane.Bulk? ==> f.generation == 0
    ensures var u := Run(Step, Step(Run(Step, START, past), e), es);
      !u.closed ==> Step(u, Frames(lane, f)) == u.With(lane, u.Of(lane).(arrived := u.Of(lane).arrived + [f]))
  {
    var s := Run(Step, START, past);
    var t := Step(s, e);
    EveryRunShort(past);
    LeavingRetires(s, e, lane, f.op);
    StepRetires(s, e, lane);
    Remembered(t, es, lane, f.op);
    var u := Run(Step, t, es);
    if !u.closed {
      LateFrame(u, lane, f);
    }
  }

  /** If it was not retired before, as only a completed file is, none has been retired after it yet. */
  lemma LeavingIsNewest(s: State, e: Event, lane: Lane, op: nat)
    requires IsCurrent(s.Of(lane), op) && op !in s.Of(lane).retired && !IsCurrent(Step(s, e).Of(lane), op)
    ensures Newer(Step(s, e).Of(lane).retired, op) == 0
  {
    LeavingRetires(s, e, lane, op);
    StepRetires(s, e, lane);
    NewestIsLast(s.Of(lane).retired, Retiree(s, e, lane), op);
  }

  /** The same for the operation of an abandoned header. */
  lemma AbandonedFramesAreDropped(past: seq<Event>, h: Header, es: seq<Event>, f: Frame)
    requires var s := Run(Step, START, past);
      !s.closed && h.request in s.abandoned && h.op != 0 && h.op !in s.media.retired && !IsCurrent(s.media, h.op)
    requires f.op == h.op && NotBegun(es, Media, h.op)
    requires Retirements(Step(Run(Step, START, past), Head(Media, h)), es, Media) < 64
    ensures var u := Run(Step, Step(Run(Step, START, past), Head(Media, h)), es);
      !u.closed ==> Step(u, Frames(Media, f)) == u.With(Media, u.media.(arrived := u.media.arrived + [f]))
  {
    var s := Run(Step, START, past);
    var t := Step(s, Head(Media, h));
    EveryRunShort(past);
    StepRetires(s, Head(Media, h), Media);
    NewestIsLast(s.media.retired, h.op, h.op);
    Remembered(t, es, Media, h.op);
    var u := Run(Step, t, es);
    if !u.closed {
      LateFrame(u, Media, f);
    }
  }
}
