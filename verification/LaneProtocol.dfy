/**
 What the browser does with each message of a lane, said in terms of what has arrived: when an end or a
 frame completes an operation, when it closes the session, whom a header puts in charge, and what the
 user's steps leave behind.
 */
module LaneProtocol {
  import opened Basics
  import opened Runs
  import opened EarlyFrames
  import opened Retired
  import opened Reassembly
  import opened ReassemblyOk

  // ----- ends

  /** The end is for the operation under way. */
  predicate EndsCurrent(c: Operation, e: End) {
    e.op != 0 && e.op == c.id && e.request == c.request && (e.generation.Some? ==> e.generation.value == c.generation)
  }

  /** An end that declares more than 64 bits can hold, more than a safe integer for a part of an album,
      or less than has arrived, closes the session; one that declares more waits; one that declares
      what has arrived completes the operation at once. */
  lemma EndDecides(s: State, lane: Lane, e: End)
    requires Inv(s) && !s.closed && s.Of(lane).current.Some? && e.op !in s.Of(lane).gone
    requires EndsCurrent(s.Of(lane).current.value, e)
    ensures var d, t, c := s.Of(lane), Step(s, Tail(lane, e)), s.Of(lane).current.value;
      var got := Got(d.arrived, e.op, c.generation);
      && (t.closed <==>
            e.bytes >= 18446744073709551616 || (c.album && e.bytes > 9007199254740991) || |got| > e.bytes)
      && (!t.closed && |got| < e.bytes ==>
            t.Of(lane).end == Some(e) && t.Of(lane).delivered == d.delivered && IsCurrent(t.Of(lane), e.op))
      && (!t.closed && |got| == e.bytes ==>
            t.Of(lane).delivered == d.delivered + [Delivery(e.op, c.generation, got, e.bytes, |d.arrived|, true)]
            && AfterCompletion(t.Of(lane), c, e.bytes))
  {
    Collected(s.Of(lane), e.op);
    var d := s.Of(lane);
    assert HearEnd(d, e).Fine? ==> HearEnd(d, e).side.gone == d.gone || d.current.value.kind.Still?;
  }

  /** A completed still image is forgotten and retired, a file is retired and stays for its checks, a
      range of a video stays; what stays takes no more than was declared. */
  predicate AfterCompletion(d: Side, c: Operation, bytes: nat) {
    && (c.kind.Still? ==> d.current.None? && c.id in d.retired)
    && (c.kind.File? ==> c.id in d.retired)
    && (!c.kind.Still? ==> IsCurrent(d, c.id) && d.current.value.declared == Some(bytes) && d.current.value.kind == c.kind)
  }

  /** Any other end is only remembered. */
  lemma ForeignEnd(s: State, lane: Lane, e: End)
    requires !s.closed && (s.Of(lane).current.Some? ==> !EndsCurrent(s.Of(lane).current.value, e))
    ensures Step(s, Tail(lane, e)) == s.With(lane, s.Of(lane).(heard := s.Of(lane).heard + [e]))
  {
  }

  lemma Collected(d: Side, op: nat)
    requires SideOk(d) && IsCurrent(d, op) && op !in d.gone
    ensures var c := d.current.value;
      Concat(c.chunks) == Got(d.arrived, op, c.generation) && c.wire == |Got(d.arrived, op, c.generation)|
  {
    var g := d.current.value.generation;
    assert Relevant(d, op, g);
    assert Claim(d, op, g) + (if op == 0 then BytesAt([], g) else []) == Got(d.arrived, op, g);
  }

  // ----- a deferred end belongs to the operation under way

  predicate EndKept(d: Side) {
    d.end.Some? && d.current.Some? && d.current.value.id != 0 && d.current.value.id !in d.gone ==>
      EndsCurrent(d.current.value, d.end.value) && !TooLarge(d, d.end.value.bytes)
  }

  ghost predicate EndsKept(s: State) {
    s.closed || (EndKept(s.media) && EndKept(s.bulk))
  }

  lemma RouteKeepsEnd(s: State, lane: Lane, f: Frame)
    requires EndKept(s.Of(lane)) && !s.closed
    ensures var t := Route(s, lane, f);
      t.closed || (EndKept(t.Of(lane)) && t.Of(Other(lane)) == s.Of(Other(lane)))
  {
  }

  lemma {:induction false} ReplayKeepsEnd(s: State, lane: Lane, op: nat, held: seq<Held>)
    requires EndKept(s.Of(lane))
    ensures var t := Replay(s, lane, op, held);
      t.closed || (EndKept(t.Of(lane)) && t.Of(Other(lane)) == s.Of(Other(lane)))
    decreases |held|
  {
    if !s.closed && held != [] {
      var s' := s.(bytes := s.bytes - |held[0].payload|, count := s.count - 1);
      var f := Frame(op, held[0].generation, held[0].payload);
      RouteKeepsEnd(s', lane, f);
      var t := Route(s', lane, f);
      if !t.closed {
        ReplayKeepsEnd(t, lane, op, held[1..]);
      } else {
        assert Replay(t, lane, op, held[1..]) == t;
      }
    }
  }

  lemma HeaderKeepsEnd(s: State, lane: Lane, h: Header)
    requires EndsKept(s) && !s.closed
    ensures EndsKept(HearHeader(s, lane, h))
  {
    var d := s.Of(lane);
    if !(lane.Media? && h.request in s.abandoned) && Accepts(d, h) {
      var b := Begin(Replaced(d, h.op), lane, h);
      assert b.end.None?;
      ReplayKeepsEnd(s.With(lane, b.(early := Delete(b.early, h.op))), lane, h.op, Find(b.early, h.op));
    }
  }

  lemma StepKeepsEnd(s: State, e: Event)
    requires EndsKept(s)
    ensures EndsKept(Step(s, e))
  {
    if !s.closed {
      match e
      case Frames(lane, f) =>
        RouteKeepsEnd(s.With(lane, s.Of(lane).(arrived := s.Of(lane).arrived + [f])), lane, f);
      case Head(lane, h) => HeaderKeepsEnd(s, lane, h);
      case _ =>
    }
  }

  lemma EveryEnd(es: seq<Event>)
    ensures EndsKept(Run(Step, START, es))
  {
    forall s: State, e: Event | EndsKept(s) ensures EndsKept(Step(s, e)) {
      StepKeepsEnd(s, e);
    }
    Invariant(Step, EndsKept, START, es);
  }

  // ----- frames

  /** What the operation under way may still receive, once that is known. */
  predicate Exceeds(d: Side, c: Operation, n: nat) {
    (c.declared.Some? && n > c.declared.value) || (d.end.Some? && n > d.end.value.bytes)
  }

  /** A frame of the operation under way: bytes beyond the declared end close the session, whether it has
      completed or waits; the last byte that a deferred end waits for completes it; anything else joins
      what it has. */
  lemma FrameDecides(s: State, lane: Lane, f: Frame)
    requires Inv(s) && EndsKept(s) && !s.closed && IsCurrent(s.Of(lane), f.op) && f.op !in s.Of(lane).gone
    requires f.generation == s.Of(lane).current.value.generation && (lane.Bulk? ==> f.generation == 0)
    ensures var d, t, c := s.Of(lane), Step(s, Frames(lane, f)), s.Of(lane).current.value;
      var got := Got(d.arrived, f.op, f.generation) + f.payload;
      && (t.closed <==> Exceeds(d, c, |got|))
      && (!t.closed && d.end.Some? && |got| == d.end.value.bytes ==>
            t.Of(lane).delivered ==
              d.delivered + [Delivery(f.op, f.generation, got, |got|, |d.arrived| + 1, true)]
            && t.Of(lane).end.None? && AfterCompletion(t.Of(lane), c, |got|))
      && (!t.closed && (d.end.Some? ==> |got| < d.end.value.bytes) ==>
            t.Of(lane).delivered == d.delivered && t.Of(lane).end == d.end && IsCurrent(t.Of(lane), f.op)
            && Concat(t.Of(lane).current.value.chunks) == got)
  {
    var d := s.Of(lane);
    Collected(d, f.op);
    ConcatSnoc(d.current.value.chunks, f.payload);
    var c := d.current.value;
    FrameTaken(d.(arrived := d.arrived + [f]), f);
  }

  lemma FrameTaken(d: Side, f: Frame)
    requires CurrentOk(d) && EndKept(d) && IsCurrent(d, f.op) && f.op !in d.gone && f.generation == d.current.value.generation
    ensures var c := d.current.value;
      var chunks := c.chunks + [f.payload];
      var n := c.wire + |f.payload|;
      && (Consume(d, f).Violation? <==> Exceeds(d, c, n))
      && (Consume(d, f).Fine? ==>
            var t := Consume(d, f).side;
            if d.end.Some? && n == d.end.value.bytes then
              && t.delivered == d.delivered + [Delivery(f.op, f.generation, Concat(chunks), n, |d.arrived|, true)]
              && t.end.None? && AfterCompletion(t, c, n)
            else
              t.delivered == d.delivered && t.end == d.end && IsCurrent(t, f.op) && t.current.value.chunks == chunks)
  {
  }

  /** A frame of another generation than the consumer's is dropped. */
  lemma OutdatedFrame(s: State, lane: Lane, f: Frame)
    requires !s.closed && IsCurrent(s.Of(lane), f.op) && f.generation != s.Of(lane).current.value.generation
    requires lane.Bulk? ==> f.generation == 0
    ensures Step(s, Frames(lane, f)) == s.With(lane, s.Of(lane).(arrived := s.Of(lane).arrived + [f]))
  {
  }

  /** On the bulk lane there is only generation 0. */
  lemma BulkGeneration(s: State, f: Frame)
    requires !s.closed && f.generation != 0
    ensures Step(s, Frames(Bulk, f)).closed
  {
  }

  // ----- frames that are early

  /** Only entries of 64 KiB or more have no room for another byte. */
  predicate Roomy(held: seq<Held>) {
    forall h :: h in held ==> h.room || |h.payload| >= 65536
  }

  ghost predicate TableRoomy(t: Table) {
    forall op: nat :: Roomy(Find(t, op))
  }

  ghost predicate AllRoomy(s: State) {
    s.closed || (TableRoomy(s.media.early) && TableRoomy(s.bulk.early) && Proper(s.media.early) && Proper(s.bulk.early))
  }

  lemma StoredRoomy(held: seq<Held>, f: Frame)
    requires Roomy(held)
    ensures Roomy(Stored(held, f))
  {
    if held != [] {
      var last := held[|held| - 1];
      assert last in held;
      assert forall h :: h in held[..|held| - 1] ==> h in held;
    }
  }

  lemma PutRoomy(t: Table, op: nat, held: seq<Held>)
    requires TableRoomy(t) && Proper(t) && Roomy(held) && held != []
    ensures TableRoomy(Put(t, op, held)) && Proper(Put(t, op, held))
  {
    PutFinds(t, op, held);
  }

  lemma DeleteRoomy(t: Table, op: nat)
    requires TableRoomy(t) && Proper(t)
    ensures TableRoomy(Delete(t, op)) && Proper(Delete(t, op))
  {
    DeleteFinds(t, op);
  }

  lemma RouteRoomy(s: State, lane: Lane, f: Frame)
    requires AllRoomy(s) && !s.closed
    ensures AllRoomy(Route(s, lane, f))
  {
    var d := s.Of(lane);
    StoredRoomy(Find(d.early, f.op), f);
    PutRoomy(d.early, f.op, Stored(Find(d.early, f.op), f));
  }

  lemma {:induction false} ReplayRoomy(s: State, lane: Lane, op: nat, held: seq<Held>)
    requires AllRoomy(s)
    ensures AllRoomy(Replay(s, lane, op, held))
    decreases |held|
  {
    if !s.closed && held != [] {
      var s' := s.(bytes := s.bytes - |held[0].payload|, count := s.count - 1);
      var f := Frame(op, held[0].generation, held[0].payload);
      RouteRoomy(s', lane, f);
      ReplayRoomy(Route(s', lane, f), lane, op, held[1..]);
    }
  }

  lemma HeaderRoomy(s: State, lane: Lane, h: Header)
    requires AllRoomy(s) && !s.closed
    ensures AllRoomy(HearHeader(s, lane, h))
  {
    var d := s.Of(lane);
    DeleteRoomy(d.early, h.op);
    if !(lane.Media? && h.request in s.abandoned) && Accepts(d, h) {
      var b := Begin(Replaced(d, h.op), lane, h);
      assert b.early == d.early;
      ReplayRoomy(s.With(lane, b.(early := Delete(b.early, h.op))), lane, h.op, Find(b.early, h.op));
    }
  }

  lemma StepRoomy(s: State, e: Event)
    requires AllRoomy(s)
    ensures AllRoomy(Step(s, e))
  {
    if !s.closed {
      match e
      case Frames(lane, f) =>
        RouteRoomy(s.With(lane, s.Of(lane).(arrived := s.Of(lane).arrived + [f])), lane, f);
      case Head(lane, h) => HeaderRoomy(s, lane, h);
      case Over(lane) =>
        if s.Of(lane).current.Some? {
          DeleteRoomy(s.Of(lane).early, s.Of(lane).current.value.id);
        }
      case Tail(lane, end) => EndLeavesEarly(s.Of(lane), end);
      case _ =>
    }
  }

  lemma EveryEntryRoomy(es: seq<Event>)
    ensures AllRoomy(Run(Step, START, es))
  {
    forall s: State, e: Event | AllRoomy(s) ensures AllRoomy(Step(s, e)) {
      StepRoomy(s, e);
    }
    Invariant(Step, AllRoomy, START, es);
  }

  lemma {:induction false} HasFinds(t: Table, op: nat)
    requires Proper(t)
    ensures Has(t, op) <==> Find(t, op) != []
  {
    if t != [] && t[0].op != op {
      HasFinds(t[1..], op);
    }
  }

  /** The frame can be copied into the operation's last entry. */
  predicate Joins(held: seq<Held>, f: Frame) {
    && held != []
    && held[|held| - 1].generation == f.generation
    && |held[|held| - 1].payload| + |f.payload| <= 65536
  }

  /** A frame of an operation that is neither current nor retired is buffered behind what is buffered of it
      already, in an entry of its own or the last one. The session is closed exactly if 5308416 bytes, 128
      entries or 128 operations would be exceeded. */
  lemma EarlyFrame(s: State, lane: Lane, f: Frame)
    requires Inv(s) && AllRoomy(s) && !s.closed && f.payload != [] && (lane.Bulk? ==> f.generation == 0)
    requires !IsCurrent(s.Of(lane), f.op) && f.op !in s.Of(lane).retired
    ensures var d, t := s.Of(lane), Step(s, Frames(lane, f));
      var held := Find(d.early, f.op);
      && (t.closed <==>
            || TableBytes(s.media.early) + TableBytes(s.bulk.early) + |f.payload| > 5308416
            || (!Joins(held, f) && TableCount(s.media.early) + TableCount(s.bulk.early) >= 128)
            || (held == [] && |s.media.early| + |s.bulk.early| >= 128))
      && (!t.closed ==>
            && (forall g: nat :: BytesAt(Find(t.Of(lane).early, f.op), g) == BytesAt(held, g) + (if g == f.generation then f.payload else []))
            && |Find(t.Of(lane).early, f.op)| == |held| + (if Joins(held, f) then 0 else 1)
            && (forall x :: x != f.op ==> Find(t.Of(lane).early, x) == Find(d.early, x))
            && t.Of(lane).current == d.current && t.Of(lane).delivered == d.delivered && t.Of(Other(lane)) == s.Of(Other(lane)))
  {
    var d := s.Of(lane);
    var held := Find(d.early, f.op);
    HasFinds(d.early, f.op);
    PutFinds(d.early, f.op, Stored(held, f));
    forall g: nat ensures BytesAt(Stored(held, f), g) == BytesAt(held, g) + Piece(f, g) {
      StoredKeepsBytes(held, f, g);
    }
    StoredKeepsBytes(held, f, 0);
    JoinsCoalesces(held, f);
  }

  lemma JoinsCoalesces(held: seq<Held>, f: Frame)
    requires Roomy(held) && f.payload != []
    ensures Joins(held, f) <==> Coalesces(held, f)
  {
    if held != [] {
      assert held[|held| - 1] in held;
    }
  }

  // ----- headers

  /** The header answers the request on its way: for its asset and generation, if it has them. */
  predicate Answers(p: Pending, h: Header) {
    && h.op != 0 && h.request == p.request
    && (p.asset.None? || p.asset.value == h.asset)
    && (p.generation.None? || p.generation == h.generation)
  }

  lemma UnaskedHeader(s: State, lane: Lane, h: Header)
    requires !s.closed && (lane.Media? ==> h.request !in s.abandoned)
    requires s.Of(lane).pending.Some? ==> !Answers(s.Of(lane).pending.value, h)
    ensures Step(s, Head(lane, h)) == s
  {
  }

  /** A video session takes video headers only, and only a session does. */
  predicate Fitting(d: Side, lane: Lane, h: Header) {
    lane.Bulk? || (h.video <==> (d.current.Some? && d.current.value.kind.Video?))
  }

  /** The consumer's kind and generation: a session keeps its own, a still image has its header's. */
  predicate Installed(c: Operation, before: Option<Operation>, lane: Lane, h: Header) {
    && c.id == h.op && c.request == h.request && c.asset == h.asset && c.declared.None? && c.announced.None?
    && (if lane.Bulk? then c.kind == File && c.generation == 0 && c.album == h.album
        else if h.video then c.kind == Video && before.Some? && c.generation == before.value.generation && !c.album
        else c.kind == Still && !c.album && c.generation == match h.generation case Some(g) => g case None => 0)
  }

  lemma {:induction false} ReplayInstalls(s: State, lane: Lane, op: nat, held: seq<Held>)
    requires !s.closed && IsCurrent(s.Of(lane), op) && s.Of(lane).end.None? && s.Of(lane).current.value.declared.None?
    ensures var d, t := s.Of(lane), Replay(s, lane, op, held);
      && !t.closed && t.Of(lane).current.Some? && t.abandoned == s.abandoned
      && (var c, k := d.current.value, t.Of(lane).current.value; k == c.(chunks := k.chunks, wire := k.wire))
      && t.Of(lane) == d.(current := t.Of(lane).current) && t.Of(Other(lane)) == s.Of(Other(lane))
    decreases |held|
  {
    if held != [] {
      var s' := s.(bytes := s.bytes - |held[0].payload|, count := s.count - 1);
      var f := Frame(op, held[0].generation, held[0].payload);
      InstalledTakes(s', lane, f);
      ReplayInstalls(Route(s', lane, f), lane, op, held[1..]);
    }
  }

  lemma InstalledTakes(s: State, lane: Lane, f: Frame)
    requires !s.closed && IsCurrent(s.Of(lane), f.op) && s.Of(lane).end.None? && s.Of(lane).current.value.declared.None?
    ensures var d, t := s.Of(lane), Route(s, lane, f);
      && !t.closed && t.Of(lane).current.Some? && t.abandoned == s.abandoned
      && (var c, k := d.current.value, t.Of(lane).current.value; k == c.(chunks := k.chunks, wire := k.wire))
      && t.Of(lane) == d.(current := t.Of(lane).current) && t.Of(Other(lane)) == s.Of(Other(lane))
  {
  }

  /** The lane as the new consumer finds it. */
  lemma BeginInstalls(d: Side, lane: Lane, h: Header)
    requires d.pending.Some? && Answers(d.pending.value, h) && Fitting(d, lane, h)
    ensures var b := Begin(Replaced(d, h.op), lane, h);
      && b.pending.None? && b.end.None? && b.delivered == d.delivered && b.early == d.early
      && IsCurrent(b, h.op) && Installed(b.current.value, d.current, lane, h)
      && (d.current.Some? && d.current.value.id != 0 && d.current.value.id != h.op ==> d.current.value.id in b.retired)
  {
  }

  /** An answer of the fitting kind takes over: the request is answered, no end waits, the operation before
      is retired, and what was buffered for the new one is gone from the buffer and with its consumer. */
  lemma AnswerTakesOver(s: State, lane: Lane, h: Header)
    requires Inv(s) && !s.closed && (lane.Media? ==> h.request !in s.abandoned)
    requires s.Of(lane).pending.Some? && Answers(s.Of(lane).pending.value, h) && Fitting(s.Of(lane), lane, h)
    ensures var d, t := s.Of(lane), Step(s, Head(lane, h));
      && !t.closed && t.abandoned == s.abandoned && t.Of(Other(lane)) == s.Of(Other(lane))
      && t.Of(lane).pending.None? && t.Of(lane).end.None? && t.Of(lane).delivered == d.delivered
      && t.Of(lane).current.Some? && Installed(t.Of(lane).current.value, d.current, lane, h)
      && Find(t.Of(lane).early, h.op) == []
      && (d.current.Some? && d.current.value.id != 0 && d.current.value.id != h.op ==> d.current.value.id in t.Of(lane).retired)
  {
    var d := s.Of(lane);
    var b := Begin(Replaced(d, h.op), lane, h);
    BeginInstalls(d, lane, h);
    DeleteFinds(d.early, h.op);
    ReplayInstalls(s.With(lane, b.(early := Delete(b.early, h.op))), lane, h.op, Find(b.early, h.op));
  }

  /** An answer of another kind changes no consumer: a still image during a video session, or a video
      without one. Only the request is answered. */
  lemma UnfittingAnswer(s: State, lane: Lane, h: Header)
    requires !s.closed && (lane.Media? ==> h.request !in s.abandoned)
    requires s.Of(lane).pending.Some? && Answers(s.Of(lane).pending.value, h) && !Fitting(s.Of(lane), lane, h)
    requires !IsCurrent(s.Of(lane), h.op)
    ensures var d, t := s.Of(lane), Step(s, Head(lane, h));
      !t.closed ==> t.Of(lane).current == d.current && t.Of(lane).pending.None? && t.Of(lane).end.None?
                    && t.Of(lane).delivered == d.delivered && t.Of(Other(lane)) == s.Of(Other(lane))
  {
    var d := s.Of(lane);
    var b := Begin(Replaced(d, h.op), lane, h);
    ReplayPasses(s.With(lane, b.(early := Delete(b.early, h.op))), lane, h.op, Find(b.early, h.op));
  }

  lemma {:induction false} ReplayPasses(s: State, lane: Lane, op: nat, held: seq<Held>)
    requires !IsCurrent(s.Of(lane), op)
    ensures var d, t := s.Of(lane), Replay(s, lane, op, held);
      !t.closed ==> t.Of(lane) == d.(early := t.Of(lane).early) && t.Of(Other(lane)) == s.Of(Other(lane))
    decreases |held|
  {
    if !s.closed && held != [] {
      var s' := s.(bytes := s.bytes - |held[0].payload|, count := s.count - 1);
      ReplayPasses(Route(s', lane, Frame(op, held[0].generation, held[0].payload)), lane, op, held[1..]);
    }
  }

  /** And what was buffered, in the consumer's generation, is what the consumer has. */
  lemma AnswerGetsBuffered(s: State, lane: Lane, h: Header)
    requires Inv(s) && !s.closed && (lane.Media? ==> h.request !in s.abandoned)
    requires s.Of(lane).pending.Some? && Answers(s.Of(lane).pending.value, h) && Fitting(s.Of(lane), lane, h)
    requires h.op !in s.Of(lane).gone && !IsCurrent(s.Of(lane), h.op)
    ensures var d, c := s.Of(lane), Step(s, Head(lane, h)).Of(lane).current;
      c.Some? && Concat(c.value.chunks) == BytesAt(Find(d.early, h.op), c.value.generation)
  {
    var d, t := s.Of(lane), Step(s, Head(lane, h));
    AnswerTakesOver(s, lane, h);
    HeaderKeeps(s, lane, h);
    HeaderHistory(s, lane, h);
    var g := t.Of(lane).current.value.generation;
    Collected(t.Of(lane), h.op);
    assert Relevant(d, h.op, g);
    assert Claim(d, h.op, g) + (if h.op == 0 then BytesAt([], g) else []) == Got(d.arrived, h.op, g);
  }

  lemma HeaderHistory(s: State, lane: Lane, h: Header)
    requires !s.closed && (lane.Media? ==> h.request !in s.abandoned)
    requires s.Of(lane).pending.Some? && Answers(s.Of(lane).pending.value, h) && Fitting(s.Of(lane), lane, h)
    requires h.op !in s.Of(lane).gone && !IsCurrent(s.Of(lane), h.op)
    ensures var d, t := s.Of(lane), Step(s, Head(lane, h)).Of(lane);
      t.arrived == d.arrived && h.op !in t.gone
  {
    var d := s.Of(lane);
    var b := Begin(Replaced(d, h.op), lane, h);
    ReplayInstalls(s.With(lane, b.(early := Delete(b.early, h.op))), lane, h.op, Find(b.early, h.op));
  }

  /** The header of an abandoned request is heard once: the request is forgotten with it. */
  lemma AbandonedOnce(s: State, h: Header)
    requires Inv(s) && !s.closed && h.request in s.abandoned
    ensures var t := Step(s, Head(Media, h));
      && !t.closed && t.media.current == s.media.current && t.media.pending == s.media.pending && t.media.end == s.media.end
      && t.bulk == s.bulk && Count(t.abandoned, h.request) == Count(s.abandoned, h.request) - 1
      && forall x :: x != h.request ==> Count(t.abandoned, x) == Count(s.abandoned, x)
  {
    WithoutCounts(s.abandoned, h.request);
  }

  function Count(xs: seq<nat>, x: nat): nat {
    if xs == [] then 0 else (if xs[0] == x then 1 else 0) + Count(xs[1..], x)
  }

  lemma {:induction false} WithoutCounts(xs: seq<nat>, x: nat)
    requires x in xs
    ensures Count(Without(xs, x), x) == Count(xs, x) - 1
    ensures forall y :: y != x ==> Count(Without(xs, x), y) == Count(xs, y)
  {
    if xs[0] != x {
      WithoutCounts(xs[1..], x);
      assert Without(xs, x)[1..] == Without(xs[1..], x);
    }
  }

  // ----- the user's steps

  /** A seek forward: from now on only the new generation counts, and the request that follows can only be
      answered by a header for it. */
  lemma SeekIsAnswered(s: State, generation: nat, request: nat, h: Header)
    requires Inv(s) && !s.closed && s.media.current.Some? && s.media.pending.None?
    requires var c := s.media.current.value; c.kind.Video? && c.id != 0 && generation > c.generation
    requires h.request !in s.abandoned
    ensures var c, t := s.media.current.value, Run(Step, s, [Seek(generation), SeekRequest(request)]);
      && !t.closed && t.media.current == Some(c.(generation := generation)) && c.id in t.media.gone
      && t.media.delivered == s.media.delivered && t.media.early == s.media.early && t.bulk == s.bulk
      && t.media.pending == Some(Pending(request, Some(c.asset), Some(generation)))
      && var u := Step(t, Head(Media, h));
         if h.op != 0 && h.video && h.request == request && h.asset == c.asset && h.generation == Some(generation)
         then u.media.pending.None? && IsCurrent(u.media, h.op) && u.media.current.value.generation == generation
         else !h.video || u == t
  {
    var es := [Seek(generation), SeekRequest(request)];
    assert es[1..] == [SeekRequest(request)] && es[1..][1..] == [];
    var t1 := Step(s, es[0]);
    var t := Step(t1, es[1]);
    assert Run(Step, t1, es[1..]) == Run(Step, t, es[1..][1..]);
    assert Run(Step, s, es) == t;
    StepKeeps(s, es[0]);
    StepKeeps(t1, es[1]);
    if h.video && Answers(t.media.pending.value, h) {
      AnswerTakesOver(t, Media, h);
    }
  }

  /** A seek to no later generation, or without a video, changes nothing. */
  lemma SeekBack(s: State, generation: nat)
    requires s.media.current.Some? && s.media.current.value.kind.Video? ==> generation <= s.media.current.value.generation
    ensures Step(s, Seek(generation)) == s
  {
  }

  /** A request for a range goes out only for a video with an operation and no request on its way. */
  lemma SeekRefused(s: State, request: nat)
    requires s.media.pending.Some? || s.media.current.None? || !s.media.current.value.kind.Video? || s.media.current.value.id == 0
    ensures Step(s, SeekRequest(request)) == s
  {
  }

  /** A new session waits for its own header; beside another consumer none is opened. */
  lemma SessionOpens(s: State, request: nat, asset: nat, generation: nat)
    requires !s.closed
    ensures var t := Step(s, Open(request, asset, generation));
      if s.media.current.Some? then t == s
      else
        && t.media.pending == Some(Pending(request, Some(asset), Some(generation)))
        && t.media.current.Some? && t.media.current.value.kind.Video? && t.media.current.value.generation == generation
        && t.media.current.value.id == 0 && t.media.current.value.asset == asset && t.media.current.value.chunks == []
        && t.media.early == s.media.early && t.media.retired == s.media.retired && t.bulk == s.bulk && !t.closed
  {
  }

  /** Turning away: the consumer and its early frames go, its deferred end with them; a request for a video
      is abandoned, any other stays on its way; the other lane does not notice. */
  lemma TurningAway(s: State, lane: Lane)
    requires Inv(s) && EndsKept(s) && !s.closed && s.Of(lane).current.Some?
    ensures var d, c, t := s.Of(lane), s.Of(lane).current.value, Step(s, Over(lane));
      && !t.closed && t.Of(lane).current.None? && t.Of(Other(lane)) == s.Of(Other(lane))
      && Find(t.Of(lane).early, c.id) == [] && (forall x :: x != c.id ==> Find(t.Of(lane).early, x) == Find(d.early, x))
      && (c.id != 0 && c.id !in d.gone ==> t.Of(lane).end.None?)
      && (d.end.Some? && d.end.value.op != c.id ==> t.Of(lane).end == d.end)
      && t.Of(lane).delivered == d.delivered
      && (if lane.Media? && c.kind.Video? && d.pending.Some?
          then t.Of(lane).pending.None? && (d.pending.value.request != 0 ==> d.pending.value.request in t.abandoned)
          else t.Of(lane).pending == d.pending && t.abandoned == s.abandoned)
  {
    DeleteFinds(s.Of(lane).early, s.Of(lane).current.value.id);
  }

  /** Without a consumer there is nothing to turn away from, and early frames that waited too long close
      the session. */
  lemma NothingToStop(s: State, lane: Lane)
    ensures s.Of(lane).current.None? ==> Step(s, Over(lane)) == s
    ensures Step(s, Expire).closed
  {
  }

  /** Once closed, closed. */
  lemma {:induction false} ClosedForGood(s: State, es: seq<Event>)
    requires s.closed
    ensures Run(Step, s, es) == s
    decreases |es|
  {
    if es != [] {
      ClosedForGood(Step(s, es[0]), es[1..]);
    }
  }
}
