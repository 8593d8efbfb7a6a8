/** What every step of the reassembly keeps, whatever arrives. */
module ReassemblyOk {
  import opened Basics
  import opened EarlyFrames
  import opened Retired
  import opened Reassembly

  /** The bytes of one operation and generation among the frames that arrived. */
  function Got(arrived: seq<Frame>, op: nat, generation: nat): Bytes {
    if arrived == [] then []
    else (if arrived[0].op == op then Piece(arrived[0], generation) else []) + Got(arrived[1..], op, generation)
  }

  lemma {:induction false} GotSnoc(arrived: seq<Frame>, f: Frame, op: nat, generation: nat)
    ensures Got(arrived + [f], op, generation) ==
            Got(arrived, op, generation) + (if f.op == op then Piece(f, generation) else [])
  {
    var last := if f.op == op then Piece(f, generation) else [];
    if arrived == [] {
      assert arrived + [f] == [f] && [f][1..] == [];
    } else {
      var first := if arrived[0].op == op then Piece(arrived[0], generation) else [];
      var mid := Got(arrived[1..], op, generation);
      GotSnoc(arrived[1..], f, op, generation);
      assert (arrived + [f])[1..] == arrived[1..] + [f];
      assert first + (mid + last) == (first + mid) + last;
    }
  }

  /** Where the bytes of an operation are: with its consumer if it is current, else in the buffer. */
  function Claim(d: Side, op: nat, generation: nat): Bytes {
    if IsCurrent(d, op) then Concat(d.current.value.chunks) else BytesAt(Find(d.early, op), generation)
  }

  /** A consumer takes one generation only. */
  predicate Relevant(d: Side, op: nat, generation: nat) {
    IsCurrent(d, op) ==> generation == d.current.value.generation
  }

  /** Nothing is lost, duplicated or reordered: for every operation that is not over, what arrived is
      what its consumer or the buffer has, followed by what is being replayed. */
  ghost predicate Ledger(d: Side, op: nat, rest: seq<Held>) {
    forall x: nat, g: nat :: x !in d.gone && Relevant(d, x, g) ==>
      Claim(d, x, g) + (if x == op then BytesAt(rest, g) else []) == Got(d.arrived, x, g)
  }

  predicate CurrentOk(d: Side) {
    d.current.Some? ==>
      var c := d.current.value;
      && c.wire == |Concat(c.chunks)|
      && (c.declared.Some? ==> c.wire == c.declared.value && !c.kind.Still?)
      && (if c.id == 0 then c.announced.None? else Find(d.early, c.id) == [])
  }

  /** The end heard for the current operation has been acted on, or is deferred. */
  predicate Awaited(d: Side) {
    d.current.Some? && d.current.value.announced.Some? && d.current.value.id !in d.gone ==>
      var c := d.current.value;
      c.declared == c.announced || (Matches(d.current, EndOf(d)) && EndOf(d).bytes == c.announced.value)
  }

  function EndOf(d: Side): End {
    if d.end.Some? then d.end.value else End(0, 0, None, 0)
  }

  /** A deferred end still has bytes to wait for. */
  predicate Waiting(d: Side) {
    d.end.Some? && Matches(d.current, d.end.value) && d.current.value.id !in d.gone ==>
      d.current.value.wire < d.end.value.bytes
  }

  predicate RetiredOk(d: Side) {
    forall x :: x in d.retired ==> x in d.gone || IsCurrent(d, x)
  }

  predicate DeliveredOk(d: Side) {
    forall i :: 0 <= i < |d.delivered| ==> DeliveryOk(d.arrived, d.delivered[i])
  }

  /** What was delivered has the declared length and is all that had arrived. */
  predicate DeliveryOk(arrived: seq<Frame>, x: Delivery) {
    && |x.content| == x.bytes && x.seen <= |arrived|
    && (x.tracked ==> x.content == Got(arrived[..x.seen], x.op, x.generation))
  }

  /** Every delivery, and an end that is deferred, goes back to an end message. */
  predicate EndsOk(d: Side) {
    && (d.end.Some? ==> d.end.value in d.heard)
    && forall i :: 0 <= i < |d.delivered| ==> HeardFor(d.heard, d.delivered[i])
  }

  predicate HeardFor(heard: seq<End>, x: Delivery) {
    exists e :: e in heard && e.op == x.op && e.bytes == x.bytes
  }

  function Deliveries(delivered: seq<Delivery>, op: nat): nat {
    if delivered == [] then 0 else (if delivered[0].op == op then 1 else 0) + Deliveries(delivered[1..], op)
  }

  function Ends(heard: seq<End>, op: nat): nat {
    if heard == [] then 0 else (if heard[0].op == op then 1 else 0) + Ends(heard[1..], op)
  }

  /** Every end message completes its operation at most once. */
  ghost predicate Once(d: Side) {
    forall op: nat ::
      Deliveries(d.delivered, op) + (if d.end.Some? && d.end.value.op == op then 1 else 0) <= Ends(d.heard, op)
  }

  ghost predicate Base(d: Side) {
    Proper(d.early) && CurrentOk(d) && RetiredOk(d) && DeliveredOk(d) && EndsOk(d) && Once(d)
  }

  ghost predicate SideOk(d: Side) {
    Base(d) && Awaited(d) && Waiting(d) && Ledger(d, 0, [])
  }

  /** The counters are the sizes of what is buffered or being replayed, within the limits. */
  predicate Balanced(s: State, bytes: nat, count: nat) {
    && s.bytes == TableBytes(s.media.early) + TableBytes(s.bulk.early) + bytes <= MAX_BYTES
    && s.count == TableCount(s.media.early) + TableCount(s.bulk.early) + count <= MAX_COUNT
    && |s.media.early| + |s.bulk.early| <= MAX_OPERATIONS
  }

  ghost predicate Inv(s: State) {
    s.closed || (SideOk(s.media) && SideOk(s.bulk) && Balanced(s, 0, 0))
  }

  // ----- completion

  lemma {:induction false} DeliveriesSnoc(delivered: seq<Delivery>, x: Delivery, op: nat)
    ensures Deliveries(delivered + [x], op) == Deliveries(delivered, op) + (if x.op == op then 1 else 0)
  {
    if delivered == [] {
      assert [x][1..] == [] && delivered + [x] == [x];
    } else {
      DeliveriesSnoc(delivered[1..], x, op);
      assert (delivered + [x])[1..] == delivered[1..] + [x];
    }
  }

  lemma {:induction false} EndsSnoc(heard: seq<End>, e: End, op: nat)
    ensures Ends(heard + [e], op) == Ends(heard, op) + (if e.op == op then 1 else 0)
  {
    if heard == [] {
      assert [e][1..] == [] && heard + [e] == [e];
    } else {
      EndsSnoc(heard[1..], e, op);
      assert (heard + [e])[1..] == heard[1..] + [e];
    }
  }

  /** The room that `Once` must have for a completion. */
  ghost predicate RoomFor(d: Side, op: nat) {
    forall x: nat ::
      Deliveries(d.delivered, x) + (if d.end.Some? && d.end.value.op == x then 1 else 0) + (if x == op then 1 else 0)
      <= Ends(d.heard, x)
  }

  lemma CompletedOnce(d: Side, e: End)
    requires d.current.Some? && RoomFor(d, d.current.value.id)
    ensures Once(Completed(d, e))
  {
    forall op: nat
      ensures var t := Completed(d, e);
        Deliveries(t.delivered, op) + (if t.end.Some? && t.end.value.op == op then 1 else 0) <= Ends(t.heard, op)
    {
      var c := d.current.value;
      DeliveriesSnoc(d.delivered, Delivery(c.id, c.generation, Concat(c.chunks), e.bytes, |d.arrived|, c.id !in d.gone), op);
    }
  }

  lemma CompletedKeeps(d: Side, e: End)
    requires Proper(d.early) && CurrentOk(d) && RetiredOk(d) && DeliveredOk(d) && EndsOk(d) && Waiting(d) && Ledger(d, 0, [])
    requires e in d.heard && Matches(d.current, e) && d.current.value.wire == e.bytes && RoomFor(d, e.op)
    ensures SideOk(Completed(d, e))
  {
    var c := d.current.value;
    var t := Completed(d, e);
    CompletedOnce(d, e);
    assert d.arrived[..|d.arrived|] == d.arrived;
    if c.id !in d.gone {
      assert Relevant(d, c.id, c.generation);
      assert Claim(d, c.id, c.generation) + [] == Got(d.arrived, c.id, c.generation);
    }
    forall x: nat, g: nat | x !in t.gone && Relevant(t, x, g)
      ensures Claim(t, x, g) + [] == Got(t.arrived, x, g)
    {
      assert Relevant(d, x, g);
      assert BytesAt([], g) == [];
    }
  }

  lemma CompleteDeferredKeeps(d: Side)
    requires Base(d) && Awaited(d) && Ledger(d, 0, [])
    ensures CompleteDeferred(d).Fine? ==> SideOk(CompleteDeferred(d).side)
  {
    if d.end.Some? && Received(d) == d.end.value.bytes {
      var e := d.end.value;
      var d' := d.(end := None);
      assert Ledger(d', 0, []) by {
        forall x: nat, g: nat | x !in d'.gone && Relevant(d', x, g)
          ensures Claim(d', x, g) + (if x == 0 then BytesAt([], g) else []) == Got(d'.arrived, x, g)
        {
          assert Relevant(d, x, g);
        }
      }
      if Matches(d.current, e) {
        CompletedKeeps(d', e);
      } else {
        forall op: nat ensures Deliveries(d'.delivered, op) <= Ends(d'.heard, op) {
          assert Deliveries(d.delivered, op) + (if e.op == op then 1 else 0) <= Ends(d.heard, op);
        }
      }
    }
  }

  lemma HeardMore(d: Side, e: End)
    requires EndsOk(d)
    ensures EndsOk(d.(heard := d.heard + [e]))
  {
    forall i | 0 <= i < |d.delivered| ensures HeardFor(d.heard + [e], d.delivered[i]) {
      var x := d.delivered[i];
      assert HeardFor(d.heard, x);
      var y :| y in d.heard && y.op == x.op && y.bytes == x.bytes;
      assert y in d.heard + [e];
    }
  }

  lemma HearEndKeeps(d: Side, e: End)
    requires SideOk(d)
    ensures HearEnd(d, e).Fine? ==> SideOk(HearEnd(d, e).side)
  {
    var h := d.(heard := d.heard + [e]);
    forall op: nat ensures Ends(h.heard, op) == Ends(d.heard, op) + (if e.op == op then 1 else 0) {
      EndsSnoc(d.heard, e, op);
    }
    SameLedger(d, h);
    HeardMore(d, e);
    if Matches(d.current, e) && !TooLarge(d, e.bytes) {
      if d.current.value.wire < e.bytes {
        SameLedger(d, HearEnd(d, e).side);
      } else if d.current.value.wire == e.bytes {
        CompletedKeeps(h, e);
      }
    }
  }

  /** The ledger is about the buffer, the consumer's data and what is over. */
  lemma SameLedger(d: Side, t: Side)
    requires Ledger(d, 0, []) && t.early == d.early && t.arrived == d.arrived && d.gone <= t.gone
    requires t.current.Some? <==> d.current.Some?
    requires d.current.Some? ==>
      && t.current.value.id == d.current.value.id && t.current.value.chunks == d.current.value.chunks
      && (t.current.value.generation == d.current.value.generation || d.current.value.id in t.gone)
    ensures Ledger(t, 0, [])
  {
    forall x: nat, g: nat | x !in t.gone && Relevant(t, x, g)
      ensures Claim(t, x, g) + (if x == 0 then BytesAt([], g) else []) == Got(t.arrived, x, g)
    {
      assert Relevant(d, x, g);
    }
  }

  // ----- one frame

  lemma TakeLedger(d: Side, f: Frame, h: Held, rest: seq<Held>)
    requires IsCurrent(d, f.op) && h.generation == f.generation && h.payload == f.payload
    requires Ledger(d, f.op, [h] + rest)
    requires Take(d, f).Fine?
    ensures Ledger(Take(d, f).side, f.op, rest)
  {
    var chunks := d.current.value.chunks;
    var t := Take(d, f).side;
    ConcatSnoc(chunks, f.payload);
    forall x: nat, g: nat | x !in t.gone && Relevant(t, x, g)
      ensures Claim(t, x, g) + (if x == f.op then BytesAt(rest, g) else []) == Got(t.arrived, x, g)
    {
      assert Relevant(d, x, g);
      if x == f.op {
        Reassociate(Concat(chunks), h, rest, g);
        assert Concat(chunks) + [] == Concat(chunks);
      }
    }
  }

  lemma Reassociate(before: Bytes, h: Held, rest: seq<Held>, g: nat)
    ensures before + BytesAt([h] + rest, g) == (before + At(h, g)) + BytesAt(rest, g)
  {
    assert ([h] + rest)[1..] == rest;
    Associative(before, At(h, g), BytesAt(rest, g));
  }

  lemma TakeKeeps(d: Side, f: Frame)
    requires Base(d) && IsCurrent(d, f.op) && Take(d, f).Fine?
    ensures var t := Take(d, f).side;
      Base(t) && (Awaited(d) ==> Awaited(t))
      && t.early == d.early && t.end == d.end && (f.generation != d.current.value.generation ==> t == d)
  {
    ConcatSnoc(d.current.value.chunks, f.payload);
    OnceWithout(d, Take(d, f).side);
  }

  lemma StoreLedger(d: Side, f: Frame, h: Held, rest: seq<Held>)
    requires Proper(d.early) && !IsCurrent(d, f.op) && h.generation == f.generation && h.payload == f.payload
    requires Ledger(d, f.op, [h] + rest)
    ensures Ledger(d.(early := Put(d.early, f.op, Stored(Find(d.early, f.op), f))), f.op, rest)
  {
    var held := Find(d.early, f.op);
    var t := d.(early := Put(d.early, f.op, Stored(held, f)));
    PutFinds(d.early, f.op, Stored(held, f));
    forall x: nat, g: nat | x !in t.gone && Relevant(t, x, g)
      ensures Claim(t, x, g) + (if x == f.op then BytesAt(rest, g) else []) == Got(t.arrived, x, g)
    {
      assert Relevant(d, x, g);
      if x == f.op {
        StoredKeepsBytes(held, f, g);
        Reassociate(BytesAt(held, g), h, rest, g);
        assert At(h, g) == Piece(f, g);
      }
    }
  }

  lemma StoreKeeps(d: Side, f: Frame)
    requires Base(d) && !IsCurrent(d, f.op)
    ensures Base(d.(early := Put(d.early, f.op, Stored(Find(d.early, f.op), f))))
  {
    var t := d.(early := Put(d.early, f.op, Stored(Find(d.early, f.op), f)));
    PutFinds(d.early, f.op, Stored(Find(d.early, f.op), f));
    OnceWithout(d, t);
  }

  lemma GoneLedger(d: Side, op: nat, h: Held, rest: seq<Held>)
    requires Ledger(d, op, [h] + rest) && op in d.gone
    ensures Ledger(d, op, rest)
  {
    forall x: nat, g: nat | x !in d.gone && Relevant(d, x, g)
      ensures Claim(d, x, g) + (if x == op then BytesAt(rest, g) else []) == Got(d.arrived, x, g)
    {
    }
  }

  lemma NoRest(d: Side, op: nat)
    requires Ledger(d, op, [])
    ensures Ledger(d, 0, [])
  {
    forall x: nat, g: nat | x !in d.gone && Relevant(d, x, g)
      ensures Claim(d, x, g) + (if x == 0 then BytesAt([], g) else []) == Got(d.arrived, x, g)
    {
    }
  }

  /** In the middle of a replay no end is deferred. */
  ghost predicate Midway(d: Side, rest: seq<Held>) {
    Base(d) && Awaited(d) && Waiting(d) && (rest != [] ==> d.end.None?)
  }

  lemma ConsumeKeeps(d: Side, f: Frame, h: Held, rest: seq<Held>)
    requires Midway(d, rest) && IsCurrent(d, f.op) && h.generation == f.generation && h.payload == f.payload
    requires Ledger(d, f.op, [h] + rest)
    ensures Consume(d, f).Fine? ==>
      var t := Consume(d, f).side;
      Midway(t, rest) && Ledger(t, f.op, rest) && t.early == d.early && (d.end.None? ==> t.end.None?)
  {
    if Take(d, f).Fine? {
      TakeKeeps(d, f);
      TakeLedger(d, f, h, rest);
      var t := Take(d, f).side;
      if rest == [] && f.generation == d.current.value.generation {
        NoRest(t, f.op);
        CompleteDeferredKeeps(t);
        if CompleteDeferred(t).Fine? {
          StillLedger(CompleteDeferred(t).side, f.op);
        }
      }
    }
  }

  lemma StillLedger(d: Side, op: nat)
    requires Ledger(d, 0, [])
    ensures Ledger(d, op, [])
  {
    forall x: nat, g: nat | x !in d.gone && Relevant(d, x, g)
      ensures Claim(d, x, g) + (if x == op then BytesAt([], g) else []) == Got(d.arrived, x, g)
    {
      assert Claim(d, x, g) + (if x == 0 then BytesAt([], g) else []) == Got(d.arrived, x, g);
    }
  }

  /** What a frame does to the other lane and to the counters. */
  lemma RouteBalances(s: State, lane: Lane, f: Frame, bytes: nat, count: nat)
    requires Balanced(s, bytes, count) && Proper(s.Of(lane).early) && !s.closed
    ensures var t := Route(s, lane, f);
      !t.closed ==>
        Balanced(t, bytes, count) && t.Of(Other(lane)) == s.Of(Other(lane))
  {
    var d := s.Of(lane);
    if IsCurrent(d, f.op) {
      EarlyUntouched(d, f);
    } else if f.op !in d.retired {
      var held := Find(d.early, f.op);
      PutFinds(d.early, f.op, Stored(held, f));
      StoredKeepsBytes(held, f, f.generation);
    }
  }

  lemma EarlyUntouched(d: Side, f: Frame)
    requires d.current.Some?
    ensures Consume(d, f).Fine? ==> Consume(d, f).side.early == d.early
  {
  }

  lemma RouteKeeps(s: State, lane: Lane, f: Frame, h: Held, rest: seq<Held>)
    requires !s.closed && Midway(s.Of(lane), rest) && h.generation == f.generation && h.payload == f.payload
    requires Ledger(s.Of(lane), f.op, [h] + rest)
    ensures var t := Route(s, lane, f);
      !t.closed ==> Midway(t.Of(lane), rest) && Ledger(t.Of(lane), f.op, rest)
  {
    var d := s.Of(lane);
    if IsCurrent(d, f.op) {
      ConsumeKeeps(d, f, h, rest);
    } else if f.op in d.retired {
      GoneLedger(d, f.op, h, rest);
    } else {
      StoreKeeps(d, f);
      StoreLedger(d, f, h, rest);
    }
  }

  lemma ArrivedLedger(d: Side, t: Side, f: Frame, h: Held)
    requires Ledger(d, 0, []) && h.generation == f.generation && h.payload == f.payload
    requires t == d.(arrived := d.arrived + [f])
    ensures Ledger(t, f.op, [h] + [])
  {
    forall x: nat, g: nat | x !in t.gone && Relevant(t, x, g)
      ensures Claim(t, x, g) + (if x == f.op then BytesAt([h] + [], g) else []) == Got(t.arrived, x, g)
    {
      assert Relevant(d, x, g);
      assert Claim(d, x, g) + (if x == 0 then BytesAt([], g) else []) == Got(d.arrived, x, g);
      GotSnoc(d.arrived, f, x, g);
      assert [h] + [] == [h];
      BytesAtOne(h, g);
      assert At(h, g) == Piece(f, g);
    }
  }

  /** A frame that has arrived and is still to be routed. */
  lemma ArrivedSide(d: Side, f: Frame, h: Held)
    requires SideOk(d) && h.generation == f.generation && h.payload == f.payload
    ensures var t := d.(arrived := d.arrived + [f]); Midway(t, []) && Ledger(t, f.op, [h] + [])
  {
    var t := d.(arrived := d.arrived + [f]);
    ArrivedLedger(d, t, f, h);
    forall i | 0 <= i < |d.delivered| ensures DeliveryOk(t.arrived, d.delivered[i]) {
      assert DeliveryOk(d.arrived, d.delivered[i]);
      assert t.arrived[..d.delivered[i].seen] == d.arrived[..d.delivered[i].seen];
    }
    OnceWithout(d, t);
  }

  lemma ArriveKeeps(s: State, lane: Lane, f: Frame)
    requires Inv(s) && !s.closed
    ensures Inv(Arrive(s, lane, f))
  {
    var d := s.Of(lane);
    var h := Held(f.generation, f.payload, true);
    var s' := s.With(lane, d.(arrived := d.arrived + [f]));
    ArrivedSide(d, f, h);
    RouteBalances(s', lane, f, 0, 0);
    RouteKeeps(s', lane, f, h, []);
    if !Route(s', lane, f).closed {
      NoRest(Route(s', lane, f).Of(lane), f.op);
    }
  }

  function Other(lane: Lane): Lane {
    if lane.Media? then Bulk else Media
  }

  ghost predicate Replaying(s: State, lane: Lane, op: nat, held: seq<Held>) {
    && Midway(s.Of(lane), held) && s.Of(lane).end.None? && Ledger(s.Of(lane), op, held)
    && Balanced(s, BytesOf(held), |held|)
  }

  lemma ReplayOne(s: State, lane: Lane, op: nat, h: Held, rest: seq<Held>)
    requires !s.closed && Midway(s.Of(lane), rest) && s.Of(lane).end.None? && Ledger(s.Of(lane), op, [h] + rest)
    requires Balanced(s, BytesOf(rest), |rest|)
    ensures var t := Route(s, lane, Frame(op, h.generation, h.payload));
      !t.closed ==> Replaying(t, lane, op, rest) && t.Of(Other(lane)) == s.Of(Other(lane))
  {
    var f := Frame(op, h.generation, h.payload);
    RouteBalances(s, lane, f, BytesOf(rest), |rest|);
    RouteKeeps(s, lane, f, h, rest);
    RouteNoEnd(s, lane, f);
  }

  lemma ReplayNext(s: State, lane: Lane, op: nat, held: seq<Held>)
    requires !s.closed && held != [] && Replaying(s, lane, op, held)
    ensures var t := Route(s.(bytes := s.bytes - |held[0].payload|, count := s.count - 1), lane,
                           Frame(op, held[0].generation, held[0].payload));
      !t.closed ==> Replaying(t, lane, op, held[1..]) && t.Of(Other(lane)) == s.Of(Other(lane))
  {
    assert held == [held[0]] + held[1..];
    ReplayOne(s.(bytes := s.bytes - |held[0].payload|, count := s.count - 1), lane, op, held[0], held[1..]);
  }

  lemma ReplayDone(s: State, lane: Lane, op: nat)
    requires Replaying(s, lane, op, [])
    ensures SideOk(s.Of(lane)) && Balanced(s, 0, 0)
  {
    NoRest(s.Of(lane), op);
  }

  lemma {:induction false} ReplayKeeps(s: State, lane: Lane, op: nat, held: seq<Held>)
    requires !s.closed && Replaying(s, lane, op, held)
    ensures var t := Replay(s, lane, op, held);
      !t.closed ==> SideOk(t.Of(lane)) && Balanced(t, 0, 0) && t.Of(Other(lane)) == s.Of(Other(lane))
    decreases |held|
  {
    if held == [] {
      ReplayDone(s, lane, op);
    } else {
      ReplayNext(s, lane, op, held);
      var s' := s.(bytes := s.bytes - |held[0].payload|, count := s.count - 1);
      var t := Route(s', lane, Frame(op, held[0].generation, held[0].payload));
      if !t.closed {
        ReplayKeeps(t, lane, op, held[1..]);
      }
    }
  }

  lemma RouteNoEnd(s: State, lane: Lane, f: Frame)
    requires s.Of(lane).end.None?
    ensures Route(s, lane, f).Of(lane).end.None?
  {
  }

  // ----- headers, and the end of operations

  lemma DeletedLedger(d: Side, t: Side, op: nat)
    requires Ledger(d, 0, []) && Proper(d.early)
    requires t.early == Delete(d.early, op) && t.arrived == d.arrived && d.gone + {op} <= t.gone
    requires t.current == d.current || (t.current.None? && (IsCurrent(d, d.current.value.id) ==> d.current.value.id in t.gone))
    requires d.current.None? ==> t.current.None?
    ensures Ledger(t, 0, [])
  {
    DeleteFinds(d.early, op);
    forall x: nat, g: nat | x !in t.gone && Relevant(t, x, g)
      ensures Claim(t, x, g) + (if x == 0 then BytesAt([], g) else []) == Got(t.arrived, x, g)
    {
      assert Relevant(d, x, g);
    }
  }

  lemma DiscardBalances(s: State, lane: Lane, op: nat)
    requires Balanced(s, 0, 0) && Proper(s.Of(lane).early)
    ensures Balanced(DiscardEarly(s, lane, op), 0, 0)
  {
    DeleteFinds(s.Of(lane).early, op);
  }

  lemma AbandonedKeeps(s: State, lane: Lane, op: nat)
    requires Inv(s) && !s.closed
    ensures Inv(DiscardEarly(s.With(lane, GiveUp(s.Of(lane), op)), lane, op))
  {
    var d := s.Of(lane);
    var s' := s.With(lane, GiveUp(d, op));
    DeleteFinds(d.early, op);
    DiscardBalances(s', lane, op);
    AbandonedSide(d, DiscardEarly(s', lane, op).Of(lane), op);
  }

  lemma AbandonedSide(d: Side, t: Side, op: nat)
    requires SideOk(d)
    requires t == d.(early := Delete(d.early, op), retired := Retire(d.retired, op), gone := d.gone + {op})
    ensures SideOk(t)
  {
    DeleteFinds(d.early, op);
    DeletedLedger(d, t, op);
    OnceWithout(d, t);
  }

  lemma DropKeeps(s: State, lane: Lane)
    requires Inv(s) && !s.closed
    ensures Inv(Stop(s, lane))
  {
    var d := s.Of(lane);
    if d.current.Some? {
      var c := d.current.value;
      var h := Halt(s, lane, c);
      DeleteFinds(d.early, c.id);
      DiscardBalances(h, lane, c.id);
      DroppedSide(d, Stop(s, lane).Of(lane), c.id);
    }
  }

  lemma DroppedSide(d: Side, t: Side, op: nat)
    requires SideOk(d) && d.current.Some? && d.current.value.id == op
    requires t.early == Delete(d.early, op) && t.current.None? && t.retired == Retire(d.retired, op) && t.gone == d.gone + {op}
    requires t.arrived == d.arrived && t.heard == d.heard && t.delivered == d.delivered
    requires t.end == if d.end.Some? && d.end.value.op == op then None else d.end
    ensures SideOk(t)
  {
    DeleteFinds(d.early, op);
    DeletedLedger(d, t, op);
    OnceWithout(d, t);
  }

  lemma OnceWithout(d: Side, t: Side)
    requires Once(d) && t.delivered == d.delivered && t.heard == d.heard && (t.end == d.end || t.end.None?)
    ensures Once(t)
  {
    forall op: nat
      ensures Deliveries(t.delivered, op) + (if t.end.Some? && t.end.value.op == op then 1 else 0) <= Ends(t.heard, op)
    {
      assert Deliveries(d.delivered, op) + (if d.end.Some? && d.end.value.op == op then 1 else 0) <= Ends(d.heard, op);
    }
  }

  /** An accepted header turns the buffered frames of its operation into frames to be replayed. */
  lemma BegunLedger(d: Side, t: Side, op: nat)
    requires Ledger(d, 0, []) && Proper(d.early) && t.early == Delete(d.early, op)
    requires t.arrived == d.arrived && d.gone <= t.gone
    requires d.current.Some? && d.current.value.id != 0 ==> d.current.value.id in t.gone
    requires t.current.Some? && t.current.value.id !in {0} + t.gone ==> t.current.value.id == op && t.current.value.chunks == []
    ensures Ledger(t, op, Find(d.early, op))
  {
    var held := Find(d.early, op);
    DeleteFinds(d.early, op);
    forall x: nat, g: nat | x !in t.gone && Relevant(t, x, g)
      ensures Claim(t, x, g) + (if x == op then BytesAt(held, g) else []) == Got(t.arrived, x, g)
    {
      assert !IsCurrent(d, x);
      assert Claim(d, x, g) + (if x == 0 then BytesAt([], g) else []) == Got(d.arrived, x, g);
      if x == op {
        assert [] + BytesAt(held, g) == BytesAt(held, g);
      }
    }
  }

  lemma BeginLedger(d: Side, lane: Lane, h: Header)
    requires SideOk(d) && h.op != 0
    ensures var t := Begin(Replaced(d, h.op), lane, h);
      Ledger(t.(early := Delete(t.early, h.op)), h.op, Find(d.early, h.op))
  {
    var t := Begin(Replaced(d, h.op), lane, h);
    BegunLedger(d, t.(early := Delete(t.early, h.op)), h.op);
  }

  lemma BeginConsumer(d: Side, lane: Lane, h: Header)
    requires SideOk(d) && h.op != 0
    ensures var t := Begin(Replaced(d, h.op), lane, h);
      && t.end.None? && t.early == d.early && t.arrived == d.arrived && t.heard == d.heard && t.delivered == d.delivered
      && CurrentOk(t.(early := Delete(t.early, h.op))) && RetiredOk(t) && Awaited(t)
  {
    DeleteFinds(d.early, h.op);
  }

  lemma BeginMidway(d: Side, lane: Lane, h: Header)
    requires SideOk(d) && h.op != 0
    ensures var t := Begin(Replaced(d, h.op), lane, h);
      Midway(t.(early := Delete(t.early, h.op)), Find(d.early, h.op)) && t.end.None? && t.early == d.early
  {
    var t := Begin(Replaced(d, h.op), lane, h);
    DeleteFinds(d.early, h.op);
    BeginConsumer(d, lane, h);
    OnceWithout(d, t);
  }

  lemma HeaderKeeps(s: State, lane: Lane, h: Header)
    requires Inv(s) && !s.closed
    ensures Inv(HearHeader(s, lane, h))
  {
    var d := s.Of(lane);
    if lane.Media? && h.request in s.abandoned {
      AbandonedKeeps(s.(abandoned := Without(s.abandoned, h.request)), lane, h.op);
    } else if Accepts(d, h) {
      BeginLedger(d, lane, h);
      BeginMidway(d, lane, h);
      DeleteFinds(d.early, h.op);
      var b := Begin(Replaced(d, h.op), lane, h);
      var s' := s.With(lane, b.(early := Delete(d.early, h.op)));
      ReplayKeeps(s', lane, h.op, Find(d.early, h.op));
      assert HearHeader(s, lane, h) == Replay(s', lane, h.op, Find(d.early, h.op));
    }
  }

  lemma SameSide(d: Side, t: Side)
    requires SideOk(d) && t == d.(pending := t.pending)
    ensures SideOk(t)
  {
    SameLedger(d, t);
    OnceWithout(d, t);
  }

  lemma MoveOnKeeps(s: State, generation: nat)
    requires Inv(s) && !s.closed
    ensures Inv(MoveOn(s, generation))
  {
    var t := MoveOn(s, generation);
    if t != s {
      SameLedger(s.media, t.media);
      OnceWithout(s.media, t.media);
    }
  }

  lemma OpenKeeps(s: State, request: nat, asset: nat, generation: nat)
    requires Inv(s) && !s.closed
    ensures Inv(OpenVideo(s, request, asset, generation))
  {
    if s.media.current.None? {
      var t := OpenVideo(s, request, asset, generation).media;
      OnceWithout(s.media, t);
      forall x: nat, g: nat | x !in t.gone && Relevant(t, x, g)
        ensures Claim(t, x, g) + (if x == 0 then BytesAt([], g) else []) == Got(t.arrived, x, g)
      {
        assert Relevant(s.media, x, g);
      }
    }
  }

  lemma StepKeeps(s: State, e: Event)
    requires Inv(s)
    ensures Inv(Step(s, e))
  {
    if !s.closed {
      match e
      case Frames(lane, f) => ArriveKeeps(s, lane, f);
      case Head(lane, h) => HeaderKeeps(s, lane, h);
      case Tail(lane, end) => TailKeeps(s, lane, end);
      case Request(lane, request, asset) => SameSide(s.Of(lane), Step(s, e).Of(lane));
      case Open(request, asset, generation) => OpenKeeps(s, request, asset, generation);
      case Seek(generation) => MoveOnKeeps(s, generation);
      case SeekRequest(request) => SameSide(s.media, Step(s, e).media);
      case Over(lane) => DropKeeps(s, lane);
      case Expire =>
    }
  }

  lemma TailKeeps(s: State, lane: Lane, e: End)
    requires Inv(s) && !s.closed
    ensures Inv(Settle(s, lane, HearEnd(s.Of(lane), e)))
  {
    HearEndKeeps(s.Of(lane), e);
    EndLeavesEarly(s.Of(lane), e);
  }

  lemma EndLeavesEarly(d: Side, e: End)
    ensures HearEnd(d, e).Fine? ==> HearEnd(d, e).side.early == d.early
  {
  }
}
