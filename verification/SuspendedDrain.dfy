/**
 The drain of a bulk operation's early frames as it really runs: it suspends after every entry, and
 frames of the operation that come in meanwhile are handled in between.
 */
module SuspendedDrain {
  import opened Basics
  import opened Runs
  import opened EarlyFrames
  import opened Retired
  import opened Reassembly
  import opened ReassemblyOk
  import opened ReassemblyRuns
  import opened Interleavings
  import opened DrainOrder

  // ----- what the buffer can hold for a bulk operation

  /** Entries of generation 0, adjacent ones too large together to have been coalesced. */
  predicate Tidy(held: seq<Held>) {
    && (forall i :: 0 <= i < |held| ==> held[i].generation == 0 && (held[i].room || |held[i].payload| >= COALESCE_BYTES))
    && forall i :: 0 < i < |held| ==> held[i - 1].room ==> |held[i - 1].payload| + |held[i].payload| > COALESCE_BYTES
  }

  predicate TidyTable(t: Table) {
    t == [] || (Tidy(t[0].held) && TidyTable(t[1..]))
  }

  lemma {:induction false} FindTidy(t: Table, op: nat)
    requires TidyTable(t)
    ensures Tidy(Find(t, op))
  {
    if t != [] && t[0].op != op {
      FindTidy(t[1..], op);
    }
  }

  lemma {:induction false} PutTidy(t: Table, op: nat, held: seq<Held>)
    requires TidyTable(t) && Tidy(held)
    ensures TidyTable(Put(t, op, held))
  {
    if t != [] {
      if t[0].op == op {
        assert Put(t, op, held)[1..] == t[1..];
      } else {
        PutTidy(t[1..], op, held);
        assert Put(t, op, held)[1..] == Put(t[1..], op, held);
      }
    } else {
      assert Put(t, op, held)[1..] == [];
    }
  }

  lemma {:induction false} DeleteTidy(t: Table, op: nat)
    requires TidyTable(t)
    ensures TidyTable(Delete(t, op))
  {
    if t != [] && t[0].op != op {
      DeleteTidy(t[1..], op);
      assert Delete(t, op)[1..] == Delete(t[1..], op);
    }
  }

  lemma StoredTidy(held: seq<Held>, f: Frame)
    requires Tidy(held) && f.generation == 0
    ensures Tidy(Stored(held, f))
  {
  }

  lemma RouteTidy(s: State, lane: Lane, f: Frame)
    requires TidyTable(s.bulk.early) && (lane.Bulk? ==> f.generation == 0)
    ensures TidyTable(Route(s, lane, f).bulk.early)
  {
    var d := s.Of(lane);
    if IsCurrent(d, f.op) {
      EarlyUntouched(d, f);
    } else if lane.Bulk? && f.op !in d.retired {
      FindTidy(d.early, f.op);
      StoredTidy(Find(d.early, f.op), f);
      PutTidy(d.early, f.op, Stored(Find(d.early, f.op), f));
    }
  }

  lemma {:induction false} ReplayTidy(s: State, lane: Lane, op: nat, held: seq<Held>)
    requires TidyTable(s.bulk.early) && (lane.Bulk? ==> forall h :: h in held ==> h.generation == 0)
    ensures TidyTable(Replay(s, lane, op, held).bulk.early)
    decreases |held|
  {
    if !s.closed && held != [] {
      assert held[0] in held && forall h :: h in held[1..] ==> h in held;
      var s' := s.(bytes := s.bytes - |held[0].payload|, count := s.count - 1);
      var f := Frame(op, held[0].generation, held[0].payload);
      RouteTidy(s', lane, f);
      ReplayTidy(Route(s', lane, f), lane, op, held[1..]);
    }
  }

  lemma HeaderTidy(s: State, lane: Lane, h: Header)
    requires TidyTable(s.bulk.early)
    ensures TidyTable(HearHeader(s, lane, h).bulk.early)
  {
    var d := s.Of(lane);
    if lane.Bulk? {
      DeleteTidy(d.early, h.op);
      FindTidy(d.early, h.op);
    }
    if !(lane.Media? && h.request in s.abandoned) && Accepts(d, h) {
      var b := Begin(Replaced(d, h.op), lane, h);
      ReplayTidy(s.With(lane, b.(early := Delete(b.early, h.op))), lane, h.op, Find(b.early, h.op));
    }
  }

  lemma StepTidy(s: State, e: Event)
    requires TidyTable(s.bulk.early)
    ensures TidyTable(Step(s, e).bulk.early)
  {
    if !s.closed {
      match e
      case Frames(lane, f) =>
        if lane.Media? || f.generation == 0 {
          RouteTidy(s.With(lane, s.Of(lane).(arrived := s.Of(lane).arrived + [f])), lane, f);
        }
      case Head(lane, h) => HeaderTidy(s, lane, h);
      case Tail(lane, end) => EndLeavesEarly(s.Of(lane), end);
      case Over(lane) =>
        if s.bulk.current.Some? {
          DeleteTidy(s.bulk.early, s.bulk.current.value.id);
        }
      case _ =>
    }
  }

  lemma EveryRunTidy(es: seq<Event>)
    ensures TidyTable(Run(Step, START, es).bulk.early)
  {
    var tidy := (s: State) => TidyTable(s.bulk.early);
    forall s: State, e: Event | tidy(s) ensures tidy(Step(s, e)) {
      StepTidy(s, e);
    }
    Invariant(Step, tidy, START, es);
  }

  // ----- the drain

  function PayloadsOf(held: seq<Held>): seq<Bytes> {
    if held == [] then [] else [held[0].payload] + PayloadsOf(held[1..])
  }

  /** The state in which a drain begins: the header's operation is current, its entries taken out. */
  function Accepted(s: State, h: Header): State {
    var b := Begin(Replaced(s.bulk, h.op), Bulk, h);
    s.With(Bulk, b.(early := Delete(b.early, h.op)))
  }

  function TakeTurn(s: State, op: nat, t: Turn): State {
    match t
    case Replayed(p) => Route(s.(bytes := s.bytes - |p|, count := s.count - 1), Bulk, Frame(op, 0, p))
    case Live(p) => Arrive(s, Bulk, Frame(op, 0, p))
  }

  function Drained(s: State, op: nat, ts: seq<Turn>): State
    decreases |ts|
  {
    if ts == [] then s else Drained(TakeTurn(s, op, ts[0]), op, ts[1..])
  }

  /** After this past the header is accepted, and `ts` replays the entries held for its operation, the
      first of them at once, with other frames of the operation in between. */
  ghost predicate Draining(past: seq<Event>, h: Header, ts: seq<Turn>) {
    Schedule(Run(Step, START, past), h, ts)
  }

  predicate Schedule(s: State, h: Header, ts: seq<Turn>) {
    && !s.closed && Accepts(s.bulk, h) && !IsCurrent(s.bulk, h.op) && h.op !in s.bulk.gone
    && HeldOf(ts) == PayloadsOf(Find(s.bulk.early, h.op))
    && (HeldOf(ts) != [] ==> ts[0].Replayed?)
  }

  /** The session stays open, and the consumer has what arrived, in the order of its arrival. */
  ghost predicate Right(past: seq<Event>, h: Header, ts: seq<Turn>) {
    var t := Drained(Accepted(Run(Step, START, past), h), h.op, ts);
    !t.closed && t.bulk.current.Some? && Concat(t.bulk.current.value.chunks) == Got(t.bulk.arrived, h.op, 0)
  }

  lemma {:induction false} HeldBytes(held: seq<Held>)
    requires OfGeneration(held, 0)
    ensures BytesAt(held, 0) == Concat(PayloadsOf(held))
  {
    if held != [] {
      assert held[0] in held && forall h :: h in held[1..] ==> h in held;
      HeldBytes(held[1..]);
      assert ([held[0].payload] + PayloadsOf(held[1..]))[1..] == PayloadsOf(held[1..]);
    }
  }

  lemma TurnTakes(s: State, op: nat, request: nat, t: Turn)
    requires !s.closed && Taking(s.bulk, op, request, 0)
    ensures var u := TakeTurn(s, op, t);
      && !u.closed && Taking(u.bulk, op, request, 0)
      && Concat(u.bulk.current.value.chunks) == Concat(s.bulk.current.value.chunks) + t.payload
      && u.bulk.arrived == s.bulk.arrived + (if t.Live? then [Frame(op, 0, t.payload)] else [])
  {
    var f := Frame(op, 0, t.payload);
    var s' := if t.Live? then s.(bulk := s.bulk.(arrived := s.bulk.arrived + [f]))
              else s.(bytes := s.bytes - |t.payload|, count := s.count - 1);
    OpenTakes(s', Bulk, f, request);
    ConcatSnoc(s.bulk.current.value.chunks, t.payload);
  }

  lemma {:induction false} DrainedAppends(s: State, op: nat, request: nat, ts: seq<Turn>)
    requires !s.closed && Taking(s.bulk, op, request, 0)
    ensures var t := Drained(s, op, ts);
      && !t.closed && Taking(t.bulk, op, request, 0)
      && Concat(t.bulk.current.value.chunks) == Concat(s.bulk.current.value.chunks) + Appended(ts)
      && Got(t.bulk.arrived, op, 0) == Got(s.bulk.arrived, op, 0) + Concat(LiveOf(ts))
    decreases |ts|
  {
    if ts != [] {
      var u := TakeTurn(s, op, ts[0]);
      TurnTakes(s, op, request, ts[0]);
      DrainedAppends(u, op, request, ts[1..]);
      HeldStep(ts);
      Associative(Concat(s.bulk.current.value.chunks), ts[0].payload, Appended(ts[1..]));
      if ts[0].Live? {
        GotSnoc(s.bulk.arrived, Frame(op, 0, ts[0].payload), op, 0);
        Associative(Got(s.bulk.arrived, op, 0), ts[0].payload, Concat(LiveOf(ts[1..])));
      }
    }
  }

  /** What a drain does in any schedule: the content is in the order of the turns, while what arrived
      is the held entries followed by the frames in between. */
  lemma DrainDelivers(past: seq<Event>, h: Header, ts: seq<Turn>)
    requires Draining(past, h, ts)
    ensures var t := Drained(Accepted(Run(Step, START, past), h), h.op, ts);
      && !t.closed && t.bulk.current.Some?
      && Concat(t.bulk.current.value.chunks) == Appended(ts) && Got(t.bulk.arrived, h.op, 0) == Arrival(ts)
  {
    var s := Run(Step, START, past);
    EveryRun(past);
    EveryRunTidy(past);
    FindTidy(s.bulk.early, h.op);
    ArrivedIsHeld(s.bulk, h.op, ts);
    AcceptedOpens(s, h);
    DrainedAppends(Accepted(s, h), h.op, h.request, ts);
  }

  /** Before its header, what has arrived for an operation is what is held for it. */
  lemma ArrivedIsHeld(d: Side, op: nat, ts: seq<Turn>)
    requires Ledger(d, 0, []) && Tidy(Find(d.early, op)) && !IsCurrent(d, op) && op !in d.gone
    requires HeldOf(ts) == PayloadsOf(Find(d.early, op))
    ensures Got(d.arrived, op, 0) == Concat(HeldOf(ts))
  {
    HeldBytes(Find(d.early, op));
    assert Relevant(d, op, 0);
    assert Claim(d, op, 0) + (if op == 0 then BytesAt([], 0) else []) == Got(d.arrived, op, 0);
  }

  lemma AcceptedOpens(s: State, h: Header)
    requires Accepts(s.bulk, h) && !IsCurrent(s.bulk, h.op) && h.op !in s.bulk.gone
    ensures var t := Accepted(s, h);
      Taking(t.bulk, h.op, h.request, 0) && t.bulk.current.value.chunks == [] && t.bulk.arrived == s.bulk.arrived && t.closed == s.closed
  {
  }

  lemma RightIsAppended(past: seq<Event>, h: Header, ts: seq<Turn>)
    requires Draining(past, h, ts)
    ensures Right(past, h, ts) <==> Appended(ts) == Arrival(ts)
  {
    DrainDelivers(past, h, ts);
  }

  // ----- a past for every list of entries that the buffer can hold

  /** Payloads that the buffer keeps apart when they come as frames of their own. */
  predicate Apart(ps: seq<Bytes>) {
    forall i :: 0 < i < |ps| ==> |ps[i - 1]| >= COALESCE_BYTES || |ps[i - 1]| + |ps[i]| > COALESCE_BYTES
  }

  function Entries(ps: seq<Bytes>): (held: seq<Held>)
    ensures |held| == |ps| && forall i :: 0 <= i < |ps| ==> held[i] == Held(0, ps[i], |ps[i]| < COALESCE_BYTES)
  {
    seq(|ps|, i requires 0 <= i < |ps| => Held(0, ps[i], |ps[i]| < COALESCE_BYTES))
  }

  function EarlyFramesOf(op: nat, ps: seq<Bytes>): seq<Frame> {
    seq(|ps|, i requires 0 <= i < |ps| => Frame(op, 0, ps[i]))
  }

  function TotalOf(ps: seq<Bytes>): nat {
    if ps == [] then 0 else |ps[0]| + TotalOf(ps[1..])
  }

  /** The state of a new session that has asked for a file and got these frames early. */
  function Fed(request: nat, op: nat, ps: seq<Bytes>): State {
    State(EMPTY, EMPTY.(early := TableOf(op, ps), pending := Some(Pending(request, None, None)), arrived := EarlyFramesOf(op, ps)),
          TotalOf(ps), |ps|, [], false)
  }

  lemma {:induction false} TotalSnoc(ps: seq<Bytes>, p: Bytes)
    ensures TotalOf(ps + [p]) == TotalOf(ps) + |p|
  {
    if ps == [] {
      assert [p][1..] == [] && ps + [p] == [p];
    } else {
      TotalSnoc(ps[1..], p);
      assert (ps + [p])[1..] == ps[1..] + [p];
    }
  }

  /** An early frame that does not coalesce and is within the limits. */
  lemma BufferOne(s: State, f: Frame, held: seq<Held>, next: Table)
    requires held == Find(s.bulk.early, f.op)
    requires next == Put(s.bulk.early, f.op, held + [Held(0, f.payload, |f.payload| < COALESCE_BYTES)])
    requires !s.closed && s.bulk.current.None? && f.op !in s.bulk.retired && f.generation == 0
    requires !Coalesces(held, f)
    requires |f.payload| + s.bytes <= MAX_BYTES && s.count < MAX_COUNT && |s.media.early| + |s.bulk.early| < MAX_OPERATIONS
    ensures Step(s, Frames(Bulk, f)) ==
      s.(bulk := s.bulk.(arrived := s.bulk.arrived + [f], early := next), bytes := s.bytes + |f.payload|, count := s.count + 1)
  {
  }

  function TableOf(op: nat, ps: seq<Bytes>): Table {
    if ps == [] then [] else [Slot(op, Entries(ps))]
  }

  lemma EntriesSnoc(op: nat, ps: seq<Bytes>, p: Bytes)
    requires Apart(ps + [p])
    ensures !Coalesces(Find(TableOf(op, ps), op), Frame(op, 0, p))
    ensures Put(TableOf(op, ps), op, Find(TableOf(op, ps), op) + [Held(0, p, |p| < COALESCE_BYTES)]) == TableOf(op, ps + [p])
    ensures EarlyFramesOf(op, ps) + [Frame(op, 0, p)] == EarlyFramesOf(op, ps + [p])
  {
    assert Find(TableOf(op, ps), op) == Entries(ps);
    assert Entries(ps) + [Held(0, p, |p| < COALESCE_BYTES)] == Entries(ps + [p]);
    if ps != [] {
      assert (ps + [p])[|ps| - 1] == ps[|ps| - 1] && (ps + [p])[|ps|] == p;
    }
  }

  /** One more early frame that does not coalesce. */
  lemma FedOneMore(request: nat, op: nat, ps: seq<Bytes>, p: Bytes)
    requires op != 0 && Apart(ps + [p]) && TotalOf(ps + [p]) <= MAX_BYTES && |ps| < MAX_COUNT
    ensures Step(Fed(request, op, ps), Frames(Bulk, Frame(op, 0, p))) == Fed(request, op, ps + [p])
  {
    var s := Fed(request, op, ps);
    assert s.bulk.early == TableOf(op, ps) && |s.bulk.early| <= 1 && s.media == EMPTY;
    assert s.bulk.current.None? && s.bulk.retired == [] && s.bulk.arrived == EarlyFramesOf(op, ps);
    TotalSnoc(ps, p);
    EntriesSnoc(op, ps, p);
    BufferOne(s, Frame(op, 0, p), Find(s.bulk.early, op), TableOf(op, ps + [p]));
  }

  function Feeding(request: nat, op: nat, ps: seq<Bytes>): seq<Event> {
    if ps == [] then [Request(Bulk, request, None)]
    else Feeding(request, op, ps[..|ps| - 1]) + [Frames(Bulk, Frame(op, 0, ps[|ps| - 1]))]
  }

  lemma {:induction false} FeedingFeeds(start: State, request: nat, op: nat, ps: seq<Bytes>)
    requires start == START && op != 0 && Apart(ps) && TotalOf(ps) <= MAX_BYTES && |ps| <= MAX_COUNT
    ensures Run(Step, start, Feeding(request, op, ps)) == Fed(request, op, ps)
    decreases |ps|
  {
    if ps == [] {
      Begun(start, request, op);
    } else {
      var front, p := ps[..|ps| - 1], ps[|ps| - 1];
      assert front + [p] == ps;
      TotalSnoc(front, p);
      FeedingFeeds(start, request, op, front);
      FedOneMore(request, op, front, p);
      RunSnoc(Step, start, Feeding(request, op, front), Frames(Bulk, Frame(op, 0, p)));
    }
  }

  lemma Begun(start: State, request: nat, op: nat)
    requires start == START
    ensures Run(Step, start, Feeding(request, op, [])) == Fed(request, op, [])
  {
    assert EarlyFramesOf(op, []) == [];
    RunCons(Step, start, Request(Bulk, request, None), []);
    assert [Request(Bulk, request, None)] + [] == [Request(Bulk, request, None)];
  }

  // ----- exactly when the order survives

  lemma {:induction false} PayloadsAt(held: seq<Held>)
    ensures |PayloadsOf(held)| == |held| && forall i :: 0 <= i < |held| ==> PayloadsOf(held)[i] == held[i].payload
    ensures TotalOf(PayloadsOf(held)) == BytesOf(held)
  {
    if held != [] {
      PayloadsAt(held[1..]);
      assert PayloadsOf(held)[1..] == PayloadsOf(held[1..]);
    }
  }

  predicate SameLengths(a: seq<Bytes>, b: seq<Bytes>) {
    |a| == |b| && forall i :: 0 <= i < |a| ==> |a[i]| == |b[i]|
  }

  lemma {:induction false} SameTotal(a: seq<Bytes>, b: seq<Bytes>)
    requires SameLengths(a, b)
    ensures TotalOf(a) == TotalOf(b)
  {
    if a != [] {
      assert |a[0]| == |b[0]|;
      SameTotal(a[1..], b[1..]);
    }
  }

  lemma {:induction false} HeldLengths(a: seq<Turn>, b: seq<Turn>)
    requires SameShape(a, b)
    ensures SameLengths(HeldOf(a), HeldOf(b))
  {
    if a != [] {
      assert a[0].Live? == b[0].Live? && |a[0].payload| == |b[0].payload|;
      HeldLengths(a[1..], b[1..]);
    }
  }

  /** What is held for an operation can be held in a new session, within all limits. */
  lemma HeldFits(past: seq<Event>, h: Header, ts: seq<Turn>)
    requires Draining(past, h, ts)
    ensures h.op != 0 && Apart(HeldOf(ts)) && TotalOf(HeldOf(ts)) <= MAX_BYTES && |HeldOf(ts)| <= MAX_COUNT
  {
    var s := Run(Step, START, past);
    EveryRun(past);
    EveryRunTidy(past);
    FindTidy(s.bulk.early, h.op);
    PayloadsAt(Find(s.bulk.early, h.op));
    FoundIsCounted(s.bulk.early, h.op);
  }

  lemma Rebuilt(start: State, h: Header, ts: seq<Turn>)
    requires start == START && h.op != 0
    requires Apart(HeldOf(ts)) && TotalOf(HeldOf(ts)) <= MAX_BYTES && |HeldOf(ts)| <= MAX_COUNT
    requires HeldOf(ts) != [] ==> ts[0].Replayed?
    ensures Draining(Feeding(h.request, h.op, HeldOf(ts)), h, ts)
  {
    var ps := HeldOf(ts);
    FeedingFeeds(start, h.request, h.op, ps);
    FedIsReady(h, ts);
  }

  lemma FedIsReady(h: Header, ts: seq<Turn>)
    requires h.op != 0 && (HeldOf(ts) != [] ==> ts[0].Replayed?)
    ensures Schedule(Fed(h.request, h.op, HeldOf(ts)), h, ts)
  {
    var ps := HeldOf(ts);
    assert Find(TableOf(h.op, ps), h.op) == Entries(ps);
    PayloadsAt(Entries(ps));
    assert PayloadsOf(Entries(ps)) == ps;
  }

  /** A reachable drain and a schedule of it, the same in every respect but the contents. */
  lemma MarkedDrain(past: seq<Event>, h: Header, ts: seq<Turn>) returns (other: seq<Event>)
    requires Draining(past, h, ts)
    ensures Draining(other, h, Marked(ts)) && SameShape(ts, Marked(ts))
  {
    var us := Marked(ts);
    MarkedShape(ts);
    HeldLengths(ts, us);
    SameTotal(HeldOf(ts), HeldOf(us));
    HeldFits(past, h, ts);
    forall i | 0 < i < |HeldOf(us)|
      ensures |HeldOf(us)[i - 1]| >= COALESCE_BYTES || |HeldOf(us)[i - 1]| + |HeldOf(us)[i]| > COALESCE_BYTES
    {
      assert |HeldOf(us)[i - 1]| == |HeldOf(ts)[i - 1]| && |HeldOf(us)[i]| == |HeldOf(ts)[i]|;
    }
    if ts != [] {
      assert us[0].Live? == ts[0].Live?;
    }
    Rebuilt(START, h, us);
    other := Feeding(h.request, h.op, HeldOf(us));
  }

  /** For any drain that can be reached and any schedule of it: the consumer gets the bytes in the order
      of their arrival, whatever the contents, exactly if no frame with any bytes is handled while a
      held entry with any bytes is still to be replayed. */
  lemma OrderSurvivesExactly(past: seq<Event>, h: Header, ts: seq<Turn>)
    requires Draining(past, h, ts)
    ensures (forall other: seq<Event>, us: seq<Turn> ::
               Draining(other, h, us) && SameShape(ts, us) ==> Right(other, h, us)) <==> !Overtakes(ts)
  {
    if Overtakes(ts) {
      var other := MarkedDrain(past, h, ts);
      MarkedDescends(ts);
      MarkedArrival(ts);
      RightIsAppended(other, h, Marked(ts));
    } else {
      forall other: seq<Event>, us: seq<Turn> | Draining(other, h, us) && SameShape(ts, us) ensures Right(other, h, us) {
        ShapeDecides(ts, us);
        InOrder(us);
        RightIsAppended(other, h, us);
      }
    }
  }

  function FullChunk(b: byte): Bytes {
    seq(COALESCE_BYTES, _ => b)
  }

  /** A run from the start: a file is asked for, a full chunk and one more byte come early, then the
      header; one byte that arrives after the first entry is replayed overtakes the second. */
  lemma Reordered()
    ensures var past := Feeding(7, 1, [FullChunk(0), [1]]);
      var h := Header(1, 7, 0, None, false, false);
      var ts := [Replayed(FullChunk(0)), Live([2]), Replayed([1])];
      var t := Drained(Accepted(Run(Step, START, past), h), 1, ts);
      && Draining(past, h, ts) && !t.closed && t.bulk.current.Some?
      && Concat(t.bulk.current.value.chunks) == FullChunk(0) + [2, 1]
      && Got(t.bulk.arrived, 1, 0) == FullChunk(0) + [1, 2]
  {
    var h := Header(1, 7, 0, None, false, false);
    var ts := [Replayed(FullChunk(0)), Live([2]), Replayed([1])];
    ThreeTurns(FullChunk(0), [2], [1]);
    Rebuilt(START, h, ts);
    DrainDelivers(Feeding(7, 1, HeldOf(ts)), h, ts);
  }

  lemma OneOnly(p: Bytes)
    ensures Concat([p]) == p && TotalOf([p]) == |p|
  {
    assert [p][1..] == [];
    assert p + [] == p;
  }

  lemma ThreeTurns(a: Bytes, b: Bytes, c: Bytes)
    ensures var ts := [Replayed(a), Live(b), Replayed(c)];
      HeldOf(ts) == [a, c] && Appended(ts) == a + (b + c) && Arrival(ts) == a + (c + b) && TotalOf([a, c]) == |a| + |c|
  {
    var ts := [Replayed(a), Live(b), Replayed(c)];
    assert ts[1..] == [Live(b), Replayed(c)] && ts[1..][1..] == [Replayed(c)] && ts[1..][1..][1..] == [];
    assert HeldOf([Replayed(c)]) == [c] && LiveOf([Replayed(c)]) == [];
    assert HeldOf(ts[1..]) == [c] && LiveOf(ts[1..]) == [b];
    assert [c][1..] == [] && [b][1..] == [];
    assert [a, c][1..] == [c];
    assert Appended([Replayed(c)]) == c + [] == c;
    OneOnly(b);
    OneOnly(c);
    assert LiveOf(ts) == [] + LiveOf(ts[1..]) == [b];
    assert Concat([a, c]) == a + c;
    Associative(a, c, b);
  }
}
