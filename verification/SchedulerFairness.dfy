/**
 How the link is shared over whole runs: 3:1 between media and bulk, 3:1 between interactive media
 and thumbnails, priority of control without starvation, and a bound on how long bulk waits.
 */
module SchedulerFairness {
  import opened Basics
  import opened Traffic
  import opened SchedulerModel
  import opened SchedulerRuns
  import Runs
  import D = Drr

  // ----- what a step serves

  function Picked(s: State, e: Event): (c: Option<Class>)
    ensures c.Some? ==> s.queues.At(c.value) != []
  {
    if e.PickNext? && s.terminal.None? && s.active.None? then NextClass(s) else None
  }

  predicate Media(c: Class) { c == Interactive || c == Thumbnail }

  /** Bytes of the request a step picks, if its class is in `cs`. */
  function PickedBytes(s: State, e: Event, cs: set<Class>): nat {
    var c := Picked(s, e);
    if c.Some? && c.value in cs then |s.queues.At(c.value)[0].payload| else 0
  }

  function BytesOf(cs: set<Class>): (World, Event) -> int {
    (w: World, e: Event) => PickedBytes(w.s, e, cs)
  }

  /** Bytes of the classes `cs` served in a run. */
  function Served(w: World, es: seq<Event>, cs: set<Class>): int {
    Runs.Sum(Step, BytesOf(cs), w, es)
  }

  const MEDIA := {Interactive, Thumbnail}

  function FirstRound(d: D.Drr): nat { if d.started then 0 else 1 }

  /** Rounds the outer level adds in a step. */
  function OuterRounds(s: State, e: Event): nat {
    var c := Picked(s, e);
    if c.Some? && c != Some(Control) && HasData(s.queues)
    then FirstRound(s.outer) + D.Rounds(Outer(s), OuterHeads(s.queues, s.inner)) else 0
  }

  /** Rounds the inner level adds in a step; a candidate the outer level rejects adds none. */
  function InnerRounds(s: State, e: Event): nat {
    var c := Picked(s, e);
    if c.Some? && Media(c.value) && HasMedia(s.queues)
    then FirstRound(s.inner) + D.Rounds(D.Begin(s.inner, InnerHeads(s.queues)), InnerHeads(s.queues)) else 0
  }

  function AllOuterRounds(w: World, es: seq<Event>): int {
    Runs.Sum(Step, (v: World, e: Event) => OuterRounds(v.s, e), w, es)
  }

  function AllInnerRounds(w: World, es: seq<Event>): int {
    Runs.Sum(Step, (v: World, e: Event) => InnerRounds(v.s, e), w, es)
  }

  // ----- what other steps leave alone

  lemma {:induction false} AdmitWaitersFrame(s: State, c: Class)
    ensures var s' := AdmitWaiters(s, c);
      s'.outer == s.outer && s'.inner == s.inner && s'.burst == s.burst && s'.terminal == s.terminal
    decreases |s.waiters.At(c)|
  {
    if s.waiters.At(c) != [] && s.bytes.At(c) + |s.waiters.At(c)[0].payload| <= Cap(c) {
      AdmitWaitersFrame(MoveWaiter(s, c), c);
    }
  }

  lemma AdmitWaitersDemand(s: State, c: Class)
    ensures forall k: Class :: Demand(AdmitWaiters(s, c), k) == Demand(s, k)
  {
    AdmitWaitersPending(s, c);
    forall k: Class ensures Demand(AdmitWaiters(s, c), k) == Demand(s, k) {
      assert Pending(AdmitWaiters(s, c), k) == Pending(s, k);
    }
  }

  /** A side's standing in a round robin: its deficit, and the cursor and start that both sides share. */
  predicate SameFirst(d: D.Drr, d': D.Drr) {
    d'.deficit0 == d.deficit0 && d'.current == d.current && d'.started == d.started
  }

  predicate SameSecond(d: D.Drr, d': D.Drr) {
    d'.deficit1 == d.deficit1 && d'.current == d.current && d'.started == d.started
  }

  /** What removing a request may do to the deficits: a side that still has demand keeps its standing,
      whatever class the request was of. */
  ghost predicate Reset(s: State, s': State) {
    && s'.burst == s.burst
    && (MediaDemand(s') ==> SameFirst(s.outer, s'.outer))
    && (Demand(s', Bulk) ==> SameSecond(s.outer, s'.outer) && s'.outer.deficit0 in {0, s.outer.deficit0})
    && (Demand(s', Interactive) ==> SameFirst(s.inner, s'.inner))
    && (Demand(s', Thumbnail) ==> SameSecond(s.inner, s'.inner))
  }

  lemma ResetResets(s: State, c: Class)
    ensures Reset(s, ResetEmptyLane(s, c))
  {}

  /** Admitting waiters afterwards makes no difference to that. */
  lemma ResetThenAdmit(s: State, s': State, c: Class)
    requires Reset(s, s')
    ensures Reset(s, AdmitWaiters(s', c))
  {
    AdmitWaitersFrame(s', c);
    AdmitWaitersDemand(s', c);
    assert forall k: Class :: Demand(AdmitWaiters(s', c), k) == Demand(s', k);
  }

  lemma CancelWaitingResets(s: State, r: Request)
    ensures Reset(s, CancelWaiting(s, r))
  {
    var c := r.cls;
    if r in s.waiters.At(c) {
      var s1 := s.(waiters := s.waiters.With(c, Remove(s.waiters.At(c), r)));
      var s2 := if s1.queues.At(c) == [] then ResetEmptyLane(s1, c) else s1;
      ResetResets(s1, c);
      assert Reset(s, s2);
      ResetThenAdmit(s, s2, c);
    }
  }

  lemma ShortenResets(s: State, c: Class, q: seq<Request>)
    ensures Reset(s, Shorten(s, c, q))
  {
    ResetResets(s.(queues := s.queues.With(c, q)), c);
  }

  lemma CancelQueuedResets(s: State, r: Request)
    ensures Reset(s, CancelQueued(s, r))
  {
    var c := r.cls;
    if r in s.queues.At(c) {
      var s1 := Shorten(s, c, Remove(s.queues.At(c), r));
      ShortenResets(s, c, Remove(s.queues.At(c), r));
      assert forall k: Class :: Demand(Withdraw(s, r), k) == Demand(s1, k);
      assert Reset(s, Withdraw(s, r));
      ResetThenAdmit(s, Withdraw(s, r), c);
    }
  }

  lemma OtherResets(w: World, e: Event)
    requires Picked(w.s, e).None? && Step(w, e).s.terminal.None?
    ensures Reset(w.s, Step(w, e).s)
  {
    match e
    case CancelWaiter(r) => CancelWaitingResets(w.s, r);
    case CancelQueue(r) => CancelQueuedResets(w.s, r);
    case WriteDone(result) =>
      if w.s.active.Some? && result.None? && w.s.terminal.None? {
        AdmitWaitersFrame(Released(w.s), w.s.active.value.cls);
      }
    case _ =>
  }

  /** The state before its head is taken, charged as the closed form says. */
  function ChargedFor(s: State, c: Class): State
    requires HasData(s.queues) || c == Control
  {
    if c == Control then s else Charged(s)
  }

  /** A pick charges the deficits as the two-level closed form says, then resets. */
  lemma PickResets(s: State)
    requires s.terminal.None? && s.active.None? && NextClass(s).Some?
    ensures var c := NextClass(s).value;
      Reset(ChargedFor(s, c), Pick(s).(burst := s.burst)) && Pick(s).burst == (if c == Control then s.burst + 1 else 0)
  {
    var c := NextClass(s).value;
    if c == Control {
      var s1 := s.(burst := s.burst + 1);
      ShortenResets(s1, c, s1.queues.At(c)[1..]);
      SameDemands(Pick(s), s.burst);
    } else {
      var s1 := Charged(s);
      ShortenResets(s1, c, s1.queues.At(c)[1..]);
      SameDemands(Pick(s), s.burst);
    }
  }

  /** All that sharing depends on in a step. */
  ghost predicate Summary(s: State, e: Event, s': State) {
    if Picked(s, e).None? then s'.terminal.None? ==> Reset(s, s') else s' == Pick(s)
  }

  lemma StepSummary(w: World, e: Event)
    ensures Summary(w.s, e, Step(w, e).s)
  {
    if Picked(w.s, e).None? && Step(w, e).s.terminal.None? {
      OtherResets(w, e);
    }
  }

  // ----- one side of the outer round robin

  /** Media has demand, counting senders that wait for room; whatever bulk has. */
  predicate MediaStands(s: State) {
    s.terminal.None? && MediaDemand(s)
  }

  predicate BulkStands(s: State) {
    s.terminal.None? && Demand(s, Bulk)
  }

  function OnState(stands: State -> bool): World -> bool {
    (v: World) => stands(v.s)
  }

  predicate Throughout(stands: State -> bool, w: World, es: seq<Event>) {
    Runs.Always(Step, OnState(stands), w, es)
  }

  /** A side that has a queue gains by the round, and pays for its request if it is served. The cursor
      is then on the side served. */
  lemma OuterCharge(s: State)
    requires HasData(s.queues) && D.Clean(s.outer, OuterHeads(s.queues, s.inner))
    ensures var c := DataClass(s); var n := |s.queues.At(c)[0].payload|;
      var k := FirstRound(s.outer) + D.Rounds(Outer(s), OuterHeads(s.queues, s.inner));
      && (HasMedia(s.queues) ==>
            Charged(s).outer.deficit0 + (if Media(c) then n else 0) == s.outer.deficit0 + 196608 * k)
      && (s.queues.At(Bulk) != [] ==>
            Charged(s).outer.deficit1 + (if c == Bulk then n else 0) == s.outer.deficit1 + 65536 * k)
      && Charged(s).outer.started && Charged(s).outer.current == (if c == Bulk then 1 else 0)
  {}

  /** At a scheduling decision, a class with demand has a queue. */
  lemma DemandIsQueue(s: State)
    requires Inv(s) && s.active.None? && s.terminal.None?
    ensures MediaDemand(s) == HasMedia(s.queues)
    ensures forall c: Class :: Demand(s, c) == (s.queues.At(c) != [])
    ensures D.Clean(s.outer, OuterHeads(s.queues, s.inner)) && D.Clean(s.inner, InnerHeads(s.queues))
  {
    PickReady(s);
    assert Demand(s, Interactive) == (s.queues.At(Interactive) != []);
    assert Demand(s, Thumbnail) == (s.queues.At(Thumbnail) != []);
  }

  lemma SameDemands(s: State, burst: nat)
    ensures MediaDemand(s.(burst := burst)) == MediaDemand(s)
    ensures forall c: Class :: Demand(s.(burst := burst), c) == Demand(s, c)
  {}

  /** Which side of the outer level a step serves, if it serves data. */
  function ServedSide(s: State, e: Event): Option<nat> {
    var c := Picked(s, e);
    if c.None? || c.value == Control then None else Some(if c.value == Bulk then 1 else 0)
  }

  /** The cursor and the start after a step. */
  predicate CursorFollows(s: State, e: Event, s': State) {
    match ServedSide(s, e)
    case None => s'.outer.current == s.outer.current && s'.outer.started == s.outer.started
    case Some(side) => s'.outer.current == side && s'.outer.started
  }

  lemma OuterPick(s: State, c: Class)
    requires s.terminal.None? && s.active.None? && NextClass(s) == Some(c) && D.Clean(s.outer, OuterHeads(s.queues, s.inner))
    ensures var k := OuterRounds(s, PickNext); var d := ChargedFor(s, c).outer;
      && (HasMedia(s.queues) ==> PickedBytes(s, PickNext, MEDIA) + d.deficit0 == s.outer.deficit0 + 196608 * k)
      && (s.queues.At(Bulk) != [] ==> PickedBytes(s, PickNext, {Bulk}) + d.deficit1 == s.outer.deficit1 + 65536 * k)
      && CursorFollows(s, PickNext, ChargedFor(s, c))
  {
    assert Picked(s, PickNext) == Some(c);
    if c != Control {
      OuterCharge(s);
      assert c == DataClass(s);
    }
  }

  lemma MediaStep(s: State, e: Event, s': State)
    requires Inv(s) && MediaStands(s) && MediaStands(s') && Summary(s, e, s')
    ensures PickedBytes(s, e, MEDIA) + s'.outer.deficit0 == s.outer.deficit0 + 196608 * OuterRounds(s, e)
    ensures CursorFollows(s, e, s')
  {
    if Picked(s, e).Some? {
      DemandIsQueue(s);
      PickResets(s);
      SameDemands(Pick(s), s.burst);
      OuterPick(s, NextClass(s).value);
    }
  }

  lemma BulkStep(s: State, e: Event, s': State)
    requires Inv(s) && BulkStands(s) && BulkStands(s') && Summary(s, e, s')
    ensures PickedBytes(s, e, {Bulk}) + s'.outer.deficit1 == s.outer.deficit1 + 65536 * OuterRounds(s, e)
    ensures CursorFollows(s, e, s')
  {
    if Picked(s, e).Some? {
      DemandIsQueue(s);
      assert Demand(s, Bulk) == (s.queues.At(Bulk) != []);
      PickResets(s);
      SameDemands(Pick(s), s.burst);
      OuterPick(s, NextClass(s).value);
    }
  }

  /** Over any stretch in which media never runs out of demand, and whether or not bulk does, the media
      bytes served plus the media deficit left grow by exactly 192 KiB in every round. */
  lemma MediaConservation(w: World, es: seq<Event>)
    requires Inv(w.s) && Throughout(MediaStands, w, es)
    ensures Served(w, es, MEDIA) + Run(w, es).s.outer.deficit0 == w.s.outer.deficit0 + 196608 * AllOuterRounds(w, es)
  {
    var inv := (v: World) => Inv(v.s);
    var ok := OnState(MediaStands);
    var rounds := (v: World, e: Event) => OuterRounds(v.s, e);
    var level := (v: World) => v.s.outer.deficit0 as int;
    forall v: World, e: Event | inv(v) ensures inv(Step(v, e)) {
      StepKeeps(v, e);
    }
    forall v: World, e: Event | inv(v) && ok(v) && ok(Step(v, e))
      ensures BytesOf(MEDIA)(v, e) + level(Step(v, e)) == level(v) + 196608 * rounds(v, e)
    {
      StepSummary(v, e);
      MediaStep(v.s, e, Step(v, e).s);
    }
    Runs.Balance(Step, inv, ok, level, 196608, rounds, BytesOf(MEDIA), w, es);
  }

  /** The same for bulk, whatever media has: 64 KiB in every round. */
  lemma BulkConservation(w: World, es: seq<Event>)
    requires Inv(w.s) && Throughout(BulkStands, w, es)
    ensures Served(w, es, {Bulk}) + Run(w, es).s.outer.deficit1 == w.s.outer.deficit1 + 65536 * AllOuterRounds(w, es)
  {
    var inv := (v: World) => Inv(v.s);
    var ok := OnState(BulkStands);
    var rounds := (v: World, e: Event) => OuterRounds(v.s, e);
    var level := (v: World) => v.s.outer.deficit1 as int;
    forall v: World, e: Event | inv(v) ensures inv(Step(v, e)) {
      StepKeeps(v, e);
    }
    forall v: World, e: Event | inv(v) && ok(v) && ok(Step(v, e))
      ensures BytesOf({Bulk})(v, e) + level(Step(v, e)) == level(v) + 65536 * rounds(v, e)
    {
      StepSummary(v, e);
      BulkStep(v.s, e, Step(v, e).s);
    }
    Runs.Balance(Step, inv, ok, level, 65536, rounds, BytesOf({Bulk}), w, es);
  }

  /** The side served last in a run, if any data was. */
  function LastSide(w: World, es: seq<Event>): Option<nat>
    decreases |es|
  {
    if es == [] then None
    else
      var later := LastSide(Step(w, es[0]), es[1..]);
      if later.Some? then later else ServedSide(w.s, es[0])
  }

  /** While either side has demand throughout, the outer cursor stands where data was served last, and
      the first round is not given anew. */
  lemma {:induction false} CursorSurvives(w: World, es: seq<Event>)
    requires Inv(w.s) && (Throughout(MediaStands, w, es) || Throughout(BulkStands, w, es))
    ensures var s' := Run(w, es).s;
      match LastSide(w, es)
      case None => s'.outer.current == w.s.outer.current && s'.outer.started == w.s.outer.started
      case Some(side) => s'.outer.current == side && s'.outer.started
    decreases |es|
  {
    if es != [] {
      var v := Step(w, es[0]);
      StepKeeps(w, es[0]);
      StepSummary(w, es[0]);
      if Throughout(MediaStands, w, es) {
        Runs.AlwaysLast(Step, OnState(MediaStands), v, es[1..]);
        MediaStep(w.s, es[0], v.s);
      } else {
        Runs.AlwaysLast(Step, OnState(BulkStands), v, es[1..]);
        BulkStep(w.s, es[0], v.s);
      }
      CursorSurvives(v, es[1..]);
    }
  }

  // ----- 3:1 between media and bulk

  /** Media and bulk both have demand, counting senders that wait for room. */
  predicate Contended(s: State) {
    MediaStands(s) && BulkStands(s)
  }

  lemma {:induction false} ThroughoutBoth(a: State -> bool, b: State -> bool, c: State -> bool, w: World, es: seq<Event>)
    requires forall s: State :: a(s) ==> b(s) && c(s)
    requires Throughout(a, w, es)
    ensures Throughout(b, w, es) && Throughout(c, w, es)
    decreases |es|
  {
    if es != [] {
      ThroughoutBoth(a, b, c, Step(w, es[0]), es[1..]);
    }
  }

  /** Over any stretch in which neither side runs out of demand, what a side was served plus the
      deficit it is left with grows by exactly its quantum in every round. */
  lemma OuterConservation(w: World, es: seq<Event>)
    requires Inv(w.s) && Throughout(Contended, w, es)
    ensures var s' := Run(w, es).s; var k := AllOuterRounds(w, es);
      && Served(w, es, MEDIA) + s'.outer.deficit0 == w.s.outer.deficit0 + 196608 * k
      && Served(w, es, {Bulk}) + s'.outer.deficit1 == w.s.outer.deficit1 + 65536 * k
  {
    ThroughoutBoth(Contended, MediaStands, BulkStands, w, es);
    MediaConservation(w, es);
    BulkConservation(w, es);
  }

  /** Deficits at the two ends of a run. */
  lemma RunBounds(w: World, es: seq<Event>)
    requires Inv(w.s)
    ensures WithinBounds(w.s) && WithinBounds(Run(w, es).s)
  {
    RunKeeps(w, es);
    assert Within(w.s) && Within(Run(w, es).s);
  }

  predicate WithinBounds(s: State) {
    && s.outer.deficit0 < Cap(Thumbnail) + 196608 && s.outer.deficit1 < Cap(Bulk) + 65536
    && s.inner.deficit0 < Cap(Interactive) + 196608 && s.inner.deficit1 < Cap(Thumbnail) + 65536
  }

  /** So media bytes stay within a constant of three times the bulk bytes, however long the run. */
  lemma OuterFairness(w: World, es: seq<Event>)
    requires Inv(w.s) && Throughout(Contended, w, es)
    ensures var lead := Served(w, es, MEDIA) - 3 * Served(w, es, {Bulk});
      -3276800 < lead < 3276800
  {
    OuterConservation(w, es);
    RunBounds(w, es);
  }

  // ----- one side of the inner round robin, and 3:1 between interactive media and thumbnails

  predicate InteractiveStands(s: State) {
    s.terminal.None? && Demand(s, Interactive)
  }

  predicate ThumbnailStands(s: State) {
    s.terminal.None? && Demand(s, Thumbnail)
  }

  predicate InnerContended(s: State) {
    InteractiveStands(s) && ThumbnailStands(s)
  }

  lemma InnerCharge(s: State)
    requires HasMedia(s.queues) && D.Clean(s.inner, InnerHeads(s.queues))
    ensures var c := MediaClass(s.queues, s.inner); var n := |s.queues.At(c)[0].payload|; var h := InnerHeads(s.queues);
      var k := FirstRound(s.inner) + D.Rounds(D.Begin(s.inner, h), h); var d := MediaServed(s.queues, s.inner);
      && (s.queues.At(Interactive) != [] ==> d.deficit0 + (if c == Interactive then n else 0) == s.inner.deficit0 + 196608 * k)
      && (s.queues.At(Thumbnail) != [] ==> d.deficit1 + (if c == Thumbnail then n else 0) == s.inner.deficit1 + 65536 * k)
      && d.started && d.current == (if c == Interactive then 0 else 1)
  {}

  /** Which side of the inner level a step serves, if it serves media. */
  function ServedInner(s: State, e: Event): Option<nat> {
    var c := Picked(s, e);
    if c.Some? && Media(c.value) then Some(if c.value == Interactive then 0 else 1) else None
  }

  predicate InnerCursorFollows(s: State, e: Event, s': State) {
    match ServedInner(s, e)
    case None => s'.inner.current == s.inner.current && s'.inner.started == s.inner.started
    case Some(side) => s'.inner.current == side && s'.inner.started
  }

  lemma InnerPick(s: State, c: Class)
    requires s.terminal.None? && s.active.None? && NextClass(s) == Some(c) && D.Clean(s.inner, InnerHeads(s.queues))
    ensures var k := InnerRounds(s, PickNext); var d := ChargedFor(s, c).inner;
      && (s.queues.At(Interactive) != [] ==> PickedBytes(s, PickNext, {Interactive}) + d.deficit0 == s.inner.deficit0 + 196608 * k)
      && (s.queues.At(Thumbnail) != [] ==> PickedBytes(s, PickNext, {Thumbnail}) + d.deficit1 == s.inner.deficit1 + 65536 * k)
      && InnerCursorFollows(s, PickNext, ChargedFor(s, c))
  {
    assert Picked(s, PickNext) == Some(c);
    if Media(c) {
      InnerCharge(s);
      assert c == MediaClass(s.queues, s.inner);
    }
  }

  lemma InteractiveStep(s: State, e: Event, s': State)
    requires Inv(s) && InteractiveStands(s) && InteractiveStands(s') && Summary(s, e, s')
    ensures PickedBytes(s, e, {Interactive}) + s'.inner.deficit0 == s.inner.deficit0 + 196608 * InnerRounds(s, e)
    ensures InnerCursorFollows(s, e, s')
  {
    if Picked(s, e).Some? {
      DemandIsQueue(s);
      assert Demand(s, Interactive) == (s.queues.At(Interactive) != []);
      PickResets(s);
      SameDemands(Pick(s), s.burst);
      InnerPick(s, NextClass(s).value);
    }
  }

  lemma ThumbnailStep(s: State, e: Event, s': State)
    requires Inv(s) && ThumbnailStands(s) && ThumbnailStands(s') && Summary(s, e, s')
    ensures PickedBytes(s, e, {Thumbnail}) + s'.inner.deficit1 == s.inner.deficit1 + 65536 * InnerRounds(s, e)
    ensures InnerCursorFollows(s, e, s')
  {
    if Picked(s, e).Some? {
      DemandIsQueue(s);
      assert Demand(s, Thumbnail) == (s.queues.At(Thumbnail) != []);
      PickResets(s);
      SameDemands(Pick(s), s.burst);
      InnerPick(s, NextClass(s).value);
    }
  }

  /** Interactive media alone: 192 KiB in every inner round, whatever thumbnails, bulk and the outer
      level do meanwhile. A candidate that the outer level rejects adds no round and leaves no trace. */
  lemma InteractiveConservation(w: World, es: seq<Event>)
    requires Inv(w.s) && Throughout(InteractiveStands, w, es)
    ensures Served(w, es, {Interactive}) + Run(w, es).s.inner.deficit0 == w.s.inner.deficit0 + 196608 * AllInnerRounds(w, es)
  {
    var inv := (v: World) => Inv(v.s);
    var ok := OnState(InteractiveStands);
    var rounds := (v: World, e: Event) => InnerRounds(v.s, e);
    var level := (v: World) => v.s.inner.deficit0 as int;
    forall v: World, e: Event | inv(v) ensures inv(Step(v, e)) {
      StepKeeps(v, e);
    }
    forall v: World, e: Event | inv(v) && ok(v) && ok(Step(v, e))
      ensures BytesOf({Interactive})(v, e) + level(Step(v, e)) == level(v) + 196608 * rounds(v, e)
    {
      StepSummary(v, e);
      InteractiveStep(v.s, e, Step(v, e).s);
    }
    Runs.Balance(Step, inv, ok, level, 196608, rounds, BytesOf({Interactive}), w, es);
  }

  /** Thumbnails alone: 64 KiB in every inner round. */
  lemma ThumbnailConservation(w: World, es: seq<Event>)
    requires Inv(w.s) && Throughout(ThumbnailStands, w, es)
    ensures Served(w, es, {Thumbnail}) + Run(w, es).s.inner.deficit1 == w.s.inner.deficit1 + 65536 * AllInnerRounds(w, es)
  {
    var inv := (v: World) => Inv(v.s);
    var ok := OnState(ThumbnailStands);
    var rounds := (v: World, e: Event) => InnerRounds(v.s, e);
    var level := (v: World) => v.s.inner.deficit1 as int;
    forall v: World, e: Event | inv(v) ensures inv(Step(v, e)) {
      StepKeeps(v, e);
    }
    forall v: World, e: Event | inv(v) && ok(v) && ok(Step(v, e))
      ensures BytesOf({Thumbnail})(v, e) + level(Step(v, e)) == level(v) + 65536 * rounds(v, e)
    {
      StepSummary(v, e);
      ThumbnailStep(v.s, e, Step(v, e).s);
    }
    Runs.Balance(Step, inv, ok, level, 65536, rounds, BytesOf({Thumbnail}), w, es);
  }

  function LastInner(w: World, es: seq<Event>): Option<nat>
    decreases |es|
  {
    if es == [] then None
    else
      var later := LastInner(Step(w, es[0]), es[1..]);
      if later.Some? then later else ServedInner(w.s, es[0])
  }

  /** While either kind of media has demand throughout, the inner cursor stands where media was served
      last, and the first round is not given anew. */
  lemma {:induction false} InnerCursorSurvives(w: World, es: seq<Event>)
    requires Inv(w.s) && (Throughout(InteractiveStands, w, es) || Throughout(ThumbnailStands, w, es))
    ensures var s' := Run(w, es).s;
      match LastInner(w, es)
      case None => s'.inner.current == w.s.inner.current && s'.inner.started == w.s.inner.started
      case Some(side) => s'.inner.current == side && s'.inner.started
    decreases |es|
  {
    if es != [] {
      var v := Step(w, es[0]);
      StepKeeps(w, es[0]);
      StepSummary(w, es[0]);
      if Throughout(InteractiveStands, w, es) {
        Runs.AlwaysLast(Step, OnState(InteractiveStands), v, es[1..]);
        InteractiveStep(w.s, es[0], v.s);
      } else {
        Runs.AlwaysLast(Step, OnState(ThumbnailStands), v, es[1..]);
        ThumbnailStep(w.s, es[0], v.s);
      }
      InnerCursorSurvives(v, es[1..]);
    }
  }

  /** Both kinds of media at once, whatever the outer level and bulk do meanwhile. */
  lemma InnerConservation(w: World, es: seq<Event>)
    requires Inv(w.s) && Throughout(InnerContended, w, es)
    ensures var s' := Run(w, es).s; var k := AllInnerRounds(w, es);
      && Served(w, es, {Interactive}) + s'.inner.deficit0 == w.s.inner.deficit0 + 196608 * k
      && Served(w, es, {Thumbnail}) + s'.inner.deficit1 == w.s.inner.deficit1 + 65536 * k
  {
    ThroughoutBoth(InnerContended, InteractiveStands, ThumbnailStands, w, es);
    InteractiveConservation(w, es);
    ThumbnailConservation(w, es);
  }

  lemma InnerFairness(w: World, es: seq<Event>)
    requires Inv(w.s) && Throughout(InnerContended, w, es)
    ensures var lead := Served(w, es, {Interactive}) - 3 * Served(w, es, {Thumbnail});
      -7208960 < lead < 7208960
  {
    InnerConservation(w, es);
    RunBounds(w, es);
  }
}
