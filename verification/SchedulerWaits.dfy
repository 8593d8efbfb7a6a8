/**
 Nobody waits for ever: how long a bulk request stays at the head of its queue, how control bursts
 and data alternate, and that a pick finds a request whenever there is one.
 */
module SchedulerWaits {
  import opened Basics
  import opened Traffic
  import opened SchedulerModel
  import opened SchedulerRuns
  import opened SchedulerFairness
  import Runs
  import D = Drr

  // ----- a pick finds a request whenever one is queued

  lemma NextIsTotal(s: State)
    ensures NextClass(s).Some? <==> exists c: Class :: s.queues.At(c) != []
  {
    if NextClass(s).None? {
      assert !HasData(s.queues) && s.queues.At(Control) == [];
      forall c: Class ensures s.queues.At(c) == [] {
        match c {
          case Control =>
          case Interactive =>
          case Thumbnail =>
          case Bulk =>
        }
      }
    }
  }

  // ----- bulk

  /** Bulk request `r` is at the head of its queue. */
  predicate HeadOfBulk(s: State, r: Request) {
    s.terminal.None? && s.queues.At(Bulk) != [] && s.queues.At(Bulk)[0] == r
  }

  /** `r` is at the head of the bulk queue at every moment of the run and never picked. */
  predicate Waits(w: World, es: seq<Event>, r: Request) {
    && Runs.Always(Step, (v: World) => HeadOfBulk(v.s, r), w, es)
    && Runs.EachStep(Step, (v: World, e: Event) => Picked(v.s, e) != Some(Bulk), w, es)
  }

  /** Media bytes that can still be served before a bulk head of `size` bytes. */
  function Patience(d: D.Drr, size: nat): nat {
    d.deficit0 + D.QUANTUM_0 * D.RoundsTo1(d, size)
  }

  lemma PatienceCharge(s: State, size: nat)
    requires HasMedia(s.queues) && Head(s.queues.At(Bulk)) == Some(size) && 0 < size && DataClass(s) != Bulk
    requires D.Clean(s.outer, OuterHeads(s.queues, s.inner))
    ensures |s.queues.At(DataClass(s))[0].payload| + Patience(Charged(s).outer, size) == Patience(s.outer, size)
  {
    var h := OuterHeads(s.queues, s.inner);
    D.WaitShrinks(Outer(s), h);
    if !s.outer.started {
      D.OneRoundLess(size, 0, D.QUANTUM_1);
    }
  }

  /** Picks made in a step, and how far the burst of control picks has come. */
  function Picks(s: State, e: Event): nat {
    if Picked(s, e).Some? then 1 else 0
  }

  function Headroom(s: State): nat {
    if s.burst >= CONTROL_BURST_LIMIT then 0 else CONTROL_BURST_LIMIT - s.burst
  }

  /** Picks that can still be made before a bulk head of `size` bytes. */
  function PicksLeft(s: State, size: nat): nat {
    (CONTROL_BURST_LIMIT + 1) * Patience(s.outer, size) + Headroom(s)
  }

  lemma PatiencePick(s: State, c: Class, r: Request)
    requires s.terminal.None? && s.active.None? && NextClass(s) == Some(c) && c != Bulk
    requires HeadOfBulk(s, r) && Sendable(r) && D.Clean(s.outer, OuterHeads(s.queues, s.inner))
    ensures PickedBytes(s, PickNext, MEDIA) + Patience(ChargedFor(s, c).outer, |r.payload|) <= Patience(s.outer, |r.payload|)
    ensures c != Control ==> 0 < |s.queues.At(c)[0].payload| ==> 1 <= PickedBytes(s, PickNext, MEDIA)
  {
    assert Picked(s, PickNext) == Some(c);
    if c != Control {
      assert c == DataClass(s) && Media(c);
      PatienceCharge(s, |r.payload|);
    }
  }

  lemma ResetPatience(s: State, s': State, size: nat)
    requires Reset(s, s') && Demand(s', Bulk)
    ensures Patience(s'.outer, size) <= Patience(s.outer, size)
  {}

  lemma PatienceStep(s: State, e: Event, s': State, r: Request)
    requires Inv(s) && HeadOfBulk(s, r) && HeadOfBulk(s', r) && Picked(s, e) != Some(Bulk) && Summary(s, e, s')
    ensures PickedBytes(s, e, MEDIA) + Patience(s'.outer, |r.payload|) <= Patience(s.outer, |r.payload|)
    ensures Picks(s, e) + PicksLeft(s', |r.payload|) <= PicksLeft(s, |r.payload|)
  {
    if Picked(s, e).None? {
      ResetPatience(s, s', |r.payload|);
    } else {
      PickPatience(s, NextClass(s).value, r);
    }
  }

  lemma PickPatience(s: State, c: Class, r: Request)
    requires Inv(s) && s.active.None? && NextClass(s) == Some(c) && c != Bulk
    requires HeadOfBulk(s, r) && HeadOfBulk(Pick(s), r)
    ensures PickedBytes(s, PickNext, MEDIA) + Patience(Pick(s).outer, |r.payload|) <= Patience(s.outer, |r.payload|)
    ensures 1 + PicksLeft(Pick(s), |r.payload|) <= PicksLeft(s, |r.payload|)
  {
    DemandIsQueue(s);
    assert PlacedAt(s.queues.At(Bulk), Bulk) && PlacedAt(s.queues.At(c), c);
    PatiencePick(s, c, r);
    PickResets(s);
    SameDemands(Pick(s), s.burst);
    ResetPatience(ChargedFor(s, c), Pick(s).(burst := s.burst), |r.payload|);
    PicksArithmetic(s.burst, Pick(s).burst, c == Control, PickedBytes(s, PickNext, MEDIA),
                    Patience(s.outer, |r.payload|), Patience(Pick(s).outer, |r.payload|));
  }

  lemma PicksArithmetic(burst: nat, burst': nat, control: bool, bytes: nat, patience: nat, patience': nat)
    requires bytes + patience' <= patience
    requires burst' == if control then burst + 1 else 0
    requires if control then burst < CONTROL_BURST_LIMIT else 1 <= bytes
    ensures 1 + 9 * patience' + (if burst' >= 8 then 0 else 8 - burst')
            <= 9 * patience + (if burst >= 8 then 0 else 8 - burst)
  {}

  lemma HeadFits(w: World, es: seq<Event>, r: Request)
    requires Inv(w.s) && Waits(w, es, r)
    ensures Patience(w.s.outer, |r.payload|) <= w.s.outer.deficit0 + 4 * D.QUANTUM_0
  {
    assert HeadOfBulk(w.s, r) && PlacedAt(w.s.queues.At(Bulk), Bulk);
    assert Sendable(r) && r.cls == Bulk;
  }

  /** Bounded wait: while a bulk request is at the head of its queue, whatever arrives or is
      cancelled meanwhile, no more media bytes are served than the outer media deficit and four
      rounds. */
  lemma BulkWaitBytes(w: World, es: seq<Event>, r: Request)
    requires Inv(w.s) && Waits(w, es, r)
    ensures Served(w, es, MEDIA) <= w.s.outer.deficit0 + 786432
  {
    var inv := (v: World) => Inv(v.s);
    var ok := (v: World) => HeadOfBulk(v.s, r);
    var allowed := (v: World, e: Event) => Picked(v.s, e) != Some(Bulk);
    var potential := (v: World) => Patience(v.s.outer, |r.payload|) as int;
    forall v: World, e: Event | inv(v) ensures inv(Step(v, e)) {
      StepKeeps(v, e);
    }
    forall v: World, e: Event | inv(v) && ok(v) && ok(Step(v, e)) && allowed(v, e)
      ensures BytesOf(MEDIA)(v, e) + potential(Step(v, e)) <= potential(v)
    {
      StepSummary(v, e);
      PatienceStep(v.s, e, Step(v, e).s, r);
    }
    Runs.Potential(Step, inv, ok, allowed, potential, BytesOf(MEDIA), w, es);
    HeadFits(w, es, r);
  }

  /** And no more than so many picks of any class are made: bulk is never starved, not even by
      control traffic that never stops. */
  lemma BulkWaitPicks(w: World, es: seq<Event>, r: Request)
    requires Inv(w.s) && Waits(w, es, r)
    ensures Runs.Sum(Step, (v: World, e: Event) => Picks(v.s, e), w, es)
            <= 9 * (w.s.outer.deficit0 + 786432) + 8
  {
    var inv := (v: World) => Inv(v.s);
    var ok := (v: World) => HeadOfBulk(v.s, r);
    var allowed := (v: World, e: Event) => Picked(v.s, e) != Some(Bulk);
    var potential := (v: World) => PicksLeft(v.s, |r.payload|) as int;
    var cost := (v: World, e: Event) => Picks(v.s, e) as int;
    forall v: World, e: Event | inv(v) ensures inv(Step(v, e)) {
      StepKeeps(v, e);
    }
    forall v: World, e: Event | inv(v) && ok(v) && ok(Step(v, e)) && allowed(v, e)
      ensures cost(v, e) + potential(Step(v, e)) <= potential(v)
    {
      StepSummary(v, e);
      PatienceStep(v.s, e, Step(v, e).s, r);
    }
    Runs.Potential(Step, inv, ok, allowed, potential, cost, w, es);
    HeadFits(w, es, r);
  }

  // ----- control bursts

  /** One pick: its class, and whether control or data was queued when it was made. */
  datatype Turn = Turn(cls: Class, control: bool, data: bool)

  /** The picks of a run in order. */
  function Turns(w: World, es: seq<Event>): seq<Turn>
    decreases |es|
  {
    if es == [] then []
    else
      var c := Picked(w.s, es[0]);
      (if c.Some? then [Turn(c.value, w.s.queues.At(Control) != [], HasData(w.s.queues))] else [])
      + Turns(Step(w, es[0]), es[1..])
  }

  /** A control pick with data waiting raises the burst count and needs it below the limit; a data
      pick clears it; a data pick with control queued needs it at the limit. */
  predicate Legal(burst: nat, t: Turn) {
    if t.cls == Control then t.data ==> burst < CONTROL_BURST_LIMIT
    else t.control ==> burst >= CONTROL_BURST_LIMIT
  }

  predicate Disciplined(burst: nat, ts: seq<Turn>)
    decreases |ts|
  {
    ts != [] ==> Legal(burst, ts[0]) && Disciplined(if ts[0].cls == Control then burst + 1 else 0, ts[1..])
  }

  lemma TurnStep(s: State, e: Event, s': State)
    requires Summary(s, e, s')
    ensures Picked(s, e).None? && s'.terminal.None? ==> s'.burst == s.burst
    ensures Picked(s, e).Some? ==>
      && Legal(s.burst, Turn(Picked(s, e).value, s.queues.At(Control) != [], HasData(s.queues)))
      && s'.burst == (if Picked(s, e) == Some(Control) then s.burst + 1 else 0)
  {
    if Picked(s, e).Some? {
      PickResets(s);
    }
  }

  lemma {:induction false} TurnsDisciplined(w: World, es: seq<Event>)
    ensures Disciplined(w.s.burst, Turns(w, es))
    decreases |es|
  {
    if es != [] {
      StepSummary(w, es[0]);
      TurnStep(w.s, es[0], Step(w, es[0]).s);
      var w1, rest := Step(w, es[0]), Turns(Step(w, es[0]), es[1..]);
      TurnsDisciplined(w1, es[1..]);
      var c := Picked(w.s, es[0]);
      if c.Some? {
        var t := Turn(c.value, w.s.queues.At(Control) != [], HasData(w.s.queues));
        assert Turns(w, es) == [t] + rest && Turns(w, es)[1..] == rest;
      } else if w1.s.terminal.Some? {
        NoTurnsAfterTerminal(w1, es[1..]);
      } else {
        assert Turns(w, es) == rest;
      }
    }
  }

  lemma {:induction false} NoTurnsAfterTerminal(w: World, es: seq<Event>)
    requires w.s.terminal.Some?
    ensures Turns(w, es) == []
    decreases |es|
  {
    if es != [] {
      TerminalStays(w, es[0]);
      NoTurnsAfterTerminal(Step(w, es[0]), es[1..]);
    }
  }

  lemma TerminalStays(w: World, e: Event)
    requires w.s.terminal.Some?
    ensures Step(w, e).s.terminal.Some?
  {
    match e
    case CancelWaiter(r) => if r in w.s.waiters.At(r.cls) { CancelWaitingPending(w.s, r); }
    case CancelQueue(r) => if r in w.s.queues.At(r.cls) { CancelQueuedPending(w.s, r); }
    case _ =>
  }

  lemma {:induction false} DisciplinedFrom(burst: nat, ts: seq<Turn>, i: nat)
    requires Disciplined(burst, ts) && i <= |ts|
    ensures exists b: nat :: Disciplined(b, ts[i..]) && (0 < i && ts[i - 1].cls != Control ==> b == 0)
    decreases i
  {
    if i == 0 {
      assert ts[0..] == ts;
    } else if i == 1 {
      assert Disciplined(if ts[0].cls == Control then burst + 1 else 0, ts[1..]);
    } else {
      DisciplinedFrom(if ts[0].cls == Control then burst + 1 else 0, ts[1..], i - 1);
      assert ts[1..][i - 1..] == ts[i..];
      assert ts[1..][i - 2] == ts[i - 1];
    }
  }

  lemma {:induction false} BurstIsBounded(burst: nat, ts: seq<Turn>, n: nat)
    requires Disciplined(burst, ts) && n <= |ts|
    requires forall j :: 0 <= j < n ==> ts[j].cls == Control && ts[j].data
    ensures n <= Max(0, CONTROL_BURST_LIMIT - burst)
    decreases n
  {
    if n > 0 {
      forall j | 0 <= j < n - 1 ensures ts[1..][j].cls == Control && ts[1..][j].data {
        assert ts[1..][j] == ts[j + 1];
      }
      BurstIsBounded(burst + 1, ts[1..], n - 1);
    }
  }

  /** In every run, at most eight control requests in a row are picked while data waits. */
  lemma ControlBurst(w: World, es: seq<Event>, i: nat, n: nat)
    requires i + n <= |Turns(w, es)|
    requires forall j :: i <= j < i + n ==> Turns(w, es)[j].cls == Control && Turns(w, es)[j].data
    ensures n <= 8
  {
    var ts := Turns(w, es);
    TurnsDisciplined(w, es);
    DisciplinedFrom(w.s.burst, ts, i);
    var b: nat :| Disciplined(b, ts[i..]);
    forall j | 0 <= j < n ensures ts[i..][j].cls == Control && ts[i..][j].data {
      assert ts[i..][j] == ts[i + j];
    }
    BurstIsBounded(b, ts[i..], n);
  }

  /** And never two data requests in a row while control is queued. */
  lemma DataYields(w: World, es: seq<Event>, i: nat)
    requires 0 < i < |Turns(w, es)| && Turns(w, es)[i].control
    ensures Turns(w, es)[i - 1].cls == Control || Turns(w, es)[i].cls == Control
  {
    var ts := Turns(w, es);
    TurnsDisciplined(w, es);
    if ts[i - 1].cls != Control {
      DisciplinedFrom(w.s.burst, ts, i);
      assert Disciplined(0, ts[i..]);
      assert ts[i..][0] == ts[i];
    }
  }
}
