/**
 A two-queue deficit round robin with weights 3:1. The schedulers use it twice: the outer
 instance shares the link between media and bulk, the inner one shares the media part between
 interactive media and thumbnails. The state of one instance is its cursor, its two deficits and
 whether its first round has been added; the queues are seen only through the sizes of their heads.

 `Winner` and `Serve` say in closed form which queue is served next, and what the state is then.
 `Visit` is one iteration of the schedulers' loops; `VisitKeepsPick` and `VisitServes` connect them.
 */
module Drr {
  import opened Basics

  const BASE_QUANTUM := 64 * 1024
  const QUANTUM_0 := 3 * BASE_QUANTUM
  const QUANTUM_1 := BASE_QUANTUM

  datatype Drr = Drr(current: nat, deficit0: nat, deficit1: nat, started: bool)

  const IDLE := Drr(0, 0, 0, false)

  /** Size of the request at the head of each queue, if there is one. */
  datatype Heads = Heads(first: Option<nat>, second: Option<nat>) {
    predicate Any() { first.Some? || second.Some? }
  }

  function AddRound(d: Drr, h: Heads): Drr {
    d.(deficit0 := if h.first.Some? then d.deficit0 + QUANTUM_0 else 0,
       deficit1 := if h.second.Some? then d.deficit1 + QUANTUM_1 else 0)
  }

  function Advance(d: Drr, h: Heads): Drr {
    var e := d.(current := (d.current + 1) % 2);
    if e.current == 0 then AddRound(e, h) else e
  }

  function Begin(d: Drr, h: Heads): Drr {
    if d.started then d else AddRound(d, h).(started := true)
  }

  /** The head of the queue under the cursor fits in its deficit. */
  predicate Fits(d: Drr, h: Heads) {
    if d.current == 0 then h.first.Some? && h.first.value <= d.deficit0
    else h.second.Some? && h.second.value <= d.deficit1
  }

  /** One visit that serves nothing: an empty queue loses its deficit, then the cursor moves. */
  function Visit(d: Drr, h: Heads): Drr {
    var e := if d.current == 0 && h.first.None? then d.(deficit0 := 0)
             else if d.current != 0 && h.second.None? then d.(deficit1 := 0)
             else d;
    Advance(e, h)
  }

  /** One visit that serves the head of the queue under the cursor. */
  function Take(d: Drr, h: Heads): Drr
    requires Fits(d, h)
  {
    if d.current == 0 then d.(deficit0 := d.deficit0 - h.first.value)
    else d.(deficit1 := d.deficit1 - h.second.value)
  }

  /** An empty queue carries no deficit. */
  predicate Clean(d: Drr, h: Heads) {
    && d.current < 2
    && (!d.started ==> d == IDLE)
    && (h.first.None? ==> d.deficit0 == 0)
    && (h.second.None? ==> d.deficit1 == 0)
  }

  // ----- the closed form

  /** Rounds of `quantum` bytes to add before `size` bytes fit. */
  function RoundsToFit(size: nat, deficit: nat, quantum: nat): nat
    requires quantum > 0
  {
    if size <= deficit then 0 else (size - deficit + quantum - 1) / quantum
  }

  /** Rounds added before a visit finds that the head of the first queue fits. A cursor past
      the first queue comes back to it only after another round. */
  function RoundsTo0(d: Drr, size: nat): nat {
    Max(RoundsToFit(size, d.deficit0, QUANTUM_0), if d.current == 0 then 0 else 1)
  }

  function RoundsTo1(d: Drr, size: nat): nat {
    RoundsToFit(size, d.deficit1, QUANTUM_1)
  }

  /** Which queue the started instance `d` serves next: the one that fits after fewer rounds,
      the first queue being visited first in every round. */
  function Winner(d: Drr, h: Heads): (w: nat)
    requires h.Any()
    ensures if w == 0 then h.first.Some? else w == 1 && h.second.Some?
  {
    if h.second.None? then 0
    else if h.first.None? then 1
    else if RoundsTo0(d, h.first.value) <= RoundsTo1(d, h.second.value) then 0
    else 1
  }

  /** Rounds added up to and including the serving visit. */
  function Rounds(d: Drr, h: Heads): nat
    requires h.Any()
  {
    if Winner(d, h) == 0 then RoundsTo0(d, h.first.value) else RoundsTo1(d, h.second.value)
  }

  /** Visits before the serving one: what is left of the loop. */
  function VisitsLeft(d: Drr, h: Heads): int
    requires h.Any()
  {
    2 * Rounds(d, h) + Winner(d, h) - d.current
  }

  function Gained0(d: Drr, h: Heads): nat
    requires h.Any()
  {
    if h.first.Some? then d.deficit0 + QUANTUM_0 * Rounds(d, h) else 0
  }

  function Gained1(d: Drr, h: Heads): nat
    requires h.Any()
  {
    if h.second.Some? then d.deficit1 + QUANTUM_1 * Rounds(d, h) else 0
  }

  lemma WinnerFits(d: Drr, h: Heads)
    requires h.Any()
    ensures Winner(d, h) == 0 ==> h.first.value <= Gained0(d, h)
    ensures Winner(d, h) == 1 ==> h.second.value <= Gained1(d, h)
  {}

  /** The state after serving, as the loop leaves it. */
  function Serve(d: Drr, h: Heads): Drr
    requires h.Any()
  {
    WinnerFits(d, h);
    if Winner(d, h) == 0
    then Drr(0, Gained0(d, h) - h.first.value, Gained1(d, h), d.started)
    else Drr(1, Gained0(d, h), Gained1(d, h) - h.second.value, d.started)
  }

  lemma OneRoundLess(size: nat, deficit: nat, quantum: nat)
    requires quantum == QUANTUM_0 || quantum == QUANTUM_1
    requires size > deficit
    ensures RoundsToFit(size, deficit, quantum) == 1 + RoundsToFit(size, deficit + quantum, quantum)
  {}

  /** A visit that serves nothing leaves the choice, the outcome and cleanliness as they were and
      uses up exactly one of the visits left, so the loop ends. */
  lemma VisitKeepsPick(d: Drr, h: Heads)
    requires h.Any() && d.started && Clean(d, h) && !Fits(d, h)
    ensures Clean(Visit(d, h), h) && Visit(d, h).started
    ensures Winner(Visit(d, h), h) == Winner(d, h)
    ensures Serve(Visit(d, h), h) == Serve(d, h)
    ensures 0 <= VisitsLeft(Visit(d, h), h) == VisitsLeft(d, h) - 1
  {
    VisitKeepsWinner(d, h);
  }

  lemma VisitKeepsWinner(d: Drr, h: Heads)
    requires h.Any() && d.started && Clean(d, h) && !Fits(d, h)
    ensures Winner(Visit(d, h), h) == Winner(d, h)
    ensures Rounds(Visit(d, h), h) == Rounds(d, h) - (if d.current == 0 then 0 else 1)
  {
    if h.first.Some? && h.first.value > d.deficit0 {
      OneRoundLess(h.first.value, d.deficit0, QUANTUM_0);
    }
    if h.second.Some? && h.second.value > d.deficit1 {
      OneRoundLess(h.second.value, d.deficit1, QUANTUM_1);
    }
  }

  /** A visit that finds a fit serves what the closed form says. */
  lemma VisitServes(d: Drr, h: Heads)
    requires h.Any() && d.started && Clean(d, h) && Fits(d, h)
    ensures Winner(d, h) == d.current
    ensures Take(d, h) == Serve(d, h)
    ensures VisitsLeft(d, h) == 0
  {}

  // ----- what serving keeps

  /** Deficits between picks, when no request of a queue exceeds its cap: less than one request
      plus one quantum, and less than one request for a first queue the cursor has passed. */
  predicate Bounded(d: Drr, cap0: nat, cap1: nat) {
    && d.deficit0 < cap0 + QUANTUM_0
    && d.deficit1 < cap1 + QUANTUM_1
    && (d.current != 0 ==> d.deficit0 < cap0)
  }

  predicate HeadsWithin(h: Heads, cap0: nat, cap1: nat) {
    && (h.first.Some? ==> 0 < h.first.value <= cap0)
    && (h.second.Some? ==> 0 < h.second.value <= cap1)
  }

  lemma BeginKeeps(d: Drr, h: Heads, cap0: nat, cap1: nat)
    requires Clean(d, h) && Bounded(d, cap0, cap1) && 0 < cap0 && 0 < cap1
    ensures Clean(Begin(d, h), h) && Bounded(Begin(d, h), cap0, cap1) && Begin(d, h).started
  {}

  lemma ServeKeeps(d: Drr, h: Heads, cap0: nat, cap1: nat)
    requires h.Any() && HeadsWithin(h, cap0, cap1) && 0 < cap0 && 0 < cap1
    requires Clean(d, h) && d.started && Bounded(d, cap0, cap1)
    ensures Clean(Serve(d, h), h) && Bounded(Serve(d, h), cap0, cap1) && Serve(d, h).started
  {
    var k := Rounds(d, h);
    if h.first.Some? && 0 < RoundsToFit(h.first.value, d.deficit0, QUANTUM_0) {
      OneRoundLess(h.first.value, d.deficit0, QUANTUM_0);
    }
    if h.second.Some? && 0 < RoundsToFit(h.second.value, d.deficit1, QUANTUM_1) {
      OneRoundLess(h.second.value, d.deficit1, QUANTUM_1);
    }
  }

  /** While the second queue's head waits, every round the first queue gains brings it one round
      nearer; and its wait is never more than four rounds for a head within 4 quanta. */
  lemma WaitShrinks(d: Drr, h: Heads)
    requires h.Any() && h.second.Some? && Winner(d, h) == 0
    ensures RoundsTo1(d, h.second.value) == Rounds(d, h) + RoundsTo1(Serve(d, h), h.second.value)
  {}
}
