/**
 The scheduler as values: its state, what each critical section does to it, and the invariant
 every critical section keeps. The agent's `Scheduler` and the browser's `LaneScheduler` are both
 proved to perform these steps.
 */
module SchedulerModel {
  import opened Basics
  import opened Traffic
  import D = Drr

  datatype State = State(
    queues: Queues,
    waiters: Queues,
    bytes: Tally,             // queued plus being written
    active: Option<Request>,
    terminal: Option<Error>,
    burst: nat,
    outer: D.Drr,
    inner: D.Drr)

  const INITIAL := State(NO_REQUESTS, NO_REQUESTS, NO_BYTES, None, None, 0, D.IDLE, D.IDLE)

  // ----- what there is to serve

  predicate HasMedia(q: Queues) {
    q.At(Interactive) != [] || q.At(Thumbnail) != []
  }

  predicate HasData(q: Queues) {
    HasMedia(q) || q.At(Bulk) != []
  }

  predicate Demand(s: State, c: Class) {
    s.queues.At(c) != [] || s.waiters.At(c) != []
  }

  predicate MediaDemand(s: State) {
    Demand(s, Interactive) || Demand(s, Thumbnail)
  }

  function Head(q: seq<Request>): Option<nat> {
    if q == [] then None else Some(|q[0].payload|)
  }

  function InnerHeads(q: Queues): D.Heads {
    D.Heads(Head(q.At(Interactive)), Head(q.At(Thumbnail)))
  }

  // ----- the choice of the next request

  /** The media request an inner scheduler on its own would serve next. */
  function MediaClass(q: Queues, inner: D.Drr): (c: Class)
    requires HasMedia(q)
    ensures (c == Interactive || c == Thumbnail) && q.At(c) != []
  {
    var h := InnerHeads(q);
    if D.Winner(D.Begin(inner, h), h) == 0 then Interactive else Thumbnail
  }

  function MediaServed(q: Queues, inner: D.Drr): D.Drr
    requires HasMedia(q)
  {
    var h := InnerHeads(q);
    D.Serve(D.Begin(inner, h), h)
  }

  function OuterHeads(q: Queues, inner: D.Drr): D.Heads {
    D.Heads(if HasMedia(q) then Head(q.At(MediaClass(q, inner))) else None, Head(q.At(Bulk)))
  }

  function Outer(s: State): D.Drr {
    D.Begin(s.outer, OuterHeads(s.queues, s.inner))
  }

  /** The class the two-level round robin serves next: the outer level chooses between the inner
      level's candidate and the head of bulk. */
  function DataClass(s: State): (c: Class)
    requires HasData(s.queues)
    ensures c != Control && s.queues.At(c) != []
  {
    if D.Winner(Outer(s), OuterHeads(s.queues, s.inner)) == 0 then MediaClass(s.queues, s.inner) else Bulk
  }

  /** Deficits after that choice. The inner level moves only when its candidate is served. */
  function Charged(s: State): State
    requires HasData(s.queues)
  {
    s.(outer := D.Serve(Outer(s), OuterHeads(s.queues, s.inner)),
       inner := if DataClass(s) == Bulk then s.inner else MediaServed(s.queues, s.inner))
  }

  function ResetEmptyLane(s: State, c: Class): State {
    var s1 :=
      if Demand(s, c) then s
      else match c
        case Interactive => s.(inner := s.inner.(deficit0 := 0))
        case Thumbnail => s.(inner := s.inner.(deficit1 := 0))
        case Bulk => s.(outer := s.outer.(deficit1 := 0))
        case Control => s;
    var s2 :=
      if MediaDemand(s) then s1
      else s1.(outer := s1.outer.(deficit0 := 0), inner := D.IDLE);
    if MediaDemand(s) || Demand(s, Bulk) then s2 else s2.(outer := D.IDLE)
  }

  /** Takes `q` as the new queue of class c, which only ever gets shorter here. */
  function Shorten(s: State, c: Class, q: seq<Request>): State {
    var s1 := s.(queues := s.queues.With(c, q));
    if q == [] then ResetEmptyLane(s1, c) else s1
  }

  function Pop(s: State, c: Class): (Request, State)
    requires s.queues.At(c) != []
  {
    (s.queues.At(c)[0], Shorten(s, c, s.queues.At(c)[1..]))
  }

  /** The next request to write, chosen by class. */
  function NextClass(s: State): (c: Option<Class>)
    ensures c.Some? ==> s.queues.At(c.value) != []
  {
    if s.queues.At(Control) != [] && (s.burst < CONTROL_BURST_LIMIT || !HasData(s.queues)) then Some(Control)
    else if HasData(s.queues) then Some(DataClass(s))
    else None
  }

  function Next(s: State): (Option<Request>, State) {
    match NextClass(s)
    case None => (None, s)
    case Some(Control) =>
      var (r, s') := Pop(s.(burst := s.burst + 1), Control);
      (Some(r), s')
    case Some(c) =>
      var (r, s') := Pop(Charged(s), c);
      (Some(r), s'.(burst := 0))
  }

  // ----- the critical sections

  function Enqueue(s: State, r: Request): State {
    s.(bytes := s.bytes.With(r.cls, s.bytes.At(r.cls) + |r.payload|),
       queues := s.queues.With(r.cls, s.queues.At(r.cls) + [r]))
  }

  predicate FitsNow(s: State, r: Request) {
    s.bytes.At(r.cls) + |r.payload| <= Cap(r.cls)
  }

  /** A new send, already validated. */
  function Admit(s: State, r: Request): State {
    if s.terminal.Some? then s
    else if s.waiters.At(r.cls) == [] && FitsNow(s, r) then Enqueue(s, r)
    else s.(waiters := s.waiters.With(r.cls, s.waiters.At(r.cls) + [r]))
  }

  function MoveWaiter(s: State, c: Class): State
    requires s.waiters.At(c) != []
  {
    var w := s.waiters.At(c)[0];
    s.(bytes := s.bytes.With(c, s.bytes.At(c) + |w.payload|),
       queues := s.queues.With(c, s.queues.At(c) + [w]),
       waiters := s.waiters.With(c, s.waiters.At(c)[1..]))
  }

  /** Admits waiters of class c, oldest first, while they fit. */
  function AdmitWaiters(s: State, c: Class): State
    decreases |s.waiters.At(c)|
  {
    if s.waiters.At(c) != [] && s.bytes.At(c) + |s.waiters.At(c)[0].payload| <= Cap(c) then
      AdmitWaiters(MoveWaiter(s, c), c)
    else s
  }

  function Remove(rs: seq<Request>, r: Request): seq<Request>
    requires r in rs
  {
    if rs[0] == r then rs[1..] else [rs[0]] + Remove(rs[1..], r)
  }

  /** A waiter has gone; if its class has no queue either, the deficits may go too. */
  function WaiterGone(s: State, r: Request): State
    requires r in s.waiters.At(r.cls)
  {
    var s1 := s.(waiters := s.waiters.With(r.cls, Remove(s.waiters.At(r.cls), r)));
    if s1.queues.At(r.cls) == [] then ResetEmptyLane(s1, r.cls) else s1
  }

  function CancelWaiting(s: State, r: Request): State {
    if r !in s.waiters.At(r.cls) then s else AdmitWaiters(WaiterGone(s, r), r.cls)
  }

  /** The state after a withdrawal, before waiters are admitted. */
  function Withdraw(s: State, r: Request): State
    requires r in s.queues.At(r.cls)
  {
    var s1 := Shorten(s, r.cls, Remove(s.queues.At(r.cls), r));
    s1.(bytes := s1.bytes.With(r.cls, s1.bytes.At(r.cls) - |r.payload|))
  }

  function CancelQueued(s: State, r: Request): State {
    if r !in s.queues.At(r.cls) then s
    else
      AdmitWaiters(Withdraw(s, r), r.cls)
  }

  /** Everything queued or waiting fails and the scheduler is finished. */
  function Fail(s: State, e: Error): State {
    if s.terminal.Some? then s
    else s.(terminal := Some(e), queues := NO_REQUESTS, waiters := NO_REQUESTS,
            bytes := PerClass(
              s.bytes.At(Control) - Total(s.queues.At(Control)),
              s.bytes.At(Interactive) - Total(s.queues.At(Interactive)),
              s.bytes.At(Thumbnail) - Total(s.queues.At(Thumbnail)),
              s.bytes.At(Bulk) - Total(s.queues.At(Bulk))))
  }

  function Pick(s: State): State {
    if s.terminal.Some? || s.active.Some? then s
    else
      var (r, s') := Next(s);
      s'.(active := r)
  }

  /** The active request no longer counts. */
  function Released(s: State): State
    requires s.active.Some?
  {
    var r := s.active.value;
    s.(active := None, bytes := s.bytes.With(r.cls, s.bytes.At(r.cls) - |r.payload|))
  }

  /** The writer returned, with an error or without. */
  function Written(s: State, e: Option<Error>): State {
    if s.active.None? then s
    else if e.Some? then Fail(Released(s), e.value)
    else if s.terminal.Some? then Released(s)
    else AdmitWaiters(Released(s), s.active.value.cls)
  }

  // ----- the invariant

  function ActiveBytes(s: State, c: Class): nat {
    if s.active.Some? && s.active.value.cls == c then |s.active.value.payload| else 0
  }

  predicate PlacedAt(q: seq<Request>, c: Class) {
    forall i :: 0 <= i < |q| ==> q[i].cls == c && Sendable(q[i])
  }

  predicate Placed(s: State) {
    && (forall c: Class :: PlacedAt(s.queues.At(c), c))
    && (forall c: Class :: PlacedAt(s.waiters.At(c), c))
    && (s.active.Some? ==> Sendable(s.active.value))
  }

  /** bytes.At(c) counts queued and active payloads and stays within the cap. */
  predicate CountedAt(s: State, c: Class) {
    s.bytes.At(c) == Total(s.queues.At(c)) + ActiveBytes(s, c) <= Cap(c)
  }

  predicate Counted(s: State) {
    forall c: Class :: CountedAt(s, c)
  }

  /** A waiter at the head of a waiting list does not fit. */
  predicate BlockedAt(s: State, c: Class) {
    s.waiters.At(c) != [] ==> s.bytes.At(c) + |s.waiters.At(c)[0].payload| > Cap(c)
  }

  predicate Blocked(s: State) {
    forall c: Class :: BlockedAt(s, c)
  }

  predicate Finished(s: State) {
    s.terminal.Some? ==> forall c: Class :: s.queues.At(c) == [] && s.waiters.At(c) == []
  }

  /** Deficits belong to demand: without any, they are gone. */
  predicate Settled(s: State) {
    && s.outer.current < 2 && s.inner.current < 2
    && (!s.outer.started ==> s.outer == D.IDLE)
    && (!s.inner.started ==> s.inner == D.IDLE)
    && (!MediaDemand(s) ==> s.outer.deficit0 == 0 && s.inner == D.IDLE)
    && (!Demand(s, Interactive) ==> s.inner.deficit0 == 0)
    && (!Demand(s, Thumbnail) ==> s.inner.deficit1 == 0)
    && (!Demand(s, Bulk) ==> s.outer.deficit1 == 0)
    && (!MediaDemand(s) && !Demand(s, Bulk) ==> s.outer == D.IDLE)
  }

  predicate Within(s: State) {
    && D.Bounded(s.outer, Cap(Thumbnail), Cap(Bulk))
    && D.Bounded(s.inner, Cap(Interactive), Cap(Thumbnail))
  }

  /** Deficits are settled and bounded; nothing is asked of them once the scheduler is finished. */
  predicate Accounted(s: State) {
    && (s.terminal.None? ==> Settled(s))
    && Within(s)
  }

  predicate Inv(s: State) {
    Placed(s) && Counted(s) && Blocked(s) && Finished(s) && Accounted(s)
  }

  lemma InitialInv()
    ensures Inv(INITIAL)
  {}

  /** When nothing is being written, a class that has waiters has a queue: a sender never waits
      for room that nothing is going to free. So demand and a non-empty queue are then the same. */
  lemma WaitersImplyQueue(s: State, c: Class)
    requires Inv(s) && s.active.None? && s.waiters.At(c) != []
    ensures s.queues.At(c) != []
  {
    assert PlacedAt(s.waiters.At(c), c) && CountedAt(s, c) && BlockedAt(s, c);
    assert Sendable(s.waiters.At(c)[0]);
  }

  // ----- every critical section keeps it

  lemma {:induction false} RemoveFacts(rs: seq<Request>, r: Request)
    requires r in rs
    ensures Total(Remove(rs, r)) == Total(rs) - |r.payload|
    ensures |Remove(rs, r)| == |rs| - 1
    ensures forall x :: x in Remove(rs, r) ==> x in rs
  {
    if rs[0] != r {
      RemoveFacts(rs[1..], r);
      TotalAppend([rs[0]], Remove(rs[1..], r));
      assert Total([rs[0]]) == |rs[0].payload|;
    }
  }

  lemma RemovedPlaced(rs: seq<Request>, r: Request, c: Class)
    requires r in rs && PlacedAt(rs, c)
    ensures PlacedAt(Remove(rs, r), c)
  {
    RemoveFacts(rs, r);
    forall i | 0 <= i < |Remove(rs, r)| ensures Remove(rs, r)[i].cls == c && Sendable(Remove(rs, r)[i]) {
      assert Remove(rs, r)[i] in rs;
    }
  }

  /** The invariant before class c's waiters have been reconsidered. */
  predicate InvBut(s: State, c: Class) {
    && Placed(s) && Counted(s) && Finished(s) && Accounted(s)
    && (forall k: Class :: k != c ==> BlockedAt(s, k))
  }

  /** Deficits stay accounted for as long as no class gains or loses demand. */
  lemma SameDemand(s: State, s': State)
    requires Accounted(s)
    requires s'.outer == s.outer && s'.inner == s.inner && s'.terminal == s.terminal
    requires forall c: Class :: Demand(s, c) ==> Demand(s', c)
    ensures Accounted(s')
  {}

  lemma MoveWaiterKeeps(s: State, c: Class)
    requires InvBut(s, c) && s.waiters.At(c) != []
    requires s.bytes.At(c) + |s.waiters.At(c)[0].payload| <= Cap(c)
    ensures InvBut(MoveWaiter(s, c), c)
  {
    MoveWaiterCounted(s, c);
    MoveWaiterPlaced(s, c);
    SameDemand(s, MoveWaiter(s, c));
    var s' := MoveWaiter(s, c);
    forall k: Class ensures k != c ==> BlockedAt(s', k) {
      assert k != c ==> BlockedAt(s, k);
    }
  }

  lemma MoveWaiterCounted(s: State, c: Class)
    requires Counted(s) && s.waiters.At(c) != [] && PlacedAt(s.waiters.At(c), c)
    requires s.bytes.At(c) + |s.waiters.At(c)[0].payload| <= Cap(c)
    ensures Counted(MoveWaiter(s, c))
  {
    TotalSnoc(s.queues.At(c), s.waiters.At(c)[0]);
    forall k: Class ensures CountedAt(MoveWaiter(s, c), k) {
      assert CountedAt(s, k);
    }
  }

  lemma MoveWaiterPlaced(s: State, c: Class)
    requires Placed(s) && s.waiters.At(c) != []
    ensures Placed(MoveWaiter(s, c))
  {
    var s' := MoveWaiter(s, c);
    forall k: Class ensures PlacedAt(s'.queues.At(k), k) && PlacedAt(s'.waiters.At(k), k) {
      assert PlacedAt(s.queues.At(k), k) && PlacedAt(s.waiters.At(k), k);
    }
  }

  lemma {:induction false} AdmitWaitersKeeps(s: State, c: Class)
    requires InvBut(s, c)
    ensures Inv(AdmitWaiters(s, c))
    decreases |s.waiters.At(c)|
  {
    if s.waiters.At(c) != [] && s.bytes.At(c) + |s.waiters.At(c)[0].payload| <= Cap(c) {
      MoveWaiterKeeps(s, c);
      AdmitWaitersKeeps(MoveWaiter(s, c), c);
    } else {
      assert BlockedAt(s, c);
    }
  }

  lemma AdmitCounted(s: State, r: Request)
    requires Counted(s)
    ensures Counted(Admit(s, r))
  {
    TotalSnoc(s.queues.At(r.cls), r);
    forall k: Class ensures CountedAt(Admit(s, r), k) {
      assert CountedAt(s, k);
    }
  }

  lemma AdmitPlaced(s: State, r: Request)
    requires Placed(s) && Sendable(r)
    ensures Placed(Admit(s, r))
  {
    var s' := Admit(s, r);
    forall k: Class ensures PlacedAt(s'.queues.At(k), k) && PlacedAt(s'.waiters.At(k), k) {
      assert PlacedAt(s.queues.At(k), k) && PlacedAt(s.waiters.At(k), k);
    }
  }

  lemma AdmitBlocked(s: State, r: Request)
    requires Blocked(s)
    ensures Blocked(Admit(s, r))
  {
    var s' := Admit(s, r);
    forall k: Class ensures BlockedAt(s', k) {
      assert BlockedAt(s, k);
    }
  }

  lemma AdmitAccounted(s: State, r: Request)
    requires Accounted(s)
    ensures Accounted(Admit(s, r))
  {
    SameDemand(s, Admit(s, r));
  }

  lemma AdmitKeeps(s: State, r: Request)
    requires Inv(s) && Sendable(r)
    ensures Inv(Admit(s, r))
  {
    AdmitPlaced(s, r);
    AdmitBlocked(s, r);
    AdmitCounted(s, r);
    AdmitAccounted(s, r);
  }

  // ----- removing a request from a queue or a waiting list

  /** Resetting an emptied lane settles the deficits again, whichever class lost its demand. */
  lemma ResetSettles(before: State, s: State, c: Class)
    requires Accounted(before) && before.terminal.None?
    requires s.outer == before.outer && s.inner == before.inner && s.terminal == before.terminal
    requires forall k: Class :: k != c ==> Demand(s, k) == Demand(before, k)
    ensures Accounted(ResetEmptyLane(s, c))
  {
    assert Demand(before, Interactive) == Demand(s, Interactive) || c == Interactive;
    assert Demand(before, Thumbnail) == Demand(s, Thumbnail) || c == Thumbnail;
    assert Demand(before, Bulk) == Demand(s, Bulk) || c == Bulk;
  }

  lemma ShortenAccounted(s: State, c: Class, q: seq<Request>)
    requires Accounted(s) && s.terminal.None? && s.queues.At(c) != []
    ensures Accounted(Shorten(s, c, q))
  {
    var s1 := s.(queues := s.queues.With(c, q));
    if q == [] {
      ResetSettles(s, s1, c);
    } else {
      SameDemand(s, s1);
    }
  }

  /** Resets change nothing but deficits. */
  lemma ResetFrame(s: State, c: Class)
    ensures ResetEmptyLane(s, c) == s.(outer := ResetEmptyLane(s, c).outer, inner := ResetEmptyLane(s, c).inner)
  {}

  lemma CancelWaitingKeeps(s: State, r: Request)
    requires Inv(s)
    ensures Inv(CancelWaiting(s, r))
  {
    var c := r.cls;
    if r in s.waiters.At(c) {
      var s1 := s.(waiters := s.waiters.With(c, Remove(s.waiters.At(c), r)));
      var s2 := if s1.queues.At(c) == [] then ResetEmptyLane(s1, c) else s1;
      RemoveFacts(s.waiters.At(c), r);
      RemovedWaiterShape(s, r);
      assert s.terminal.None?;
      if s1.queues.At(c) == [] {
        ResetSettles(s, s1, c);
        ResetFrame(s1, c);
      } else {
        SameDemand(s, s1);
      }
      ShapeFrame(s1, s2, c);
      AdmitWaitersKeeps(s2, c);
    }
  }

  /** Everything in `InvBut` except the deficits. */
  predicate Shape(s: State, c: Class) {
    && Placed(s) && Counted(s) && Finished(s)
    && (forall k: Class :: k != c ==> BlockedAt(s, k))
  }

  lemma ShapeFrame(s: State, s': State, c: Class)
    requires Shape(s, c) && s' == s.(outer := s'.outer, inner := s'.inner)
    ensures Shape(s', c)
  {
    forall k: Class ensures CountedAt(s', k) && (k != c ==> BlockedAt(s', k)) {
      assert CountedAt(s, k);
      assert k != c ==> BlockedAt(s, k);
    }
  }

  lemma RemovedWaiterShape(s: State, r: Request)
    requires Inv(s) && r in s.waiters.At(r.cls)
    ensures Shape(s.(waiters := s.waiters.With(r.cls, Remove(s.waiters.At(r.cls), r))), r.cls)
  {
    var s' := s.(waiters := s.waiters.With(r.cls, Remove(s.waiters.At(r.cls), r)));
    RemoveFacts(s.waiters.At(r.cls), r);
    assert PlacedAt(s.waiters.At(r.cls), r.cls);
    RemovedPlaced(s.waiters.At(r.cls), r, r.cls);
    forall k: Class
      ensures PlacedAt(s'.queues.At(k), k) && PlacedAt(s'.waiters.At(k), k) && CountedAt(s', k)
      ensures k != r.cls ==> BlockedAt(s', k)
    {
      assert PlacedAt(s.queues.At(k), k) && PlacedAt(s.waiters.At(k), k) && CountedAt(s, k) && BlockedAt(s, k);
    }
  }

  /** The state in which a queued request has just been withdrawn, deficits aside. */
  function Withdrawn(s: State, r: Request): State
    requires r in s.queues.At(r.cls)
  {
    s.(queues := s.queues.With(r.cls, Remove(s.queues.At(r.cls), r)),
       bytes := s.bytes.With(r.cls, s.bytes.At(r.cls) - |r.payload|))
  }

  lemma WithdrawnShape(s: State, r: Request)
    requires Inv(s) && r in s.queues.At(r.cls)
    ensures Shape(Withdrawn(s, r), r.cls)
  {
    var s' := Withdrawn(s, r);
    RemoveFacts(s.queues.At(r.cls), r);
    assert PlacedAt(s.queues.At(r.cls), r.cls);
    RemovedPlaced(s.queues.At(r.cls), r, r.cls);
    forall k: Class
      ensures PlacedAt(s'.queues.At(k), k) && PlacedAt(s'.waiters.At(k), k) && CountedAt(s', k)
      ensures k != r.cls ==> BlockedAt(s', k)
    {
      assert PlacedAt(s.queues.At(k), k) && PlacedAt(s.waiters.At(k), k) && CountedAt(s, k) && BlockedAt(s, k);
    }
  }

  lemma WithdrawFrame(s: State, r: Request)
    requires r in s.queues.At(r.cls)
    ensures Withdraw(s, r) == Withdrawn(s, r).(outer := Withdraw(s, r).outer, inner := Withdraw(s, r).inner)
  {
    ResetFrame(s.(queues := s.queues.With(r.cls, Remove(s.queues.At(r.cls), r))), r.cls);
  }

  lemma WithdrawAccounted(s: State, r: Request)
    requires Accounted(s) && s.terminal.None? && r in s.queues.At(r.cls)
    ensures Accounted(Withdraw(s, r))
  {
    ShortenAccounted(s, r.cls, Remove(s.queues.At(r.cls), r));
    SameDemand(Shorten(s, r.cls, Remove(s.queues.At(r.cls), r)), Withdraw(s, r));
  }

  lemma CancelQueuedKeeps(s: State, r: Request)
    requires Inv(s)
    ensures Inv(CancelQueued(s, r))
  {
    if r in s.queues.At(r.cls) {
      assert s.terminal.None?;
      WithdrawAccounted(s, r);
      WithdrawnShape(s, r);
      WithdrawFrame(s, r);
      ShapeFrame(Withdrawn(s, r), Withdraw(s, r), r.cls);
      AdmitWaitersKeeps(Withdraw(s, r), r.cls);
    }
  }

  // ----- finishing, picking and writing

  lemma FailKeeps(s: State, e: Error)
    requires Inv(s)
    ensures Inv(Fail(s, e))
  {
    forall k: Class ensures CountedAt(Fail(s, e), k) {
      assert CountedAt(s, k);
    }
  }

  /** At a scheduling decision both levels are clean and bounded, and their heads within the caps. */
  lemma PickReady(s: State)
    requires Inv(s) && s.active.None? && s.terminal.None?
    ensures D.Clean(s.outer, OuterHeads(s.queues, s.inner)) && D.Clean(s.inner, InnerHeads(s.queues))
    ensures D.HeadsWithin(OuterHeads(s.queues, s.inner), Cap(Thumbnail), Cap(Bulk))
    ensures D.HeadsWithin(InnerHeads(s.queues), Cap(Interactive), Cap(Thumbnail))
    ensures forall c: Class :: Demand(s, c) == (s.queues.At(c) != [])
  {
    forall c: Class ensures Demand(s, c) == (s.queues.At(c) != []) {
      if s.waiters.At(c) != [] { WaitersImplyQueue(s, c); }
    }
    assert PlacedAt(s.queues.At(Interactive), Interactive) && PlacedAt(s.queues.At(Thumbnail), Thumbnail);
    assert PlacedAt(s.queues.At(Bulk), Bulk);
    assert Demand(s, Interactive) == (s.queues.At(Interactive) != []);
    assert Demand(s, Thumbnail) == (s.queues.At(Thumbnail) != []);
    assert Demand(s, Bulk) == (s.queues.At(Bulk) != []);
  }

  lemma ChargedAccounted(s: State)
    requires Inv(s) && s.active.None? && s.terminal.None? && HasData(s.queues)
    ensures Accounted(Charged(s))
  {
    PickReady(s);
    var oh, ih := OuterHeads(s.queues, s.inner), InnerHeads(s.queues);
    D.BeginKeeps(s.outer, oh, Cap(Thumbnail), Cap(Bulk));
    D.ServeKeeps(Outer(s), oh, Cap(Thumbnail), Cap(Bulk));
    if HasMedia(s.queues) {
      D.BeginKeeps(s.inner, ih, Cap(Interactive), Cap(Thumbnail));
      D.ServeKeeps(D.Begin(s.inner, ih), ih, Cap(Interactive), Cap(Thumbnail));
    }
    assert Demand(s, Interactive) == (s.queues.At(Interactive) != []);
    assert Demand(s, Thumbnail) == (s.queues.At(Thumbnail) != []);
    assert Demand(s, Bulk) == (s.queues.At(Bulk) != []);
  }

  /** The state in which the head of class c has become active, deficits aside. */
  function Taken(s: State, c: Class): State
    requires s.queues.At(c) != []
  {
    s.(queues := s.queues.With(c, s.queues.At(c)[1..]), active := Some(s.queues.At(c)[0]))
  }

  lemma TakenShape(s: State, c: Class)
    requires Inv(s) && s.active.None? && s.queues.At(c) != []
    ensures Shape(Taken(s, c), c) && BlockedAt(Taken(s, c), c)
  {
    var s' := Taken(s, c);
    forall k: Class
      ensures PlacedAt(s'.queues.At(k), k) && PlacedAt(s'.waiters.At(k), k) && CountedAt(s', k) && BlockedAt(s', k)
    {
      assert PlacedAt(s.queues.At(k), k) && PlacedAt(s.waiters.At(k), k) && CountedAt(s, k) && BlockedAt(s, k);
    }
  }

  /** A pick takes the head of one queue and otherwise touches only deficits and the burst count. */
  lemma PickFrame(s: State)
    requires s.terminal.None? && s.active.None? && NextClass(s).Some?
    ensures var t := Taken(s, NextClass(s).value);
            Pick(s) == t.(outer := Pick(s).outer, inner := Pick(s).inner, burst := Pick(s).burst)
  {
    var c := NextClass(s).value;
    var s1 := if c == Control then s else Charged(s);
    ResetFrame(s1.(queues := s1.queues.With(c, s1.queues.At(c)[1..])), c);
  }

  lemma AccountedFrame(s: State, s': State)
    requires Accounted(s) && s' == s.(active := s'.active, burst := s'.burst)
    ensures Accounted(s')
  {}

  lemma PickAccounted(s: State)
    requires Inv(s) && s.active.None? && s.terminal.None? && NextClass(s).Some?
    ensures Accounted(Pick(s))
  {
    var c := NextClass(s).value;
    if c == Control {
      ControlPickAccounted(s);
    } else {
      ChargedAccounted(s);
      DataPickAccounted(s, c);
    }
  }

  lemma ControlPickAccounted(s: State)
    requires Accounted(s) && s.active.None? && s.terminal.None?
    requires NextClass(s) == Some(Control)
    ensures Accounted(Pick(s))
  {
    var s1 := s.(burst := s.burst + 1);
    AccountedFrame(s, s1);
    var s2 := Shorten(s1, Control, s.queues.At(Control)[1..]);
    ShortenAccounted(s1, Control, s.queues.At(Control)[1..]);
    assert Pick(s) == s2.(active := Some(s.queues.At(Control)[0]));
    AccountedFrame(s2, Pick(s));
  }

  lemma DataPickAccounted(s: State, c: Class)
    requires s.active.None? && s.terminal.None? && NextClass(s) == Some(c) && c != Control
    requires Accounted(Charged(s))
    ensures Accounted(Pick(s))
  {
    var s1 := Charged(s);
    ShortenAccounted(s1, c, s1.queues.At(c)[1..]);
    AccountedFrame(Shorten(s1, c, s1.queues.At(c)[1..]), Pick(s));
  }

  lemma PickKeeps(s: State)
    requires Inv(s)
    ensures Inv(Pick(s))
  {
    if s.terminal.None? && s.active.None? && NextClass(s).Some? {
      var c := NextClass(s).value;
      PickAccounted(s);
      TakenShape(s, c);
      PickFrame(s);
      PickedShape(Taken(s, c), Pick(s), c);
    }
  }

  lemma PickedShape(s: State, s': State, c: Class)
    requires Shape(s, c) && BlockedAt(s, c)
    requires s' == s.(outer := s'.outer, inner := s'.inner, burst := s'.burst)
    requires Accounted(s')
    ensures Inv(s')
  {
    forall k: Class ensures CountedAt(s', k) && BlockedAt(s', k) {
      assert CountedAt(s, k);
      assert k != c ==> BlockedAt(s, k);
    }
  }

  lemma ReleasedShape(s: State)
    requires Inv(s) && s.active.Some?
    ensures Shape(Released(s), s.active.value.cls)
  {
    var s' := Released(s);
    forall k: Class ensures CountedAt(s', k) && (k != s.active.value.cls ==> BlockedAt(s', k)) {
      assert CountedAt(s, k) && BlockedAt(s, k);
    }
  }

  lemma WrittenKeeps(s: State, e: Option<Error>)
    requires Inv(s)
    ensures Inv(Written(s, e))
  {
    if s.active.Some? {
      var r := s.active.value;
      var s1 := Released(s);
      ReleasedShape(s);
      SameDemand(s, s1);
      if e.Some? {
        WriteFailedKeeps(s1, r.cls, e.value);
      } else if s1.terminal.None? {
        AdmitWaitersKeeps(s1, r.cls);
      } else {
        assert BlockedAt(s1, r.cls);
      }
    }
  }

  lemma WriteFailedKeeps(s: State, c: Class, e: Error)
    requires Shape(s, c) && Accounted(s)
    ensures Inv(Fail(s, e))
  {
    forall k: Class ensures CountedAt(Fail(s, e), k) && BlockedAt(Fail(s, e), k) {
      assert CountedAt(s, k);
    }
  }
}
