/**
 The agent's scheduler. Every method is one critical section of the original or a helper that runs
 inside one, and is proved against the value-level steps; `pump` is the goroutine that writes.
 */
module GoScheduler {
  import opened Basics
  import opened Traffic
  import opened SchedulerModel
  import opened SchedulerRuns
  import opened SchedulerOrder
  import Runs
  import D = Drr

  /** Where the pump goroutine is: about to look for work, inside the writer, asleep on the notify
      channel of some generation, or gone. */
  datatype Pump = Ready | Writing | Asleep(on: nat) | Stopped

  datatype Ticket = Queued | Waiting

  /** The checks a send makes before it takes the lock, in their order. */
  function Validate(cls: nat, kind: nat, payload: Bytes, cancelled: bool): (r: Result<(Class, Kind), Error>)
    ensures r.Ok? <==>
      && cls < 4 && kind in {1, 2} && !cancelled
      && 0 < |payload| <= [8388608, 524288, 2097152, 262144][cls]
    ensures r.Ok? ==>
      && r.value.0 == [Control, Interactive, Thumbnail, Bulk][cls]
      && r.value.1 == (if kind == 1 then Text else Binary)
  {
    match ClassOfCode(cls)
    case None => Err(UnknownClass)
    case Some(c) =>
      if |payload| > Cap(c) then Err(TooLarge)
      else match KindOfCode(kind)
        case None => Err(UnknownKind)
        case Some(k) =>
          if |payload| == 0 then Err(EmptyPayload)
          else if cancelled then Err(Aborted)
          else Ok((c, k))
  }

  lemma {:induction false} RemoveAt(rs: seq<Request>, r: Request, i: nat)
    requires i < |rs| && rs[i] == r && r !in rs[..i]
    ensures Remove(rs, r) == rs[..i] + rs[i + 1..]
  {
    if i > 0 {
      assert rs[0] == rs[..i][0];
      assert rs[1..][..i - 1] == rs[..i][1..];
      RemoveAt(rs[1..], r, i - 1);
      assert rs[1..][i..] == rs[i + 1..];
    }
  }

  /** The loop state of a round robin that will still serve what `start` serves. */
  predicate SamePick(d: D.Drr, start: D.Drr, h: D.Heads)
    requires h.Any()
  {
    d.started && D.Clean(d, h) && D.Winner(d, h) == D.Winner(start, h) && D.Serve(d, h) == D.Serve(start, h)
  }

  /** The requests at the heads of the media queues are media requests of those classes. */
  predicate HeadsPlaced(q: Queues) {
    && (q.At(Interactive) != [] ==> q.At(Interactive)[0].cls == Interactive)
    && (q.At(Thumbnail) != [] ==> q.At(Thumbnail)[0].cls == Thumbnail)
  }

  lemma NothingQueued(s: State)
    requires NextClass(s).None?
    ensures s.queues == NO_REQUESTS
  {}

  lemma WaiterGonePlaced(s: State, r: Request)
    requires r in s.waiters.At(r.cls) && PlacedAt(s.waiters.At(r.cls), r.cls)
    ensures PlacedAt(WaiterGone(s, r).waiters.At(r.cls), r.cls)
  {
    RemovedPlaced(s.waiters.At(r.cls), r, r.cls);
    ResetFrame(s.(waiters := s.waiters.With(r.cls, Remove(s.waiters.At(r.cls), r))), r.cls);
  }

  /** A request that has not arrived is not in any queue. */
  lemma NewToQueue(es: seq<Event>, r: Request)
    requires r.id !in Ids(Run(START, es).arrived)
    ensures r !in Run(START, es).s.queues.At(r.cls)
  {
    var w := Run(START, es);
    EveryRun(es);
    if r in w.s.queues.At(r.cls) {
      assert OnceFor(w, r.id);
      CountPositive(w.s.queues.At(r.cls), r.id);
      CountPositive(w.arrived, r.id);
      AllPendingAtLeast(w.s, r.cls, r.id);
    }
  }

  lemma AllPendingAtLeast(s: State, c: Class, id: nat)
    ensures AllPendingCount(s, id) >= Count(s.queues.At(c), id)
  {
    match c {
      case Control =>
      case Interactive =>
      case Thumbnail =>
      case Bulk =>
    }
  }

  class Scheduler {
    var queues: Queues
    var bytes: Tally
    var admissionWaiters: Queues
    var notify: nat            // generation of the channel that a signal closes and replaces
    var terminal: Option<Error>
    var active: Option<Request>
    var controlBurst: nat
    var outer: D.Drr           // outerCurrent, outerDeficit, outerStarted
    var inner: D.Drr           // innerCurrent, innerDeficit, innerStarted
    var pump: Pump
    ghost var history: seq<Event>  // the critical sections that have run so far

    ghost function Snapshot(): State
      reads this
    {
      State(queues, admissionWaiters, bytes, active, terminal, controlBurst, outer, inner)
    }

    /** The pump never sleeps on a channel that nobody has signalled while there is work. */
    ghost predicate Wakeful()
      reads this
    {
      && (pump.Writing? <==> active.Some?)
      && (pump.Asleep? ==> pump.on <= notify)
      && (pump.Asleep? && pump.on == notify ==> terminal.None? && queues == NO_REQUESTS)
      && (pump.Stopped? ==> terminal.Some?)
    }

    /** The scheduler is where the run of its history ends, so everything proved about all runs
        holds of it. */
    ghost predicate Valid()
      reads this
    {
      Snapshot() == World().s && Wakeful()
    }

    ghost function World(): World
      reads this`history
    {
      Run(START, history)
    }

    /** Records that critical section e has run. */
    ghost method Record(e: Event)
      requires e.Arrive? ==> Sendable(e.r) && e.r.id !in Ids(World().arrived)
      requires Snapshot() == After(World().s, e) && Wakeful()
      modifies this`history
      ensures Valid() && history == old(history) + [e]
    {
      StepIsAfter(World(), e);
      Runs.RunSnoc(Step, START, history, e);
      history := history + [e];
    }

    lemma WaitersPlaced(cls: Class)
      requires Snapshot() == World().s
      ensures PlacedAt(admissionWaiters.At(cls), cls)
    {
      EveryRun(history);
    }

    lemma ReadyToPick()
      requires Snapshot() == World().s && terminal.None? && active.None?
      ensures D.Clean(outer, OuterHeads(queues, inner)) && D.Clean(inner, InnerHeads(queues)) && HeadsPlaced(queues)
    {
      EveryRun(history);
      PickReady(Snapshot());
      assert PlacedAt(queues.At(Interactive), Interactive) && PlacedAt(queues.At(Thumbnail), Thumbnail);
    }

    constructor ()
      ensures Valid() && history == []
    {
      queues, admissionWaiters, bytes := NO_REQUESTS, NO_REQUESTS, NO_BYTES;
      notify, terminal, active, controlBurst := 0, None, None, 0;
      outer, inner, pump := D.IDLE, D.IDLE, Ready;
      history := [];
    }

    // ----- deficit round robin

    method AddOuterRoundLocked(ghost h: D.Heads)
      requires h.first.Some? == HasMedia(queues) && h.second.Some? == (queues.At(Bulk) != [])
      modifies this`outer
      ensures outer == D.AddRound(old(outer), h)
    {
      var has0 := queues.At(Interactive) != [] || queues.At(Thumbnail) != [];
      outer := outer.(deficit0 := if has0 then outer.deficit0 + 3 * D.BASE_QUANTUM else 0);
      outer := outer.(deficit1 := if |queues.At(Bulk)| > 0 then outer.deficit1 + D.BASE_QUANTUM else 0);
    }

    method AdvanceOuterLocked(ghost h: D.Heads)
      requires h.first.Some? == HasMedia(queues) && h.second.Some? == (queues.At(Bulk) != [])
      modifies this`outer
      ensures outer == D.Advance(old(outer), h)
    {
      outer := outer.(current := (outer.current + 1) % 2);
      if outer.current == 0 {
        AddOuterRoundLocked(h);
      }
    }

    method AddInnerRoundLocked()
      modifies this`inner
      ensures inner == D.AddRound(old(inner), InnerHeads(queues))
    {
      inner := inner.(deficit0 := if |queues.At(Interactive)| > 0 then inner.deficit0 + 3 * D.BASE_QUANTUM else 0);
      inner := inner.(deficit1 := if |queues.At(Thumbnail)| > 0 then inner.deficit1 + D.BASE_QUANTUM else 0);
    }

    method AdvanceInnerLocked()
      modifies this`inner
      ensures inner == D.Advance(old(inner), InnerHeads(queues))
    {
      inner := inner.(current := (inner.current + 1) % 2);
      if inner.current == 0 {
        AddInnerRoundLocked();
      }
    }

    /** Finds the media request to serve next and charges the inner level for it. */
    method PeekMediaLocked() returns (request: Option<Request>)
      requires D.Clean(inner, InnerHeads(queues))
      modifies this`inner
      ensures HasMedia(queues) ==>
        && request == Some(queues.At(MediaClass(queues, old(inner)))[0])
        && inner == MediaServed(queues, old(inner))
      ensures !HasMedia(queues) ==> request == None
    {
      ghost var h := InnerHeads(queues);
      ghost var d0 := D.Begin(inner, h);
      if !inner.started {
        AddInnerRoundLocked();
        inner := inner.(started := true);
      }
      while queues.At(Interactive) != [] || queues.At(Thumbnail) != []
        invariant h.Any() ==> SamePick(inner, d0, h)
        decreases if h.Any() then D.VisitsLeft(inner, h) else 0
      {
        var cls := if inner.current == 1 then Thumbnail else Interactive;
        if queues.At(cls) == [] {
          D.VisitKeepsPick(inner, h);
          inner := if inner.current == 0 then inner.(deficit0 := 0) else inner.(deficit1 := 0);
          AdvanceInnerLocked();
        } else {
          var head := queues.At(cls)[0];
          if |head.payload| <= (if inner.current == 0 then inner.deficit0 else inner.deficit1) {
            D.VisitServes(inner, h);
            inner := if inner.current == 0 then inner.(deficit0 := inner.deficit0 - |head.payload|)
                     else inner.(deficit1 := inner.deficit1 - |head.payload|);
            return Some(head);
          }
          D.VisitKeepsPick(inner, h);
          AdvanceInnerLocked();
        }
      }
      return None;
    }

    /** Runs the outer loop until a class can be served and charges for its head. A candidate the
        outer level cannot afford is put back by restoring the inner level. The loop ends: each
        visit uses up one of the closed form's visits. */
    method ChooseDataLocked(ghost h: D.Heads) returns (cls: Class)
      requires HasData(queues) && HeadsPlaced(queues) && h == OuterHeads(queues, inner)
      requires D.Clean(outer, h) && D.Clean(inner, InnerHeads(queues))
      modifies this`outer, this`inner
      ensures outer == D.Serve(D.Begin(old(outer), h), h)
      ensures if D.Winner(D.Begin(old(outer), h), h) == 0
              then cls == MediaClass(queues, old(inner)) && inner == MediaServed(queues, old(inner))
              else cls == Bulk && inner == old(inner)
    {
      ghost var start := D.Begin(outer, h);
      if !outer.started {
        AddOuterRoundLocked(h);
        outer := outer.(started := true);
      }
      while true
        invariant inner == old(inner) && SamePick(outer, start, h)
        decreases D.VisitsLeft(outer, h)
      {
        if outer.current == 0 {
          if queues.At(Interactive) == [] && queues.At(Thumbnail) == [] {
            D.VisitKeepsPick(outer, h);
            outer := outer.(deficit0 := 0);
            AdvanceOuterLocked(h);
            continue;
          }
          var saved := inner;
          var candidate := PeekMediaLocked();
          if |candidate.value.payload| <= outer.deficit0 {
            D.VisitServes(outer, h);
            outer := outer.(deficit0 := outer.deficit0 - |candidate.value.payload|);
            return candidate.value.cls;
          }
          inner := saved;
          D.VisitKeepsPick(outer, h);
          AdvanceOuterLocked(h);
          continue;
        }
        if queues.At(Bulk) == [] {
          D.VisitKeepsPick(outer, h);
          outer := outer.(deficit1 := 0);
          AdvanceOuterLocked(h);
          continue;
        }
        if |queues.At(Bulk)[0].payload| <= outer.deficit1 {
          D.VisitServes(outer, h);
          outer := outer.(deficit1 := outer.deficit1 - |queues.At(Bulk)[0].payload|);
          return Bulk;
        }
        D.VisitKeepsPick(outer, h);
        AdvanceOuterLocked(h);
      }
    }

    method NextDataLocked() returns (request: Request)
      requires HasData(queues) && HeadsPlaced(queues)
      requires D.Clean(outer, OuterHeads(queues, inner)) && D.Clean(inner, InnerHeads(queues))
      modifies this`outer, this`inner, this`queues
      ensures (request, Snapshot()) == Pop(Charged(old(Snapshot())), DataClass(old(Snapshot())))
    {
      var cls := ChooseDataLocked(OuterHeads(queues, inner));
      assert Snapshot() == Charged(old(Snapshot())) && cls == DataClass(old(Snapshot()));
      request := PopLocked(cls);
    }

    method PopLocked(cls: Class) returns (request: Request)
      requires queues.At(cls) != []
      modifies this`outer, this`inner, this`queues
      ensures (request, Snapshot()) == Pop(old(Snapshot()), cls)
    {
      request := queues.At(cls)[0];
      queues := queues.With(cls, queues.At(cls)[1..]);
      if queues.At(cls) == [] {
        ResetEmptyLaneLocked(cls);
      }
    }

    predicate HasClassDemandLocked(cls: Class)
      reads this
      ensures HasClassDemandLocked(cls) == Demand(Snapshot(), cls)
    {
      |queues.At(cls)| > 0 || |admissionWaiters.At(cls)| > 0
    }

    predicate HasMediaDemandLocked()
      reads this
      ensures HasMediaDemandLocked() == MediaDemand(Snapshot())
    {
      HasClassDemandLocked(Interactive) || HasClassDemandLocked(Thumbnail)
    }

    method ResetEmptyLaneLocked(cls: Class)
      modifies this`outer, this`inner
      ensures Snapshot() == ResetEmptyLane(old(Snapshot()), cls)
    {
      if !HasClassDemandLocked(cls) {
        match cls {
          case Interactive => inner := inner.(deficit0 := 0);
          case Thumbnail => inner := inner.(deficit1 := 0);
          case Bulk => outer := outer.(deficit1 := 0);
          case Control =>
        }
      }
      if !HasMediaDemandLocked() {
        outer := outer.(deficit0 := 0);
        inner := D.IDLE;
      }
      if !HasMediaDemandLocked() && !HasClassDemandLocked(Bulk) {
        outer := D.IDLE;
      }
    }

    method NextLocked() returns (request: Option<Request>)
      requires HeadsPlaced(queues)
      requires D.Clean(outer, OuterHeads(queues, inner)) && D.Clean(inner, InnerHeads(queues))
      modifies this`outer, this`inner, this`queues, this`controlBurst
      ensures (request, Snapshot()) == Next(old(Snapshot()))
    {
      var dataWaiting := queues.At(Interactive) != [] || queues.At(Thumbnail) != [] || |queues.At(Bulk)| > 0;
      if |queues.At(Control)| > 0 && (controlBurst < CONTROL_BURST_LIMIT || !dataWaiting) {
        controlBurst := controlBurst + 1;
        var r := PopLocked(Control);
        return Some(r);
      }
      if dataWaiting {
        // The data scheduler always finds a request here, so the original's last resort of
        // popping control after it comes back empty-handed is never taken.
        var r := NextDataLocked();
        controlBurst := 0;
        return Some(r);
      }
      return None;
    }

    // ----- admission

    method SignalLocked()
      modifies this`notify
      ensures notify == old(notify) + 1
    {
      notify := notify + 1;
    }

    method EnqueueLocked(r: Request)
      modifies this`bytes, this`queues, this`notify
      ensures Snapshot() == Enqueue(old(Snapshot()), r) && notify == old(notify) + 1
    {
      bytes := bytes.With(r.cls, bytes.At(r.cls) + |r.payload|);
      queues := queues.With(r.cls, queues.At(r.cls) + [r]);
      SignalLocked();
    }

    method MoveWaiterLocked(cls: Class)
      requires admissionWaiters.At(cls) != [] && admissionWaiters.At(cls)[0].cls == cls
      modifies this`bytes, this`queues, this`admissionWaiters, this`notify
      ensures Snapshot() == MoveWaiter(old(Snapshot()), cls) && notify == old(notify) + 1
    {
      var waiter := admissionWaiters.At(cls)[0];
      admissionWaiters := admissionWaiters.With(cls, admissionWaiters.At(cls)[1..]);
      EnqueueLocked(waiter);
    }

    /** Admits waiters, oldest first, while they fit. */
    method AdmitWaitersLocked(cls: Class)
      requires PlacedAt(admissionWaiters.At(cls), cls)
      modifies this`bytes, this`queues, this`admissionWaiters, this`notify
      ensures Snapshot() == AdmitWaiters(old(Snapshot()), cls)
      ensures notify >= old(notify) && (notify == old(notify) ==> queues == old(queues))
    {
      ghost var goal := AdmitWaiters(Snapshot(), cls);
      while |admissionWaiters.At(cls)| > 0 && bytes.At(cls) + |admissionWaiters.At(cls)[0].payload| <= Cap(cls)
        invariant PlacedAt(admissionWaiters.At(cls), cls)
        invariant AdmitWaiters(Snapshot(), cls) == goal
        invariant notify >= old(notify) && (notify == old(notify) ==> queues == old(queues))
        decreases |admissionWaiters.At(cls)|
      {
        ghost var s := Snapshot();
        MoveWaiterLocked(cls);
        assert Snapshot() == MoveWaiter(s, cls);
      }
    }

    method RemoveAdmissionWaiterLocked(want: Request) returns (removed: bool)
      modifies this`admissionWaiters, this`outer, this`inner
      ensures removed == (want in old(admissionWaiters.At(want.cls)))
      ensures Snapshot() == if removed then WaiterGone(old(Snapshot()), want) else old(Snapshot())
    {
      var waiters := admissionWaiters.At(want.cls);
      for i := 0 to |waiters|
        invariant want !in waiters[..i]
        invariant Snapshot() == old(Snapshot())
      {
        if waiters[i] == want {
          RemoveAt(waiters, want, i);
          admissionWaiters := admissionWaiters.With(want.cls, waiters[..i] + waiters[i + 1..]);
          if |queues.At(want.cls)| == 0 {
            ResetEmptyLaneLocked(want.cls);
          }
          return true;
        }
      }
      return false;
    }

    method RemoveQueuedLocked(want: Request) returns (removed: bool)
      modifies this`queues, this`outer, this`inner
      ensures removed == (want in old(queues.At(want.cls)))
      ensures Snapshot() == if removed then Shorten(old(Snapshot()), want.cls, Remove(old(queues.At(want.cls)), want))
                            else old(Snapshot())
    {
      var queue := queues.At(want.cls);
      for i := 0 to |queue|
        invariant want !in queue[..i]
        invariant Snapshot() == old(Snapshot())
      {
        if queue[i] == want {
          RemoveAt(queue, want, i);
          queues := queues.With(want.cls, queue[..i] + queue[i + 1..]);
          if |queues.At(want.cls)| == 0 {
            ResetEmptyLaneLocked(want.cls);
          }
          return true;
        }
      }
      return false;
    }

    /** Every waiter is told the error; `told` are those it is sent to. */
    method FailAdmissionWaitersLocked() returns (told: Queues)
      modifies this`admissionWaiters
      ensures admissionWaiters == NO_REQUESTS && told == old(admissionWaiters)
    {
      told := admissionWaiters;
      admissionWaiters := admissionWaiters.With(Control, []);
      admissionWaiters := admissionWaiters.With(Interactive, []);
      admissionWaiters := admissionWaiters.With(Thumbnail, []);
      admissionWaiters := admissionWaiters.With(Bulk, []);
    }

    /** Every queued request is told the error and gives up its bytes; the order of the classes does
        not matter. */
    method FailQueuedLocked() returns (told: Queues)
      modifies this`queues, this`bytes
      ensures queues == NO_REQUESTS
      ensures forall c: Class :: told.At(c) == old(queues).At(c)
      ensures forall c: Class :: bytes.At(c) == old(bytes).At(c) - Total(old(queues).At(c))
    {
      var control := FailQueueLocked(Control);
      var interactive := FailQueueLocked(Interactive);
      var thumbnail := FailQueueLocked(Thumbnail);
      var bulk := FailQueueLocked(Bulk);
      told := PerClass(control, interactive, thumbnail, bulk);
      forall c: Class
        ensures queues.At(c) == [] && told.At(c) == old(queues).At(c)
        ensures bytes.At(c) == old(bytes).At(c) - Total(old(queues).At(c))
      {
        match c {
          case Control =>
          case Interactive =>
          case Thumbnail =>
          case Bulk =>
        }
      }
    }

    method FailQueueLocked(cls: Class) returns (told: seq<Request>)
      modifies this`queues, this`bytes
      ensures queues == old(queues).With(cls, []) && told == old(queues).At(cls)
      ensures bytes == old(bytes).With(cls, old(bytes).At(cls) - Total(old(queues).At(cls)))
    {
      var queue := queues.At(cls);
      told := [];
      for i := 0 to |queue|
        invariant queues == old(queues) && told == queue[..i]
        invariant bytes == old(bytes).With(cls, old(bytes.At(cls)) - Total(queue[..i]))
      {
        bytes := bytes.With(cls, bytes.At(cls) - |queue[i].payload|);
        told := told + [queue[i]];
        TotalSnoc(queue[..i], queue[i]);
        assert queue[..i + 1] == queue[..i] + [queue[i]];
      }
      assert queue[..|queue|] == queue;
      queues := queues.With(cls, []);
    }

    /** `told` are all those who get the error: everything queued or waiting, as the notices of the
        value-level step have it. */
    method FailLocked(e: Error) returns (told: seq<Request>)
      requires terminal.None?
      modifies this`terminal, this`admissionWaiters, this`queues, this`bytes
      ensures Snapshot() == Fail(old(Snapshot()), e) && told == AllPending(old(Snapshot()))
    {
      terminal := Some(e);
      var waiters := FailAdmissionWaitersLocked();
      var queued := FailQueuedLocked();
      told := (queued.At(Control) + waiters.At(Control)) + (queued.At(Interactive) + waiters.At(Interactive))
              + (queued.At(Thumbnail) + waiters.At(Thumbnail)) + (queued.At(Bulk) + waiters.At(Bulk));
    }

    // ----- the critical sections of a sender

    /** The start of Send, up to the point where it waits: validation, then under the lock either
        a place in the queue or a place in the waiting list. The id is a new request's identity. */
    method Send(cls: nat, kind: nat, payload: Bytes, cancelled: bool, id: nat) returns (res: Result<Ticket, Error>)
      requires Valid() && id !in Ids(World().arrived)
      modifies this
      ensures Valid()
      ensures var v := Validate(cls, kind, payload, cancelled);
        match v {
          case Err(e) => res == Err(e) && history == old(history)
          case Ok(ck) =>
            var r := Request(id, ck.0, ck.1, payload);
            && history == old(history) + [Arrive(r)]
            && (if old(terminal).Some? then res == Err(old(terminal).value)
                else res == Ok(if r in queues.At(r.cls) then Queued else Waiting))
        }
    {
      match Validate(cls, kind, payload, cancelled) {
        case Err(e) => return Err(e);
        case Ok(ck) =>
          var r := Request(id, ck.0, ck.1, payload);
          if terminal.Some? {
            Record(Arrive(r));
            return Err(terminal.value);
          }
          NewToQueue(history, r);
          if admissionWaiters.At(r.cls) == [] && bytes.At(r.cls) + |payload| <= Cap(r.cls) {
            EnqueueLocked(r);
            res := Ok(Queued);
          } else {
            admissionWaiters := admissionWaiters.With(r.cls, admissionWaiters.At(r.cls) + [r]);
            res := Ok(Waiting);
          }
          Record(Arrive(r));
      }
    }

    /** Nothing that could wake the pump has happened behind its back. */
    twostate predicate Signalled()
      reads this
    {
      && pump == old(pump) && terminal == old(terminal) && active == old(active) && notify >= old(notify)
      && (notify == old(notify) && old(queues) == NO_REQUESTS ==> queues == NO_REQUESTS)
    }

    method WithdrawWaiterLocked(r: Request) returns (removed: bool)
      requires PlacedAt(admissionWaiters.At(r.cls), r.cls)
      modifies this`queues, this`bytes, this`admissionWaiters, this`outer, this`inner, this`notify
      ensures removed == (r in old(admissionWaiters.At(r.cls)))
      ensures Snapshot() == CancelWaiting(old(Snapshot()), r) && Signalled()
    {
      ghost var s := Snapshot();
      removed := RemoveAdmissionWaiterLocked(r);
      if removed {
        WaiterGonePlaced(s, r);
        AdmitWaitersLocked(r.cls);
      }
    }

    /** A waiting sender gives up. */
    method GiveUpWaiting(r: Request) returns (removed: bool)
      requires Valid()
      modifies this
      ensures Valid() && history == old(history) + [CancelWaiter(r)] && removed == (r in old(admissionWaiters.At(r.cls)))
    {
      WaitersPlaced(r.cls);
      removed := WithdrawWaiterLocked(r);
      Record(CancelWaiter(r));
    }

    method WithdrawQueuedLocked(r: Request) returns (removed: bool)
      requires PlacedAt(admissionWaiters.At(r.cls), r.cls)
      modifies this`queues, this`bytes, this`admissionWaiters, this`outer, this`inner, this`notify
      ensures removed == (r in old(queues.At(r.cls)))
      ensures Snapshot() == CancelQueued(old(Snapshot()), r) && Signalled()
    {
      ghost var s := Snapshot();
      removed := RemoveQueuedLocked(r);
      if removed {
        ghost var s1 := Snapshot();
        bytes := bytes.With(r.cls, bytes.At(r.cls) - |r.payload|);
        assert Snapshot() == s1.(bytes := bytes);
        WithdrawFrame(s, r);
        AdmitWaitersLocked(r.cls);
      }
    }

    /** A queued sender gives up. */
    method GiveUpQueued(r: Request) returns (removed: bool)
      requires Valid()
      modifies this
      ensures Valid() && history == old(history) + [CancelQueue(r)] && removed == (r in old(queues.At(r.cls)))
    {
      WaitersPlaced(r.cls);
      removed := WithdrawQueuedLocked(r);
      Record(CancelQueue(r));
    }

    method CloseLocked()
      modifies this`terminal, this`admissionWaiters, this`queues, this`bytes, this`notify
      ensures Snapshot() == Fail(old(Snapshot()), Closed)
      ensures old(Wakeful()) ==> Wakeful()
    {
      if terminal.None? {
        var _ := FailLocked(Closed);
        SignalLocked();
      }
    }

    /** Close may be called again and again; only the first call has an effect. */
    method CloseScheduler()
      requires Valid()
      modifies this
      ensures Valid() && history == old(history) + [Event.Close]
    {
      CloseLocked();
      Record(Event.Close);
    }

    // ----- the pump goroutine

    /** Looks for work with the lock held. */
    method PickLocked() returns (request: Option<Request>)
      requires terminal.None? && active.None?
      requires D.Clean(outer, OuterHeads(queues, inner)) && D.Clean(inner, InnerHeads(queues)) && HeadsPlaced(queues)
      modifies this`outer, this`inner, this`queues, this`controlBurst, this`active
      ensures Snapshot() == Pick(old(Snapshot())) && request == active
      ensures request.None? ==> queues == NO_REQUESTS
    {
      ghost var s := Snapshot();
      request := NextLocked();
      active := request;
      if request.None? {
        NothingQueued(s);
      }
    }

    /** One turn of the pump: it starts a write, falls asleep or stops. */
    method PumpTurn()
      requires Valid() && !pump.Writing? && !pump.Stopped?
      requires pump.Asleep? ==> pump.on != notify
      modifies this
      ensures Valid()
      ensures old(terminal).None? ==> history == old(history) + [PickNext]
      ensures old(terminal).Some? ==> pump == Stopped && history == old(history)
      ensures old(terminal).None? ==> pump == if active.Some? then Writing else Asleep(notify)
    {
      if terminal.Some? {
        pump := Stopped;
        return;
      }
      ReadyToPick();
      ghost var s := Snapshot();
      var request := PickLocked();
      assert Snapshot() == Pick(s) == After(s, PickNext);
      pump := if request.Some? then Writing else Asleep(notify);
      Record(PickNext);
    }

    method ReleaseLocked(err: Option<Error>)
      requires active.Some? && PlacedAt(admissionWaiters.At(active.value.cls), active.value.cls)
      modifies this`active, this`bytes, this`queues, this`admissionWaiters, this`terminal, this`notify
      ensures Snapshot() == Written(old(Snapshot()), err) && notify >= old(notify) && active.None?
    {
      var request := active.value;
      active := None;
      bytes := bytes.With(request.cls, bytes.At(request.cls) - |request.payload|);
      assert Snapshot() == Released(old(Snapshot()));
      if err.Some? && terminal.None? {
        var _ := FailLocked(err.value);
      } else if err.None? && terminal.None? {
        AdmitWaitersLocked(request.cls);
      }
    }

    /** The writer has returned. */
    method WriteReturned(err: Option<Error>)
      requires Valid() && pump.Writing?
      modifies this
      ensures Valid() && history == old(history) + [WriteDone(err)] && pump == Ready
    {
      WaitersPlaced(active.value.cls);
      ghost var s := Snapshot();
      ReleaseLocked(err);
      assert Snapshot() == Written(s, err) == After(s, WriteDone(err));
      SignalLocked();
      pump := Ready;
      Record(WriteDone(err));
    }
  }
}
