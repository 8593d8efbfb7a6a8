/**
 The browser's scheduler. It runs on one thread: every method below is what happens between two
 turns of the event loop. It performs the same steps as the agent's scheduler, so equal states give
 equal picks and equal successors; what is its own is how the pump is woken.
 */
module LaneScheduler {
  import opened Basics
  import opened Traffic
  import opened SchedulerModel
  import opened SchedulerRuns
  import opened SchedulerOrder
  import opened GoScheduler
  import Runs
  import D = Drr

  function ClassOfName(name: string): Option<Class> {
    if name == "control" then Some(Control)
    else if name == "interactive-media" then Some(Interactive)
    else if name == "thumbnail" then Some(Thumbnail)
    else if name == "bulk" then Some(Bulk)
    else None
  }

  /** The checks of a send in the browser's order, those on the scheduler and the signal last. */
  function ValidateSend(name: string, kind: nat, payload: Bytes): (r: Result<(Class, Kind), Error>)
    ensures var limit := if name == "control" then 8388608 else if name == "interactive-media" then 524288
                         else if name == "thumbnail" then 2097152 else if name == "bulk" then 262144 else 0;
      r.Ok? <==> kind in {1, 2} && 0 < |payload| <= limit
    ensures r.Ok? ==>
      && r.value.1 == (if kind == 1 then Text else Binary)
      && r.value.0 == (if name == "control" then Control else if name == "interactive-media" then Interactive
                       else if name == "thumbnail" then Thumbnail else Bulk)
  {
    match ClassOfName(name)
    case None => Err(UnknownClass)
    case Some(c) =>
      match KindOfCode(kind)
      case None => Err(UnknownKind)
      case Some(k) =>
        if |payload| == 0 then Err(EmptyPayload)
        else if |payload| > Cap(c) then Err(TooLarge)
        else Ok((c, k))
  }

  /** Cancelling a waiter here admits the other waiters before it resets an empty lane. */
  function CancelWaitingHere(s: State, r: Request): State {
    if r !in s.waiters.At(r.cls) then s
    else
      var s1 := AdmitWaiters(s.(waiters := s.waiters.With(r.cls, Remove(s.waiters.At(r.cls), r))), r.cls);
      if s1.queues.At(r.cls) == [] then ResetEmptyLane(s1, r.cls) else s1
  }

  /** A reset takes nothing away while its class still has demand. */
  lemma ResetNothing(s: State, c: Class)
    requires Settled(s) && Demand(s, c)
    ensures ResetEmptyLane(s, c) == s
  {}

  lemma {:induction false} AdmitKeepsQueue(s: State, c: Class)
    requires s.queues.At(c) != []
    ensures AdmitWaiters(s, c).queues.At(c) != []
    decreases |s.waiters.At(c)|
  {
    if s.waiters.At(c) != [] && s.bytes.At(c) + |s.waiters.At(c)[0].payload| <= Cap(c) {
      AdmitKeepsQueue(MoveWaiter(s, c), c);
    }
  }

  lemma AdmitKeepsDemand(s: State, c: Class)
    requires Accounted(s)
    ensures Accounted(AdmitWaiters(s, c)) && Demand(AdmitWaiters(s, c), c) == Demand(s, c)
    ensures AdmitWaiters(s, c).terminal == s.terminal
  {
    AdmitWaitersPending(s, c);
    AdmitFrame(s, c);
    forall k: Class ensures Demand(AdmitWaiters(s, c), k) == Demand(s, k) {
      assert Pending(AdmitWaiters(s, c), k) == Pending(s, k);
    }
    SameDemand(s, AdmitWaiters(s, c));
  }

  lemma {:induction false} AdmitFrame(s: State, c: Class)
    ensures AdmitWaiters(s, c).outer == s.outer && AdmitWaiters(s, c).inner == s.inner
    decreases |s.waiters.At(c)|
  {
    if s.waiters.At(c) != [] && s.bytes.At(c) + |s.waiters.At(c)[0].payload| <= Cap(c) {
      AdmitFrame(MoveWaiter(s, c), c);
    }
  }

  /** The two orders of cancelling a waiter come to the same. */
  lemma CancelOrders(s: State, r: Request)
    requires Inv(s)
    ensures CancelWaitingHere(s, r) == CancelWaiting(s, r)
  {
    var c := r.cls;
    if r in s.waiters.At(c) {
      var s1 := s.(waiters := s.waiters.With(c, Remove(s.waiters.At(c), r)));
      if s1.queues.At(c) != [] {
        AdmitKeepsQueue(s1, c);
      } else if s1.waiters.At(c) != [] {
        assert s.terminal.None?;
        SameDemand(s, s1);
        ResetNothing(s1, c);
        AdmitKeepsDemand(s1, c);
        ResetNothing(AdmitWaiters(s1, c), c);
      } else {
        ResetFrame(s1, c);
      }
    }
  }

  class LaneScheduler {
    var queues: Queues
    var bytes: Tally
    var waiting: Queues
    var terminal: Option<Error>
    var active: Option<Request>
    var pumpScheduled: bool
    var controlBurst: nat
    var outer: D.Drr
    var inner: D.Drr
    ghost var history: seq<Event>

    ghost function Snapshot(): State
      reads this
    {
      State(queues, waiting, bytes, active, terminal, controlBurst, outer, inner)
    }

    ghost function World(): World
      reads this`history
    {
      Run(START, history)
    }

    /** Work in a live queue implies a write under way or a pump scheduled. */
    ghost predicate Pumping()
      reads this
    {
      terminal.None? && queues != NO_REQUESTS ==> active.Some? || pumpScheduled
    }

    ghost predicate Valid()
      reads this
    {
      Snapshot() == World().s && Pumping()
    }

    ghost method Record(e: Event)
      requires e.Arrive? ==> Sendable(e.r) && e.r.id !in Ids(World().arrived)
      requires Snapshot() == After(World().s, e) && Pumping()
      modifies this`history
      ensures Valid() && history == old(history) + [e]
    {
      StepIsAfter(World(), e);
      Runs.RunSnoc(Step, START, history, e);
      history := history + [e];
    }

    lemma Reached()
      requires Snapshot() == World().s
      ensures Inv(Snapshot())
      ensures forall c: Class :: PlacedAt(waiting.At(c), c)
    {
      EveryRun(history);
    }

    lemma ReadyToPick()
      requires Snapshot() == World().s && terminal.None? && active.None?
      ensures D.Clean(outer, OuterHeads(queues, inner)) && D.Clean(inner, InnerHeads(queues)) && HeadsPlaced(queues)
    {
      EveryRun(history);
      PickReady(Snapshot());
      assert PlacedAt(queues.At(Interactive), Interactive) && PlacedAt(queues.At(Thumbnail), Thumbnail);
    }

    constructor ()
      ensures Valid() && history == []
    {
      queues, waiting, bytes := NO_REQUESTS, NO_REQUESTS, NO_BYTES;
      terminal, active, pumpScheduled, controlBurst := None, None, false, 0;
      outer, inner := D.IDLE, D.IDLE;
      history := [];
    }

    predicate HasMediaHere()
      reads this
      ensures HasMediaHere() == HasMedia(queues)
    {
      |queues.At(Interactive)| > 0 || |queues.At(Thumbnail)| > 0
    }

    method AddOuterRound(ghost h: D.Heads)
      requires h.first.Some? == HasMedia(queues) && h.second.Some? == (queues.At(Bulk) != [])
      modifies this`outer
      ensures outer == D.AddRound(old(outer), h)
    {
      outer := outer.(
        deficit0 := if HasMediaHere() then outer.deficit0 + 3 * D.BASE_QUANTUM else 0,
        deficit1 := if queues.At(Bulk) != [] then outer.deficit1 + D.BASE_QUANTUM else 0);
    }

    method AdvanceOuter(ghost h: D.Heads)
      requires h.first.Some? == HasMedia(queues) && h.second.Some? == (queues.At(Bulk) != [])
      modifies this`outer
      ensures outer == D.Advance(old(outer), h)
    {
      outer := outer.(current := (outer.current + 1) % 2);
      if outer.current == 0 { AddOuterRound(h); }
    }

    method AddInnerRound()
      modifies this`inner
      ensures inner == D.AddRound(old(inner), InnerHeads(queues))
    {
      inner := inner.(
        deficit0 := if queues.At(Interactive) != [] then inner.deficit0 + 3 * D.BASE_QUANTUM else 0,
        deficit1 := if queues.At(Thumbnail) != [] then inner.deficit1 + D.BASE_QUANTUM else 0);
    }

    method AdvanceInner()
      modifies this`inner
      ensures inner == D.Advance(old(inner), InnerHeads(queues))
    {
      inner := inner.(current := (inner.current + 1) % 2);
      if inner.current == 0 { AddInnerRound(); }
    }

    method PeekMedia() returns (request: Option<Request>)
      requires D.Clean(inner, InnerHeads(queues))
      modifies this`inner
      ensures HasMedia(queues) ==>
        && request == Some(queues.At(MediaClass(queues, old(inner)))[0])
        && inner == MediaServed(queues, old(inner))
      ensures !HasMedia(queues) ==> request == None
    {
      ghost var h := InnerHeads(queues);
      ghost var start := D.Begin(inner, h);
      if !inner.started {
        AddInnerRound();
        inner := inner.(started := true);
      }
      while HasMediaHere()
        invariant h.Any() ==> SamePick(inner, start, h)
        decreases if h.Any() then D.VisitsLeft(inner, h) else 0
      {
        var queue := queues.At(if inner.current == 0 then Interactive else Thumbnail);
        if queue == [] {
          D.VisitKeepsPick(inner, h);
          inner := if inner.current == 0 then inner.(deficit0 := 0) else inner.(deficit1 := 0);
          AdvanceInner();
          continue;
        }
        var n := |queue[0].payload|;
        if n <= (if inner.current == 0 then inner.deficit0 else inner.deficit1) {
          D.VisitServes(inner, h);
          inner := if inner.current == 0 then inner.(deficit0 := inner.deficit0 - n)
                   else inner.(deficit1 := inner.deficit1 - n);
          return Some(queue[0]);
        }
        D.VisitKeepsPick(inner, h);
        AdvanceInner();
      }
      return None;
    }

    method ChooseData(ghost h: D.Heads) returns (cls: Class)
      requires HasData(queues) && HeadsPlaced(queues) && h == OuterHeads(queues, inner)
      requires D.Clean(outer, h) && D.Clean(inner, InnerHeads(queues))
      modifies this`outer, this`inner
      ensures outer == D.Serve(D.Begin(old(outer), h), h)
      ensures if D.Winner(D.Begin(old(outer), h), h) == 0
              then cls == MediaClass(queues, old(inner)) && inner == MediaServed(queues, old(inner))
              else cls == Bulk && inner == old(inner)
    {
      ghost var start := D.Begin(outer, h);
      if !outer.started {
        AddOuterRound(h);
        outer := outer.(started := true);
      }
      while true
        invariant inner == old(inner) && SamePick(outer, start, h)
        decreases D.VisitsLeft(outer, h)
      {
        if outer.current == 0 {
          if !HasMediaHere() {
            D.VisitKeepsPick(outer, h);
            outer := outer.(deficit0 := 0);
            AdvanceOuter(h);
            continue;
          }
          var innerState := inner;
          var request := PeekMedia();
          if |request.value.payload| <= outer.deficit0 {
            D.VisitServes(outer, h);
            outer := outer.(deficit0 := outer.deficit0 - |request.value.payload|);
            return request.value.cls;
          }
          inner := innerState;
          D.VisitKeepsPick(outer, h);
          AdvanceOuter(h);
          continue;
        }
        var bulk := queues.At(Bulk);
        if bulk == [] {
          D.VisitKeepsPick(outer, h);
          outer := outer.(deficit1 := 0);
          AdvanceOuter(h);
          continue;
        }
        if |bulk[0].payload| <= outer.deficit1 {
          D.VisitServes(outer, h);
          outer := outer.(deficit1 := outer.deficit1 - |bulk[0].payload|);
          return Bulk;
        }
        D.VisitKeepsPick(outer, h);
        AdvanceOuter(h);
      }
    }

    method NextData() returns (request: Request)
      requires HasData(queues) && HeadsPlaced(queues)
      requires D.Clean(outer, OuterHeads(queues, inner)) && D.Clean(inner, InnerHeads(queues))
      modifies this`outer, this`inner, this`queues
      ensures (request, Snapshot()) == Pop(Charged(old(Snapshot())), DataClass(old(Snapshot())))
    {
      var cls := ChooseData(OuterHeads(queues, inner));
      assert Snapshot() == Charged(old(Snapshot())) && cls == DataClass(old(Snapshot()));
      request := PopHead(cls);
    }

    method NextRequest() returns (request: Option<Request>)
      requires HeadsPlaced(queues)
      requires D.Clean(outer, OuterHeads(queues, inner)) && D.Clean(inner, InnerHeads(queues))
      modifies this`outer, this`inner, this`queues, this`controlBurst
      ensures (request, Snapshot()) == Next(old(Snapshot()))
    {
      var dataWaiting := HasMediaHere() || queues.At(Bulk) != [];
      if queues.At(Control) != [] && (controlBurst < CONTROL_BURST_LIMIT || !dataWaiting) {
        controlBurst := controlBurst + 1;
        var r := PopHead(Control);
        return Some(r);
      }
      if dataWaiting {
        var r := NextData();
        controlBurst := 0;
        return Some(r);
      }
      return None;
    }

    method PopHead(cls: Class) returns (request: Request)
      requires queues.At(cls) != []
      modifies this`outer, this`inner, this`queues
      ensures (request, Snapshot()) == Pop(old(Snapshot()), cls)
    {
      request := queues.At(cls)[0];
      queues := queues.With(cls, queues.At(cls)[1..]);
      if queues.At(cls) == [] { ResetLane(cls); }
    }

    predicate HasClassDemand(cls: Class)
      reads this
      ensures HasClassDemand(cls) == Demand(Snapshot(), cls)
    {
      |queues.At(cls)| > 0 || |waiting.At(cls)| > 0
    }

    method ResetLane(cls: Class)
      modifies this`outer, this`inner
      ensures Snapshot() == ResetEmptyLane(old(Snapshot()), cls)
    {
      if !HasClassDemand(cls) {
        if cls == Interactive { inner := inner.(deficit0 := 0); }
        if cls == Thumbnail { inner := inner.(deficit1 := 0); }
        if cls == Bulk { outer := outer.(deficit1 := 0); }
      }
      var media := HasClassDemand(Interactive) || HasClassDemand(Thumbnail);
      if !media {
        outer := outer.(deficit0 := 0);
        inner := D.IDLE;
      }
      if !media && !HasClassDemand(Bulk) { outer := D.IDLE; }
    }

    // ----- admission

    method SchedulePump()
      modifies this`pumpScheduled
      ensures Pumping() && (old(pumpScheduled) ==> pumpScheduled)
    {
      if !pumpScheduled && active.None? && terminal.None? { pumpScheduled := true; }
    }

    method EnqueueRequest(r: Request)
      modifies this`queues, this`bytes, this`pumpScheduled
      ensures Snapshot() == Enqueue(old(Snapshot()), r) && Pumping()
    {
      bytes := bytes.With(r.cls, bytes.At(r.cls) + |r.payload|);
      queues := queues.With(r.cls, queues.At(r.cls) + [r]);
      SchedulePump();
    }

    method MoveFirst(cls: Class)
      requires waiting.At(cls) != [] && waiting.At(cls)[0].cls == cls
      modifies this`queues, this`bytes, this`waiting, this`pumpScheduled
      ensures Snapshot() == MoveWaiter(old(Snapshot()), cls) && Pumping()
    {
      var request := waiting.At(cls)[0];
      waiting := waiting.With(cls, waiting.At(cls)[1..]);
      EnqueueRequest(request);
    }

    method DrainAdmissions(cls: Class)
      requires PlacedAt(waiting.At(cls), cls)
      modifies this`queues, this`bytes, this`waiting, this`pumpScheduled
      ensures Snapshot() == AdmitWaiters(old(Snapshot()), cls) && (old(Pumping()) ==> Pumping())
    {
      ghost var goal := AdmitWaiters(Snapshot(), cls);
      while |waiting.At(cls)| > 0
        invariant PlacedAt(waiting.At(cls), cls) && AdmitWaiters(Snapshot(), cls) == goal
        invariant old(Pumping()) ==> Pumping()
        decreases |waiting.At(cls)|
      {
        if bytes.At(cls) + |waiting.At(cls)[0].payload| > Cap(cls) { break; }
        ghost var s := Snapshot();
        MoveFirst(cls);
        assert Snapshot() == MoveWaiter(s, cls);
      }
    }

    method Send(name: string, kind: nat, payload: Bytes, aborted: bool, id: nat) returns (res: Result<Ticket, Error>)
      requires Valid() && id !in Ids(World().arrived)
      modifies this
      ensures Valid()
      ensures var v := ValidateSend(name, kind, payload);
        if v.Err? then res == Err(v.error) && history == old(history)
        else if old(terminal).Some? then res == Err(old(terminal).value) && history == old(history)
        else if aborted then res == Err(Aborted) && history == old(history)
        else
          var r := Request(id, v.value.0, v.value.1, payload);
          history == old(history) + [Arrive(r)] && res == Ok(if r in queues.At(r.cls) then Queued else Waiting)
    {
      var v := ValidateSend(name, kind, payload);
      if v.Err? { return Err(v.error); }
      if terminal.Some? { return Err(terminal.value); }
      if aborted { return Err(Aborted); }
      var r := Request(id, v.value.0, v.value.1, payload);
      NewToQueue(history, r);
      if waiting.At(r.cls) == [] && bytes.At(r.cls) + |payload| <= Cap(r.cls) {
        EnqueueRequest(r);
        res := Ok(Queued);
      } else {
        waiting := waiting.With(r.cls, waiting.At(r.cls) + [r]);
        res := Ok(Waiting);
      }
      Record(Arrive(r));
    }

    method WithdrawWaiting(r: Request)
      requires r in waiting.At(r.cls) && PlacedAt(waiting.At(r.cls), r.cls)
      modifies this`queues, this`bytes, this`waiting, this`outer, this`inner, this`pumpScheduled
      ensures Snapshot() == CancelWaitingHere(old(Snapshot()), r) && (old(Pumping()) ==> Pumping())
    {
      RemovedPlaced(waiting.At(r.cls), r, r.cls);
      waiting := waiting.With(r.cls, Remove(waiting.At(r.cls), r));
      DrainAdmissions(r.cls);
      if queues.At(r.cls) == [] { ResetLane(r.cls); }
    }

    method WithdrawQueued(r: Request)
      requires r in queues.At(r.cls) && PlacedAt(waiting.At(r.cls), r.cls)
      modifies this`queues, this`bytes, this`waiting, this`outer, this`inner, this`pumpScheduled
      ensures Snapshot() == CancelQueued(old(Snapshot()), r) && (old(Pumping()) ==> Pumping())
    {
      queues := queues.With(r.cls, Remove(queues.At(r.cls), r));
      bytes := bytes.With(r.cls, bytes.At(r.cls) - |r.payload|);
      if queues.At(r.cls) == [] { ResetLane(r.cls); }
      assert Snapshot() == Withdraw(old(Snapshot()), r);
      DrainAdmissions(r.cls);
    }

    /** The abort handler. A request that is neither waiting nor queued is left to its writer. */
    method Cancel(r: Request)
      requires Valid()
      modifies this
      ensures Valid()
      ensures history == old(history) + if r in old(waiting.At(r.cls)) then [CancelWaiter(r)]
                                        else if r in old(queues.At(r.cls)) then [CancelQueue(r)] else []
    {
      Reached();
      if r in waiting.At(r.cls) {
        CancelOrders(Snapshot(), r);
        WithdrawWaiting(r);
        Record(CancelWaiter(r));
      } else if r in queues.At(r.cls) {
        WithdrawQueued(r);
        Record(CancelQueue(r));
      }
    }

    method FailAll(e: Error)
      modifies this`terminal, this`queues, this`bytes, this`waiting
      ensures Snapshot() == Fail(old(Snapshot()), e) && (old(Pumping()) ==> Pumping())
    {
      if terminal.None? {
        terminal := Some(e);
        waiting := NO_REQUESTS;
        FailQueue(Control);
        FailQueue(Interactive);
        FailQueue(Thumbnail);
        FailQueue(Bulk);
      }
    }

    method FailQueue(cls: Class)
      modifies this`queues, this`bytes
      ensures queues == old(queues).With(cls, [])
      ensures bytes == old(bytes).With(cls, old(bytes).At(cls) - Total(old(queues).At(cls)))
    {
      while |queues.At(cls)| > 0
        invariant queues == old(queues).With(cls, queues.At(cls))
        invariant bytes.At(cls) - Total(queues.At(cls)) == old(bytes).At(cls) - Total(old(queues).At(cls))
        invariant bytes == old(bytes).With(cls, bytes.At(cls))
        decreases |queues.At(cls)|
      {
        var request := queues.At(cls)[0];
        queues := queues.With(cls, queues.At(cls)[1..]);
        bytes := bytes.With(cls, bytes.At(cls) - |request.payload|);
      }
    }

    method CloseScheduler()
      requires Valid()
      modifies this
      ensures Valid() && history == old(history) + [Event.Close]
    {
      FailAll(Closed);
      Record(Event.Close);
    }

    // ----- the pump

    /** The scheduled microtask: it picks a request and hands it to the writer, if it can. */
    method Pump()
      requires Valid() && pumpScheduled
      modifies this
      ensures Valid() && !pumpScheduled
      ensures history == old(history) + if old(active).Some? || terminal.Some? then [] else [PickNext]
    {
      if active.Some? || terminal.Some? {
        pumpScheduled := false;
        return;
      }
      ReadyToPick();
      PickActive();
      Record(PickNext);
    }

    method PickActive()
      requires active.None? && terminal.None? && HeadsPlaced(queues)
      requires D.Clean(outer, OuterHeads(queues, inner)) && D.Clean(inner, InnerHeads(queues))
      modifies this`outer, this`inner, this`queues, this`controlBurst, this`active, this`pumpScheduled
      ensures Snapshot() == Pick(old(Snapshot())) && !pumpScheduled && Pumping()
    {
      pumpScheduled := false;
      ghost var s := Snapshot();
      active := NextRequest();
      if active.None? { NothingQueued(s); }
    }

    method ReleaseActive(err: Option<Error>)
      requires active.Some? && PlacedAt(waiting.At(active.value.cls), active.value.cls) && Finished(Snapshot())
      modifies this`terminal, this`active, this`bytes, this`queues, this`waiting, this`pumpScheduled
      ensures Snapshot() == Written(old(Snapshot()), err) && Pumping()
    {
      var request := active.value;
      active := None;
      bytes := bytes.With(request.cls, bytes.At(request.cls) - |request.payload|);
      assert Snapshot() == Released(old(Snapshot()));
      if err.Some? {
        FailAll(err.value);
        return;
      }
      DrainAdmissions(request.cls);
      SchedulePump();
    }

    /** The write has settled. */
    method WriteSettled(err: Option<Error>)
      requires Valid() && active.Some?
      modifies this
      ensures Valid() && history == old(history) + [WriteDone(err)]
    {
      Reached();
      ReleaseActive(err);
      Record(WriteDone(err));
    }
  }
}
