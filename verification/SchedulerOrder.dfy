/**
 Per-class order over whole runs: what a class has written, then what is being written, queued and
 waiting, is at every moment its arrivals in order, less the cancelled and the failed ones.
 */
module SchedulerOrder {
  import opened Basics
  import opened Traffic
  import opened SchedulerModel
  import opened SchedulerRuns
  import Runs

  /** The requests whose senders were told that they were written, in that order. */
  function SentOf(ns: seq<Notice>): seq<Request> {
    if ns == [] then [] else (if ns[0].outcome.Sent? then [ns[0].r] else []) + SentOf(ns[1..])
  }

  function GoneIds(ns: seq<Notice>): set<nat> {
    set n | n in ns && !n.outcome.Sent? :: n.r.id
  }

  function ActiveOf(s: State, c: Class): seq<Request> {
    if s.active.Some? && s.active.value.cls == c then [s.active.value] else []
  }

  /** Class c's requests on their way: being written, queued, waiting. */
  function InFlight(s: State, c: Class): seq<Request> {
    ActiveOf(s, c) + Pending(s, c)
  }

  predicate OrderAt(w: World, c: Class) {
    OfClass(SentOf(w.notices), c) + InFlight(w.s, c)
    == Without(OfClass(w.arrived, c), GoneIds(w.notices))
  }

  ghost predicate InOrder(w: World) {
    forall c: Class :: OrderAt(w, c)
  }

  lemma {:induction false} SentAppend(a: seq<Notice>, b: seq<Notice>)
    ensures SentOf(a + b) == SentOf(a) + SentOf(b)
    ensures GoneIds(a + b) == GoneIds(a) + GoneIds(b)
  {
    if a == [] {
      assert a + b == b;
    } else {
      SentAppend(a[1..], b);
      assert (a + b)[1..] == a[1..] + b;
      assert forall n :: n in a + b <==> n in a || n in b;
    }
  }

  /** Someone who was told an outcome is counted among the told. */
  lemma {:induction false} ToldPositive(ns: seq<Notice>, id: nat)
    requires Told(ns, id) == 0
    ensures id !in Ids(SentOf(ns)) && id !in GoneIds(ns)
  {
    if ns != [] {
      ToldPositive(ns[1..], id);
      assert ns == [ns[0]] + ns[1..];
    }
  }

  lemma {:induction false} SubsetIds(rs: seq<Request>, c: Class)
    ensures Ids(OfClass(rs, c)) <= Ids(rs)
  {
    if rs != [] {
      SubsetIds(rs[1..], c);
      assert Ids(rs) == {rs[0].id} + Ids(rs[1..]) by { assert rs == [rs[0]] + rs[1..]; }
      forall id | id in Ids(OfClass(rs, c)) ensures id in Ids(rs) {
        var r :| r in OfClass(rs, c) && r.id == id;
        if r !in OfClass(rs[1..], c) {
          assert r == rs[0];
        }
      }
    }
  }

  lemma {:induction false} RemoveIsWithout(rs: seq<Request>, r: Request)
    requires r in rs && Count(rs, r.id) == 1
    ensures Remove(rs, r) == Without(rs, {r.id})
  {
    if rs[0] == r {
      CountPositive(rs[1..], r.id);
      WithoutNone(rs[1..], {r.id});
    } else {
      CountPositive(rs[1..], r.id);
      assert r in rs[1..] && r.id in Ids(rs[1..]);
      RemoveIsWithout(rs[1..], r);
    }
  }

  /** The order of class c when the ids in `more` are told that they will not be written. */
  lemma Dropping(w: World, c: Class, more: set<nat>)
    requires OrderAt(w, c)
    requires forall id :: id in more ==> Told(w.notices, id) == 0
    ensures OfClass(SentOf(w.notices), c) + (Without(ActiveOf(w.s, c), more) + Without(Pending(w.s, c), more))
            == Without(OfClass(w.arrived, c), GoneIds(w.notices) + more)
  {
    var sent, act, pend := OfClass(SentOf(w.notices), c), ActiveOf(w.s, c), Pending(w.s, c);
    WithoutTwice(OfClass(w.arrived, c), GoneIds(w.notices), more);
    WithoutAppend(sent, act + pend, more);
    WithoutAppend(act, pend, more);
    SubsetIds(SentOf(w.notices), c);
    forall id | id in more ensures id !in Ids(sent) {
      ToldPositive(w.notices, id);
    }
    WithoutNone(sent, more);
  }

  /** A live id occurs once among everything live. */
  lemma OnlyOnce(w: World, r: Request, c: Class)
    requires OnceFor(w, r.id) && r in Pending(w.s, c)
    ensures Told(w.notices, r.id) == 0 && Count(Pending(w.s, c), r.id) == 1
    ensures w.s.active.Some? ==> w.s.active.value.id != r.id
    ensures forall k: Class :: k != c ==> r.id !in Ids(Pending(w.s, k))
  {
    forall k: Class
      ensures Count(Pending(w.s, k), r.id) == PendingCount(w.s, k, r.id)
      ensures PendingCount(w.s, k, r.id) > 0 <==> r.id in Ids(Pending(w.s, k))
    {
      CountAppend(w.s.queues.At(k), w.s.waiters.At(k), r.id);
      CountPositive(Pending(w.s, k), r.id);
    }
    assert r.id in Ids(Pending(w.s, c));
    forall k: Class | k != c ensures r.id !in Ids(Pending(w.s, k)) {
      assert PendingCount(w.s, k, r.id) + PendingCount(w.s, c, r.id) <= AllPendingCount(w.s, r.id);
    }
  }

  lemma CancelledOrder(w: World, w': World, r: Request, c: Class)
    requires OrderAt(w, c) && Told(w.notices, r.id) == 0
    requires w.s.active.Some? ==> w.s.active.value.id != r.id
    requires c != r.cls ==> r.id !in Ids(Pending(w.s, c))
    requires Pending(w'.s, c) == if c == r.cls then Without(Pending(w.s, c), {r.id}) else Pending(w.s, c)
    requires w'.s.active == w.s.active && w'.arrived == w.arrived
    requires w'.notices == w.notices + [Notice(r, Cancelled)]
    ensures OrderAt(w', c)
  {
    Dropping(w, c, {r.id});
    SentAppend(w.notices, [Notice(r, Cancelled)]);
    assert SentOf([Notice(r, Cancelled)]) == [] && GoneIds([Notice(r, Cancelled)]) == {r.id};
    WithoutNone(ActiveOf(w.s, c), {r.id});
    if c != r.cls {
      WithoutNone(Pending(w.s, c), {r.id});
    }
    assert SentOf(w'.notices) == SentOf(w.notices);
  }

  lemma CancelWaiterOrder(w: World, r: Request, c: Class)
    requires OnceFor(w, r.id) && OrderAt(w, c)
    ensures OrderAt(Step(w, CancelWaiter(r)), c)
  {
    var q, ws := w.s.queues.At(r.cls), w.s.waiters.At(r.cls);
    if r in ws {
      OnlyOnce(w, r, r.cls);
      CancelWaitingPending(w.s, r);
      WithdrawnPending(q, ws, r);
      CancelledOrder(w, Step(w, CancelWaiter(r)), r, c);
    }
  }

  lemma CancelQueueOrder(w: World, r: Request, c: Class)
    requires OnceFor(w, r.id) && OrderAt(w, c)
    ensures OrderAt(Step(w, CancelQueue(r)), c)
  {
    var q, ws := w.s.queues.At(r.cls), w.s.waiters.At(r.cls);
    if r in q {
      OnlyOnce(w, r, r.cls);
      CancelQueuedPending(w.s, r);
      WithdrawnPending(q, ws, r);
      CancelledOrder(w, Step(w, CancelQueue(r)), r, c);
    }
  }

  lemma WithdrawnPending(q: seq<Request>, ws: seq<Request>, r: Request)
    requires Count(q + ws, r.id) == 1
    ensures r in q ==> Remove(q, r) + ws == Without(q + ws, {r.id})
    ensures r in ws ==> q + Remove(ws, r) == Without(q + ws, {r.id})
  {
    CountAppend(q, ws, r.id);
    CountPositive(q, r.id);
    CountPositive(ws, r.id);
    WithoutAppend(q, ws, {r.id});
    if r in ws {
      assert r.id in Ids(ws);
      RemoveIsWithout(ws, r);
      WithoutNone(q, {r.id});
    }
    if r in q {
      assert r.id in Ids(q);
      RemoveIsWithout(q, r);
      WithoutNone(ws, {r.id});
    }
  }

  lemma ArriveOrder(w: World, r: Request, c: Class)
    requires OnceFor(w, r.id) && OrderAt(w, c)
    ensures OrderAt(Step(w, Arrive(r)), c)
  {
    var w' := Step(w, Arrive(r));
    if w' != w {
      AdmitPending(w.s, r);
      CountPositive(w.arrived, r.id);
      ToldPositive(w.notices, r.id);
      ArrivedOrder(w, w', r, c);
    }
  }

  lemma ArrivedOrder(w: World, w': World, r: Request, c: Class)
    requires OrderAt(w, c) && r.id !in GoneIds(w.notices)
    requires Pending(w'.s, c) == if c == r.cls then Pending(w.s, c) + [r] else Pending(w.s, c)
    requires w'.s.active == w.s.active && w'.notices == w.notices && w'.arrived == w.arrived + [r]
    ensures OrderAt(w', c)
  {
    OfClassAppend(w.arrived, [r], c);
    WithoutAppend(OfClass(w.arrived, c), OfClass([r], c), GoneIds(w.notices));
    assert OfClass([r], c) == if c == r.cls then [r] else [];
    WithoutNone(OfClass([r], c), GoneIds(w.notices));
  }

  lemma PickOrder(w: World, c: Class)
    requires OrderAt(w, c) && Placed(w.s)
    ensures OrderAt(Step(w, PickNext), c)
  {
    if w.s.terminal.None? && w.s.active.None? && NextClass(w.s).Some? {
      var k := NextClass(w.s).value;
      PickPending(w.s);
      assert PlacedAt(w.s.queues.At(k), k);
      PickedOrder(w, Step(w, PickNext), k, c);
    }
  }

  lemma PickedOrder(w: World, w': World, k: Class, c: Class)
    requires OrderAt(w, c) && w.s.active.None?
    requires Pending(w.s, k) != [] && Pending(w.s, k)[0].cls == k
    requires w'.s.active == Some(Pending(w.s, k)[0])
    requires Pending(w'.s, c) == if c == k then Pending(w.s, k)[1..] else Pending(w.s, c)
    requires w'.notices == w.notices && w'.arrived == w.arrived
    ensures OrderAt(w', c)
  {
    var p := Pending(w.s, c);
    if c == k {
      assert [p[0]] + p[1..] == p;
      assert ActiveOf(w'.s, c) == [p[0]];
    } else {
      assert ActiveOf(w'.s, c) == [];
    }
    assert [] + p == p;
    assert InFlight(w'.s, c) == InFlight(w.s, c);
  }

  lemma {:induction false} FailNotices(rs: seq<Request>, e: Error)
    ensures SentOf(NoticesFor(rs, Failed(e))) == []
    ensures GoneIds(NoticesFor(rs, Failed(e))) == Ids(rs)
  {
    if rs != [] {
      FailNotices(rs[1..], e);
      SentAppend([Notice(rs[0], Failed(e))], NoticesFor(rs[1..], Failed(e)));
      assert rs == [rs[0]] + rs[1..];
    }
  }

  lemma PendingIds(s: State, c: Class)
    ensures Ids(Pending(s, c)) <= Ids(AllPending(s))
  {
    forall r | r in Pending(s, c) ensures r in AllPending(s) {}
  }

  /** The senders about to be told of a failure have been told nothing yet. */
  ghost predicate Untold(w: World) {
    forall id :: id in Ids(AllPending(w.s)) ==>
      Told(w.notices, id) == 0 && (w.s.active.Some? ==> w.s.active.value.id != id)
  }

  lemma OnceUntold(w: World)
    requires Once(w)
    ensures Untold(w)
  {
    forall id | id in Ids(AllPending(w.s))
      ensures Told(w.notices, id) == 0 && (w.s.active.Some? ==> w.s.active.value.id != id)
    {
      assert OnceFor(w, id);
      AllPendingCounts(w.s, id);
      CountPositive(AllPending(w.s), id);
    }
  }

  lemma FailOrder(w: World, e: Error, c: Class)
    requires Untold(w) && OrderAt(w, c)
    ensures OrderAt(FailAll(w, e), c)
  {
    if w.s.terminal.None? {
      FailedOrder(w, FailAll(w, e), NoticesFor(AllPending(w.s), Failed(e)), e, c);
    }
  }

  lemma FailedOrder(w: World, w': World, fs: seq<Notice>, e: Error, c: Class)
    requires Untold(w) && OrderAt(w, c) && fs == NoticesFor(AllPending(w.s), Failed(e))
    requires w'.arrived == w.arrived && w'.notices == w.notices + fs
    requires w'.s.active == w.s.active && Pending(w'.s, c) == []
    ensures OrderAt(w', c)
  {
    var all := AllPending(w.s);
    Dropping(w, c, Ids(all));
    FailNotices(all, e);
    SentAppend(w.notices, fs);
    WithoutNone(ActiveOf(w.s, c), Ids(all));
    PendingIds(w.s, c);
    WithoutAll(Pending(w.s, c), Ids(all));
    assert SentOf(w'.notices) == SentOf(w.notices);
  }

  lemma SentOrder(w: World, c: Class)
    requires OrderAt(w, c) && w.s.active.Some?
    ensures OrderAt(Step(w, WriteDone(None)), c)
  {
    WrittenPending(w.s);
    assert Pending(Written(w.s, None), c) == Pending(w.s, c);
    DeliveredOrder(w, Step(w, WriteDone(None)), w.s.active.value, c);
  }

  lemma DeliveredOrder(w: World, w': World, r: Request, c: Class)
    requires OrderAt(w, c) && w.s.active == Some(r)
    requires w'.s.active == None && Pending(w'.s, c) == Pending(w.s, c)
    requires w'.arrived == w.arrived && w'.notices == w.notices + [Notice(r, Sent)]
    ensures OrderAt(w', c)
  {
    SentAppend(w.notices, [Notice(r, Sent)]);
    assert SentOf([Notice(r, Sent)]) == [r] && GoneIds([Notice(r, Sent)]) == {};
    OfClassAppend(SentOf(w.notices), [r], c);
    assert OfClass([r], c) == ActiveOf(w.s, c);
    var sent, act, pend := OfClass(SentOf(w.notices), c), ActiveOf(w.s, c), Pending(w.s, c);
    assert (sent + act) + ([] + pend) == sent + (act + pend);
    assert GoneIds(w'.notices) == GoneIds(w.notices);
  }

  lemma WriteFailedOrder(w: World, e: Error, c: Class)
    requires OrderAt(w, c) && w.s.active.Some?
    requires Told(w.notices, w.s.active.value.id) == 0 && w.s.active.value.id !in Ids(Pending(w.s, c))
    ensures OrderAt(WriteFailed(w, e), c)
  {
    ReleasedPending(w.s);
    assert Pending(Released(w.s), c) == Pending(w.s, c);
    UndeliveredOrder(w, WriteFailed(w, e), w.s.active.value, e, c);
  }

  lemma UndeliveredOrder(w: World, w': World, r: Request, e: Error, c: Class)
    requires OrderAt(w, c) && w.s.active == Some(r)
    requires Told(w.notices, r.id) == 0 && r.id !in Ids(Pending(w.s, c))
    requires w'.s.active == None && Pending(w'.s, c) == Pending(w.s, c)
    requires w'.arrived == w.arrived && w'.notices == w.notices + [Notice(r, Failed(e))]
    ensures OrderAt(w', c)
  {
    Dropping(w, c, {r.id});
    SentAppend(w.notices, [Notice(r, Failed(e))]);
    assert SentOf([Notice(r, Failed(e))]) == [] && GoneIds([Notice(r, Failed(e))]) == {r.id};
    WithoutAll(ActiveOf(w.s, c), {r.id});
    WithoutNone(Pending(w.s, c), {r.id});
    assert SentOf(w'.notices) == SentOf(w.notices);
  }

  lemma ActiveUntold(w: World, c: Class)
    requires w.s.active.Some? && OnceFor(w, w.s.active.value.id)
    ensures Told(w.notices, w.s.active.value.id) == 0 && w.s.active.value.id !in Ids(Pending(w.s, c))
  {
    var id := w.s.active.value.id;
    AllPendingCounts(w.s, id);
    CountPositive(AllPending(w.s), id);
    PendingIds(w.s, c);
  }

  lemma StepOrder(w: World, e: Event, c: Class)
    requires Inv(w.s) && Once(w) && OrderAt(w, c)
    ensures OrderAt(Step(w, e), c)
  {
    match e
    case Arrive(r) => assert OnceFor(w, r.id); ArriveOrder(w, r, c);
    case CancelWaiter(r) => assert OnceFor(w, r.id); CancelWaiterOrder(w, r, c);
    case CancelQueue(r) => assert OnceFor(w, r.id); CancelQueueOrder(w, r, c);
    case Close => OnceUntold(w); FailOrder(w, Closed, c);
    case PickNext => PickOrder(w, c);
    case WriteDone(result) =>
      if w.s.active.Some? {
        if result.None? {
          SentOrder(w, c);
        } else {
          assert OnceFor(w, w.s.active.value.id);
          ActiveUntold(w, c);
          WriteFailedOrder(w, result.value, c);
          forall id: nat ensures OnceFor(WriteFailed(w, result.value), id) {
            assert OnceFor(w, id);
            WriteFailedOnce(w, result.value, id);
          }
          OnceUntold(WriteFailed(w, result.value));
          FailOrder(WriteFailed(w, result.value), result.value, c);
        }
      }
  }

  ghost predicate Good(w: World) {
    Inv(w.s) && Once(w) && InOrder(w)
  }

  lemma StepGood(w: World, e: Event)
    requires Good(w)
    ensures Good(Step(w, e))
  {
    StepKeeps(w, e);
    forall id: nat ensures OnceFor(Step(w, e), id) {
      assert OnceFor(w, id);
      StepOnce(w, e, id);
    }
    forall c: Class ensures OrderAt(Step(w, e), c) {
      assert OrderAt(w, c);
      StepOrder(w, e, c);
    }
  }

  /** Every run of every length, from the start: the invariant, exactly-once completion and
      per-class FIFO. */
  lemma EveryRun(es: seq<Event>)
    ensures Good(Run(START, es))
  {
    InitialInv();
    assert forall id: nat :: OnceFor(START, id);
    assert forall c: Class :: OrderAt(START, c);
    forall w: World, e: Event | Good(w) ensures Good(Step(w, e)) {
      StepGood(w, e);
    }
    Runs.Invariant(Step, Good, START, es);
  }

  lemma StepAfterTerminal(w: World, e: Event)
    requires w.s.terminal.Some? && Finished(w.s)
    ensures var w' := Step(w, e);
      && w'.s.terminal == w.s.terminal && w'.arrived == w.arrived
      && (if e.WriteDone? && w.s.active.Some?
          then w'.s.active.None?
            && w'.notices == w.notices + [Notice(w.s.active.value, if e.result.None? then Sent else Failed(e.result.value))]
          else w'.s.active == w.s.active && w'.notices == w.notices)
  {
    match e
    case CancelWaiter(r) => assert w.s.waiters.At(r.cls) == [];
    case CancelQueue(r) => assert w.s.queues.At(r.cls) == [];
    case _ =>
  }

  /** Once a scheduler is finished it stays so: nothing is picked any more, and the only request
      that can still be reported written is the one whose write was already under way. */
  lemma {:induction false} NothingAfterTerminal(w: World, es: seq<Event>)
    requires w.s.terminal.Some? && Inv(w.s)
    ensures var w' := Run(w, es);
      && w'.s.terminal == w.s.terminal && w'.arrived == w.arrived
      && (w'.s.active.Some? ==> w'.s.active == w.s.active && w'.notices == w.notices)
      && (SentOf(w'.notices) == SentOf(w.notices)
          || (w.s.active.Some? && w'.s.active.None? && SentOf(w'.notices) == SentOf(w.notices) + [w.s.active.value]))
    decreases |es|
  {
    if es != [] {
      var e := es[0];
      var w1 := Step(w, e);
      StepKeeps(w, e);
      StepAfterTerminal(w, e);
      NothingAfterTerminal(w1, es[1..]);
      if e.WriteDone? && w.s.active.Some? {
        var n := Notice(w.s.active.value, if e.result.None? then Sent else Failed(e.result.value));
        SentAppend(w.notices, [n]);
        assert SentOf([n]) == if n.outcome.Sent? then [w.s.active.value] else [];
      }
    }
  }
}
