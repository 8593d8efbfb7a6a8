/**
 Whole runs of a scheduler: any sequence of sends, cancellations, picks, write results and closes,
 each one critical section. The world beside the state records what was accepted, in order, and
 what each sender was told.
 */
module SchedulerRuns {
  import opened Basics
  import opened Traffic
  import opened SchedulerModel
  import Runs

  datatype Event =
    | Arrive(r: Request)
    | CancelWaiter(r: Request)
    | CancelQueue(r: Request)
    | Close
    | PickNext
    | WriteDone(result: Option<Error>)

  datatype Outcome = Sent | Cancelled | Failed(error: Error)

  datatype Notice = Notice(r: Request, outcome: Outcome)

  datatype World = World(s: State, arrived: seq<Request>, notices: seq<Notice>)

  const START := World(INITIAL, [], [])

  function Pending(s: State, c: Class): seq<Request> {
    s.queues.At(c) + s.waiters.At(c)
  }

  function AllPending(s: State): seq<Request> {
    Pending(s, Control) + Pending(s, Interactive) + Pending(s, Thumbnail) + Pending(s, Bulk)
  }

  function NoticesFor(rs: seq<Request>, o: Outcome): seq<Notice> {
    if rs == [] then [] else [Notice(rs[0], o)] + NoticesFor(rs[1..], o)
  }

  function FailAll(w: World, e: Error): World {
    if w.s.terminal.Some? then w
    else w.(s := Fail(w.s, e), notices := w.notices + NoticesFor(AllPending(w.s), Failed(e)))
  }

  /** The world in which the active request has been told that its write failed. */
  function WriteFailed(w: World, e: Error): World
    requires w.s.active.Some?
  {
    w.(s := Released(w.s), notices := w.notices + [Notice(w.s.active.value, Failed(e))])
  }

  function Step(w: World, e: Event): World {
    match e
    case Arrive(r) =>
      if !Sendable(r) || r.id in Ids(w.arrived) || w.s.terminal.Some? then w
      else w.(s := Admit(w.s, r), arrived := w.arrived + [r])
    case CancelWaiter(r) =>
      if r !in w.s.waiters.At(r.cls) then w
      else w.(s := CancelWaiting(w.s, r), notices := w.notices + [Notice(r, Cancelled)])
    case CancelQueue(r) =>
      if r !in w.s.queues.At(r.cls) then w
      else w.(s := CancelQueued(w.s, r), notices := w.notices + [Notice(r, Cancelled)])
    case Close => FailAll(w, Closed)
    case PickNext => w.(s := Pick(w.s))
    case WriteDone(result) =>
      if w.s.active.None? then w
      else if result.None? then
        w.(s := Written(w.s, None), notices := w.notices + [Notice(w.s.active.value, Sent)])
      else FailAll(WriteFailed(w, result.value), result.value)
  }

  function Run(w: World, es: seq<Event>): World {
    Runs.Run(Step, w, es)
  }

  lemma WriteStep(w: World, result: Option<Error>)
    ensures Step(w, WriteDone(result)).s == Written(w.s, result)
  {}

  /** What a step does to the scheduler itself, for a new and sendable arrival. */
  function After(s: State, e: Event): State {
    match e
    case Arrive(r) => Admit(s, r)
    case CancelWaiter(r) => CancelWaiting(s, r)
    case CancelQueue(r) => CancelQueued(s, r)
    case Close => Fail(s, Closed)
    case PickNext => Pick(s)
    case WriteDone(result) => Written(s, result)
  }

  lemma StepIsAfter(w: World, e: Event)
    requires e.Arrive? ==> Sendable(e.r) && e.r.id !in Ids(w.arrived)
    ensures Step(w, e).s == After(w.s, e)
  {
    if e.WriteDone? {
      WriteStep(w, e.result);
    }
  }

  lemma StepKeeps(w: World, e: Event)
    requires Inv(w.s)
    ensures Inv(Step(w, e).s)
  {
    match e
    case Arrive(r) => if Sendable(r) { AdmitKeeps(w.s, r); }
    case CancelWaiter(r) => CancelWaitingKeeps(w.s, r);
    case CancelQueue(r) => CancelQueuedKeeps(w.s, r);
    case Close => FailKeeps(w.s, Closed);
    case PickNext => PickKeeps(w.s);
    case WriteDone(result) =>
      WrittenKeeps(w.s, result);
      WriteStep(w, result);
  }

  /** The invariant holds at the end of every run. */
  lemma RunKeeps(w: World, es: seq<Event>)
    requires Inv(w.s)
    ensures Inv(Run(w, es).s)
  {
    var inv := (v: World) => Inv(v.s);
    forall v: World, e: Event | inv(v) ensures inv(Step(v, e)) {
      StepKeeps(v, e);
    }
    Runs.Invariant(Step, inv, w, es);
  }

  // ----- every send gets exactly one outcome

  /** How many of the requests have this id. */
  function Count(rs: seq<Request>, id: nat): nat {
    if rs == [] then 0 else (if rs[0].id == id then 1 else 0) + Count(rs[1..], id)
  }

  /** How many times the sender of this id has been told an outcome. */
  function Told(ns: seq<Notice>, id: nat): nat {
    if ns == [] then 0 else (if ns[0].r.id == id then 1 else 0) + Told(ns[1..], id)
  }

  function PendingCount(s: State, c: Class, id: nat): nat {
    Count(s.queues.At(c), id) + Count(s.waiters.At(c), id)
  }

  function AllPendingCount(s: State, id: nat): nat {
    PendingCount(s, Control, id) + PendingCount(s, Interactive, id)
    + PendingCount(s, Thumbnail, id) + PendingCount(s, Bulk, id)
  }

  /** How many live requests have this id: being written, queued or waiting. */
  function LiveCount(s: State, id: nat): nat {
    (if s.active.Some? && s.active.value.id == id then 1 else 0) + AllPendingCount(s, id)
  }

  /** Every accepted send has been told its outcome or is still live, never both and never twice. */
  ghost predicate OnceFor(w: World, id: nat) {
    Told(w.notices, id) + LiveCount(w.s, id) == Count(w.arrived, id) <= 1
  }

  ghost predicate Once(w: World) {
    forall id: nat :: OnceFor(w, id)
  }

  lemma {:induction false} CountAppend(a: seq<Request>, b: seq<Request>, id: nat)
    ensures Count(a + b, id) == Count(a, id) + Count(b, id)
  {
    if a == [] {
      assert a + b == b;
    } else {
      CountAppend(a[1..], b, id);
      assert (a + b)[1..] == a[1..] + b;
    }
  }

  lemma {:induction false} ToldAppend(a: seq<Notice>, b: seq<Notice>, id: nat)
    ensures Told(a + b, id) == Told(a, id) + Told(b, id)
  {
    if a == [] {
      assert a + b == b;
    } else {
      ToldAppend(a[1..], b, id);
      assert (a + b)[1..] == a[1..] + b;
    }
  }

  lemma {:induction false} NoticesForCount(rs: seq<Request>, o: Outcome, id: nat)
    ensures Told(NoticesFor(rs, o), id) == Count(rs, id)
  {
    if rs != [] {
      NoticesForCount(rs[1..], o, id);
      assert NoticesFor(rs, o)[1..] == NoticesFor(rs[1..], o);
    }
  }

  lemma {:induction false} CountPositive(rs: seq<Request>, id: nat)
    ensures Count(rs, id) > 0 <==> id in Ids(rs)
  {
    if rs != [] {
      CountPositive(rs[1..], id);
      assert rs == [rs[0]] + rs[1..];
    }
  }

  lemma {:induction false} RemoveCount(rs: seq<Request>, r: Request, id: nat)
    requires r in rs
    ensures Count(Remove(rs, r), id) + (if r.id == id then 1 else 0) == Count(rs, id)
  {
    if rs[0] != r {
      RemoveCount(rs[1..], r, id);
      CountAppend([rs[0]], Remove(rs[1..], r), id);
    }
  }

  lemma AllPendingCounts(s: State, id: nat)
    ensures Count(AllPending(s), id) == AllPendingCount(s, id)
  {
    var c, i, t, b := Pending(s, Control), Pending(s, Interactive), Pending(s, Thumbnail), Pending(s, Bulk);
    CountAppend(c + i + t, b, id);
    CountAppend(c + i, t, id);
    CountAppend(c, i, id);
    forall k: Class ensures Count(Pending(s, k), id) == PendingCount(s, k, id) {
      CountAppend(s.queues.At(k), s.waiters.At(k), id);
    }
  }

  lemma {:induction false} AdmitWaitersPending(s: State, c: Class)
    ensures forall k: Class :: Pending(AdmitWaiters(s, c), k) == Pending(s, k)
    ensures AdmitWaiters(s, c).active == s.active && AdmitWaiters(s, c).terminal == s.terminal
    decreases |s.waiters.At(c)|
  {
    if s.waiters.At(c) != [] && s.bytes.At(c) + |s.waiters.At(c)[0].payload| <= Cap(c) {
      var m := MoveWaiter(s, c);
      forall k: Class ensures Pending(m, k) == Pending(s, k) {
        if k == c {
          assert s.waiters.At(c) == [s.waiters.At(c)[0]] + s.waiters.At(c)[1..];
        }
      }
      AdmitWaitersPending(m, c);
    }
  }

  lemma SamePendingSameCount(s: State, s': State, id: nat)
    requires forall k: Class :: Pending(s', k) == Pending(s, k)
    ensures AllPendingCount(s', id) == AllPendingCount(s, id)
  {
    AllPendingCounts(s, id);
    AllPendingCounts(s', id);
    assert AllPending(s') == AllPending(s);
  }

  /** The pending requests of class c have become `p`, and no others have changed. */
  ghost predicate OnlyChanged(s: State, s': State, c: Class, p: seq<Request>) {
    Pending(s', c) == p && forall k: Class :: k != c ==> Pending(s', k) == Pending(s, k)
  }

  lemma ChangedCount(s: State, s': State, c: Class, p: seq<Request>, id: nat)
    requires OnlyChanged(s, s', c, p)
    ensures AllPendingCount(s', id) + Count(Pending(s, c), id) == AllPendingCount(s, id) + Count(p, id)
  {
    forall k: Class
      ensures Count(Pending(s, k), id) == PendingCount(s, k, id)
      ensures Count(Pending(s', k), id) == PendingCount(s', k, id)
    {
      CountAppend(s.queues.At(k), s.waiters.At(k), id);
      CountAppend(s'.queues.At(k), s'.waiters.At(k), id);
    }
    assert Pending(s', Control) == Pending(s, Control) || c == Control;
    assert Pending(s', Interactive) == Pending(s, Interactive) || c == Interactive;
    assert Pending(s', Thumbnail) == Pending(s, Thumbnail) || c == Thumbnail;
    assert Pending(s', Bulk) == Pending(s, Bulk) || c == Bulk;
  }

  // ----- what each critical section does to the pending requests

  lemma AdmitPending(s: State, r: Request)
    requires s.terminal.None?
    ensures OnlyChanged(s, Admit(s, r), r.cls, Pending(s, r.cls) + [r])
    ensures Admit(s, r).active == s.active
  {}

  lemma CancelWaitingPending(s: State, r: Request)
    requires r in s.waiters.At(r.cls)
    ensures OnlyChanged(s, CancelWaiting(s, r), r.cls, s.queues.At(r.cls) + Remove(s.waiters.At(r.cls), r))
    ensures CancelWaiting(s, r).active == s.active && CancelWaiting(s, r).terminal == s.terminal
  {
    var s1 := s.(waiters := s.waiters.With(r.cls, Remove(s.waiters.At(r.cls), r)));
    ResetFrame(s1, r.cls);
    AdmitWaitersPending(if s1.queues.At(r.cls) == [] then ResetEmptyLane(s1, r.cls) else s1, r.cls);
  }

  lemma CancelQueuedPending(s: State, r: Request)
    requires r in s.queues.At(r.cls)
    ensures OnlyChanged(s, CancelQueued(s, r), r.cls, Remove(s.queues.At(r.cls), r) + s.waiters.At(r.cls))
    ensures CancelQueued(s, r).active == s.active && CancelQueued(s, r).terminal == s.terminal
  {
    WithdrawFrame(s, r);
    AdmitWaitersPending(Withdraw(s, r), r.cls);
  }

  lemma PickPending(s: State)
    requires s.terminal.None? && s.active.None? && NextClass(s).Some?
    ensures var c := NextClass(s).value;
            OnlyChanged(s, Pick(s), c, Pending(s, c)[1..]) && Pick(s).active == Some(Pending(s, c)[0])
    ensures Pick(s).terminal.None?
  {
    PickFrame(s);
  }

  lemma ReleasedPending(s: State)
    requires s.active.Some?
    ensures forall k: Class :: Pending(Released(s), k) == Pending(s, k)
    ensures Released(s).active.None?
  {}

  lemma WrittenPending(s: State)
    requires s.active.Some?
    ensures forall k: Class :: Pending(Written(s, None), k) == Pending(s, k)
    ensures Written(s, None).active.None?
  {
    AdmitWaitersPending(Released(s), s.active.value.cls);
  }

  lemma FailAllOnce(w: World, e: Error, id: nat)
    requires OnceFor(w, id)
    ensures OnceFor(FailAll(w, e), id)
  {
    var fs := NoticesFor(AllPending(w.s), Failed(e));
    ToldAppend(w.notices, fs, id);
    NoticesForCount(AllPending(w.s), Failed(e), id);
    AllPendingCounts(w.s, id);
  }

  lemma ArriveOnce(w: World, r: Request, id: nat)
    requires OnceFor(w, id)
    ensures OnceFor(Step(w, Arrive(r)), id)
  {
    var w' := Step(w, Arrive(r));
    if w' != w {
      AdmitPending(w.s, r);
      ChangedCount(w.s, w'.s, r.cls, Pending(w.s, r.cls) + [r], id);
      CountAppend(Pending(w.s, r.cls), [r], id);
      CountAppend(w.arrived, [r], id);
      CountPositive(w.arrived, r.id);
    }
  }

  lemma CancelWaiterOnce(w: World, r: Request, id: nat)
    requires OnceFor(w, id)
    ensures OnceFor(Step(w, CancelWaiter(r)), id)
  {
    var q, ws := w.s.queues.At(r.cls), w.s.waiters.At(r.cls);
    if r in ws {
      CancelWaitingPending(w.s, r);
      RemoveCount(ws, r, id);
      CountAppend(q, ws, id);
      CountAppend(q, Remove(ws, r), id);
      CancelledOnce(w, Step(w, CancelWaiter(r)), r, q + Remove(ws, r), id);
    }
  }

  lemma CancelQueueOnce(w: World, r: Request, id: nat)
    requires OnceFor(w, id)
    ensures OnceFor(Step(w, CancelQueue(r)), id)
  {
    var q, ws := w.s.queues.At(r.cls), w.s.waiters.At(r.cls);
    if r in q {
      CancelQueuedPending(w.s, r);
      RemoveCount(q, r, id);
      CountAppend(q, ws, id);
      CountAppend(Remove(q, r), ws, id);
      CancelledOnce(w, Step(w, CancelQueue(r)), r, Remove(q, r) + ws, id);
    }
  }

  lemma PickOnce(w: World, id: nat)
    requires OnceFor(w, id)
    ensures OnceFor(Step(w, PickNext), id)
  {
    if w.s.terminal.None? && w.s.active.None? && NextClass(w.s).Some? {
      var c := NextClass(w.s).value;
      PickPending(w.s);
      ChangedCount(w.s, Pick(w.s), c, Pending(w.s, c)[1..], id);
    }
  }

  lemma SentOnce(w: World, id: nat)
    requires OnceFor(w, id) && w.s.active.Some?
    ensures OnceFor(Step(w, WriteDone(None)), id)
  {
    WrittenPending(w.s);
    ToldAppend(w.notices, [Notice(w.s.active.value, Sent)], id);
    SamePendingSameCount(w.s, Written(w.s, None), id);
  }

  lemma WriteFailedOnce(w: World, e: Error, id: nat)
    requires OnceFor(w, id) && w.s.active.Some?
    ensures OnceFor(WriteFailed(w, e), id)
  {
    ToldAppend(w.notices, [Notice(w.s.active.value, Failed(e))], id);
    ReleasedPending(w.s);
    AllPendingCounts(w.s, id);
    AllPendingCounts(Released(w.s), id);
    assert AllPending(Released(w.s)) == AllPending(w.s);
  }

  lemma WriteOnce(w: World, result: Option<Error>, id: nat)
    requires OnceFor(w, id)
    ensures OnceFor(Step(w, WriteDone(result)), id)
  {
    if w.s.active.Some? {
      if result.None? {
        SentOnce(w, id);
      } else {
        WriteFailedOnce(w, result.value, id);
        FailAllOnce(WriteFailed(w, result.value), result.value, id);
      }
    }
  }

  lemma StepOnce(w: World, e: Event, id: nat)
    requires OnceFor(w, id)
    ensures OnceFor(Step(w, e), id)
  {
    match e
    case Arrive(r) => ArriveOnce(w, r, id);
    case CancelWaiter(r) => CancelWaiterOnce(w, r, id);
    case CancelQueue(r) => CancelQueueOnce(w, r, id);
    case Close => FailAllOnce(w, Closed, id);
    case PickNext => PickOnce(w, id);
    case WriteDone(result) => WriteOnce(w, result, id);
  }

  lemma CancelledOnce(w: World, w': World, r: Request, p: seq<Request>, id: nat)
    requires OnceFor(w, id)
    requires OnlyChanged(w.s, w'.s, r.cls, p) && w'.s.active == w.s.active
    requires Count(p, id) + (if r.id == id then 1 else 0) == Count(Pending(w.s, r.cls), id)
    requires w'.notices == w.notices + [Notice(r, Cancelled)] && w'.arrived == w.arrived
    ensures OnceFor(w', id)
  {
    ChangedCount(w.s, w'.s, r.cls, p, id);
    ToldAppend(w.notices, [Notice(r, Cancelled)], id);
  }

  /** Exactly-once completion over every run. */
  lemma RunOnce(w: World, es: seq<Event>, id: nat)
    requires OnceFor(w, id)
    ensures OnceFor(Run(w, es), id)
  {
    ghost var once := (v: World) => OnceFor(v, id);
    forall v: World, e: Event | once(v) ensures once(Step(v, e)) {
      StepOnce(v, e, id);
    }
    Runs.Invariant(Step, once, w, es);
  }
}
