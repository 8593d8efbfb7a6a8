/** What senders are told, and that it is the truth: which event each outcome goes back to. */
module SchedulerOutcomes {
  import opened Basics
  import opened Traffic
  import opened SchedulerModel
  import opened SchedulerRuns
  import Runs

  /** The notices a step adds. */
  function News(w: World, e: Event): seq<Notice> {
    if |Step(w, e).notices| >= |w.notices| then Step(w, e).notices[|w.notices|..] else []
  }

  lemma {:induction false} NoticesForAll(rs: seq<Request>, o: Outcome)
    ensures |NoticesFor(rs, o)| == |rs| && forall i :: 0 <= i < |rs| ==> NoticesFor(rs, o)[i] == Notice(rs[i], o)
  {
    if rs != [] {
      NoticesForAll(rs[1..], o);
    }
  }

  /** A request is told it was sent exactly when the writer returns well for it; that it was cancelled
      only when its own sender cancels it; and that it failed only when the scheduler closes, with the
      closing error, or when a write fails, with that write's error. Nothing told is ever taken back. */
  lemma NewsIsTrue(w: World, e: Event)
    ensures Step(w, e).notices == w.notices + News(w, e)
    ensures forall n :: n in News(w, e) ==>
      match n.outcome
      case Sent => e == WriteDone(None) && w.s.active == Some(n.r)
      case Cancelled => e in {CancelWaiter(n.r), CancelQueue(n.r)}
      case Failed(x) => (e == Close && x == Closed) || e == WriteDone(Some(x))
    ensures e.WriteDone? && w.s.active.Some? ==>
      News(w, e) != [] && News(w, e)[0] == Notice(w.s.active.value, if e.result.None? then Sent else Failed(e.result.value))
  {
    NoticesForAll(AllPending(w.s), Failed(Closed));
    if e.WriteDone? && w.s.active.Some? && e.result.Some? {
      NoticesForAll(AllPending(Released(w.s)), Failed(e.result.value));
    }
  }

  /** The scheduler becomes terminal exactly by closing or by a failed write, and keeps that error. */
  lemma TerminalIsFirstError(w: World, e: Event)
    ensures var t := Step(w, e).s.terminal;
      t == if w.s.terminal.Some? then w.s.terminal
           else if e.Close? then Some(Closed)
           else if e.WriteDone? && w.s.active.Some? then e.result
           else None
  {
    match e
    case Arrive(r) =>
    case CancelWaiter(r) => TerminalUntouched(w.s, r);
    case CancelQueue(r) => TerminalUntouched(w.s, r);
    case WriteDone(result) =>
      if w.s.active.Some? {
        AdmitKeepsTerminal(Released(w.s), w.s.active.value.cls);
      }
    case PickNext =>
    case Close =>
  }

  lemma {:induction false} AdmitKeepsTerminal(s: State, c: Class)
    ensures AdmitWaiters(s, c).terminal == s.terminal
    decreases |s.waiters.At(c)|
  {
    if s.waiters.At(c) != [] && s.bytes.At(c) + |s.waiters.At(c)[0].payload| <= Cap(c) {
      AdmitKeepsTerminal(MoveWaiter(s, c), c);
    }
  }

  lemma TerminalUntouched(s: State, r: Request)
    ensures CancelWaiting(s, r).terminal == s.terminal && CancelQueued(s, r).terminal == s.terminal
  {
    if r in s.waiters.At(r.cls) {
      AdmitKeepsTerminal(WaiterGone(s, r), r.cls);
    }
    if r in s.queues.At(r.cls) {
      AdmitKeepsTerminal(Withdraw(s, r), r.cls);
    }
  }

  /** In every run, a request that was told it is cancelled was cancelled, one that was told it was sent
      had a good write, and one that was told it failed had a closing or a failed write. */
  lemma {:induction false} ToldTheTruth(w: World, es: seq<Event>, n: Notice)
    requires n in Run(w, es).notices && n !in w.notices
    ensures match n.outcome
      case Sent => WriteDone(None) in es
      case Cancelled => CancelWaiter(n.r) in es || CancelQueue(n.r) in es
      case Failed(x) => (Close in es && x == Closed) || WriteDone(Some(x)) in es
    decreases |es|
  {
    var v := Step(w, es[0]);
    NewsIsTrue(w, es[0]);
    if n in v.notices {
      assert n in News(w, es[0]);
    } else {
      ToldTheTruth(v, es[1..], n);
      assert forall e :: e in es[1..] ==> e in es;
    }
  }
}
