/**
 Which media operation is under way, and whose context is cancelled: exactly those that were replaced or
 have finished. No operation's turn touches another's.
 */
module MediaContexts {
  import opened Basics
  import opened Runs
  import opened MediaTrace

  predicate Finished(s: State, op: nat) {
    op in s.jobs && s.jobs[op].phase.Done?
  }

  /** Every operation that began is at most the current one, and a context is cancelled exactly when its
      operation was replaced or has finished. */
  ghost predicate Contexts(s: State) {
    && s.operation <= s.sequence && (s.operation != 0 <==> s.operation in s.jobs)
    && (forall op :: op in s.jobs ==> 0 < op <= s.operation)
    && (forall op :: op in s.cancelled ==> op in s.jobs)
    && (forall op :: op in s.jobs ==> (op in s.cancelled <==> op != s.operation || Finished(s, op)))
    && (s.transferring <==> s.operation in s.jobs && !Finished(s, s.operation))
    && s.cancel == (if s.transferring then Some(s.operation) else None)
    && (forall m :: m in s.trace ==> m.op in s.jobs)
  }

  lemma TurnContexts(s: State, op: nat, ok: bool, chunk: Bytes, after: ReadEnd)
    requires Contexts(s) && op in s.jobs
    ensures Contexts(Advance(s, op, ok, chunk, after))
  {
  }

  lemma StepContexts(s: State, e: Event)
    requires Contexts(s)
    ensures Contexts(Step(s, e))
  {
    if e.Turn? && e.op in s.jobs {
      TurnContexts(s, e.op, e.ok, e.chunk, e.after);
    }
  }

  lemma EveryRunContexts(es: seq<Event>)
    ensures Contexts(Run(Step, IDLE, es))
  {
    forall s: State, e: Event | Contexts(s) ensures Contexts(Step(s, e)) {
      StepContexts(s, e);
    }
    Invariant(Step, Contexts, IDLE, es);
  }

  /** In every run a transfer is under way exactly if an operation began and the last one to begin has not
      finished; the contexts cancelled are those of all others; and nothing is sent in the name of no
      operation. */
  lemma UnderWayExactly(es: seq<Event>, op: nat)
    ensures var s := Run(Step, IDLE, es);
      && (s.transferring <==> s.operation != 0 && !Finished(s, s.operation))
      && (op in s.jobs ==> (op in s.cancelled <==> op != s.operation || Finished(s, op)))
      && (op in s.jobs ==> 0 < op <= s.operation)
      && (forall m :: m in s.trace ==> m.op != 0)
  {
    EveryRunContexts(es);
  }

  /** A turn of an operation that is not current sends nothing and changes nothing but its own job. */
  lemma StaleTurn(s: State, op: nat, ok: bool, chunk: Bytes, after: ReadEnd)
    requires op != s.operation && op in s.jobs
    ensures Step(s, Turn(op, ok, chunk, after)) == s.(jobs := Step(s, Turn(op, ok, chunk, after)).jobs)
    ensures forall x :: x != op && x in s.jobs ==>
      x in Step(s, Turn(op, ok, chunk, after)).jobs && Step(s, Turn(op, ok, chunk, after)).jobs[x] == s.jobs[x]
  {
  }

  // ----- winding down

  /** Own turns until a job with a cancelled context is done, at the most. */
  function Distance(phase: Phase): nat {
    match phase
    case Done => 0
    case Closing => 1
    case Reading => 3
    case CheckingGeneration => 4
    case _ => 2
  }

  /** With its context cancelled a job takes no more data, sends nothing, and comes nearer to its end with every
      turn, however its reads and sends turn out. */
  lemma CancelledWindsDown(s: State, op: nat, ok: bool, chunk: Bytes, after: ReadEnd)
    requires Contexts(s) && op in s.jobs && op in s.cancelled
    ensures var t := Step(s, Turn(op, ok, chunk, after));
      && op in t.jobs && op in t.cancelled && t.jobs[op].total == s.jobs[op].total && t.trace == s.trace
      && Distance(t.jobs[op].phase) <= if s.jobs[op].phase.Done? then 0 else Distance(s.jobs[op].phase) - 1
  {
  }

  function TurnsOf(es: seq<Event>, op: nat): nat {
    if es == [] then 0 else (if es[0].Turn? && es[0].op == op then 1 else 0) + TurnsOf(es[1..], op)
  }

  /** A cancelled job is done after four turns of its own, whatever else goes on. */
  lemma {:induction false} CancelledIsDone(s: State, es: seq<Event>, op: nat)
    requires Contexts(s) && op in s.jobs && op in s.cancelled
    ensures var t := Run(Step, s, es);
      && op in t.jobs && t.jobs[op].total == s.jobs[op].total
      && Distance(t.jobs[op].phase) <= if TurnsOf(es, op) <= Distance(s.jobs[op].phase) then Distance(s.jobs[op].phase) - TurnsOf(es, op) else 0
    ensures TurnsOf(es, op) >= 4 ==> Finished(Run(Step, s, es), op)
    decreases |es|
  {
    if es != [] {
      var e := es[0];
      StepContexts(s, e);
      if e.Turn? && e.op == op {
        CancelledWindsDown(s, op, e.ok, e.chunk, e.after);
      } else {
        OthersStand(s, e, op);
      }
      CancelledIsDone(Step(s, e), es[1..], op);
    }
  }

  lemma OthersStand(s: State, e: Event, op: nat)
    requires Contexts(s) && op in s.jobs && op in s.cancelled && !(e.Turn? && e.op == op)
    ensures var t := Step(s, e); op in t.jobs && op in t.cancelled && t.jobs[op] == s.jobs[op]
  {
  }
}
