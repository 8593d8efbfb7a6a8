/**
 How an operation ends follows from how its reads ended: an end only after the end of the stream, and
 an error after a broken read.
 */
module MediaReads {
  import opened Basics
  import opened Runs
  import opened MediaTrace

  /** Whether the event is the return of a read of the operation's stream. */
  predicate ReadReturns(s: State, e: Event, op: nat) {
    e.Turn? && e.op == op && op in s.jobs && s.jobs[op].phase.Reading?
  }

  /** How the operation's last read in a run ended; `last` is the answer for what came before. */
  function LastRead(s: State, es: seq<Event>, op: nat, last: Option<ReadEnd>): Option<ReadEnd>
    decreases |es|
  {
    if es == [] then last
    else LastRead(Step(s, es[0]), es[1..], op, if ReadReturns(s, es[0], op) then Some(es[0].after) else last)
  }

  /** What a job's phase says about its last read. */
  predicate Agrees(phase: Phase, last: Option<ReadEnd>) {
    match phase
    case Starting => last == None
    case CheckingContext => last in {None, Some(More)}
    case CheckingGeneration => last in {None, Some(More)}
    case Reading => last in {None, Some(More)}
    case Sending(_, after) => last == Some(after)
    case CheckingEnd => last == Some(Eof)
    case SendingEnd => last == Some(Eof)
    case SendingFailure => last == Some(Broken)
    case _ => true
  }

  ghost predicate ReadsOk(s: State, op: nat, last: Option<ReadEnd>) {
    && (op !in s.jobs ==> last == None)
    && (op in s.jobs ==> Agrees(s.jobs[op].phase, last))
    && (HasEnded(s, op) ==> last == Some(Eof))
  }

  lemma ActReads(op: nat, job: Job, view: View, ok: bool, chunk: Bytes, after: ReadEnd, last: Option<ReadEnd>)
    requires Agrees(job.phase, last)
    ensures var action := Act(op, job, view, ok, chunk, after);
      && Agrees(action.job.phase, if job.phase.Reading? then Some(after) else last)
      && (action.sent.Some? && action.sent.value.EndOf? ==> last == Some(Eof) && !job.phase.Reading?)
  {
  }

  /** A step sends an end of the operation only if the operation's job does. */
  lemma EndsBy(s: State, e: Event, op: nat)
    requires Inv(s) && HasEnded(Step(s, e), op) && !HasEnded(s, op)
    ensures e.Turn? && e.op == op && op in s.jobs && s.jobs[op].phase.SendingEnd?
  {
    var m :| m in Step(s, e).trace && m.EndOf? && m.op == op;
    assert m !in s.trace;
    if e.Turn? && e.op in s.jobs {
      TurnEmitsOwn(s, e.op, e.ok, e.chunk, e.after);
      EndIsLast(s, e.op, e.ok, e.chunk, e.after);
    }
  }

  lemma EndIsLast(s: State, op: nat, ok: bool, chunk: Bytes, after: ReadEnd)
    requires op in s.jobs
    ensures var t := Advance(s, op, ok, chunk, after);
      forall m :: m in t.trace && m !in s.trace && m.EndOf? ==> m.op == op && s.jobs[op].phase.SendingEnd?
  {
  }

  lemma StepReads(s: State, e: Event, op: nat, last: Option<ReadEnd>)
    requires Inv(s) && ReadsOk(s, op, last)
    ensures ReadsOk(Step(s, e), op, if ReadReturns(s, e, op) then Some(e.after) else last)
  {
    var t := Step(s, e);
    if HasEnded(t, op) && !HasEnded(s, op) {
      EndsBy(s, e, op);
    }
    if HasEnded(s, op) {
      EndedJob(s, op);
    }
    if e.Turn? && op in s.jobs && e.op == op {
      var job := s.jobs[op];
      var s' := if job.phase.Closing? then Finish(s, op) else s;
      ActReads(op, job, Look(s', op, job), e.ok, e.chunk, e.after, last);
    } else if !(e.Turn? && e.op == op) {
      OtherJobs(s, e, op);
    }
  }

  /** Events that are not the job's own turns leave it alone. */
  lemma OtherJobs(s: State, e: Event, op: nat)
    requires Inv(s) && !(e.Turn? && e.op == op)
    ensures var t := Step(s, e);
      if op in s.jobs then op in t.jobs && t.jobs[op] == s.jobs[op]
      else op in t.jobs ==> t.jobs[op].phase.Starting?
  {
  }

  lemma {:induction false} RunReads(s: State, es: seq<Event>, op: nat, last: Option<ReadEnd>)
    requires Inv(s) && ReadsOk(s, op, last)
    ensures ReadsOk(Run(Step, s, es), op, LastRead(s, es, op, last))
    decreases |es|
  {
    if es != [] {
      StepKeeps(s, es[0]);
      StepReads(s, es[0], op, last);
      RunReads(Step(s, es[0]), es[1..], op, if ReadReturns(s, es[0], op) then Some(es[0].after) else last);
    }
  }

  /** In every run, an operation whose end is on the wire is one whose last read ended with the end of
      the stream. */
  lemma EndMeansEof(es: seq<Event>, op: nat)
    requires HasEnded(Run(Step, IDLE, es), op)
    ensures LastRead(IDLE, es, op, None) == Some(Eof)
  {
    EveryRun([]);
    RunReads(IDLE, es, op, None);
  }

  // ----- after a broken read

  /** The stream is broken, and its end has not been announced. */
  ghost predicate Spoilt(s: State, op: nat) {
    && op in s.jobs && !HasEnded(s, op)
    && match s.jobs[op].phase
       case Sending(_, after) => after.Broken?
       case SendingFailure => true
       case Closing => true
       case Done => true
       case _ => false
  }

  lemma BrokenSpoils(s: State, e: Event, op: nat)
    requires Inv(s) && ReadReturns(s, e, op) && e.after.Broken?
    ensures Spoilt(Step(s, e), op)
  {
    if HasEnded(s, op) {
      EndedJob(s, op);
    }
    if HasEnded(Step(s, e), op) {
      EndsBy(s, e, op);
    }
  }

  lemma StaysSpoilt(s: State, e: Event, op: nat)
    requires Inv(s) && Spoilt(s, op)
    ensures Spoilt(Step(s, e), op)
  {
    if HasEnded(Step(s, e), op) {
      EndsBy(s, e, op);
    }
    if !(e.Turn? && e.op == op) {
      OtherJobs(s, e, op);
    }
  }

  /** After a read that broke, no continuation of the run announces an end of the operation. */
  lemma BrokenNeverEnds(past: seq<Event>, e: Event, op: nat, more: seq<Event>)
    requires ReadReturns(Run(Step, IDLE, past), e, op) && e.after.Broken?
    ensures !HasEnded(Run(Step, Step(Run(Step, IDLE, past), e), more), op)
  {
    var s := Run(Step, IDLE, past);
    EveryRun(past);
    BrokenSpoils(s, e, op);
    StepKeeps(s, e);
    var bad := t => Inv(t) && Spoilt(t, op);
    forall t: State, x: Event | bad(t) ensures bad(Step(t, x)) {
      StepKeeps(t, x);
      StaysSpoilt(t, x, op);
    }
    Invariant(Step, bad, Step(s, e), more);
  }

  /** Left alone, an operation whose read breaks sends what that read returned and then its error; at the
      end of the stream it sends its end instead; and otherwise it goes on. */
  lemma ReadIsFollowedUp(s: State, op: nat, chunk: Bytes, after: ReadEnd)
    requires op in s.jobs && Free(s, op, s.jobs[op]) && s.jobs[op].phase.Reading? && op != 0
    ensures var job := s.jobs[op];
      var data := if chunk == [] then [] else [Frame(op, job.generation, chunk)];
      var last := match after
        case More => []
        case Eof => [EndOf(op, job.request, job.generation, job.total + |chunk|)]
        case Broken => [Failure(op, job.request)];
      var turn := Turn(op, true, [], Eof);
      var t := Step(s, Turn(op, true, chunk, after));
      var u := if chunk == [] then t else Step(t, turn);
      var v := if after.Eof? then Step(u, turn) else u;
      (if after.More? then v else Step(v, turn)).trace == s.trace + data + last
  {
    var turn := Turn(op, true, [], Eof);
    FreeTurn(s, op, chunk, after);
    var t := Step(s, Turn(op, true, chunk, after));
    if chunk != [] {
      FreeTurn(t, op, [], Eof);
    }
    var u := if chunk == [] then t else Step(t, turn);
    FreeTurn(u, op, [], Eof);
    if after.Eof? {
      FreeTurn(Step(u, turn), op, [], Eof);
    }
  }
}
