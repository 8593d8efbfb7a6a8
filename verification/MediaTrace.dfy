/**
 The agent's media operations: preview and seek handlers and their streaming loops as jobs whose
 turns interleave at the granularity of the agent's locks, and the trace of what they send.
 */
module MediaTrace {
  import opened Basics
  import opened Runs

  const GENERATIONS := 0x1_0000_0000

  /** What goes out on the control and media lanes on behalf of an operation, in the order of the sends. */
  datatype Sent =
    | Header(op: nat, request: nat, generation: nat)
    | Frame(op: nat, generation: nat, payload: Bytes)
    | EndOf(op: nat, request: nat, generation: nat, bytes: nat)
    | Failure(op: nat, request: nat)

  datatype ReadEnd = More | Eof | Broken

  /** Where a job is between two of its atomic steps. */
  datatype Phase =
    | Starting
    | CheckingContext
    | CheckingGeneration
    | Reading
    | Sending(chunk: Bytes, after: ReadEnd)
    | CheckingEnd
    | SendingEnd
    | SendingFailure
    | Closing
    | Done

  /** A handler and its stream. The generation in its frames is 0 for a still image, whatever
      generation the request asked for. */
  datatype Job = Job(request: nat, asset: nat, video: bool, asked: nat, generation: nat, parent: Option<nat>, total: nat, phase: Phase)

  datatype State = State(
    sequence: nat,            // operation ids given out so far
    operation: nat,           // mediaOperation; never cleared
    asset: nat,
    video: bool,
    generation: nat,          // currentGeneration
    cancel: Option<nat>,      // mediaCancel, as the operation whose context it cancels
    transferring: bool,
    cancelled: set<nat>,      // operations whose context is cancelled
    jobs: map<nat, Job>,
    trace: seq<Sent>)

  const IDLE := State(0, 0, 0, false, 0, None, false, {}, map[], [])

  /** A turn's input: whether a send succeeds, and what a read returns. */
  datatype Event =
    | TakeId
    | Preview(request: nat, asset: nat, video: bool, generation: nat)
    | SeekRefused(parent: nat, request: nat, ok: bool)
    | SeekFetched(parent: nat, request: nat, asset: nat, generation: nat)
    | Turn(op: nat, ok: bool, chunk: Bytes, after: ReadEnd)

  // ----- the manager's critical sections

  function Begin(s: State, asset: nat, video: bool, generation: nat, job: Job): State {
    var op := s.sequence + 1;
    s.(cancelled := s.cancelled + (if s.cancel.Some? then {s.cancel.value} else {}),
       cancel := Some(op), sequence := op, operation := op, asset := asset, video := video,
       generation := generation, transferring := true, jobs := s.jobs[op := job])
  }

  predicate Newer(s: State, parent: nat, asset: nat, generation: nat) {
    s.operation == parent && s.asset == asset && s.video && generation > s.generation
  }

  function Finish(s: State, op: nat): State {
    if s.operation != op then s
    else s.(cancelled := s.cancelled + (if s.cancel.Some? then {s.cancel.value} else {}),
            cancel := None, transferring := false)
  }

  /** A locked send: refused unless the operation is the current one. */
  function Emit(s: State, m: Sent, ok: bool): State {
    if s.operation == m.op && ok then s.(trace := s.trace + [m]) else s
  }

  /** An error, if its operation is a real one and current. */
  function Complain(s: State, op: nat, request: nat, ok: bool): State {
    if op == 0 then s else Emit(s, Failure(op, request), ok)
  }

  /** What a job sees of the shared fields at a turn. */
  datatype View = View(current: bool, cancelled: bool, sameGeneration: bool)

  function Look(s: State, op: nat, job: Job): View {
    View(s.operation == op, op in s.cancelled, s.generation == job.generation)
  }

  /** The job after its turn, and what it sends if it sends anything. */
  datatype Action = Action(job: Job, sent: Option<Sent>)

  /** One atomic step of a job. */
  function Act(op: nat, job: Job, view: View, ok: bool, chunk: Bytes, after: ReadEnd): Action {
    match job.phase
    case Starting =>
      if view.current && ok
      then Action(job.(phase := CheckingContext), Some(Header(op, job.request, job.generation)))
      else Action(job.(phase := Closing), None)
    case CheckingContext =>
      Action(job.(phase := if view.cancelled then Closing else CheckingGeneration), None)
    case CheckingGeneration =>
      Action(job.(phase := if view.sameGeneration then Reading else Closing), None)
    case Reading =>
      if chunk == [] then Action(job.(phase := AfterRead(after)), None)
      else if view.cancelled || !view.current then Action(job.(phase := Closing), None)
      else Action(job.(total := job.total + |chunk|, phase := Sending(chunk, after)), None)
    case Sending(held, next) =>
      if !view.cancelled && view.current && ok
      then Action(job.(phase := AfterRead(next)), Some(Frame(op, job.generation, held)))
      else Action(job.(phase := Closing), None)
    case CheckingEnd =>
      Action(job.(phase := if !view.cancelled && view.current && view.sameGeneration
                           then SendingEnd else Closing), None)
    case SendingEnd =>
      Action(job.(phase := Closing),
             if view.current && ok then Some(EndOf(op, job.request, job.generation, job.total)) else None)
    case SendingFailure =>
      Action(job.(phase := Closing),
             if !view.cancelled && view.current && ok then Some(Failure(op, job.request)) else None)
    case Closing => Action(job.(phase := Done), None)
    case Done => Action(job, None)
  }

  function Appended(trace: seq<Sent>, sent: Option<Sent>): seq<Sent> {
    if sent.Some? then trace + [sent.value] else trace
  }

  function Perform(s: State, op: nat, action: Action): State {
    s.(jobs := s.jobs[op := action.job],
       trace := Appended(s.trace, action.sent))
  }

  /** A job's turn; the last one is the deferred finish. */
  function Advance(s: State, op: nat, ok: bool, chunk: Bytes, after: ReadEnd): State
    requires op in s.jobs
  {
    var job := s.jobs[op];
    var s' := if job.phase.Closing? then Finish(s, op) else s;
    Perform(s', op, Act(op, job, Look(s', op, job), ok, chunk, after))
  }

  function AfterRead(after: ReadEnd): Phase {
    match after
    case More => CheckingContext
    case Eof => CheckingEnd
    case Broken => SendingFailure
  }

  function Step(s: State, e: Event): State {
    match e
    case TakeId => s.(sequence := s.sequence + 1)
    case Preview(request, asset, video, generation) =>
      if generation >= GENERATIONS then s
      else Begin(s, asset, video, generation,
                 Job(request, asset, video, generation, if video then generation else 0, None, 0, Starting))
    case SeekRefused(parent, request, ok) => Complain(s, parent, request, ok)
    case SeekFetched(parent, request, asset, generation) =>
      if generation == 0 || generation >= GENERATIONS || parent == 0 || !Newer(s, parent, asset, generation) then s
      else Begin(s, asset, true, generation, Job(request, asset, true, generation, generation, Some(parent), 0, Starting))
    case Turn(op, ok, chunk, after) =>
      if op in s.jobs then Advance(s, op, ok, chunk, after) else s
  }

  // ----- what a trace says about one operation

  /** The operation's own messages; errors may also come from a seek that names it as its parent. */
  function Own(trace: seq<Sent>, op: nat): seq<Sent> {
    if trace == [] then []
    else (if trace[0].op == op && !trace[0].Failure? then [trace[0]] else []) + Own(trace[1..], op)
  }

  function Volume(msgs: seq<Sent>): nat {
    if msgs == [] then 0 else (if msgs[0].Frame? then |msgs[0].payload| else 0) + Volume(msgs[1..])
  }

  /** A header and then frames only. */
  predicate Opened(msgs: seq<Sent>) {
    msgs != [] && msgs[0].Header? && forall i :: 0 < i < |msgs| ==> msgs[i].Frame?
  }

  /** Nothing, or a header and frames, closed at most once by an end that counts their bytes. */
  predicate Lifecycle(msgs: seq<Sent>) {
    || msgs == []
    || Opened(msgs)
    || (Opened(msgs[..|msgs| - 1]) && msgs[|msgs| - 1].EndOf? && msgs[|msgs| - 1].bytes == Volume(msgs[..|msgs| - 1]))
  }

  predicate Ordered(trace: seq<Sent>) {
    forall i, j :: 0 <= i < j < |trace| ==> trace[i].op <= trace[j].op
  }

  predicate Labelled(m: Sent, op: nat, job: Job) {
    && m.op == op
    && (m.Header? || m.Frame? || m.EndOf? ==> m.generation == job.generation)
    && (m.Header? || m.EndOf? ==> m.request == job.request)
  }

  lemma {:induction false} OwnSnoc(trace: seq<Sent>, m: Sent, op: nat)
    ensures Own(trace + [m], op) == if m.op == op && !m.Failure? then Own(trace, op) + [m] else Own(trace, op)
  {
    if trace == [] {
      assert trace + [m] == [m] && [m][1..] == [];
    } else {
      OwnSnoc(trace[1..], m, op);
      assert (trace + [m])[1..] == trace[1..] + [m];
    }
  }

  lemma {:induction false} OwnNone(trace: seq<Sent>, op: nat)
    requires forall m :: m in trace ==> m.op != op || m.Failure?
    ensures Own(trace, op) == []
  {
    if trace != [] {
      assert trace[0] in trace;
      OwnNone(trace[1..], op);
    }
  }

  lemma {:induction false} VolumeSnoc(msgs: seq<Sent>, m: Sent)
    ensures Volume(msgs + [m]) == Volume(msgs) + (if m.Frame? then |m.payload| else 0)
  {
    if msgs == [] {
      assert msgs + [m] == [m] && [m][1..] == [];
    } else {
      VolumeSnoc(msgs[1..], m);
      assert (msgs + [m])[1..] == msgs[1..] + [m];
    }
  }

  // ----- the invariant

  /** What a job in this phase has sent. */
  predicate Logged(job: Job, msgs: seq<Sent>) {
    match job.phase
    case Starting => msgs == [] && job.total == 0
    case Sending(chunk, _) => Opened(msgs) && job.total == Volume(msgs) + |chunk|
    case Closing => Lifecycle(msgs)
    case Done => Lifecycle(msgs)
    case _ => Opened(msgs) && job.total == Volume(msgs)
  }

  /** A job past the generation check reads and sends in the generation asked for, or is cancelled. */
  predicate Gated(job: Job, cancelled: bool, sent: nat) {
    && (job.phase.Reading? || job.phase.Sending? ==> cancelled || job.generation == job.asked)
    && (job.phase.SendingEnd? ==> job.generation == job.asked)
    && (sent > 1 ==> job.generation == job.asked)
  }

  predicate JobOk(op: nat, job: Job, cancelled: bool, msgs: seq<Sent>) {
    && Logged(job, msgs)
    && (forall m :: m in msgs ==> Labelled(m, op, job))
    && Gated(job, cancelled, |msgs|)
  }

  /** A seek is for the same video as its parent, and its generation is newer. */
  predicate Chained(jobs: map<nat, Job>) {
    forall op :: op in jobs && jobs[op].parent.Some? ==>
      var p := jobs[op].parent.value;
      && p < op && p in jobs && jobs[p].asked < jobs[op].asked
      && jobs[p].asset == jobs[op].asset && jobs[p].video && jobs[op].video
  }

  /** The shared fields are those of the current operation's request. */
  predicate Current(s: State, job: Job) {
    job.asked == s.generation && job.asset == s.asset && job.video == s.video
  }

  predicate Fields(s: State) {
    && s.operation <= s.sequence
    && (s.operation == 0 ==> !s.video)
    && (s.operation != 0 ==> s.operation in s.jobs && Current(s, s.jobs[s.operation]))
    && (s.cancel.Some? ==> s.cancel.value == s.operation)
    && (s.cancel.None? && s.operation != 0 ==> s.operation in s.cancelled)
  }

  /** Every job but the current operation's is cancelled. */
  predicate Numbered(s: State) {
    && (forall op :: op in s.jobs ==> 0 < op <= s.operation && (op != s.operation ==> op in s.cancelled))
    && (forall op :: op in s.cancelled ==> op <= s.operation)
  }

  predicate TraceOk(s: State) {
    && Ordered(s.trace)
    && (forall m :: m in s.trace ==> m.op <= s.operation && (m.op in s.jobs || m.Failure?))
  }

  predicate Inv(s: State) {
    Fields(s) && TraceOk(s) && Chained(s.jobs) && Numbered(s) && JobsOk(s)
  }

  predicate JobsOk(s: State) {
    forall op :: op in s.jobs ==> JobOk(op, s.jobs[op], op in s.cancelled, Own(s.trace, op))
  }

  lemma BeginKeeps(s: State, asset: nat, video: bool, generation: nat, job: Job)
    requires Inv(s) && job.phase.Starting? && job.total == 0 && job.asked == generation && job.asset == asset && job.video == video
    requires job.parent.Some? ==>
      job.parent.value == s.operation != 0 && s.generation < generation && s.asset == asset && s.video && video
    ensures Inv(Begin(s, asset, video, generation, job))
  {
    var t := Begin(s, asset, video, generation, job);
    OwnNone(s.trace, t.operation);
    forall op | op in t.jobs ensures JobOk(op, t.jobs[op], op in t.cancelled, Own(t.trace, op)) {
      if op != t.operation {
        assert JobOk(op, s.jobs[op], op in s.cancelled, Own(s.trace, op));
      }
    }
  }

  lemma ComplainKeeps(s: State, op: nat, request: nat, ok: bool)
    requires Inv(s)
    ensures Inv(Complain(s, op, request, ok))
  {
    var t := Complain(s, op, request, ok);
    forall x | x in t.jobs ensures JobOk(x, t.jobs[x], x in t.cancelled, Own(t.trace, x)) {
      assert JobOk(x, s.jobs[x], x in s.cancelled, Own(s.trace, x));
      OwnSnoc(s.trace, Failure(op, request), x);
    }
  }

  /** The job's own messages before and after it acts. */
  function Extended(msgs: seq<Sent>, sent: Option<Sent>): seq<Sent> {
    if sent.Some? && !sent.value.Failure? then msgs + [sent.value] else msgs
  }

  lemma ActFrame(op: nat, job: Job, view: View, ok: bool, chunk: Bytes, after: ReadEnd)
    ensures var action := Act(op, job, view, ok, chunk, after);
      && (action.sent.Some? ==> view.current && action.sent.value.op == op)
      && action.job == job.(total := action.job.total, phase := action.job.phase)
  {
  }

  lemma ActOk(op: nat, job: Job, view: View, ok: bool, chunk: Bytes, after: ReadEnd, msgs: seq<Sent>)
    requires JobOk(op, job, view.cancelled, msgs)
    requires view.current ==> (view.sameGeneration <==> job.generation == job.asked)
    requires !view.current ==> view.cancelled
    ensures var action := Act(op, job, view, ok, chunk, after);
      && JobOk(op, action.job, view.cancelled, Extended(msgs, action.sent))
      && (action.sent.Some? ==> view.current && action.sent.value.op == op)
      && action.job == job.(total := action.job.total, phase := action.job.phase)
  {
    var action := Act(op, job, view, ok, chunk, after);
    ActFrame(op, job, view, ok, chunk, after);
    if action.sent.Some? && !action.sent.value.Failure? {
      SendOk(op, job, action.sent.value, msgs);
    }
  }

  /** The messages of an operation with one more of its own. */
  lemma SendOk(op: nat, job: Job, m: Sent, msgs: seq<Sent>)
    requires Labelled(m, op, job) && (forall x :: x in msgs ==> Labelled(x, op, job))
    requires if m.Header? then msgs == [] else Opened(msgs)
    ensures forall x :: x in msgs + [m] ==> Labelled(x, op, job)
    ensures m.Header? || m.Frame? ==>
      Opened(msgs + [m]) && Volume(msgs + [m]) == Volume(msgs) + (if m.Frame? then |m.payload| else 0)
    ensures m.EndOf? && m.bytes == Volume(msgs) ==> Lifecycle(msgs + [m])
  {
    VolumeSnoc(msgs, m);
    assert (msgs + [m])[..|msgs|] == msgs;
  }

  lemma PerformTrace(s: State, op: nat, action: Action)
    requires TraceOk(s) && op in s.jobs
    requires action.sent.Some? ==> s.operation == op && action.sent.value.op == op
    ensures TraceOk(Perform(s, op, action))
    ensures forall x: nat :: Own(Perform(s, op, action).trace, x) ==
              if x == op then Extended(Own(s.trace, op), action.sent) else Own(s.trace, x)
  {
    if action.sent.Some? {
      forall x: nat ensures Own(s.trace + [action.sent.value], x) ==
                       if x == op then Extended(Own(s.trace, op), action.sent) else Own(s.trace, x) {
        OwnSnoc(s.trace, action.sent.value, x);
      }
    }
  }

  lemma PerformKeepsJobs(s: State, t: State, op: nat)
    requires JobsOk(s) && op in s.jobs && op in t.jobs && t.jobs.Keys == s.jobs.Keys && t.cancelled == s.cancelled
    requires forall x :: x in s.jobs && x != op ==> t.jobs[x] == s.jobs[x] && Own(t.trace, x) == Own(s.trace, x)
    requires JobOk(op, t.jobs[op], op in s.cancelled, Own(t.trace, op))
    ensures JobsOk(t)
  {
    forall x | x in t.jobs ensures JobOk(x, t.jobs[x], x in t.cancelled, Own(t.trace, x)) {
      assert x != op ==> JobOk(x, s.jobs[x], x in s.cancelled, Own(s.trace, x));
    }
  }

  lemma PerformKeepsFields(s: State, op: nat, action: Action)
    requires Fields(s) && Chained(s.jobs) && Numbered(s) && op in s.jobs
    requires action.job == s.jobs[op].(total := action.job.total, phase := action.job.phase)
    ensures var t := Perform(s, op, action); Fields(t) && Chained(t.jobs) && Numbered(t)
  {
  }

  lemma FinishKeeps(s: State, op: nat)
    requires Inv(s)
    ensures Inv(Finish(s, op))
  {
    var t := Finish(s, op);
    forall x | x in t.jobs ensures JobOk(x, t.jobs[x], x in t.cancelled, Own(t.trace, x)) {
      assert JobOk(x, s.jobs[x], x in s.cancelled, Own(s.trace, x));
    }
  }

  lemma PerformKeeps(s: State, op: nat, job: Job, ok: bool, chunk: Bytes, after: ReadEnd)
    requires Inv(s) && op in s.jobs && job == s.jobs[op]
    ensures Inv(Perform(s, op, Act(op, job, Look(s, op, job), ok, chunk, after)))
  {
    var view := Look(s, op, job);
    var action := Act(op, job, view, ok, chunk, after);
    ActOk(op, job, view, ok, chunk, after, Own(s.trace, op));
    PerformTrace(s, op, action);
    PerformKeepsFields(s, op, action);
    PerformKeepsJobs(s, Perform(s, op, action), op);
  }

  lemma AdvanceKeeps(s: State, op: nat, ok: bool, chunk: Bytes, after: ReadEnd)
    requires Inv(s) && op in s.jobs
    ensures Inv(Advance(s, op, ok, chunk, after))
  {
    var job := s.jobs[op];
    FinishKeeps(s, op);
    PerformKeeps(if job.phase.Closing? then Finish(s, op) else s, op, job, ok, chunk, after);
  }

  lemma StepKeeps(s: State, e: Event)
    requires Inv(s)
    ensures Inv(Step(s, e))
  {
    match e
    case TakeId =>
      var t := Step(s, e);
      forall op | op in t.jobs ensures JobOk(op, t.jobs[op], op in t.cancelled, Own(t.trace, op)) {
        assert JobOk(op, s.jobs[op], op in s.cancelled, Own(s.trace, op));
      }
    case Preview(request, asset, video, generation) =>
      if generation < GENERATIONS {
        BeginKeeps(s, asset, video, generation,
                   Job(request, asset, video, generation, if video then generation else 0, None, 0, Starting));
      }
    case SeekRefused(parent, request, ok) => ComplainKeeps(s, parent, request, ok);
    case SeekFetched(parent, request, asset, generation) =>
      if 0 < generation < GENERATIONS && parent != 0 && Newer(s, parent, asset, generation) {
        BeginKeeps(s, asset, true, generation, Job(request, asset, true, generation, generation, Some(parent), 0, Starting));
      }
    case Turn(op, ok, chunk, after) =>
      if op in s.jobs {
        AdvanceKeeps(s, op, ok, chunk, after);
      }
  }

  // ----- over whole runs

  lemma RunKeeps(s: State, es: seq<Event>)
    requires Inv(s)
    ensures Inv(Run(Step, s, es))
  {
    forall t: State, e: Event | Inv(t) ensures Inv(Step(t, e)) {
      StepKeeps(t, e);
    }
    Invariant(Step, Inv, s, es);
  }

  lemma EveryRun(es: seq<Event>)
    ensures Inv(Run(Step, IDLE, es))
  {
    RunKeeps(IDLE, es);
  }

  /** However previews and seeks overlap, the ids on the wire never go back, and what one operation
      sends is a header, its frames and at most one end that counts them. */
  lemma TraceSafety(es: seq<Event>, op: nat)
    ensures var trace := Run(Step, IDLE, es).trace;
      Ordered(trace) && Lifecycle(Own(trace, op))
  {
    EveryRun(es);
    var s := Run(Step, IDLE, es);
    if op in s.jobs {
      assert JobOk(op, s.jobs[op], op in s.cancelled, Own(s.trace, op));
    } else {
      OwnNone(s.trace, op);
    }
  }

  /** An operation followed by its parent, its parent's parent and so on. */
  function Chain(jobs: map<nat, Job>, op: nat): seq<nat>
    requires Chained(jobs) && op in jobs
    decreases op
  {
    if jobs[op].parent.None? then [op] else [op] + Chain(jobs, jobs[op].parent.value)
  }

  /** Along every chain of accepted seeks the generations strictly increase, and so do the ids. */
  lemma {:induction false} ChainsIncrease(jobs: map<nat, Job>, op: nat, i: nat, j: nat)
    requires Chained(jobs) && op in jobs && i < j < |Chain(jobs, op)|
    ensures var chain := Chain(jobs, op);
      && chain[i] in jobs && chain[j] in jobs && jobs[chain[j]].asked < jobs[chain[i]].asked && chain[j] < chain[i]
      && jobs[chain[j]].asset == jobs[chain[i]].asset && jobs[chain[j]].video && jobs[chain[i]].video
    decreases op, j
  {
    var p := jobs[op].parent.value;
    if i > 0 {
      ChainsIncrease(jobs, p, i - 1, j - 1);
    } else if j > 1 {
      ChainsIncrease(jobs, p, 0, j - 1);
    }
  }

  /** A still image requested with a generation other than 0 is announced and then never streamed:
      its frames would carry generation 0, which is not the current one. */
  lemma NothingAfterHeader(s: State, op: nat)
    requires Inv(s) && op in s.jobs && s.jobs[op].generation != s.jobs[op].asked
    ensures |Own(s.trace, op)| <= 1
  {
    assert JobOk(op, s.jobs[op], op in s.cancelled, Own(s.trace, op));
  }

  function Frames(op: nat, generation: nat, chunks: seq<Bytes>): seq<Sent> {
    if chunks == [] then [] else [Frame(op, generation, chunks[0])] + Frames(op, generation, chunks[1..])
  }

  function Size(chunks: seq<Bytes>): nat {
    if chunks == [] then 0 else |chunks[0]| + Size(chunks[1..])
  }

  /** The turns of a stream that is left alone and reads these chunks. */
  function Streaming(op: nat, chunks: seq<Bytes>): seq<Event> {
    var check := Turn(op, true, [], Eof);
    if chunks == [] then [check] + ([check] + ([check] + ([check] + ([check] + []))))
    else [check] + ([check] + ([Turn(op, true, chunks[0], More)] + ([check] + Streaming(op, chunks[1..]))))
  }

  /** The job of the current operation, not cancelled, between its steps. */
  predicate Free(s: State, op: nat, job: Job) {
    op in s.jobs && s.jobs[op] == job && s.operation == op && op !in s.cancelled && s.generation == job.generation
  }

  /** The current operation's stream has ended; its deferred finish comes next. */
  predicate Closes(s: State, op: nat) {
    s.operation == op && op in s.jobs && s.jobs[op].phase.Closing?
  }

  lemma FreeTurn(s: State, op: nat, chunk: Bytes, after: ReadEnd)
    requires op in s.jobs && Free(s, op, s.jobs[op]) && s.jobs[op].phase !in {Closing, Done}
    ensures var t := Step(s, Turn(op, true, chunk, after));
      var action := Act(op, s.jobs[op], View(true, false, true), true, chunk, after);
      Free(t, op, action.job) && t.trace == Appended(s.trace, action.sent)
  {
  }

  lemma {:induction false} StreamDelivers(s: State, op: nat, chunks: seq<Bytes>)
    requires op in s.jobs && Free(s, op, s.jobs[op]) && s.jobs[op].phase.CheckingContext?
    requires forall c :: c in chunks ==> c != []
    ensures var job := s.jobs[op];
      Run(Step, s, Streaming(op, chunks)).trace ==
        s.trace + Frames(op, job.generation, chunks)
        + [EndOf(op, job.request, job.generation, job.total + Size(chunks))]
    ensures Closes(Run(Step, s, Streaming(op, chunks)), op)
    decreases |chunks|
  {
    var check := Turn(op, true, [], Eof);
    var s1 := Step(s, check);
    var s2 := Step(s1, check);
    FreeTurn(s, op, [], Eof);
    FreeTurn(s1, op, [], Eof);
    if chunks == [] {
      LastTurns(s2, op);
      Unroll(s, check, check, check, [check] + []);
    } else {
      var read := Turn(op, true, chunks[0], More);
      var s3 := Step(s2, read);
      var s4 := Step(s3, check);
      assert chunks[0] in chunks && forall c :: c in chunks[1..] ==> c in chunks;
      FreeTurn(s2, op, chunks[0], More);
      FreeTurn(s3, op, [], Eof);
      Unroll(s, check, read, check, Streaming(op, chunks[1..]));
      StreamDelivers(s4, op, chunks[1..]);
    }
  }

  lemma LastTurns(s: State, op: nat)
    requires op in s.jobs && Free(s, op, s.jobs[op]) && s.jobs[op].phase.Reading?
    ensures var job := s.jobs[op];
      var check := Turn(op, true, [], Eof);
      Run(Step, Step(Step(s, check), check), [check] + []).trace ==
        s.trace + [EndOf(op, job.request, job.generation, job.total)]
    ensures var check := Turn(op, true, [], Eof);
      Closes(Run(Step, Step(Step(s, check), check), [check] + []), op)
  {
    var check := Turn(op, true, [], Eof);
    var s1 := Step(s, check);
    FreeTurn(s, op, [], Eof);
    FreeTurn(s1, op, [], Eof);
    RunCons(Step, Step(s1, check), check, []);
    FreeTurn(Step(s1, check), op, [], Eof);
  }

  lemma Unroll(s: State, a: Event, b: Event, c: Event, rest: seq<Event>)
    ensures Run(Step, s, [a] + ([a] + ([b] + ([c] + rest)))) == Run(Step, Step(Step(Step(Step(s, a), a), b), c), rest)
  {
    RunCons(Step, s, a, [a] + ([b] + ([c] + rest)));
    RunCons(Step, Step(s, a), a, [b] + ([c] + rest));
    RunCons(Step, Step(Step(s, a), a), b, [c] + rest);
    RunCons(Step, Step(Step(Step(s, a), a), b), c, rest);
  }

  lemma StepKeepsGenerations(s: State, e: Event, op: nat)
    requires op in s.jobs && op <= s.sequence
    ensures var t := Step(s, e);
      op in t.jobs && t.jobs[op].asked == s.jobs[op].asked && t.jobs[op].generation == s.jobs[op].generation
  {
  }

  /** A job keeps the generations it was made with. */
  lemma {:induction false} JobsKeepGenerations(s: State, es: seq<Event>, op: nat)
    requires Inv(s) && op in s.jobs
    ensures var t := Run(Step, s, es);
      op in t.jobs && t.jobs[op].asked == s.jobs[op].asked && t.jobs[op].generation == s.jobs[op].generation
    decreases |es|
  {
    if es != [] {
      StepKeeps(s, es[0]);
      StepKeepsGenerations(s, es[0], op);
      JobsKeepGenerations(Step(s, es[0]), es[1..], op);
    }
  }

  /** What an undisturbed preview does after whatever came before. */
  function Script(op: nat, preview: Event, chunks: seq<Bytes>): seq<Event> {
    [preview, Turn(op, true, [], Eof)] + Streaming(op, chunks)
  }

  lemma UndisturbedDelivers(s: State, request: nat, asset: nat, video: bool, generation: nat, chunks: seq<Bytes>)
    requires Inv(s) && generation < GENERATIONS && (video || generation == 0) && forall c :: c in chunks ==> c != []
    ensures var op := s.sequence + 1;
      Run(Step, s, Script(op, Preview(request, asset, video, generation), chunks)).trace ==
        s.trace + [Header(op, request, generation)] + Frames(op, generation, chunks)
        + [EndOf(op, request, generation, Size(chunks))]
    ensures var op := s.sequence + 1;
      Closes(Run(Step, s, Script(op, Preview(request, asset, video, generation), chunks)), op)
  {
    var op := s.sequence + 1;
    var preview := Preview(request, asset, video, generation);
    var turn := Turn(op, true, [], Eof);
    var s1 := Step(s, preview);
    BeginIsFree(s, request, asset, video, generation);
    FreeTurn(s1, op, [], Eof);
    RunCons(Step, s, preview, [turn] + Streaming(op, chunks));
    RunCons(Step, s1, turn, Streaming(op, chunks));
    StreamDelivers(Step(s1, turn), op, chunks);
  }

  lemma BeginIsFree(s: State, request: nat, asset: nat, video: bool, generation: nat)
    requires Numbered(s) && Fields(s) && generation < GENERATIONS && (video || generation == 0)
    ensures var t := Step(s, Preview(request, asset, video, generation));
      Free(t, s.sequence + 1, Job(request, asset, video, generation, generation, None, 0, Starting)) && t.trace == s.trace
  {
  }

  /** A preview can deliver its data exactly when it is a video or asks for generation 0: then, left
      alone, it sends its header, every chunk read and the end; otherwise no continuation of the run
      sends anything but the header. */
  lemma PreviewDelivers(es: seq<Event>, request: nat, asset: nat, video: bool, generation: nat,
                        chunks: seq<Bytes>, more: seq<Event>)
    requires generation < GENERATIONS && forall c :: c in chunks ==> c != []
    ensures var s := Run(Step, IDLE, es);
      var op := s.sequence + 1;
      var preview := Preview(request, asset, video, generation);
      if video || generation == 0 then
        Run(Step, s, Script(op, preview, chunks)).trace ==
          s.trace + [Header(op, request, generation)] + Frames(op, generation, chunks)
          + [EndOf(op, request, generation, Size(chunks))]
      else |Own(Run(Step, s, [preview] + more).trace, op)| <= 1
  {
    EveryRun(es);
    var s := Run(Step, IDLE, es);
    if video || generation == 0 {
      UndisturbedDelivers(s, request, asset, video, generation, chunks);
    } else {
      SilentStill(s, request, asset, generation, more);
    }
  }

  lemma SilentStill(s: State, request: nat, asset: nat, generation: nat, more: seq<Event>)
    requires Inv(s) && 0 < generation < GENERATIONS
    ensures |Own(Run(Step, s, [Preview(request, asset, false, generation)] + more).trace, s.sequence + 1)| <= 1
  {
    var op := s.sequence + 1;
    var preview := Preview(request, asset, false, generation);
    var s1 := Step(s, preview);
    StepKeeps(s, preview);
    JobsKeepGenerations(s1, more, op);
    RunKeeps(s1, more);
    RunCons(Step, s, preview, more);
    NothingAfterHeader(Run(Step, s1, more), op);
  }

  // ----- after an operation's end

  /** The end of the operation is in the trace. */
  predicate HasEnded(s: State, op: nat) {
    exists m :: m in s.trace && m.EndOf? && m.op == op
  }

  /** The step puts a message that bears the operation's id on the wire. */
  predicate Emits(s: State, e: Event, op: nat) {
    var t := Step(s, e);
    |t.trace| == |s.trace| + 1 && t.trace[..|s.trace|] == s.trace && t.trace[|s.trace|].op == op
  }

  lemma {:induction false} OwnMember(trace: seq<Sent>, m: Sent)
    requires m in trace && !m.Failure?
    ensures m in Own(trace, m.op)
  {
    if trace[0] != m {
      assert m in trace[1..];
      OwnMember(trace[1..], m);
    }
  }

  /** A job whose operation has ended only has its deferred finish left. */
  lemma EndedJob(s: State, op: nat)
    requires Inv(s) && HasEnded(s, op)
    ensures op in s.jobs && (s.jobs[op].phase.Closing? || s.jobs[op].phase.Done?)
  {
    var m :| m in s.trace && m.EndOf? && m.op == op;
    OwnMember(s.trace, m);
    var own := Own(s.trace, op);
    assert JobOk(op, s.jobs[op], op in s.cancelled, own);
    var i :| 0 <= i < |own| && own[i] == m;
  }

  /** After its end, a message of an operation goes out exactly when a seek that names it as its parent
      is refused or fails while it is still the current operation, and the message is that error. */
  lemma OnlyErrorsAfterEnd(past: seq<Event>, e: Event, op: nat)
    requires HasEnded(Run(Step, IDLE, past), op)
    ensures var s := Run(Step, IDLE, past);
      && (Emits(s, e, op) <==> e.SeekRefused? && e.parent == op && s.operation == op && e.ok)
      && (Emits(s, e, op) ==> Step(s, e).trace == s.trace + [Failure(op, e.request)])
  {
    EveryRun(past);
    var s := Run(Step, IDLE, past);
    EndedJob(s, op);
    AfterEndStep(s, e, op);
  }

  lemma AfterEndStep(s: State, e: Event, op: nat)
    requires op in s.jobs && (s.jobs[op].phase.Closing? || s.jobs[op].phase.Done?) && op != 0
    requires forall x :: x in s.jobs ==> JobOk(x, s.jobs[x], x in s.cancelled, Own(s.trace, x))
    ensures Emits(s, e, op) <==> e.SeekRefused? && e.parent == op && s.operation == op && e.ok
    ensures Emits(s, e, op) ==> Step(s, e).trace == s.trace + [Failure(op, e.request)]
  {
    if e.Turn? && e.op in s.jobs {
      TurnEmitsOwn(s, e.op, e.ok, e.chunk, e.after);
    }
  }

  /** A job's turn emits only messages of its own operation, and none once it is closing. */
  lemma TurnEmitsOwn(s: State, op: nat, ok: bool, chunk: Bytes, after: ReadEnd)
    requires op in s.jobs
    ensures var t := Advance(s, op, ok, chunk, after);
      t.trace == s.trace
      || (!s.jobs[op].phase.Closing? && !s.jobs[op].phase.Done?
          && |t.trace| == |s.trace| + 1 && t.trace[|s.trace|].op == op)
  {
  }

  /** After any run, a preview that delivers its data, finishes and is then named by a failed seek sends
      that error after its end: finishing leaves the operation current. */
  lemma ErrorAfterEnd(past: seq<Event>, request: nat, asset: nat, video: bool, generation: nat, chunks: seq<Bytes>, seek: nat)
    requires generation < GENERATIONS && (video || generation == 0) && forall c :: c in chunks ==> c != []
    ensures var s := Run(Step, IDLE, past);
      var op := s.sequence + 1;
      var delivered := Run(Step, s, Script(op, Preview(request, asset, video, generation), chunks));
      var finished := Step(delivered, Turn(op, true, [], Eof));
      && op in finished.jobs && finished.jobs[op].phase.Done? && !finished.transferring
      && Step(finished, SeekRefused(op, seek, true)).trace ==
           s.trace + [Header(op, request, generation)] + Frames(op, generation, chunks)
           + [EndOf(op, request, generation, Size(chunks))] + [Failure(op, seek)]
  {
    EveryRun(past);
    ErrorAfterEndFrom(Run(Step, IDLE, past), request, asset, video, generation, chunks, seek);
  }

  lemma ErrorAfterEndFrom(s: State, request: nat, asset: nat, video: bool, generation: nat, chunks: seq<Bytes>, seek: nat)
    requires Inv(s) && generation < GENERATIONS && (video || generation == 0) && forall c :: c in chunks ==> c != []
    ensures var op := s.sequence + 1;
      var delivered := Run(Step, s, Script(op, Preview(request, asset, video, generation), chunks));
      var finished := Step(delivered, Turn(op, true, [], Eof));
      && op in finished.jobs && finished.jobs[op].phase.Done? && !finished.transferring
      && Step(finished, SeekRefused(op, seek, true)).trace ==
           s.trace + [Header(op, request, generation)] + Frames(op, generation, chunks)
           + [EndOf(op, request, generation, Size(chunks))] + [Failure(op, seek)]
  {
    var op := s.sequence + 1;
    UndisturbedDelivers(s, request, asset, video, generation, chunks);
    FinishThenFail(Run(Step, s, Script(op, Preview(request, asset, video, generation), chunks)), op, seek);
  }

  lemma FinishThenFail(s: State, op: nat, seek: nat)
    requires Closes(s, op) && op != 0
    ensures var finished := Step(s, Turn(op, true, [], Eof));
      op in finished.jobs && finished.jobs[op].phase.Done? && !finished.transferring
      && Step(finished, SeekRefused(op, seek, true)).trace == s.trace + [Failure(op, seek)]
  {
  }
}
