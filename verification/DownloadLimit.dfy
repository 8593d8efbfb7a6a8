/**
 Exactly when the agent's download limit holds. A request is checked against the limit before it takes
 the bulk token, so what counts is not only the downloads counted so far but also the one under way
 and the one admitted.
 */
module DownloadLimit {
  import opened Basics
  import opened Runs
  import opened AlbumAgent

  /** Whether the acknowledgement in a batch's channel, if any, is the one this part will wait for. */
  predicate Acceptable(ack: Option<Ack>, part: nat, op: nat) {
    ack.Some? ==> ack.value == Ack(part, op, true)
  }

  /** Whether the download under way can still be counted. An album cannot once its channel holds an
      acknowledgement that its next wait will not accept. */
  predicate Countable(s: State) {
    s.job.Some? &&
    var job := s.job.value;
    match job
    case FileJob(_, stage) => stage.Archiving? || stage.Counting?
    case AlbumJob(op, _, _, part, _, _, stage) =>
      var ack := if s.batch.Some? then s.batch.value.ack else None;
      match stage
      case Fetching => Acceptable(ack, 1, op)
      case Advancing => ack.Some? ==> ack.value.ok && ack.value.part == part + 1 && ack.value.op > s.sequence
      case Heading => Acceptable(ack, part, op)
      case Archiving => Acceptable(ack, part, op)
      case Ending => Acceptable(ack, part, op)
      case Waiting => Acceptable(ack, part, op)
      case Counting => true
      case _ => false
  }

  /** Downloads counted, the one under way if it can still be counted, and the request admitted. */
  function Load(s: State): nat {
    s.downloads + (if Countable(s) then 1 else 0) + (if s.handler.Some? then 1 else 0)
  }

  predicate NoRequests(es: seq<Event>) {
    forall e :: e in es ==> !e.Request?
  }

  /** The parts of the job are in range for its stage. */
  predicate PartsOk(s: State) {
    s.job.Some? && s.job.value.AlbumJob? ==>
      var job := s.job.value;
      match job.stage
      case Fetching => true
      case Advancing => 0 < job.part < job.count
      case Heading => 0 < job.part <= job.count
      case Archiving => 0 < job.part <= job.count
      case Ending => 0 < job.part <= job.count
      case Waiting => 0 < job.part <= job.count
      case _ => true
  }

  predicate Basic(s: State) {
    TokenOk(s) && ChannelOk(s) && PartsOk(s)
  }

  lemma BasicAlbumTurn(s: State, job: Job, ok: bool, n: nat)
    requires Basic(s) && s.job == Some(job) && job.AlbumJob?
    ensures ChannelOk(AlbumTurn(s, job, ok, n)) && PartsOk(AlbumTurn(s, job, ok, n))
  {
  }

  lemma BasicStep(s: State, e: Event)
    requires Basic(s)
    ensures Basic(Step(s, e))
  {
    TokenStep(s, e);
    if e.Turn? && s.job.Some? && s.job.value.AlbumJob? {
      BasicAlbumTurn(s, s.job.value, e.ok, e.n);
    }
  }

  lemma BasicRun(s: State, es: seq<Event>)
    requires Basic(s)
    ensures Basic(Run(Step, s, es))
  {
    forall t: State, e: Event | Basic(t) ensures Basic(Step(t, e)) {
      BasicStep(t, e);
    }
    Invariant(Step, Basic, s, es);
  }

  // ----- the load never grows without a request

  lemma AlbumTurnLoad(s: State, job: Job, ok: bool, n: nat)
    requires Basic(s) && s.job == Some(job) && job.AlbumJob?
    ensures var t := AlbumTurn(s, job, ok, n); Load(t) <= Load(s) && t.limit == s.limit
  {
  }

  lemma LoadFalls(s: State, e: Event)
    requires Basic(s) && !e.Request?
    ensures Load(Step(s, e)) <= Load(s) && Step(s, e).limit == s.limit
  {
    if e.Turn? && s.job.Some? && s.job.value.AlbumJob? {
      AlbumTurnLoad(s, s.job.value, e.ok, e.n);
    }
  }

  lemma {:induction false} LoadBounds(s: State, es: seq<Event>)
    requires Basic(s) && NoRequests(es)
    ensures Run(Step, s, es).downloads <= Load(s)
    decreases |es|
  {
    if es != [] {
      assert es[0] in es && forall e :: e in es[1..] ==> e in es;
      LoadFalls(s, es[0]);
      BasicStep(s, es[0]);
      LoadBounds(Step(s, es[0]), es[1..]);
    }
  }

  // ----- and can be reached

  /** What brings the job nearer its end and loses nothing that can be counted. */
  function Next(s: State): Event
    requires s.job.Some?
  {
    var job := s.job.value;
    if job.FileJob? then Turn(true, 0)
    else
      var ack := if s.batch.Some? then s.batch.value.ack else None;
      match job.stage
      case Fetching => Turn(true, 1)
      case Advancing => if ack.Some? && ack.value.op > s.sequence + 1 then TakeId else Turn(true, 0)
      case Waiting => if ack.None? then Receive(job.batch, Ack(job.part, job.op, true)) else Turn(true, 0)
      case _ => Turn(true, 0)
  }

  function Rank(s: State): nat {
    if s.job.None? then 0
    else if s.job.value.FileJob? then
      match s.job.value.stage
      case Archiving => 3
      case Counting => 2
      case _ => 1
    else
      var job := s.job.value;
      var left := if job.part <= job.count then 10 * (job.count - job.part) else 0;
      match job.stage
      case Fetching => 10
      case Heading => left + 9
      case Archiving => left + 8
      case Ending => left + 7
      case Waiting => if s.batch.Some? && s.batch.value.ack.Some? then left + 5 else left + 6
      case Advancing => left + 4
      case Counting => 4
      case Telling => 3
      case Clearing => 2
      case Releasing => 1
  }

  /** How many ids are still to be taken before the operation an early acknowledgement speaks of. */
  function Gap(s: State): nat {
    if s.batch.Some? && s.batch.value.ack.Some? && s.batch.value.ack.value.op > s.sequence
    then s.batch.value.ack.value.op - s.sequence else 0
  }

  lemma NextStep(s: State)
    requires Basic(s) && s.job.Some?
    ensures var t := Step(s, Next(s));
      && t.handler == s.handler && t.limit == s.limit && Load(t) == Load(s)
      && (Rank(t) < Rank(s) || (Rank(t) == Rank(s) && Gap(t) < Gap(s)))
  {
    if s.job.value.AlbumJob? {
      NextAlbumStep(s, s.job.value);
    }
  }

  lemma NextAlbumStep(s: State, job: Job)
    requires Basic(s) && s.job == Some(job) && job.AlbumJob?
    ensures var t := Step(s, Next(s));
      && t.handler == s.handler && t.limit == s.limit && Load(t) == Load(s)
      && (Rank(t) < Rank(s) || (Rank(t) == Rank(s) && Gap(t) < Gap(s)))
  {
    if job.stage in {Fetching, Heading, Archiving, Ending} {
      NextEarlyStep(s, job);
    } else if job.stage in {Waiting, Advancing} {
      NextWaitingStep(s, job);
    }
  }

  lemma NextEarlyStep(s: State, job: Job)
    requires Basic(s) && s.job == Some(job) && job.AlbumJob? && job.stage in {Fetching, Heading, Archiving, Ending}
    ensures var t := Step(s, Next(s));
      t.handler == s.handler && t.limit == s.limit && Load(t) == Load(s) && Rank(t) < Rank(s)
  {
  }

  lemma NextWaitingStep(s: State, job: Job)
    requires Basic(s) && s.job == Some(job) && job.AlbumJob? && job.stage in {Waiting, Advancing}
    ensures var t := Step(s, Next(s));
      && t.handler == s.handler && t.limit == s.limit && Load(t) == Load(s)
      && (Rank(t) < Rank(s) || (Rank(t) == Rank(s) && Gap(t) < Gap(s)))
  {
  }

  lemma FinishJob(s: State) returns (es: seq<Event>)
    requires Basic(s)
    ensures var t := Run(Step, s, es);
      NoRequests(es) && Basic(t) && t.job.None? && t.handler == s.handler && t.limit == s.limit && Load(t) == Load(s)
    decreases Rank(s), Gap(s)
  {
    if s.job.None? {
      es := [];
    } else {
      var e := Next(s);
      NextStep(s);
      BasicStep(s, e);
      var rest := FinishJob(Step(s, e));
      RunCons(Step, s, e, rest);
      es := [e] + rest;
    }
  }

  /** The load is reached: let the job end, admit the request, let that end. */
  lemma LoadIsReached(s: State) returns (es: seq<Event>)
    requires Basic(s)
    ensures NoRequests(es) && Run(Step, s, es).downloads == Load(s)
  {
    var first := FinishJob(s);
    var t := Run(Step, s, first);
    if t.handler.None? {
      es := first;
    } else {
      var u := Step(t, Acquire);
      BasicStep(t, Acquire);
      Admitted(t);
      var second := FinishJob(u);
      RunCons(Step, t, Acquire, second);
      RunAppend(Step, s, first, [Acquire] + second);
      es := first + ([Acquire] + second);
    }
  }

  lemma Admitted(t: State)
    requires Basic(t) && t.job.None? && t.handler.Some?
    ensures var u := Step(t, Acquire); u.handler.None? && Load(u) == Load(t)
  {
  }

  // ----- when the limit holds

  predicate Reaches(s: State, es: seq<Event>) {
    NoRequests(es) && Run(Step, s, es).downloads > s.limit
  }

  /** From any state of any run, the limit can be passed without a further request exactly if the load
      is above it: a test of the state's own fields. */
  lemma PassedExactly(limit: nat, base: nat, past: seq<Event>)
    ensures var s := Run(Step, Start(limit, base), past);
      (exists es: seq<Event> :: Reaches(s, es)) <==> Load(s) > s.limit
  {
    var s := Run(Step, Start(limit, base), past);
    BasicRun(Start(limit, base), past);
    if Load(s) > s.limit {
      var es := LoadIsReached(s);
      assert Reaches(s, es);
    }
    forall es: seq<Event> | Reaches(s, es) ensures Load(s) > s.limit {
      LoadBounds(s, es);
    }
  }

  /** The test a request would have to pass: with the download under way counted in. */
  predicate Guard(s: State) {
    s.downloads + (if Countable(s) then 1 else 0) < s.limit
  }

  /** A request that is admitted keeps every continuation without further requests within the limit
      exactly if it meets the guard. */
  lemma GuardIsExact(limit: nat, base: nat, past: seq<Event>, wanted: Wanted)
    requires limit > 0
    requires var s := Run(Step, Start(limit, base), past); s.handler.None? && !LimitReached(s)
    ensures var s := Run(Step, Start(limit, base), past);
      (forall es: seq<Event> :: !Reaches(Step(s, Request(wanted)), es)) <==> Guard(s)
  {
    var s := Run(Step, Start(limit, base), past);
    LimitStays(Start(limit, base), past);
    RunSnoc(Step, Start(limit, base), past, Request(wanted));
    PassedExactly(limit, base, past + [Request(wanted)]);
  }

  lemma {:induction false} LimitStays(s: State, es: seq<Event>)
    ensures Run(Step, s, es).limit == s.limit
    decreases |es|
  {
    if es != [] {
      LimitStays(Step(s, es[0]), es[1..]);
    }
  }

  /** An event that does not admit a request outside the guard. */
  predicate Guarded(s: State, e: Event) {
    e.Request? && s.handler.None? && !LimitReached(s) ==> Guard(s)
  }

  /** If every admitted request meets the guard, the limit holds throughout the run. */
  lemma GuardedRunsStayWithin(limit: nat, base: nat, es: seq<Event>)
    requires 0 < limit && base <= limit && EachStep(Step, Guarded, Start(limit, base), es)
    ensures Run(Step, Start(limit, base), es).downloads <= limit
  {
    var inv := (s: State) => Basic(s) && s.limit == limit && Load(s) <= limit;
    forall s: State, e: Event | inv(s) && Guarded(s, e) ensures inv(Step(s, e)) {
      BasicStep(s, e);
      if e.Request? {
        RequestLoad(s, e.wanted);
      } else {
        LoadFalls(s, e);
      }
    }
    InvariantWhere(Step, inv, Guarded, Start(limit, base), es);
  }

  lemma RequestLoad(s: State, wanted: Wanted)
    ensures var t := Step(s, Request(wanted));
      t.limit == s.limit && Load(t) == Load(s) + (if s.handler.None? && !LimitReached(s) then 1 else 0)
  {
  }

  /** An album whose channel holds a foreign acknowledgement is under way and yet can never be counted,
      so a request admitted beside it stays within a limit of 1. */
  lemma ForeignAckNeverCounts(es: seq<Event>)
    requires NoRequests(es)
    ensures var past := [Request(Album(1)), Acquire, Receive(1, Ack(9, 9, true)), Request(File(2))];
      var s := Run(Step, Start(1, 0), past);
      s.job.Some? && Uncounted(s.job.value.stage) && s.handler.Some? && Run(Step, s, es).downloads <= 1
  {
    var s1 := Step(Step(Start(1, 0), Request(Album(1))), Acquire);
    assert s1.job == Some(AlbumJob(1, 1, 0, 0, 0, 0, Fetching));
    var s := Step(Step(s1, Receive(1, Ack(9, 9, true))), Request(File(2)));
    BasicRun(Start(1, 0), [Request(Album(1)), Acquire, Receive(1, Ack(9, 9, true)), Request(File(2))]);
    FourEvents(Start(1, 0), Request(Album(1)), Acquire, Receive(1, Ack(9, 9, true)), Request(File(2)));
    LoadBounds(s, es);
  }

  lemma FourEvents(s: State, a: Event, b: Event, c: Event, d: Event)
    ensures Run(Step, s, [a, b, c, d]) == Step(Step(Step(Step(s, a), b), c), d)
  {
    assert [a, b, c, d] == [a] + ([b] + ([c] + ([d] + [])));
    RunCons(Step, s, a, [b] + ([c] + ([d] + [])));
    RunCons(Step, Step(s, a), b, [c] + ([d] + []));
    RunCons(Step, Step(Step(s, a), b), c, [d] + []);
    RunCons(Step, Step(Step(Step(s, a), b), c), d, []);
  }
}
