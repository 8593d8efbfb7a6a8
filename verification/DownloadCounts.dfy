/**
 When a download is counted, as a matter of what its reads, sends and waits returned.
 */
module DownloadCounts {
  import opened Basics
  import opened Runs
  import opened AlbumAgent

  /** What a turn of a job returned: whether it went well, and how many bytes a read yielded. */
  datatype Result = Result(ok: bool, n: nat)

  /** The turns of the job that holds the token, since it took it, after those in `before`. */
  function TurnsSince(s: State, es: seq<Event>, before: seq<Result>): seq<Result>
    decreases |es|
  {
    if es == [] then before else TurnsSince(Step(s, es[0]), es[1..], TurnsAfter(s, es[0], before))
  }

  function TurnsAfter(s: State, e: Event, before: seq<Result>): seq<Result> {
    if Step(s, e).job.None? || s.job.None? then []
    else if e.Turn? then before + [Result(e.ok, e.n)]
    else before
  }

  /** The downloads counted when that job took the token. */
  function CountedBefore(s: State, es: seq<Event>, before: nat): nat
    decreases |es|
  {
    if es == [] then before else CountedBefore(Step(s, es[0]), es[1..], BaseAfter(s, es[0], before))
  }

  function BaseAfter(s: State, e: Event, before: nat): nat {
    if Step(s, e).job.None? || s.job.None? then Step(s, e).downloads else before
  }

  // ----- files

  /** How reading went, turn by turn: a turn that is not good ends it badly, a read of nothing ends it
      well. `after` is the number of turns since. */
  datatype Reading = GoingOn | Over(well: bool, after: nat)

  function ReadingOf(turns: seq<Result>): Reading {
    if turns == [] then GoingOn
    else if !turns[0].ok then Over(false, |turns| - 1)
    else if turns[0].n == 0 then Over(true, |turns| - 1)
    else ReadingOf(turns[1..])
  }

  /** A file is counted in the turn after its data ended well, and in no other. */
  function FileCount(turns: seq<Result>): nat {
    var r := ReadingOf(turns);
    if r.Over? && r.well && r.after >= 1 then 1 else 0
  }

  predicate FileOk(s: State, turns: seq<Result>, base: nat) {
    s.job.Some? && s.job.value.FileJob? ==>
      && s.downloads == base + FileCount(turns)
      && match s.job.value.stage
         case Archiving => ReadingOf(turns) == GoingOn
         case Counting => ReadingOf(turns) == Over(true, 0)
         case Releasing => ReadingOf(turns) == Over(false, 0) || ReadingOf(turns) == Over(true, 1)
         case _ => false
  }

  lemma {:induction false} OneMoreTurn(turns: seq<Result>, r: Result)
    ensures ReadingOf(turns + [r]) ==
      match ReadingOf(turns)
      case GoingOn => if !r.ok then Over(false, 0) else if r.n == 0 then Over(true, 0) else GoingOn
      case Over(well, after) => Over(well, after + 1)
  {
    if turns == [] {
      assert turns + [r] == [r] && [r][1..] == [];
    } else {
      OneMoreTurn(turns[1..], r);
      assert (turns + [r])[1..] == turns[1..] + [r];
    }
  }

  lemma FileStep(s: State, e: Event, turns: seq<Result>, base: nat)
    requires TokenOk(s) && FileOk(s, turns, base)
    ensures FileOk(Step(s, e), TurnsAfter(s, e, turns), BaseAfter(s, e, base))
  {
    if e.Turn? {
      OneMoreTurn(turns, Result(e.ok, e.n));
    }
  }

  lemma {:induction false} FileRun(s: State, es: seq<Event>, turns: seq<Result>, base: nat)
    requires TokenOk(s) && FileOk(s, turns, base)
    ensures FileOk(Run(Step, s, es), TurnsSince(s, es, turns), CountedBefore(s, es, base))
    decreases |es|
  {
    if es != [] {
      TokenStep(s, es[0]);
      FileStep(s, es[0], turns, base);
      FileRun(Step(s, es[0]), es[1..], TurnsAfter(s, es[0], turns), BaseAfter(s, es[0], base));
    }
  }

  /** In every run, at every moment a file download holds the token: it is counted exactly if all its
      reads were good, the last returned nothing more, and a turn has passed since. */
  lemma FileIsCounted(limit: nat, downloads: nat, es: seq<Event>)
    requires var s := Run(Step, Start(limit, downloads), es); s.job.Some? && s.job.value.FileJob?
    ensures var start := Start(limit, downloads);
      Run(Step, start, es).downloads == CountedBefore(start, es, downloads) + FileCount(TurnsSince(start, es, []))
  {
    FileRun(Start(limit, downloads), es, [], downloads);
  }

  // ----- failures

  /** The stages in which a turn can go wrong before the download is counted. */
  predicate CanFail(job: Job) {
    if job.FileJob? then job.stage.Archiving?
    else job.stage in {Fetching, Heading, Archiving, Ending, Waiting}
  }

  /** The download holds the token throughout. */
  predicate Held(s: State, es: seq<Event>)
    decreases |es|
  {
    s.job.Some? && (es != [] ==> Held(Step(s, es[0]), es[1..]))
  }

  predicate Doomed(s: State) {
    s.job.Some? && s.job.value.stage in {Clearing, Releasing}
  }

  lemma DoomedStep(s: State, e: Event)
    requires Doomed(s) && TokenOk(s)
    ensures var t := Step(s, e);
      t.downloads == s.downloads && (t.job.Some? ==> Doomed(t)) && (t.job.None? ==> !t.held)
  {
  }

  lemma {:induction false} DoomedRun(s: State, es: seq<Event>)
    requires Doomed(s) && TokenOk(s) && Held(s, es)
    ensures var t := Run(Step, s, es); t.downloads == s.downloads && Doomed(t) && TokenOk(t)
    decreases |es|
  {
    if es != [] {
      TokenStep(s, es[0]);
      DoomedStep(s, es[0]);
      DoomedRun(Step(s, es[0]), es[1..]);
    }
  }

  /** A failed turn tells the browser, unless it was the control lane that failed. */
  lemma FailureIsTold(s: State, n: nat)
    requires TokenOk(s) && s.job.Some? && s.job.value.AlbumJob? && s.job.value.stage in {Fetching, Archiving, Waiting}
    ensures var t := Step(s, Turn(false, n));
      t.out == s.out + [Failure(s.job.value.batch, s.job.value.op)] && t.log == s.log
  {
  }

  lemma FailureDooms(s: State, n: nat)
    requires TokenOk(s) && s.job.Some? && CanFail(s.job.value)
    ensures var t := Step(s, Turn(false, n)); Doomed(t) && TokenOk(t) && t.downloads == s.downloads
  {
    TokenStep(s, Turn(false, n));
  }

  /** A download of any kind that fails before it is counted is never counted: until the token is free
      again, and in the step that frees it, the number of downloads stays what it was. */
  lemma FailureNeverCounts(limit: nat, downloads: nat, past: seq<Event>, n: nat, es: seq<Event>, e: Event)
    requires var s := Run(Step, Start(limit, downloads), past);
      s.job.Some? && CanFail(s.job.value) && Held(Step(s, Turn(false, n)), es)
    ensures var s := Run(Step, Start(limit, downloads), past);
      var t := Run(Step, Step(s, Turn(false, n)), es);
      t.downloads == s.downloads && Step(t, e).downloads == s.downloads
  {
    var s := Run(Step, Start(limit, downloads), past);
    EveryToken(limit, downloads, past);
    FailureDooms(s, n);
    DoomedRun(Step(s, Turn(false, n)), es);
    DoomedStep(Run(Step, Step(s, Turn(false, n)), es), e);
  }

  lemma EveryToken(limit: nat, downloads: nat, es: seq<Event>)
    ensures TokenOk(Run(Step, Start(limit, downloads), es))
  {
    forall s: State, e: Event | TokenOk(s) ensures TokenOk(Step(s, e)) {
      TokenStep(s, e);
    }
    Invariant(Step, TokenOk, Start(limit, downloads), es);
  }

  // ----- the data of an album's part

  /** The turns since the part was announced. */
  function PartTurns(s: State, es: seq<Event>, before: seq<Result>): seq<Result>
    decreases |es|
  {
    if es == [] then before else PartTurns(Step(s, es[0]), es[1..], PartAfter(s, es[0], before))
  }

  function PartAfter(s: State, e: Event, before: seq<Result>): seq<Result> {
    if e.Turn? && s.job.Some? && s.job.value.AlbumJob? then
      if s.job.value.stage.Heading? then [] else before + [Result(e.ok, e.n)]
    else before
  }

  function Yield(turns: seq<Result>): nat {
    if turns == [] then 0 else turns[0].n + Yield(turns[1..])
  }

  lemma {:induction false} YieldSnoc(turns: seq<Result>, r: Result)
    ensures Yield(turns + [r]) == Yield(turns) + r.n
  {
    if turns == [] {
      assert turns + [r] == [r] && [r][1..] == [];
    } else {
      YieldSnoc(turns[1..], r);
      assert (turns + [r])[1..] == turns[1..] + [r];
    }
  }

  predicate PartOk(s: State, turns: seq<Result>) {
    s.job.Some? && s.job.value.AlbumJob? ==>
      match s.job.value.stage
      case Heading => s.job.value.bytes == 0
      case Fetching => s.job.value.bytes == 0
      case Archiving => ReadingOf(turns) == GoingOn && s.job.value.bytes == Yield(turns)
      case Ending => ReadingOf(turns) == Over(true, 0) && s.job.value.bytes == Yield(turns)
      case _ => true
  }

  lemma PartStep(s: State, e: Event, turns: seq<Result>)
    requires PartOk(s, turns)
    ensures PartOk(Step(s, e), PartAfter(s, e, turns))
  {
    if e.Turn? {
      OneMoreTurn(turns, Result(e.ok, e.n));
      YieldSnoc(turns, Result(e.ok, e.n));
    }
  }

  lemma {:induction false} PartRun(s: State, es: seq<Event>, turns: seq<Result>)
    requires PartOk(s, turns)
    ensures PartOk(Run(Step, s, es), PartTurns(s, es, turns))
    decreases |es|
  {
    if es != [] {
      PartStep(s, es[0], turns);
      PartRun(Step(s, es[0]), es[1..], PartAfter(s, es[0], turns));
    }
  }

  /** In every run, an album's part is ended only when all its reads and sends were good and the last read
      returned nothing more, and the size in its end is what the reads yielded. */
  lemma PartEndsWell(limit: nat, downloads: nat, past: seq<Event>, e: Event, op: nat, bytes: nat, batch: nat)
    requires var s := Run(Step, Start(limit, downloads), past);
      Step(s, e).log == s.log + [AlbumAgent.Ended(batch, op, bytes)]
    ensures var turns := PartTurns(Start(limit, downloads), past, []);
      ReadingOf(turns) == Over(true, 0) && bytes == Yield(turns)
  {
    var s := Run(Step, Start(limit, downloads), past);
    PartRun(Start(limit, downloads), past, []);
    EndsInEnding(s, e, batch, op, bytes);
  }

  lemma EndsInEnding(s: State, e: Event, batch: nat, op: nat, bytes: nat)
    requires Step(s, e).log == s.log + [AlbumAgent.Ended(batch, op, bytes)]
    ensures s.job.Some? && s.job.value.AlbumJob? && s.job.value.stage.Ending? && s.job.value.bytes == bytes
  {
    var t := Step(s, e);
    assert t.log[|s.log|] == AlbumAgent.Ended(batch, op, bytes);
    if e.Turn? && s.job.Some? && s.job.value.AlbumJob? {
      TurnEnds(s, s.job.value, e.ok, e.n);
    }
  }

  lemma TurnEnds(s: State, job: Job, ok: bool, n: nat)
    requires job.AlbumJob?
    ensures var log := AlbumTurn(s, job, ok, n).log;
      |log| > |s.log| && log[|s.log|].Ended? ==> job.stage.Ending? && job.bytes == log[|s.log|].bytes
  {
  }
}
