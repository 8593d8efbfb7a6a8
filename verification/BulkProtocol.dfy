/**
 What the agent answers on the bulk side: to each request, when the token is taken, to each
 acknowledgement, and after a turn that went wrong.
 */
module BulkProtocol {
  import opened Basics
  import opened Runs
  import opened AlbumAgent

  function Named(w: Wanted): nat {
    if w.Album? then w.batch else w.request
  }

  /** A request is told off at once if the limit, unless it is 0, has been reached; otherwise it goes on to the
      token. The token is given to one download at a time; whoever comes second is told. */
  lemma RequestDecides(limit: nat, downloads: nat, past: seq<Event>, wanted: Wanted)
    requires Run(Step, Start(limit, downloads), past).handler.None?
    ensures var s := Run(Step, Start(limit, downloads), past);
      var t := Step(s, Request(wanted));
      var u := Step(t, Acquire);
      var refused := s.out + [Failure(Named(wanted), 0)];
      && s.limit == limit
      && (if limit != 0 && s.downloads >= limit then t.out == refused && u == t
          else if s.job.Some? then t.out == s.out && u.out == refused && u.job == s.job
          else t.out == s.out && u.out == s.out && u.job.Some? && u.job.value.op == s.sequence + 1)
      && u.downloads == s.downloads && u.log == s.log && u.handler.None? && u.job.Some? == u.held
  {
    EveryHold(limit, downloads, past);
  }

  predicate Holds(limit: nat, s: State) {
    s.limit == limit && TokenOk(s)
  }

  lemma EveryHold(limit: nat, downloads: nat, es: seq<Event>)
    ensures Holds(limit, Run(Step, Start(limit, downloads), es))
  {
    var holds := s => Holds(limit, s);
    forall s: State, e: Event | holds(s) ensures holds(Step(s, e)) {
      TokenStep(s, e);
      LimitStays(s, e);
    }
    Invariant(Step, holds, Start(limit, downloads), es);
  }

  lemma LimitStays(s: State, e: Event)
    ensures Step(s, e).limit == s.limit
  {
  }

  /** A download that has just taken the token: an album with no part yet and an empty channel, or a file. */
  lemma NewHolder(s: State)
    requires TokenOk(s) && s.handler.Some? && s.job.None?
    ensures var t, op := Step(s, Acquire), s.sequence + 1;
      && t.held && t.operation == op && t.sequence == op
      && match s.handler.value
         case Album(b) => t.job == Some(AlbumJob(op, b, 0, 0, 0, 0, Fetching)) && t.batch == Some(Batch(b, None))
         case File(_) => t.job == Some(FileJob(op, Archiving)) && t.batch == s.batch
  {
  }

  /** Only the holder's operation frees the token. */
  lemma OnlyTheHolderReleases(s: State, op: nat)
    ensures op != s.operation ==> ReleaseBulk(s, op) == s
    ensures op == s.operation ==> !ReleaseBulk(s, op).held && ReleaseBulk(s, op).operation == 0
    ensures op != s.operation || !s.held || op == 0 ==> forall batch: nat :: Complain(s, batch, op) == s
  {
  }

  /** An acknowledgement is put into the channel of its batch exactly if it names an operation and the channel is
      empty; any other leaves no trace. */
  lemma AckArrives(s: State, batch: nat, ack: Ack)
    ensures var t := Step(s, Receive(batch, ack));
      if ack.op != 0 && s.batch == Some(Batch(batch, None)) then t == s.(batch := Some(Batch(batch, Some(ack))))
      else t == s
  {
  }

  /** A waiting part goes on exactly when the channel holds the good acknowledgement of that part and operation: to
      the count after the last part, else to the next. Any other acknowledgement ends the album without a word, a
      wait that is over ends it with an error, and without an acknowledgement it waits on. Whatever was in the
      channel is taken. */
  lemma WaitDecides(s: State, ok: bool, n: nat)
    requires TokenOk(s) && ChannelOk(s) && s.job.Some? && s.job.value.AlbumJob? && s.job.value.stage.Waiting?
    ensures var j, ack, t := s.job.value, s.batch.value.ack, Step(s, Turn(ok, n));
      if !ok then t == s.(job := Some(j.(stage := Clearing)), out := s.out + [Failure(j.batch, j.op)])
      else if ack == None then t == s
      else
        && t.batch == Some(Batch(j.batch, None)) && t.out == s.out && t.downloads == s.downloads
        && (if ack == Some(Ack(j.part, j.op, true))
            then t.log == s.log + [AlbumAgent.Acknowledged(j.batch, j.part, j.op)]
                 && t.job == Some(j.(stage := if j.part == j.count then Counting else Advancing))
            else t.log == s.log && t.job == Some(j.(stage := Clearing)))
  {
  }

  /** What a broken control lane, a broken archive or an album without parts does: a message that could not be sent
      is not followed by another, a broken archive and a missing album are told to the browser. The album ends. */
  lemma TroubleEnds(s: State, n: nat)
    requires TokenOk(s) && s.job.Some? && s.job.value.AlbumJob?
    requires s.job.value.stage in {Fetching, Heading, Archiving, Ending, Telling}
    ensures var j, t := s.job.value, Step(s, Turn(false, n));
      && t.job == Some(j.(stage := Clearing)) && t.log == s.log && t.downloads == s.downloads && t.batch == s.batch
      && t.out == (if j.stage in {Fetching, Archiving} then s.out + [Failure(j.batch, j.op)] else s.out)
    ensures var j, t := s.job.value, Step(s, Turn(true, 0));
      j.stage.Fetching? ==> t.job == Some(j.(stage := Clearing)) && t.out == s.out + [Failure(j.batch, j.op)]
  {
  }

  /** An album that has ended leaves the table and then frees the token; nothing else changes. */
  lemma ClearingFrees(s: State, ok: bool, n: nat, ok': bool, n': nat)
    requires TokenOk(s) && ChannelOk(s) && s.job.Some? && s.job.value.AlbumJob? && s.job.value.stage.Clearing?
    ensures var t := Step(Step(s, Turn(ok, n)), Turn(ok', n'));
      && t.batch.None? && t.job.None? && !t.held && t.operation == 0
      && t == s.(batch := None, job := None, held := false, operation := 0)
  {
  }

  /** The parts of an album: an operation of its own for each, counted once at the end. */
  lemma PartsAdvance(s: State, ok: bool, n: nat)
    requires TokenOk(s) && s.job.Some? && s.job.value.AlbumJob?
    ensures var j, t := s.job.value, Step(s, Turn(ok, n));
      && (j.stage.Advancing? ==>
            t.job == Some(AlbumJob(s.sequence + 1, j.batch, j.count, j.part + 1, 0, j.total, Heading))
            && t.operation == s.sequence + 1 && t.held && t.out == s.out)
      && (j.stage.Counting? ==>
            t.downloads == s.downloads + 1 && t.log == s.log + [Counted(j.batch, j.count, j.total)] && t.out == s.out)
      && (!j.stage.Counting? ==> t.downloads == s.downloads)
      && (j.stage.Telling? && ok ==> t.out == s.out + [Complete(j.batch, j.count, j.total)])
  {
  }
}
