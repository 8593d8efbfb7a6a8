/**
 The agent's bulk side: one token for all downloads, album downloads that wait for an
 acknowledgement after every part, and the count of completed downloads.
 */
module AlbumAgent {
  import opened Basics
  import opened Runs

  /** Messages to the browser on the control lane. A refusal carries no operation, written 0. */
  datatype Message =
    | Header(batch: nat, part: nat, count: nat, op: nat)
    | EndOf(batch: nat, op: nat, bytes: nat)
    | Complete(batch: nat, count: nat, bytes: nat)
    | Failure(batch: nat, op: nat)

  datatype Ack = Ack(part: nat, op: nat, ok: bool)

  /** What an album download has done so far, in order. */
  datatype Entry =
    | Announced(batch: nat, part: nat, count: nat, op: nat)
    | Ended(batch: nat, op: nat, bytes: nat)
    | Acknowledged(batch: nat, part: nat, op: nat)
    | Counted(batch: nat, count: nat, bytes: nat)
    | Told(batch: nat, count: nat, bytes: nat)
    | FileCounted

  datatype Stage =
    | Fetching
    | Advancing
    | Heading
    | Archiving
    | Ending
    | Waiting
    | Counting
    | Telling
    | Clearing
    | Releasing

  /** A download that holds the token. `part` is the part under way, `bytes` what it has sent. */
  datatype Job =
    | AlbumJob(op: nat, batch: nat, count: nat, part: nat, bytes: nat, total: nat, stage: Stage)
    | FileJob(op: nat, stage: Stage)

  datatype Wanted = Album(batch: nat) | File(request: nat)

  /** The batch that acknowledgements go to, with its channel of capacity one. */
  datatype Batch = Batch(request: nat, ack: Option<Ack>)

  datatype State = State(
    sequence: nat,
    held: bool,                 // bulkTransfer
    operation: nat,             // bulkOperation
    limit: nat,                 // maxDownloads; 0 means none
    downloads: nat,
    batch: Option<Batch>,       // albumBatch
    handler: Option<Wanted>,    // a request past the limit check, not yet past acquireBulk
    job: Option<Job>,
    log: seq<Entry>,
    out: seq<Message>)

  function Start(limit: nat, downloads: nat): State {
    State(0, false, 0, limit, downloads, None, None, None, [], [])
  }

  /** The inputs of a job's turn: whether the send, fetch or read of this step succeeds, and a number
      it yields: the parts of an album, the bytes of a read (0 at the end of the data). */
  datatype Event =
    | TakeId
    | Request(wanted: Wanted)
    | Acquire
    | Receive(batch: nat, ack: Ack)
    | Turn(ok: bool, n: nat)

  function Send(s: State, m: Message): State {
    s.(out := s.out + [m])
  }

  function Note(s: State, e: Entry): State {
    s.(log := s.log + [e])
  }

  predicate LimitReached(s: State) {
    s.limit > 0 && s.downloads >= s.limit
  }

  function RequestOf(w: Wanted): nat {
    match w
    case Album(batch) => batch
    case File(request) => request
  }

  function HandleRequest(s: State, wanted: Wanted): State {
    if s.handler.Some? then s
    else if LimitReached(s) then Send(s, Failure(RequestOf(wanted), 0))
    else s.(handler := Some(wanted))
  }

  /** acquireBulk, and the start of the download it is for. */
  function AcquireBulk(s: State): State {
    if s.handler.None? then s
    else
      var wanted := s.handler.value;
      var s := s.(handler := None);
      if s.held then Send(s, Failure(RequestOf(wanted), 0))
      else
        var op := s.sequence + 1;
        var s := s.(sequence := op, operation := op, held := true);
        match wanted
        case Album(b) => s.(batch := Some(Batch(b, None)), job := Some(AlbumJob(op, b, 0, 0, 0, 0, Fetching)))
        case File(_) => s.(job := Some(FileJob(op, Archiving)))
  }

  function ReleaseBulk(s: State, op: nat): State {
    if s.operation == op then s.(operation := 0, held := false) else s
  }

  /** An acknowledgement that finds the channel full is dropped. */
  function HandleAck(s: State, batch: nat, ack: Ack): State {
    if ack.op == 0 || s.batch.None? || s.batch.value.request != batch || s.batch.value.ack.Some? then s
    else s.(batch := Some(Batch(batch, Some(ack))))
  }

  function Complain(s: State, batch: nat, op: nat): State {
    if s.operation == op && s.held && op != 0 then Send(s, Failure(batch, op)) else s
  }

  function SetJob(s: State, job: Job): State {
    s.(job := Some(job))
  }

  function AlbumTurn(s: State, job: Job, ok: bool, n: nat): State
    requires job.AlbumJob?
  {
    var b, op := job.batch, job.op;
    var stop := job.(stage := Clearing);
    match job.stage
    case Fetching =>
      if !ok || n == 0 then SetJob(Complain(s, b, op), stop)
      else SetJob(s, job.(count := n, part := 1, stage := Heading))
    case Advancing =>
      if !s.held || s.operation != op then SetJob(s, stop)
      else
        var next := s.sequence + 1;
        SetJob(s.(sequence := next, operation := next),
               job.(op := next, part := job.part + 1, bytes := 0, stage := Heading))
    case Heading =>
      if !ok then SetJob(s, stop)
      else SetJob(Note(Send(s, Header(b, job.part, job.count, op)), Announced(b, job.part, job.count, op)),
                  job.(stage := Archiving))
    case Archiving =>
      if !ok then SetJob(Complain(s, b, op), stop)
      else if n == 0 then SetJob(s, job.(total := job.total + job.bytes, stage := Ending))
      else SetJob(s, job.(bytes := job.bytes + n))
    case Ending =>
      if !ok then SetJob(s, stop)
      else SetJob(Note(Send(s, EndOf(b, op, job.bytes)), Ended(b, op, job.bytes)), job.(stage := Waiting))
    case Waiting =>
      if !ok then SetJob(Complain(s, b, op), stop)
      else if s.batch.None? || s.batch.value.ack.None? then s
      else
        var ack := s.batch.value.ack.value;
        var s := s.(batch := Some(s.batch.value.(ack := None)));
        if !ack.ok || ack.part != job.part || ack.op != op then SetJob(s, stop)
        else SetJob(Note(s, Acknowledged(b, job.part, op)),
                    job.(stage := if job.part == job.count then Counting else Advancing))
    case Counting =>
      SetJob(Note(s.(downloads := s.downloads + 1), Counted(b, job.count, job.total)), job.(stage := Telling))
    case Telling =>
      SetJob(if ok then Note(Send(s, Complete(b, job.count, job.total)), Told(b, job.count, job.total)) else s, stop)
    case Clearing =>
      SetJob(if s.batch.Some? && s.batch.value.request == b then s.(batch := None) else s,
             job.(stage := Releasing))
    case Releasing => ReleaseBulk(s.(job := None), op)
  }

  /** A file or asset download: what it sends is not followed here, only whether it is counted. */
  function FileTurn(s: State, job: Job, ok: bool, n: nat): State
    requires job.FileJob?
  {
    match job.stage
    case Archiving =>
      SetJob(s, FileJob(job.op, if !ok then Releasing else if n == 0 then Counting else Archiving))
    case Counting =>
      SetJob(Note(s.(downloads := s.downloads + 1), FileCounted), FileJob(job.op, Releasing))
    case _ => ReleaseBulk(s.(job := None), job.op)
  }

  function Step(s: State, e: Event): State {
    match e
    case TakeId => s.(sequence := s.sequence + 1)
    case Request(wanted) => HandleRequest(s, wanted)
    case Acquire => AcquireBulk(s)
    case Receive(batch, ack) => HandleAck(s, batch, ack)
    case Turn(ok, n) =>
      if s.job.None? then s
      else if s.job.value.AlbumJob? then AlbumTurn(s, s.job.value, ok, n)
      else FileTurn(s, s.job.value, ok, n)
  }

  // ----- one batch's part of the log

  predicate Concerns(e: Entry, batch: nat) {
    !e.FileCounted? && e.batch == batch
  }

  function Own(log: seq<Entry>, batch: nat): seq<Entry> {
    if log == [] then []
    else (if Concerns(log[0], batch) then [log[0]] else []) + Own(log[1..], batch)
  }

  lemma {:induction false} OwnSnoc(log: seq<Entry>, e: Entry, batch: nat)
    ensures Own(log + [e], batch) == if Concerns(e, batch) then Own(log, batch) + [e] else Own(log, batch)
  {
    if log == [] {
      assert log + [e] == [e] && [e][1..] == [];
    } else {
      OwnSnoc(log[1..], e, batch);
      assert (log + [e])[1..] == log[1..] + [e];
    }
  }

  lemma {:induction false} OwnMember(log: seq<Entry>, e: Entry, batch: nat)
    ensures e in Own(log, batch) <==> e in log && Concerns(e, batch)
  {
    if log != [] {
      OwnMember(log[1..], e, batch);
      assert log == [log[0]] + log[1..];
    }
  }

  function SentBytes(own: seq<Entry>): nat {
    if own == [] then 0 else (if own[0].Ended? then own[0].bytes else 0) + SentBytes(own[1..])
  }

  lemma {:induction false} SentBytesSnoc(own: seq<Entry>, e: Entry)
    ensures SentBytes(own + [e]) == SentBytes(own) + (if e.Ended? then e.bytes else 0)
  {
    if own == [] {
      assert own + [e] == [e] && [e][1..] == [];
    } else {
      SentBytesSnoc(own[1..], e);
      assert (own + [e])[1..] == own[1..] + [e];
    }
  }

  /** The entry at place i of a batch of n parts: for every part its header, its end and then its
      acknowledgement, all for one operation; after the last part the count and the notice. */
  predicate InPlace(own: seq<Entry>, n: nat, i: nat)
    requires i < |own|
  {
    var e := own[i];
    if i == 3 * n then e.Counted? && e.count == n > 0 && e.bytes == SentBytes(own[..i])
    else if i == 3 * n + 1 then e.Told? && e.count == n && own[i - 1].Counted? && e.bytes == own[i - 1].bytes
    else if i % 3 == 0 then e.Announced? && e.part == i / 3 + 1 && e.count == n
    else if i % 3 == 1 then e.Ended? && own[i - 1].Announced? && e.op == own[i - 1].op
    else e.Acknowledged? && e.part == i / 3 + 1 && own[i - 1].Ended? && e.op == own[i - 1].op
  }

  predicate StopAndWait(own: seq<Entry>, n: nat) {
    |own| <= 3 * n + 2 && forall i :: 0 <= i < |own| ==> InPlace(own, n, i)
  }

  /** Own entries up to some point do not depend on later ones. */
  lemma Extends(own: seq<Entry>, n: nat, e: Entry)
    requires StopAndWait(own, n) && |own| < 3 * n + 2 && InPlace(own + [e], n, |own|)
    ensures StopAndWait(own + [e], n)
  {
    forall i | 0 <= i < |own + [e]| ensures InPlace(own + [e], n, i) {
      if i < |own| {
        assert InPlace(own, n, i);
        assert (own + [e])[..i] == own[..i];
      }
    }
  }

  // ----- the invariant

  function LastOp(own: seq<Entry>): nat {
    if own == [] then 0
    else
      var e := own[|own| - 1];
      if e.Announced? || e.Ended? || e.Acknowledged? then e.op else 0
  }

  /** How far the job at this stage has come. */
  predicate Progress(job: Job, own: seq<Entry>)
    requires job.AlbumJob?
  {
    var n, k := job.count, job.part;
    StopAndWait(own, n) &&
    match job.stage
    case Fetching => own == [] && n == 0 && job.total == 0 && job.bytes == 0
    case Advancing => 0 < k < n && |own| == 3 * k && job.total == SentBytes(own)
    case Heading => 0 < k <= n && |own| == 3 * k - 3 && job.total == SentBytes(own) && job.bytes == 0
    case Archiving => 0 < k <= n && |own| == 3 * k - 2 && job.total == SentBytes(own) && LastOp(own) == job.op
    case Ending => 0 < k <= n && |own| == 3 * k - 2 && job.total == SentBytes(own) + job.bytes && LastOp(own) == job.op
    case Waiting => 0 < k <= n && |own| == 3 * k - 1 && job.total == SentBytes(own) && LastOp(own) == job.op
    case Counting => 0 < k == n && |own| == 3 * n && job.total == SentBytes(own)
    case Telling => 0 < k == n && |own| == 3 * n + 1 && own[3 * n].Counted? && own[3 * n].bytes == job.total
    case Clearing => true
    case Releasing => true
  }

  /** The number of parts a batch announced with its first header. */
  function CountOf(own: seq<Entry>): nat {
    if own != [] && own[0].Announced? then own[0].count else 0
  }

  lemma ProgressHasCount(job: Job, own: seq<Entry>)
    requires job.AlbumJob? && Progress(job, own)
    ensures StopAndWait(own, CountOf(own))
  {
    if own != [] {
      assert InPlace(own, job.count, 0);
    }
  }

  lemma EntryInPlace(own: seq<Entry>, n: nat, k: nat, e: Entry)
    requires StopAndWait(own, n) && 0 < k <= n
    requires
      || (|own| == 3 * k - 3 && e.Announced? && e.part == k && e.count == n)
      || (|own| == 3 * k - 2 && e.Ended? && LastOp(own) == e.op)
      || (|own| == 3 * k - 1 && e.Acknowledged? && e.part == k && LastOp(own) == e.op)
      || (|own| == 3 * n && e.Counted? && e.count == n && e.bytes == SentBytes(own))
      || (|own| == 3 * n + 1 && own[3 * n].Counted? && e.Told? && e.count == n && own[3 * n].bytes == e.bytes)
    ensures StopAndWait(own + [e], n)
    ensures SentBytes(own + [e]) == SentBytes(own) + (if e.Ended? then e.bytes else 0)
  {
    SentBytesSnoc(own, e);
    var more := own + [e];
    assert more[..|own|] == own;
    if |own| > 0 {
      assert InPlace(own, n, |own| - 1);
      assert more[|own| - 1] == own[|own| - 1];
    }
    assert InPlace(more, n, |own|);
    Extends(own, n, e);
  }

  /** An album job's turn keeps its place in the stop-and-wait order. */
  lemma AlbumTurnProgress(s: State, job: Job, ok: bool, n: nat)
    requires s.job == Some(job) && job.AlbumJob? && s.held && s.operation == job.op
    requires s.batch.Some? || job.stage.Clearing? || job.stage.Releasing?
    requires Progress(job, Own(s.log, job.batch))
    ensures var t := AlbumTurn(s, job, ok, n);
      if job.stage.Releasing? then t.job.None? && t.log == s.log
      else t.job.Some? && t.job.value.AlbumJob? && t.job.value.batch == job.batch
           && Progress(t.job.value, Own(t.log, job.batch))
  {
    var own := Own(s.log, job.batch);
    var t := AlbumTurn(s, job, ok, n);
    if t.log != s.log {
      var e := t.log[|s.log|];
      assert t.log == s.log + [e];
      OwnSnoc(s.log, e, job.batch);
      EntryInPlace(own, job.count, job.part, e);
    }
  }

  /** The token is held exactly while a download is under way, for its present operation. */
  predicate TokenOk(s: State) {
    && (s.held <==> s.job.Some?)
    && (s.job.Some? ==> s.operation == s.job.value.op != 0)
    && s.operation <= s.sequence
  }

  predicate ChannelOk(s: State) {
    if s.job.Some? && s.job.value.AlbumJob? && !s.job.value.stage.Releasing?
    then s.batch.Some? && s.batch.value.request == s.job.value.batch
    else s.batch.None?
  }

  predicate Newer(s: State, batch: nat) {
    && (forall e :: e in s.log && !e.FileCounted? ==> e.batch < batch)
    && (s.job.Some? && s.job.value.AlbumJob? ==> s.job.value.batch < batch)
  }

  ghost predicate LogsOk(s: State) {
    && (s.job.Some? && s.job.value.AlbumJob? ==> Progress(s.job.value, Own(s.log, s.job.value.batch)))
    && (s.handler.Some? && s.handler.value.Album? ==> Newer(s, s.handler.value.batch))
    && forall b: nat :: StopAndWait(Own(s.log, b), CountOf(Own(s.log, b)))
  }

  /** Headers and notices sent are in the log. */
  predicate OutOk(s: State) {
    forall m :: m in s.out ==>
      && (m.Header? ==> Announced(m.batch, m.part, m.count, m.op) in s.log)
      && (m.Complete? ==> Told(m.batch, m.count, m.bytes) in s.log)
  }

  function Completed(log: seq<Entry>): nat {
    if log == [] then 0 else (if log[0].Counted? || log[0].FileCounted? then 1 else 0) + Completed(log[1..])
  }

  lemma {:induction false} CompletedSnoc(log: seq<Entry>, e: Entry)
    ensures Completed(log + [e]) == Completed(log) + (if e.Counted? || e.FileCounted? then 1 else 0)
  {
    if log == [] {
      assert log + [e] == [e] && [e][1..] == [];
    } else {
      CompletedSnoc(log[1..], e);
      assert (log + [e])[1..] == log[1..] + [e];
    }
  }

  /** Downloads already counted, under way and admitted: the limit plus one at the most. */
  predicate WithinLimit(s: State) {
    s.limit > 0 ==>
      s.downloads + (if s.job.Some? && Uncounted(s.job.value.stage) then 1 else 0)
      + (if s.handler.Some? then 1 else 0) <= s.limit + 1
  }

  predicate Uncounted(stage: Stage) {
    !stage.Telling? && !stage.Clearing? && !stage.Releasing?
  }

  ghost predicate Inv(s: State, base: nat) {
    TokenOk(s) && ChannelOk(s) && LogsOk(s) && OutOk(s) && s.downloads == base + Completed(s.log)
  }

  /** Requests for albums come with new ids. */
  predicate Allowed(s: State, e: Event) {
    e.Request? && e.wanted.Album? ==> Newer(s, e.wanted.batch)
  }

  lemma AlbumTurnFrame(s: State, job: Job, ok: bool, n: nat)
    requires TokenOk(s) && ChannelOk(s) && s.job == Some(job) && job.AlbumJob? && OutOk(s)
    ensures var t := AlbumTurn(s, job, ok, n);
      && TokenOk(t) && ChannelOk(t) && OutOk(t) && t.handler == s.handler && t.limit == s.limit
      && (t.job.Some? ==> t.job.value.AlbumJob? && t.job.value.batch == job.batch)
      && (t.log == s.log || (|t.log| == |s.log| + 1 && t.log == s.log + [t.log[|s.log|]] && Concerns(t.log[|s.log|], job.batch)))
  {
  }

  /** A download is counted exactly where the log says so. */
  lemma AlbumTurnCounts(s: State, job: Job, ok: bool, n: nat)
    requires s.job == Some(job) && job.AlbumJob?
    ensures var t := AlbumTurn(s, job, ok, n);
      t.downloads == s.downloads + (if t.log != s.log && t.log[|t.log| - 1].Counted? then 1 else 0)
  {
  }

  lemma AlbumTurnKeeps(s: State, job: Job, ok: bool, n: nat, base: nat)
    requires Inv(s, base) && s.job == Some(job) && job.AlbumJob?
    ensures Inv(Step(s, Turn(ok, n)), base)
  {
    var t := AlbumTurn(s, job, ok, n);
    AlbumTurnCounts(s, job, ok, n);
    AlbumTurnFrame(s, job, ok, n);
    if t.log != s.log {
      CompletedSnoc(s.log, t.log[|s.log|]);
    }
    AlbumTurnProgress(s, job, ok, n);
    TurnLogs(s, t, job);
  }

  lemma TurnLogs(s: State, t: State, job: Job)
    requires LogsOk(s) && s.job == Some(job) && job.AlbumJob? && t.handler == s.handler
    requires t.job.Some? ==> t.job.value.AlbumJob? && t.job.value.batch == job.batch && Progress(t.job.value, Own(t.log, job.batch))
    requires t.job.None? ==> t.log == s.log
    requires t.log == s.log || (|t.log| == |s.log| + 1 && t.log == s.log + [t.log[|s.log|]] && Concerns(t.log[|s.log|], job.batch))
    ensures LogsOk(t)
  {
    forall b: nat ensures StopAndWait(Own(t.log, b), CountOf(Own(t.log, b))) {
      if t.log != s.log {
        OwnSnoc(s.log, t.log[|s.log|], b);
        if b == job.batch {
          ProgressHasCount(t.job.value, Own(t.log, b));
        }
      }
    }
  }

  lemma FileTurnKeeps(s: State, job: Job, ok: bool, n: nat, base: nat)
    requires Inv(s, base) && s.job == Some(job) && job.FileJob?
    ensures Inv(Step(s, Turn(ok, n)), base)
  {
    var t := FileTurn(s, job, ok, n);
    CompletedSnoc(s.log, FileCounted);
    if t.log != s.log {
      assert t.log == s.log + [FileCounted];
    }
    forall b: nat ensures Own(t.log, b) == Own(s.log, b) {
      OwnSnoc(s.log, FileCounted, b);
    }
  }

  lemma StepKeeps(s: State, e: Event, base: nat)
    requires Inv(s, base) && Allowed(s, e)
    ensures Inv(Step(s, e), base)
  {
    if e.Turn? && s.job.Some? {
      if s.job.value.AlbumJob? {
        AlbumTurnKeeps(s, s.job.value, e.ok, e.n, base);
      } else {
        FileTurnKeeps(s, s.job.value, e.ok, e.n, base);
      }
    } else if e.Acquire? && s.handler.Some? && s.handler.value.Album? {
      NewBatch(s.log, s.handler.value.batch);
    }
  }

  lemma {:induction false} NewBatch(log: seq<Entry>, batch: nat)
    requires forall e :: e in log && !e.FileCounted? ==> e.batch < batch
    ensures Own(log, batch) == []
  {
    if log != [] {
      assert log[0] in log && forall e :: e in log[1..] ==> e in log;
      NewBatch(log[1..], batch);
    }
  }

  lemma LimitStep(s: State, e: Event)
    requires WithinLimit(s) && TokenOk(s)
    ensures WithinLimit(Step(s, e)) && Step(s, e).limit == s.limit
  {
    if e.Turn? && s.job.Some? {
      LimitTurn(s, s.job.value, e.ok, e.n);
    }
  }

  lemma LimitTurn(s: State, job: Job, ok: bool, n: nat)
    requires WithinLimit(s) && s.job == Some(job)
    ensures var t := Step(s, Turn(ok, n)); WithinLimit(t) && t.limit == s.limit
  {
  }

  lemma TokenStep(s: State, e: Event)
    requires TokenOk(s)
    ensures TokenOk(Step(s, e))
  {
  }

  // ----- over whole runs, with any acknowledgements whatever

  predicate Fair(limit: nat, downloads: nat, es: seq<Event>) {
    EachStep(Step, Allowed, Start(limit, downloads), es)
  }

  lemma EveryRun(limit: nat, base: nat, es: seq<Event>)
    requires Fair(limit, base, es)
    ensures Inv(Run(Step, Start(limit, base), es), base)
  {
    var inv := s => Inv(s, base);
    forall s: State, e: Event | inv(s) && Allowed(s, e) ensures inv(Step(s, e)) {
      StepKeeps(s, e, base);
    }
    InvariantWhere(Step, inv, Allowed, Start(limit, base), es);
  }

  /** What any batch did at any time: header, end and matching acknowledgement, part by part in
      order, and only after the last of them the count and the notice, with the bytes of all ends. */
  lemma NextPartAfterAck(limit: nat, base: nat, es: seq<Event>, batch: nat)
    requires Fair(limit, base, es)
    ensures var own := Own(Run(Step, Start(limit, base), es).log, batch);
      StopAndWait(own, CountOf(own))
  {
    EveryRun(limit, base, es);
  }

  /** The count of downloads is the number of completed ones, and the token is never free, nor
      another's, while a download is under way. */
  lemma CountsAndToken(limit: nat, base: nat, es: seq<Event>)
    requires Fair(limit, base, es)
    ensures var s := Run(Step, Start(limit, base), es);
      && s.downloads == base + Completed(s.log)
      && (s.held <==> s.job.Some?) && (s.job.Some? ==> s.operation == s.job.value.op != 0)
  {
    EveryRun(limit, base, es);
  }

  /** The limit is checked before the token is taken, so one download may pass it; never two. */
  lemma LimitPlusOne(limit: nat, base: nat, es: seq<Event>)
    requires 0 < limit && base <= limit
    ensures Run(Step, Start(limit, base), es).downloads <= limit + 1
  {
    var inv := (s: State) => WithinLimit(s) && TokenOk(s) && s.limit == limit;
    forall s: State, e: Event | inv(s) ensures inv(Step(s, e)) {
      LimitStep(s, e);
      TokenStep(s, e);
    }
    Invariant(Step, inv, Start(limit, base), es);
  }

  /** A second request is admitted while the first download, the last one allowed, is not yet counted. */
  lemma LimitPassed()
    ensures Run(Step, Start(1, 0), [Request(File(1)), Acquire, Request(File(2)), Turn(true, 0), Turn(true, 0),
                                    Turn(true, 0), Acquire, Turn(true, 0), Turn(true, 0)]).downloads == 2
  {
    var s1 := Step(Step(Step(Start(1, 0), Request(File(1))), Acquire), Request(File(2)));
    var s2 := Step(Step(Step(s1, Turn(true, 0)), Turn(true, 0)), Turn(true, 0));
    assert s2 == State(1, false, 0, 1, 1, None, Some(File(2)), None, [FileCounted], []);
    var s3 := Step(Step(Step(s2, Acquire), Turn(true, 0)), Turn(true, 0));
    assert s3.downloads == 2;
  }
}