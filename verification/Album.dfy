/**
 Album downloads from both ends: the agent and the browser, joined by two control channels that
 deliver in order. A channel is the history of what was sent and how much of it was delivered.
 */
module Album {
  import opened Basics
  import opened Runs
  import A = AlbumAgent
  import B = AlbumBrowser

  datatype State = State(agent: A.State, browser: B.State, heard: nat, taken: nat)

  function Start(limit: nat, downloads: nat): State {
    State(A.Start(limit, downloads), B.IDLE, 0, 0)
  }

  /** Downloads of single files compete for the token at any time. */
  datatype Event =
    | TakeId
    | FileRequest(request: nat)
    | Acquire
    | Turn(ok: bool, n: nat)
    | AgentHears
    | AskForAlbum
    | Finalize(ok: bool, sent: bool)
    | GiveUp
    | BrowserHears(sent: bool, ready: bool)

  /** The agent's control lane handles one message at a time, so nothing is heard while a request is
      between its limit check and the token. */
  function AgentHear(s: State): State {
    if s.agent.handler.Some? || s.taken >= |s.browser.out| then s
    else
      var m := s.browser.out[s.taken];
      s.(taken := s.taken + 1, agent := A.Step(s.agent, Incoming(m)))
  }

  function Incoming(m: B.Outgoing): A.Event {
    match m
    case AlbumRequest(batch) => A.Request(A.Album(batch))
    case Acknowledge(batch, part, op, ok) => A.Receive(batch, A.Ack(part, op, ok))
  }

  function BrowserHear(s: State, sent: bool, ready: bool): State {
    if s.heard >= |s.agent.out| then s
    else s.(heard := s.heard + 1, browser := B.Step(s.browser, B.Hear(s.agent.out[s.heard], sent, ready)))
  }

  function Step(s: State, e: Event): State {
    match e
    case TakeId => s.(agent := A.Step(s.agent, A.TakeId))
    case FileRequest(request) => s.(agent := A.Step(s.agent, A.Request(A.File(request))))
    case Acquire => s.(agent := A.Step(s.agent, A.Acquire))
    case Turn(ok, n) => s.(agent := A.Step(s.agent, A.Turn(ok, n)))
    case AgentHears => AgentHear(s)
    case AskForAlbum => s.(browser := B.Step(s.browser, B.RequestAlbum))
    case Finalize(ok, sent) => s.(browser := B.Step(s.browser, B.Finalize(ok, sent)))
    case GiveUp => s.(browser := B.Step(s.browser, B.GiveUp))
    case BrowserHears(sent, ready) => BrowserHear(s, sent, ready)
  }

  // ----- how the two sides' states are linked

  predicate Announced(log: seq<A.Entry>, batch: nat, part: nat, count: nat, op: nat) {
    A.Announced(batch, part, count, op) in log
  }

  /** The browser downloads and saves only what the agent announced. */
  predicate HeadersOk(agent: A.State, browser: B.State) {
    && (browser.current.Some? ==>
          var c := browser.current.value; Announced(agent.log, c.batch, c.part, c.count, c.op))
    && forall x :: x in browser.saved ==> Announced(agent.log, x.batch, x.part, x.count, x.op)
  }

  /** A good acknowledgement, in the agent's channel or taken from it, is for a part that is saved. */
  predicate AcksOk(agent: A.State, browser: B.State) {
    && (agent.batch.Some? && agent.batch.value.ack.Some? && agent.batch.value.ack.value.ok ==>
          B.HasSaved(browser.saved, agent.batch.value.request, agent.batch.value.ack.value.part, agent.batch.value.ack.value.op))
    && forall e :: e in agent.log && e.Acknowledged? ==> B.HasSaved(browser.saved, e.batch, e.part, e.op)
  }

  predicate NewRequest(agent: A.State, batch: nat) {
    && A.Newer(agent, batch)
    && (agent.handler.Some? && agent.handler.value.Album? ==> agent.handler.value.batch < batch)
  }

  /** Requests still on their way are newer than all the agent has seen. */
  predicate RequestsOk(agent: A.State, out: seq<B.Outgoing>, next: nat, taken: nat) {
    && (forall j :: taken <= j < |out| && out[j].AlbumRequest? ==> NewRequest(agent, out[j].batch))
    && A.Newer(agent, next + 1)
    && (agent.handler.Some? && agent.handler.value.Album? ==> agent.handler.value.batch <= next)
  }

  ghost predicate Inv(s: State, base: nat) {
    && A.Inv(s.agent, base) && B.Inv(s.browser)
    && HeadersOk(s.agent, s.browser) && AcksOk(s.agent, s.browser)
    && RequestsOk(s.agent, s.browser.out, s.browser.next, s.taken)
  }

  // ----- what a step of the agent does to the links

  predicate Grows<T(==)>(a: seq<T>, b: seq<T>) {
    |a| <= |b| && b[..|a|] == a
  }

  lemma Kept<T>(a: seq<T>, b: seq<T>)
    requires Grows(a, b)
    ensures forall x :: x in a ==> x in b
  {
    assert b == a + b[|a|..];
  }

  lemma AgentLogGrows(s: A.State, ok: bool, n: nat)
    ensures var t := A.Step(s, A.Turn(ok, n)); Grows(s.log, t.log) && |t.log| <= |s.log| + 1
  {
    if s.job.Some? && s.job.value.AlbumJob? {
      AlbumLogGrows(s, s.job.value, ok, n);
    }
  }

  lemma AlbumLogGrows(s: A.State, job: A.Job, ok: bool, n: nat)
    requires job.AlbumJob?
    ensures var t := A.AlbumTurn(s, job, ok, n); t.log == s.log || (|t.log| == |s.log| + 1 && t.log[..|s.log|] == s.log)
  {
  }

  lemma AgentChannel(s: A.State, ok: bool, n: nat)
    ensures var t := A.Step(s, A.Turn(ok, n));
      (t.batch == s.batch || t.batch.None? || t.batch.value.ack.None?) && t.handler == s.handler
  {
  }

  /** Only the acknowledgement that was in the channel is noted. */
  lemma AgentNotes(s: A.State, ok: bool, n: nat)
    requires A.ChannelOk(s) && A.TokenOk(s)
    ensures var t := A.Step(s, A.Turn(ok, n));
      && (|t.log| > |s.log| && t.log[|s.log|].Acknowledged? ==>
            s.batch.Some? && s.batch.value.ack == Some(A.Ack(t.log[|s.log|].part, t.log[|s.log|].op, true))
            && s.batch.value.request == t.log[|s.log|].batch)
      && (|t.log| > |s.log| && !t.log[|s.log|].FileCounted? ==>
            s.job.Some? && s.job.value.AlbumJob? && t.log[|s.log|].batch == s.job.value.batch)
      && (t.job.Some? && t.job.value.AlbumJob? ==> s.job.Some? && s.job.value.AlbumJob? && t.job.value.batch == s.job.value.batch)
  {
  }

  lemma TurnNewer(s: A.State, t: A.State, batch: nat)
    requires A.Newer(s, batch) && Grows(s.log, t.log) && |t.log| <= |s.log| + 1
    requires |t.log| > |s.log| && !t.log[|s.log|].FileCounted? ==>
               s.job.Some? && s.job.value.AlbumJob? && t.log[|s.log|].batch == s.job.value.batch
    requires t.job.Some? && t.job.value.AlbumJob? ==>
               s.job.Some? && s.job.value.AlbumJob? && t.job.value.batch == s.job.value.batch
    ensures A.Newer(t, batch)
  {
    forall e | e in t.log && !e.FileCounted? ensures e.batch < batch {
      assert t.log == s.log + t.log[|s.log|..];
      assert e in s.log || e == t.log[|s.log|];
    }
  }

  lemma TurnAcks(s: A.State, t: A.State, browser: B.State)
    requires AcksOk(s, browser) && Grows(s.log, t.log) && |t.log| <= |s.log| + 1
    requires t.batch == s.batch || t.batch.None? || t.batch.value.ack.None?
    requires |t.log| > |s.log| && t.log[|s.log|].Acknowledged? ==>
            s.batch.Some? && s.batch.value.ack == Some(A.Ack(t.log[|s.log|].part, t.log[|s.log|].op, true))
            && s.batch.value.request == t.log[|s.log|].batch
    ensures AcksOk(t, browser)
  {
    forall e | e in t.log && e.Acknowledged? ensures B.HasSaved(browser.saved, e.batch, e.part, e.op) {
      assert t.log == s.log + t.log[|s.log|..];
      assert e in s.log || e == t.log[|s.log|];
    }
  }

  lemma TurnKeeps(s: State, ok: bool, n: nat, base: nat)
    requires Inv(s, base)
    ensures Inv(Step(s, Turn(ok, n)), base)
  {
    var t := A.Step(s.agent, A.Turn(ok, n));
    A.StepKeeps(s.agent, A.Turn(ok, n), base);
    AgentLogGrows(s.agent, ok, n);
    AgentChannel(s.agent, ok, n);
    AgentNotes(s.agent, ok, n);
    Kept(s.agent.log, t.log);
    TurnAcks(s.agent, t, s.browser);
    forall batch: nat | A.Newer(s.agent, batch) ensures A.Newer(t, batch) {
      TurnNewer(s.agent, t, batch);
    }
  }

  lemma AcquireKeeps(s: State, base: nat)
    requires Inv(s, base)
    ensures Inv(Step(s, Acquire), base)
  {
    A.StepKeeps(s.agent, A.Acquire, base);
  }

  lemma AgentHearKeeps(s: State, base: nat)
    requires Inv(s, base)
    ensures Inv(AgentHear(s), base)
  {
    if s.agent.handler.None? && s.taken < |s.browser.out| {
      var m := s.browser.out[s.taken];
      assert m in s.browser.out;
      A.StepKeeps(s.agent, Incoming(m), base);
    }
  }

  // ----- what a step of the browser does to the links

  lemma BrowserGrows(s: B.State, e: B.Event)
    ensures var t := B.Step(s, e);
      Grows(s.saved, t.saved) && Grows(s.out, t.out) && |t.out| <= |s.out| + 1 && s.next <= t.next
      && (|t.out| > |s.out| && t.out[|s.out|].AlbumRequest? ==> t.out[|s.out|].batch == s.next + 1 == t.next)
  {
  }

  predicate SavedFrom(c: B.Part, x: B.Saved) {
    x == B.Saved(c.batch, c.part, c.count, c.op)
  }

  /** What the browser downloads was announced by a header it heard; what it saves it downloaded. */
  lemma BrowserDownloads(s: B.State, e: B.Event)
    ensures var t := B.Step(s, e);
      && (t.current.Some? ==>
            var c := t.current.value;
            || (e.Hear? && e.m == A.Header(c.batch, c.part, c.count, c.op))
            || (s.current.Some? && c == s.current.value.(ended := c.ended)))
      && (forall x :: x in t.saved && x !in s.saved ==>
            s.current.Some? && SavedFrom(s.current.value, x))
  {
  }

  lemma SavedStays(a: seq<B.Saved>, b: seq<B.Saved>, batch: nat, part: nat, op: nat)
    requires Grows(a, b) && B.HasSaved(a, batch, part, op)
    ensures B.HasSaved(b, batch, part, op)
  {
    Kept(a, b);
    var x :| x in a && x.batch == batch && x.part == part && x.op == op;
    assert x in b;
  }

  lemma BrowserKeeps(s: State, e: B.Event, base: nat)
    requires Inv(s, base)
    requires e.Hear? ==> e.m in s.agent.out
    ensures Inv(s.(browser := B.Step(s.browser, e)), base)
  {
    var t := B.Step(s.browser, e);
    B.StepKeeps(s.browser, e);
    BrowserGrows(s.browser, e);
    BrowserDownloads(s.browser, e);
    forall batch: nat, part: nat, op: nat | B.HasSaved(s.browser.saved, batch, part, op)
      ensures B.HasSaved(t.saved, batch, part, op)
    {
      SavedStays(s.browser.saved, t.saved, batch, part, op);
    }
    BrowserRequests(s.agent, s.browser, t, s.taken);
  }

  lemma BrowserRequests(agent: A.State, s: B.State, t: B.State, taken: nat)
    requires RequestsOk(agent, s.out, s.next, taken)
    requires Grows(s.out, t.out) && |t.out| <= |s.out| + 1 && s.next <= t.next
    requires |t.out| > |s.out| && t.out[|s.out|].AlbumRequest? ==> t.out[|s.out|].batch == s.next + 1
    ensures RequestsOk(agent, t.out, t.next, taken)
  {
    forall j | taken <= j < |t.out| && t.out[j].AlbumRequest? ensures NewRequest(agent, t.out[j].batch) {
      if j < |s.out| {
        assert t.out[j] == s.out[j];
      }
    }
  }

  lemma StepKeeps(s: State, e: Event, base: nat)
    requires Inv(s, base)
    ensures Inv(Step(s, e), base)
  {
    match e
    case TakeId => A.StepKeeps(s.agent, A.TakeId, base);
    case FileRequest(request) => A.StepKeeps(s.agent, A.Request(A.File(request)), base);
    case Acquire => AcquireKeeps(s, base);
    case Turn(ok, n) => TurnKeeps(s, ok, n, base);
    case AgentHears => AgentHearKeeps(s, base);
    case AskForAlbum => BrowserKeeps(s, B.RequestAlbum, base);
    case Finalize(ok, sent) => BrowserKeeps(s, B.Finalize(ok, sent), base);
    case GiveUp => BrowserKeeps(s, B.GiveUp, base);
    case BrowserHears(sent, ready) =>
      if s.heard < |s.agent.out| {
        BrowserKeeps(s, B.Hear(s.agent.out[s.heard], sent, ready), base);
      }
  }

  lemma EveryRun(limit: nat, base: nat, es: seq<Event>)
    ensures Inv(Run(Step, Start(limit, base), es), base)
  {
    var inv := s => Inv(s, base);
    forall s: State, e: Event | inv(s) ensures inv(Step(s, e)) {
      StepKeeps(s, e, base);
    }
    Invariant(Step, inv, Start(limit, base), es);
  }

  // ----- what it means for whole runs

  /** The place of an entry in its batch's log. */
  lemma PlaceOf(agent: A.State, e: A.Entry) returns (own: seq<A.Entry>, i: nat)
    requires A.LogsOk(agent) && e in agent.log && !e.FileCounted?
    ensures own == A.Own(agent.log, e.batch) && i < |own| && own[i] == e
    ensures A.StopAndWait(own, A.CountOf(own)) && A.InPlace(own, A.CountOf(own), i)
  {
    own := A.Own(agent.log, e.batch);
    A.OwnMember(agent.log, e, e.batch);
    i :| 0 <= i < |own| && own[i] == e;
    assert A.InPlace(own, A.CountOf(own), i);
  }

  /** An acknowledged part is saved, and with it all the parts before it. */
  lemma AcknowledgedIsSaved(s: State, e: A.Entry, base: nat)
    requires Inv(s, base) && e in s.agent.log && e.Acknowledged?
    ensures var saved := B.Own(s.browser.saved, e.batch);
      B.InOrder(saved) && |saved| >= e.part && (e.part > 0 ==> saved[e.part - 1].op == e.op)
  {
    var x :| x in s.browser.saved && x.batch == e.batch && x.part == e.part && x.op == e.op;
    B.OwnMember(s.browser.saved, x, e.batch);
    var saved := B.Own(s.browser.saved, e.batch);
    assert B.InOrder(saved);
    var i :| 0 <= i < |saved| && saved[i] == x;
  }

  /** In every run, the header of part k + 1 goes out only when the browser has saved parts 1 to k,
      in order and each once. */
  lemma HeaderMeansSaved(limit: nat, base: nat, es: seq<Event>, batch: nat, part: nat, count: nat, op: nat)
    requires A.Announced(batch, part, count, op) in Run(Step, Start(limit, base), es).agent.log
    ensures var saved := B.Own(Run(Step, Start(limit, base), es).browser.saved, batch);
      part > 0 && B.InOrder(saved) && |saved| >= part - 1
  {
    EveryRun(limit, base, es);
    var s := Run(Step, Start(limit, base), es);
    var own, i := PlaceOf(s.agent, A.Announced(batch, part, count, op));
    if part > 1 {
      assert i == 3 * (part - 1);
      assert A.InPlace(own, A.CountOf(own), i - 1);
      A.OwnMember(s.agent.log, own[i - 1], batch);
      AcknowledgedIsSaved(s, own[i - 1], base);
    }
  }

  lemma CountedMeansSaved(s: State, base: nat, e: A.Entry)
    requires Inv(s, base) && e in s.agent.log && e.Counted?
    ensures var saved := B.Own(s.browser.saved, e.batch);
      e.count > 0 && |saved| == e.count && B.InOrder(saved) && saved[0].count == e.count
  {
    var own, i := PlaceOf(s.agent, e);
    var n := A.CountOf(own);
    assert i == 3 * n;
    assert A.InPlace(own, n, i - 1);
    assert own[i - 1].Acknowledged?;
    A.OwnMember(s.agent.log, own[i - 1], e.batch);
    AcknowledgedIsSaved(s, own[i - 1], base);
    SizeIsAnnounced(s, base, e.batch);
    var saved := B.Own(s.browser.saved, e.batch);
    assert saved[|saved| - 1].part <= saved[|saved| - 1].count;
  }

  /** What is saved of a batch bears the size the agent announced. */
  lemma SizeIsAnnounced(s: State, base: nat, batch: nat)
    requires Inv(s, base) && B.Own(s.browser.saved, batch) != []
    ensures B.Own(s.browser.saved, batch)[0].count == A.CountOf(A.Own(s.agent.log, batch))
  {
    var x := B.Own(s.browser.saved, batch)[0];
    B.OwnMember(s.browser.saved, x, batch);
    var own, i := PlaceOf(s.agent, A.Announced(batch, x.part, x.count, x.op));
  }

  /** When the agent counts an album as downloaded or tells the browser so, the browser has saved
      parts 1 to n of that album, in order, each exactly once and no others. */
  lemma CompleteMeansSaved(limit: nat, base: nat, es: seq<Event>, batch: nat, count: nat, bytes: nat)
    requires var log := Run(Step, Start(limit, base), es).agent.log;
      A.Counted(batch, count, bytes) in log || A.Told(batch, count, bytes) in log
    ensures var saved := B.Own(Run(Step, Start(limit, base), es).browser.saved, batch);
      |saved| == count > 0 && forall i :: 0 <= i < count ==> saved[i].part == i + 1
  {
    EveryRun(limit, base, es);
    var s := Run(Step, Start(limit, base), es);
    ToldIsCounted(s, base, batch, count, bytes);
    CountedMeansSaved(s, base, A.Counted(batch, count, bytes));
  }

  lemma ToldIsCounted(s: State, base: nat, batch: nat, count: nat, bytes: nat)
    requires Inv(s, base) && (A.Counted(batch, count, bytes) in s.agent.log || A.Told(batch, count, bytes) in s.agent.log)
    ensures A.Counted(batch, count, bytes) in s.agent.log
  {
    if A.Told(batch, count, bytes) in s.agent.log {
      var own, i := PlaceOf(s.agent, A.Told(batch, count, bytes));
      assert A.InPlace(own, A.CountOf(own), i - 1);
      A.OwnMember(s.agent.log, own[i - 1], batch);
    }
  }

  /** A notice of completion is never lost on a browser whose album is still active: it is believed
      when heard. */
  lemma NoticeIsBelieved(limit: nat, base: nat, es: seq<Event>, sent: bool, ready: bool)
    requires var s := Run(Step, Start(limit, base), es);
      s.heard < |s.agent.out| && s.agent.out[s.heard].Complete? && B.AlbumActive(s.browser)
      && s.browser.album.value.batch == s.agent.out[s.heard].batch
    ensures var t := Step(Run(Step, Start(limit, base), es), BrowserHears(sent, ready));
      t.browser.album.value.status.Finished?
  {
    EveryRun(limit, base, es);
    var s := Run(Step, Start(limit, base), es);
    var m := s.agent.out[s.heard];
    assert m in s.agent.out;
    ToldIsCounted(s, base, m.batch, m.count, m.bytes);
    CountedMeansSaved(s, base, A.Counted(m.batch, m.count, m.bytes));
    B.CompleteIsBelieved(s.browser, m.batch, m.count);
  }

  /** A browser that shows an album as complete has saved the whole of it. */
  lemma FinishedMeansSaved(limit: nat, base: nat, es: seq<Event>)
    requires var s := Run(Step, Start(limit, base), es).browser; s.album.Some? && s.album.value.status.Finished?
    ensures var s := Run(Step, Start(limit, base), es).browser;
      var saved := B.Own(s.saved, s.album.value.batch);
      |saved| == s.album.value.count && B.InOrder(saved)
  {
    EveryRun(limit, base, es);
  }
}
