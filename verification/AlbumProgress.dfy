/** Left alone, an album download of any number of parts completes and is counted once. */
module AlbumProgress {
  import opened Basics
  import opened Runs
  import opened Album
  import A = AlbumAgent
  import B = AlbumBrowser
  import R = Retired

  /** Both ends ready for part k of n: everything sent has been heard, and the part not yet announced. */
  predicate Ready(s: State, k: nat, n: nat) {
    && 0 < k <= n
    && s.agent.job.Some? && s.agent.job.value.AlbumJob?
    && (var job := s.agent.job.value;
        && job == A.AlbumJob(job.op, s.browser.next, n, k, 0, job.total, A.Heading)
        && s.agent.held && s.agent.operation == job.op != 0
        && s.agent.operation <= s.agent.sequence
        && job.op !in s.browser.retired
        && forall x :: x in s.browser.retired ==> x <= s.agent.sequence)
    && s.agent.batch == Some(A.Batch(s.browser.next, None)) && s.agent.handler.None?
    && s.heard == |s.agent.out| && s.taken == |s.browser.out|
    && s.browser.current.None?
    && s.browser.pending == (if k == 1 then Some(s.browser.next) else None)
    && s.browser.album.Some? && s.browser.album.value.status.Active?
    && s.browser.album.value.batch == s.browser.next && s.browser.album.value.part == k - 1
    && s.browser.album.value.count == (if k == 1 then 0 else n)
  }

  const TURN := Turn(true, 0)

  lemma Announce(s: State, k: nat, n: nat, bytes: nat) returns (t: State)
    requires Ready(s, k, n) && bytes > 0
    ensures t == Run(Step, s, [TURN, Turn(true, bytes), TURN, TURN])
    ensures var job := s.agent.job.value;
      && t.agent.job == Some(job.(bytes := bytes, total := job.total + bytes, stage := A.Waiting))
      && t.agent == s.agent.(job := t.agent.job, log := t.agent.log, out := t.agent.out)
      && t.agent.out == s.agent.out + [A.Header(job.batch, k, n, job.op)] + [A.EndOf(job.batch, job.op, bytes)]
      && t.browser == s.browser && t.heard == s.heard && t.taken == s.taken
  {
    var s1 := Step(s, TURN);
    var s2 := Step(s1, Turn(true, bytes));
    var s3 := Step(s2, TURN);
    t := Step(s3, TURN);
    FourSteps(s, TURN, Turn(true, bytes), TURN, TURN);
  }

  lemma FourSteps(s: State, a: Event, b: Event, c: Event, d: Event)
    ensures Run(Step, s, [a, b, c, d]) == Step(Step(Step(Step(s, a), b), c), d)
  {
    assert [a, b, c, d] == [a] + ([b] + ([c] + ([d] + [])));
    RunCons(Step, s, a, [b] + ([c] + ([d] + [])));
    RunCons(Step, Step(s, a), b, [c] + ([d] + []));
    RunCons(Step, Step(Step(s, a), b), c, [d] + []);
    RunCons(Step, Step(Step(Step(s, a), b), c), d, []);
  }

  /** The browser hears the header and the end, saves the part and acknowledges it; the agent hears that. */
  lemma Reply(s: State, t: State, k: nat, n: nat, bytes: nat) returns (u: State)
    requires Ready(s, k, n) && bytes > 0
    requires var job := s.agent.job.value;
      && t.agent.job == Some(job.(bytes := bytes, total := job.total + bytes, stage := A.Waiting))
      && t.agent == s.agent.(job := t.agent.job, log := t.agent.log, out := t.agent.out)
      && t.agent.out == s.agent.out + [A.Header(job.batch, k, n, job.op)] + [A.EndOf(job.batch, job.op, bytes)]
      && t.browser == s.browser && t.heard == s.heard && t.taken == s.taken
    ensures u == Run(Step, t, [HEARS, HEARS, Finalize(true, true), AgentHears])
    ensures var op := s.agent.job.value.op;
      && u.agent == t.agent.(batch := Some(A.Batch(s.browser.next, Some(A.Ack(k, op, true)))))
      && u.heard == |u.agent.out| && u.taken == |u.browser.out|
      && u.browser.current.None? && u.browser.pending.None? && u.browser.next == s.browser.next
      && u.browser.album == Some(B.View(s.browser.next, k, n, B.Active, op))
      && u.browser.retired == R.Retire(s.browser.retired, op)
  {
    var t1 := Step(t, HEARS);
    var t2 := Step(t1, HEARS);
    var t3 := Step(t2, Finalize(true, true));
    FourSteps(t, HEARS, HEARS, Finalize(true, true), AgentHears);
    var op := s.agent.job.value.op;
    assert t1.browser.current == Some(B.Part(s.browser.next, k, n, op, false));
    assert t2.browser.current == Some(B.Part(s.browser.next, k, n, op, true));
    assert t3.browser.out == s.browser.out + [B.Acknowledge(s.browser.next, k, op, true)];
    u := Step(t3, AgentHears);
  }

  const HEARS := BrowserHears(true, true)

  function PartScript(bytes: nat): seq<Event> {
    [TURN, Turn(true, bytes), TURN, TURN] + ([HEARS, HEARS, Finalize(true, true), AgentHears] + ([TURN] + []))
  }

  /** One part; afterwards the agent is about to advance, or to count. */
  lemma OnePart(s: State, k: nat, n: nat, bytes: nat) returns (u: State)
    requires Ready(s, k, n) && bytes > 0
    ensures u == Run(Step, s, PartScript(bytes))
    ensures Between(u, k, n, s.agent.downloads, s.agent.job.value.total + bytes, s.browser.next)
  {
    var t := Announce(s, k, n, bytes);
    var v := Reply(s, t, k, n, bytes);
    u := Step(v, TURN);
    RunAppend(Step, s, [TURN, Turn(true, bytes), TURN, TURN], [HEARS, HEARS, Finalize(true, true), AgentHears] + ([TURN] + []));
    RunAppend(Step, t, [HEARS, HEARS, Finalize(true, true), AgentHears], [TURN] + []);
    RunCons(Step, v, TURN, []);
  }

  /** Part k is acknowledged, and the acknowledgement taken. */
  predicate Between(u: State, k: nat, n: nat, downloads: nat, total: nat, batch: nat) {
    && 0 < k <= n
    && u.agent.job.Some? && u.agent.job.value.AlbumJob?
    && (var job := u.agent.job.value;
        && job == A.AlbumJob(job.op, batch, n, k, job.bytes, total, if k == n then A.Counting else A.Advancing)
        && u.agent.held && u.agent.operation == job.op != 0 && u.agent.operation <= u.agent.sequence
        && forall x :: x in u.browser.retired ==> x <= u.agent.sequence)
    && u.agent.batch == Some(A.Batch(batch, None)) && u.agent.handler.None? && u.agent.downloads == downloads
    && u.heard == |u.agent.out| && u.taken == |u.browser.out|
    && u.browser.current.None? && u.browser.pending.None? && u.browser.next == batch
    && u.browser.album.Some? && u.browser.album.value.status.Active?
    && u.browser.album.value.batch == batch && u.browser.album.value.part == k && u.browser.album.value.count == n
  }

  function Script(sizes: seq<nat>): seq<Event> {
    if |sizes| <= 1 then (if sizes == [] then [] else PartScript(sizes[0])) + [TURN, TURN, HEARS]
    else PartScript(sizes[0]) + ([TURN] + Script(sizes[1..]))
  }

  function Sum(sizes: seq<nat>): nat {
    if sizes == [] then 0 else sizes[0] + Sum(sizes[1..])
  }

  predicate Finished(t: State, n: nat, downloads: nat, bytes: nat, batch: nat) {
    && t.agent.downloads == downloads
    && t.browser.album.Some? && t.browser.album.value.status.Finished?
    && t.browser.album.value.batch == batch && t.browser.album.value.count == n
    && A.Counted(batch, n, bytes) in t.agent.log
  }

  lemma {:induction false} RestOfAlbum(s: State, k: nat, n: nat, sizes: seq<nat>)
    requires Ready(s, k, n) && |sizes| == n - k + 1 && forall b :: b in sizes ==> b > 0
    ensures Finished(Run(Step, s, Script(sizes)), n, s.agent.downloads + 1, s.agent.job.value.total + Sum(sizes), s.browser.next)
    decreases |sizes|
  {
    assert sizes[0] in sizes && forall b :: b in sizes[1..] ==> b in sizes;
    var u := OnePart(s, k, n, sizes[0]);
    if k == n {
      RunAppend(Step, s, PartScript(sizes[0]), [TURN, TURN, HEARS]);
      LastSteps(u, n, s.agent.downloads, s.agent.job.value.total + sizes[0], s.browser.next);
      assert sizes[1..] == [];
    } else {
      var t := Continue(s, u, k, n, sizes[0], Script(sizes[1..]));
      RestOfAlbum(t, k + 1, n, sizes[1..]);
    }
  }

  lemma NextPart(u: State, k: nat, n: nat, downloads: nat, total: nat, batch: nat)
    requires Between(u, k, n, downloads, total, batch) && k < n
    ensures var t := Step(u, TURN);
      Ready(t, k + 1, n) && t.agent.downloads == downloads && t.agent.job.value.total == total && t.browser.next == batch
  {
  }

  lemma Continue(s: State, u: State, k: nat, n: nat, bytes: nat, rest: seq<Event>) returns (t: State)
    requires u == Run(Step, s, PartScript(bytes)) && Ready(s, k, n) && k < n
    requires Between(u, k, n, s.agent.downloads, s.agent.job.value.total + bytes, s.browser.next)
    ensures Run(Step, s, PartScript(bytes) + ([TURN] + rest)) == Run(Step, t, rest)
    ensures Ready(t, k + 1, n) && t.agent.downloads == s.agent.downloads && t.browser.next == s.browser.next
    ensures t.agent.job.value.total == s.agent.job.value.total + bytes
  {
    RunAppend(Step, s, PartScript(bytes), [TURN] + rest);
    RunCons(Step, u, TURN, rest);
    NextPart(u, k, n, s.agent.downloads, s.agent.job.value.total + bytes, s.browser.next);
    t := Step(u, TURN);
  }

  lemma LastSteps(u: State, n: nat, downloads: nat, total: nat, batch: nat)
    requires Between(u, n, n, downloads, total, batch)
    ensures Finished(Run(Step, u, [TURN, TURN, HEARS]), n, downloads + 1, total, batch)
  {
    var u1 := Step(u, TURN);
    var u2 := Step(u1, TURN);
    var u3 := Step(u2, HEARS);
    assert [TURN, TURN, HEARS] == [TURN] + ([TURN] + ([HEARS] + []));
    RunCons(Step, u, TURN, [TURN] + ([HEARS] + []));
    RunCons(Step, u1, TURN, [HEARS] + []);
    RunCons(Step, u2, HEARS, []);
    var e := A.Counted(batch, n, total);
    assert u1.agent.log == u.agent.log + [e];
    assert e in u1.agent.log;
    assert u2.agent.log == u1.agent.log + [A.Told(batch, n, total)];
  }

  lemma Asked(limit: nat, downloads: nat) returns (t: State)
    requires limit == 0 || downloads < limit
    ensures t == Step(Step(Start(limit, downloads), AskForAlbum), AgentHears)
    ensures t.agent == A.Start(limit, downloads).(handler := Some(A.Album(1))) && t.heard == 0 && t.taken == 1
    ensures t.browser == B.State(1, Some(1), Some(B.View(1, 0, 0, B.Active, 0)), None, [], [], [B.AlbumRequest(1)])
  {
    var s := Step(Start(limit, downloads), AskForAlbum);
    assert s.browser.out == [B.AlbumRequest(1)];
    t := Step(s, AgentHears);
  }

  lemma Opened(limit: nat, downloads: nat, n: nat) returns (t: State)
    requires n > 0 && (limit == 0 || downloads < limit)
    ensures t == Run(Step, Start(limit, downloads), Opening(n))
    ensures Ready(t, 1, n) && t.agent.downloads == downloads && t.agent.job.value.total == 0 && t.browser.next == 1
  {
    var s := Asked(limit, downloads);
    FourSteps(Start(limit, downloads), AskForAlbum, AgentHears, Acquire, Turn(true, n));
    var a := Step(s, Acquire);
    assert a.agent.job == Some(A.AlbumJob(1, 1, 0, 0, 0, 0, A.Fetching));
    t := Step(a, Turn(true, n));
  }

  function Opening(n: nat): seq<Event> {
    [AskForAlbum, AgentHears, Acquire, Turn(true, n)]
  }

  lemma FromOpening(start: State, opening: seq<Event>, s: State, sizes: seq<nat>)
    requires s == Run(Step, start, opening) && Ready(s, 1, |sizes|) && forall b :: b in sizes ==> b > 0
    ensures Finished(Run(Step, start, opening + Script(sizes)), |sizes|, s.agent.downloads + 1,
                     s.agent.job.value.total + Sum(sizes), s.browser.next)
  {
    RunAppend(Step, start, opening, Script(sizes));
    RestOfAlbum(s, 1, |sizes|, sizes);
  }

  /** An album of any parts, none of them empty, on a share whose limit is not reached: asked for and
      left alone, it is counted as one download, and the browser ends with all of it. */
  lemma AlbumCompletes(start: State, limit: nat, downloads: nat, sizes: seq<nat>)
    requires start == Start(limit, downloads) && (limit == 0 || downloads < limit)
    requires sizes != [] && forall b :: b in sizes ==> b > 0
    ensures Finished(Run(Step, start, Opening(|sizes|) + Script(sizes)), |sizes|, downloads + 1, Sum(sizes), 1)
  {
    var opening := Opening(|sizes|);
    var s := Opened(limit, downloads, |sizes|);
    FromOpening(start, opening, s, sizes);
  }
}
