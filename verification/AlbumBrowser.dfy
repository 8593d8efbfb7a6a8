/**
 The browser's side of an album download: which headers it accepts, what it saves, and the
 acknowledgement it sends after every part.
 */
module AlbumBrowser {
  import opened Basics
  import opened Retired
  import opened Runs
  import AlbumAgent

  datatype Status = Active | Finished | Failed

  datatype View = View(batch: nat, part: nat, count: nat, status: Status, acknowledged: nat)

  /** The download under way. The verdict can be good only after the end of its data was announced. */
  datatype Part = Part(batch: nat, part: nat, count: nat, op: nat, ended: bool)

  datatype Saved = Saved(batch: nat, part: nat, count: nat, op: nat)

  datatype Outgoing = AlbumRequest(batch: nat) | Acknowledge(batch: nat, part: nat, op: nat, ok: bool)

  datatype State = State(
    next: nat,                // ids given to requests so far
    pending: Option<nat>,     // pendingBulkRequestId
    album: Option<View>,
    current: Option<Part>,
    retired: seq<nat>,
    saved: seq<Saved>,        // parts saved to disk, in order
    out: seq<Outgoing>)

  const IDLE := State(0, None, None, None, [], [], [])

  /** `sent`: whether the acknowledgement can be sent; `ready`: whether the download's pipeline exists. */
  datatype Event =
    | RequestAlbum
    | Hear(m: AlbumAgent.Message, sent: bool, ready: bool)
    | Finalize(ok: bool, sent: bool)
    | GiveUp

  predicate AlbumActive(s: State) {
    s.album.Some? && s.album.value.status.Active?
  }

  function FailAlbum(s: State): State {
    if AlbumActive(s) then s.(album := Some(s.album.value.(status := Failed))) else s
  }

  function Ask(s: State): State {
    if s.pending.Some? || s.current.Some? || AlbumActive(s) then s
    else
      var id := s.next + 1;
      s.(next := id, pending := Some(id), album := Some(View(id, 0, 0, Active, 0)), out := s.out + [AlbumRequest(id)])
  }

  predicate Acceptable(s: State, batch: nat, part: nat, count: nat, op: nat) {
    && op != 0 && AlbumActive(s) && op !in s.retired
    && var v := s.album.value;
    && batch == v.batch && 1 <= part <= count && part == v.part + 1
    && (v.count != 0 ==> count == v.count)
    && s.current.None?
    && (if part == 1 then s.pending == Some(batch) else s.pending.None?)
  }

  function AcceptHeader(s: State, batch: nat, part: nat, count: nat, op: nat): State {
    if !Acceptable(s, batch, part, count, op) then s
    else s.(pending := None, album := Some(s.album.value.(count := count, acknowledged := 0)),
            current := Some(Part(batch, part, count, op, false)))
  }

  /** The end of the part under way; its verdict comes when the last byte has. */
  function HearEnd(s: State, batch: nat, op: nat): State {
    if s.current.Some? && s.current.value.op == op && s.current.value.batch == batch
    then s.(current := Some(s.current.value.(ended := true)))
    else s
  }

  /** The acknowledgement of a part of the active album; a part that is not good ends the album. */
  function Acknowledged(s: State, c: Part, ok: bool, sent: bool): State {
    if !AlbumActive(s) || s.album.value.batch != c.batch then s
    else
      var s := s.(out := if sent then s.out + [Acknowledge(c.batch, c.part, c.op, ok)] else s.out);
      if !ok || !sent then FailAlbum(s)
      else s.(album := Some(s.album.value.(part := c.part, count := c.count, acknowledged := c.op)))
  }

  /** The terminal state of a part: it is retired, acknowledged and, if good, counted as saved. */
  function FinishPart(s: State, ok: bool, sent: bool): State {
    if s.current.None? || (ok && !s.current.value.ended) then s
    else
      var c := s.current.value;
      Acknowledged(s.(retired := Retire(s.retired, c.op), current := None,
                      saved := if ok then s.saved + [Saved(c.batch, c.part, c.count, c.op)] else s.saved), c, ok, sent)
  }

  function HearComplete(s: State, batch: nat, count: nat): State {
    if AlbumActive(s) && s.album.value.batch == batch && s.album.value.count == count && s.album.value.part == count
    then s.(album := Some(s.album.value.(status := Finished)))
    else s
  }

  function HearFailure(s: State, batch: nat, op: nat, sent: bool, ready: bool): State {
    var concernsAlbum := AlbumActive(s) && s.album.value.batch == batch;
    if op == 0 then
      if batch != 0 && s.pending != Some(batch) && !concernsAlbum then s
      else
        var s := s.(pending := None);
        if concernsAlbum then FailAlbum(s) else s
    else if s.current.Some? && s.current.value.op == op && s.current.value.batch == batch then
      var s := s.(retired := Retire(s.retired, op));
      if ready then FinishPart(s, false, sent) else s.(pending := None)
    else if concernsAlbum && s.current.None? && s.album.value.acknowledged == op then FailAlbum(s)
    else s
  }

  function Step(s: State, e: Event): State {
    match e
    case RequestAlbum => Ask(s)
    case Hear(m, sent, ready) =>
      (match m
       case Header(batch, part, count, op) => AcceptHeader(s, batch, part, count, op)
       case EndOf(batch, op, _) => HearEnd(s, batch, op)
       case Complete(batch, count, _) => HearComplete(s, batch, count)
       case Failure(batch, op) => HearFailure(s, batch, op, sent, ready))
    case Finalize(ok, sent) => FinishPart(s, ok, sent)
    case GiveUp => FailAlbum(s)
  }

  // ----- what has been saved of one batch

  function Own(saved: seq<Saved>, batch: nat): seq<Saved> {
    if saved == [] then []
    else (if saved[0].batch == batch then [saved[0]] else []) + Own(saved[1..], batch)
  }

  lemma {:induction false} OwnSnoc(saved: seq<Saved>, x: Saved, batch: nat)
    ensures Own(saved + [x], batch) == if x.batch == batch then Own(saved, batch) + [x] else Own(saved, batch)
  {
    if saved == [] {
      assert saved + [x] == [x] && [x][1..] == [];
    } else {
      OwnSnoc(saved[1..], x, batch);
      assert (saved + [x])[1..] == saved[1..] + [x];
    }
  }

  lemma {:induction false} OwnMember(saved: seq<Saved>, x: Saved, batch: nat)
    ensures x in Own(saved, batch) <==> x in saved && x.batch == batch
  {
    if saved != [] {
      OwnMember(saved[1..], x, batch);
      assert saved == [saved[0]] + saved[1..];
    }
  }

  lemma {:induction false} OwnNone(saved: seq<Saved>, batch: nat)
    requires forall x :: x in saved ==> x.batch < batch
    ensures Own(saved, batch) == []
  {
    if saved != [] {
      assert saved[0] in saved && forall x :: x in saved[1..] ==> x in saved;
      OwnNone(saved[1..], batch);
    }
  }

  /** Parts 1, 2, 3 and so on, of a batch of one and the same size. */
  predicate InOrder(own: seq<Saved>) {
    forall i :: 0 <= i < |own| ==> own[i].part == i + 1 <= own[i].count && own[i].count == own[0].count
  }

  predicate HasSaved(saved: seq<Saved>, batch: nat, part: nat, op: nat) {
    exists x :: x in saved && x.batch == batch && x.part == part && x.op == op
  }

  // ----- the invariant, whatever the agent says

  /** The album shown, the part under way and what has been saved of the album fit together. */
  predicate AlbumOk(s: State) {
    && (s.current.Some? ==> s.album.Some?)
    && (s.album.Some? ==>
          var v, own := s.album.value, Own(s.saved, s.album.value.batch);
          && v.batch <= s.next
          && (v.status.Active? ==> |own| == v.part && (own != [] ==> v.count == own[0].count))
          && (v.status.Finished? ==> |own| == v.count && s.current.None?)
          && (s.current.Some? ==>
                var c := s.current.value;
                c.batch == v.batch && c.part == |own| + 1 <= c.count && c.count == v.count
                && (own != [] ==> c.count == own[0].count)))
  }

  ghost predicate SavedOk(s: State) {
    && (forall x :: x in s.saved ==> x.batch <= s.next)
    && forall b: nat :: InOrder(Own(s.saved, b))
  }

  /** Good acknowledgements are for saved parts; requests have increasing ids. */
  predicate OutOk(s: State) {
    && (forall x :: x in s.out && x.Acknowledge? && x.ok ==> HasSaved(s.saved, x.batch, x.part, x.op))
    && (forall x :: x in s.out && x.AlbumRequest? ==> x.batch <= s.next)
    && (forall i, j :: 0 <= i < j < |s.out| && s.out[i].AlbumRequest? && s.out[j].AlbumRequest? ==> s.out[i].batch < s.out[j].batch)
  }

  ghost predicate Inv(s: State) {
    AlbumOk(s) && SavedOk(s) && OutOk(s)
  }

  /** What finishing a part adds to what is saved. */
  lemma FinishSaves(s: State, ok: bool, sent: bool)
    requires SavedOk(s) && AlbumOk(s)
    ensures SavedOk(FinishPart(s, ok, sent))
    ensures s.current.Some? && ok && s.current.value.ended ==>
      var c := s.current.value;
      Own(FinishPart(s, ok, sent).saved, c.batch) == Own(s.saved, c.batch) + [Saved(c.batch, c.part, c.count, c.op)]
  {
    if s.current.Some? && ok && s.current.value.ended {
      var c := s.current.value;
      var x := Saved(c.batch, c.part, c.count, c.op);
      FinishSaved(s, sent);
      forall b: nat ensures Own(s.saved + [x], b) == if c.batch == b then Own(s.saved, b) + [x] else Own(s.saved, b) {
        OwnSnoc(s.saved, x, b);
      }
    }
  }

  lemma FinishSaved(s: State, sent: bool)
    requires s.current.Some? && s.current.value.ended
    ensures var c := s.current.value;
      var t := FinishPart(s, true, sent);
      t.saved == s.saved + [Saved(c.batch, c.part, c.count, c.op)] && t.next == s.next
  {
  }

  lemma FinishOut(s: State, ok: bool, sent: bool)
    requires OutOk(s)
    ensures OutOk(FinishPart(s, ok, sent))
  {
    if s.current.Some? && ok && s.current.value.ended {
      var c := s.current.value;
      assert Saved(c.batch, c.part, c.count, c.op) in FinishPart(s, ok, sent).saved;
      forall x | x in s.out && x.Acknowledge? && x.ok
        ensures HasSaved(FinishPart(s, ok, sent).saved, x.batch, x.part, x.op)
      {
        var y :| y in s.saved && y.batch == x.batch && y.part == x.part && y.op == x.op;
        assert y in FinishPart(s, ok, sent).saved;
      }
    }
  }

  lemma FinishKeeps(s: State, ok: bool, sent: bool)
    requires Inv(s)
    ensures Inv(FinishPart(s, ok, sent))
  {
    FinishSaves(s, ok, sent);
    FinishOut(s, ok, sent);
    FinishAlbum(s, ok, sent);
  }

  lemma FinishAlbum(s: State, ok: bool, sent: bool)
    requires AlbumOk(s)
    requires s.current.Some? && ok && s.current.value.ended ==>
      var c := s.current.value;
      Own(FinishPart(s, ok, sent).saved, c.batch) == Own(s.saved, c.batch) + [Saved(c.batch, c.part, c.count, c.op)]
    ensures AlbumOk(FinishPart(s, ok, sent))
  {
  }

  lemma AskKeeps(s: State)
    requires Inv(s)
    ensures Inv(Ask(s))
  {
    OwnNone(s.saved, s.next + 1);
  }

  lemma HearFailureKeeps(s: State, batch: nat, op: nat, sent: bool, ready: bool)
    requires Inv(s)
    ensures Inv(HearFailure(s, batch, op, sent, ready))
  {
    FinishKeeps(s.(retired := Retire(s.retired, op)), false, sent);
  }

  lemma StepKeeps(s: State, e: Event)
    requires Inv(s)
    ensures Inv(Step(s, e))
  {
    match e
    case RequestAlbum => AskKeeps(s);
    case Finalize(ok, sent) => FinishKeeps(s, ok, sent);
    case Hear(Failure(batch, op), sent, ready) => HearFailureKeeps(s, batch, op, sent, ready);
    case Hear(_, _, _) =>
    case GiveUp =>
  }

  /** A notice that every part was sent is believed exactly when the album is active and its last part saved. */
  lemma CompleteIsBelieved(s: State, batch: nat, count: nat)
    requires Inv(s) && AlbumActive(s) && s.album.value.batch == batch && count > 0
    ensures HearComplete(s, batch, count).album.value.status.Finished? <==>
      |Own(s.saved, batch)| == count && Own(s.saved, batch)[0].count == count
  {
  }

  // ----- how an album ends badly, and what comes after

  /** A refusal of the album's request ends the album and frees the request, so that a new album can be
      asked for as soon as no part is under way. */
  lemma RefusalEndsAlbum(s: State, batch: nat, sent: bool, ready: bool)
    requires AlbumActive(s) && s.album.value.batch == batch
    ensures var t := Step(s, Hear(AlbumAgent.Failure(batch, 0), sent, ready));
      && t.album == Some(s.album.value.(status := Failed)) && t.pending.None? && t.current == s.current
      && (t.current.None? ==>
            var u := Step(t, RequestAlbum);
            AlbumActive(u) && u.pending == Some(s.next + 1) && u.out == t.out + [AlbumRequest(s.next + 1)])
  {
  }

  /** An album is asked for exactly when nothing is on its way, no part is under way and no album is active. */
  lemma AskDecides(s: State)
    ensures var t, id := Step(s, RequestAlbum), s.next + 1;
      if s.pending.None? && s.current.None? && (s.album.Some? ==> s.album.value.status in {Finished, Failed})
      then t == State(id, Some(id), Some(View(id, 0, 0, Active, 0)), None, s.retired, s.saved, s.out + [AlbumRequest(id)])
      else t == s
  {
  }

  /** The header of the part that is due: the next one of the active album, of the count announced before if any,
      for an operation not heard of, with nothing under way, and for the first part with its request on its way. */
  predicate Due(s: State, batch: nat, part: nat, count: nat, op: nat) {
    && op > 0 && op !in s.retired && s.current == None
    && s.album.Some? && s.album.value.status == Active && s.album.value.batch == batch
    && s.album.value.part + 1 == part <= count && s.album.value.count in {0, count}
    && s.pending == if part == 1 then Some(batch) else None
  }

  /** Only that header begins a part; any other is ignored. */
  lemma HeaderDecides(s: State, batch: nat, part: nat, count: nat, op: nat, sent: bool, ready: bool)
    ensures var t := Step(s, Hear(AlbumAgent.Header(batch, part, count, op), sent, ready));
      if Due(s, batch, part, count, op)
      then t == State(s.next, None, Some(View(batch, part - 1, count, Active, 0)), Some(Part(batch, part, count, op, false)),
                      s.retired, s.saved, s.out)
      else t == s
  {
  }

  /** Only the end of the part under way lets it become good. */
  lemma EndDecides(s: State, batch: nat, op: nat, bytes: nat, sent: bool, ready: bool)
    ensures var t := Step(s, Hear(AlbumAgent.EndOf(batch, op, bytes), sent, ready));
      if s.current.Some? && (s.current.value.op, s.current.value.batch) == (op, batch)
      then t == s.(current := Some(s.current.value.(ended := true)))
      else t == s
  {
  }

  /** Errors that leave everything as it is: a refusal that names another request, and an error of an operation that
      is neither under way nor the one acknowledged last in a gap between parts. */
  lemma ForeignErrors(s: State, batch: nat, op: nat, sent: bool, ready: bool)
    ensures op == 0 && batch != 0 && s.pending != Some(batch) && (AlbumActive(s) ==> s.album.value.batch != batch) ==>
      Step(s, Hear(AlbumAgent.Failure(batch, op), sent, ready)) == s
    ensures op != 0 && (s.current.Some? ==> s.current.value.op != op || s.current.value.batch != batch)
            && (AlbumActive(s) && s.current.None? && s.album.value.batch == batch ==> s.album.value.acknowledged != op) ==>
      Step(s, Hear(AlbumAgent.Failure(batch, op), sent, ready)) == s
  {
  }

  /** A refusal that is not about the active album only takes the request back; an error that reaches a part before
      its pipeline exists retires its operation and leaves the verdict to what comes. */
  lemma EarlyErrors(s: State, batch: nat, op: nat, sent: bool)
    ensures (batch == 0 || s.pending == Some(batch)) && (AlbumActive(s) ==> s.album.value.batch != batch) ==>
      Step(s, Hear(AlbumAgent.Failure(batch, 0), sent, false)) == s.(pending := None)
    ensures op != 0 && s.current.Some? && s.current.value.op == op && s.current.value.batch == batch ==>
      Step(s, Hear(AlbumAgent.Failure(batch, op), sent, false)) == s.(retired := Retire(s.retired, op), pending := None)
  {
  }

  /** A part that is not good, or whose acknowledgement cannot be sent, ends its album; a part that is
      good goes on to the next. The browser answers for every part, if it can. */
  lemma PartDecides(s: State, ok: bool, sent: bool)
    requires AlbumActive(s) && s.current.Some? && s.current.value.batch == s.album.value.batch
    requires ok ==> s.current.value.ended
    ensures var c, t := s.current.value, Step(s, Finalize(ok, sent));
      && t.current.None?
      && t.out == (if sent then s.out + [Acknowledge(c.batch, c.part, c.op, ok)] else s.out)
      && t.saved == (if ok then s.saved + [Saved(c.batch, c.part, c.count, c.op)] else s.saved)
      && t.album.value.batch == c.batch
      && (if ok && sent then AlbumActive(t) && t.album.value.part == c.part else t.album.value.status == Failed)
  {
  }

  /** An error about the part under way ends the part and its album. */
  lemma PartErrorEndsAlbum(s: State, sent: bool)
    requires AlbumActive(s) && s.current.Some? && s.current.value.batch == s.album.value.batch && s.current.value.op != 0
    ensures var c := s.current.value;
      var t := Step(s, Hear(AlbumAgent.Failure(c.batch, c.op), sent, true));
      t.current.None? && t.album.value.status == Failed && t.saved == s.saved
  {
  }

  /** So does an error about the part acknowledged last, while the next has not begun. */
  lemma LateErrorEndsAlbum(s: State, sent: bool, ready: bool)
    requires AlbumActive(s) && s.current.None? && s.album.value.acknowledged != 0
    ensures var t := Step(s, Hear(AlbumAgent.Failure(s.album.value.batch, s.album.value.acknowledged), sent, ready));
      t.album.value.status == Failed
  {
  }

  /** An album that has ended stays as it ended until another is asked for, and accepts no part. */
  lemma EndedStaysEnded(s: State, e: Event)
    requires s.album.Some? && !s.album.value.status.Active? && !e.RequestAlbum?
    ensures var t := Step(s, e); t.album == s.album && (t.current.Some? ==> s.current.Some?)
  {
  }

  /** A part that has ended is remembered: a header with its operation is refused, as long as fewer than
      64 parts have been retired after it. */
  lemma EndedPartIsRetired(s: State, e: Event)
    requires s.current.Some? && s.current.value.op != 0 && Step(s, e).current.None?
    ensures s.current.value.op in Step(s, e).retired
  {
  }

  lemma RetiredIsRefused(s: State, op: nat, batch: nat, part: nat, count: nat, sent: bool, ready: bool)
    requires op in s.retired
    ensures Step(s, Hear(AlbumAgent.Header(batch, part, count, op), sent, ready)) == s
  {
  }

  lemma EveryRun(es: seq<Event>)
    ensures Inv(Run(Step, IDLE, es))
  {
    forall s: State, e: Event | Inv(s) ensures Inv(Step(s, e)) {
      StepKeeps(s, e);
    }
    Invariant(Step, Inv, IDLE, es);
  }
}
