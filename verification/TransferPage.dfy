/**
 The browser page's transfer state: what its handlers do to it when a header, a frame or an end
 comes in. Every handler is proved against the value-level steps of Reassembly.
 */
module TransferPage {
  import opened Basics
  import opened EarlyFrames
  import opened Retired
  import opened Reassembly
  import opened ReassemblyOk
  import Runs
  import RR = ReassemblyRuns

  /** One value for each data lane. */
  datatype Lanes<T> = Lanes(media: T, bulk: T) {
    function At(lane: Lane): T {
      if lane.Media? then media else bulk
    }

    function With(lane: Lane, v: T): Lanes<T> {
      if lane.Media? then this.(media := v) else this.(bulk := v)
    }
  }

  /** A closed session stays closed; what is left in it does not matter. */
  predicate Agrees(a: State, b: State) {
    a.closed == b.closed && (!a.closed ==> a == b)
  }

  function ReplayEntry(s: State, lane: Lane, op: nat, h: Held): State {
    Route(s.(bytes := s.bytes - |h.payload|, count := s.count - 1), lane, Frame(op, h.generation, h.payload))
  }

  lemma ReplayUnfolds(s: State, lane: Lane, op: nat, held: seq<Held>)
    requires !s.closed && held != []
    ensures Replay(s, lane, op, held) == Replay(ReplayEntry(s, lane, op, held[0]), lane, op, held[1..])
  {
  }

  /** The rest of a replay, from a state that stands for the one after its first entry. */
  lemma ReplayNextEntry(s: State, t: State, lane: Lane, op: nat, held: seq<Held>, done: State)
    requires !s.closed && held != [] && done == Replay(s, lane, op, held)
    requires Agrees(t, ReplayEntry(s, lane, op, held[0]))
    ensures if t.closed then done.closed else done == Replay(t, lane, op, held[1..])
  {
    ReplayUnfolds(s, lane, op, held);
  }

  class Page {
    var earlyFrames: Lanes<Table>
    var earlyFrameBytes: int
    var earlyFrameCount: int
    var retiredOperations: Lanes<seq<nat>>
    var abandonedMediaRequests: seq<nat>
    var current: Lanes<Option<Operation>>   // currentVideoPreview or currentPreview; currentFile
    var pendingRequests: Lanes<Option<Pending>>
    var pendingEnds: Lanes<Option<End>>
    var closed: bool
    ghost var arrived: Lanes<seq<Frame>>
    ghost var heard: Lanes<seq<End>>
    ghost var delivered: Lanes<seq<Delivery>>
    ghost var gone: Lanes<set<nat>>
    ghost var past: seq<Event>

    ghost function SideOf(lane: Lane): Side
      reads this
    {
      Side(earlyFrames.At(lane), retiredOperations.At(lane), current.At(lane), pendingRequests.At(lane),
           pendingEnds.At(lane), arrived.At(lane), heard.At(lane), delivered.At(lane), gone.At(lane))
    }

    ghost function Snapshot(): State
      reads this
    {
      State(SideOf(Media), SideOf(Bulk), earlyFrameBytes, earlyFrameCount, abandonedMediaRequests, closed)
    }

    /** The page is where the run of its past ends, so what is proved about all runs holds of it. */
    ghost predicate Valid()
      reads this
    {
      Agrees(Snapshot(), Runs.Run(Step, START, past))
    }

    constructor ()
      ensures Valid() && past == []
    {
      earlyFrames := Lanes([], []);
      earlyFrameBytes, earlyFrameCount := 0, 0;
      retiredOperations, abandonedMediaRequests := Lanes([], []), [];
      current, pendingRequests, pendingEnds := Lanes(None, None), Lanes(None, None), Lanes(None, None);
      closed := false;
      arrived, heard, delivered, gone, past := Lanes([], []), Lanes([], []), Lanes([], []), Lanes({}, {}), [];
    }

    /** An invalid protocol step closes the session. */
    method FailTransferProtocol()
      modifies this`closed
      ensures closed
    {
      closed := true;
    }

    method BufferEarlyFrame(lane: Lane, f: Frame)
      requires !closed
      modifies this`earlyFrames, this`earlyFrameBytes, this`earlyFrameCount, this`closed
      ensures Agrees(Snapshot(), Buffer(old(Snapshot()), lane, f))
    {
      var entries := Find(earlyFrames.At(lane), f.op);
      var canCoalesce := false;
      if |entries| > 0 {
        var last := entries[|entries| - 1];
        canCoalesce := last.room && last.generation == f.generation && |last.payload| + |f.payload| <= COALESCE_BYTES;
      }
      assert canCoalesce == Coalesces(entries, f);
      var isNewOperation := !Has(earlyFrames.At(lane), f.op);
      var earlyOperationCount := |earlyFrames.media| + |earlyFrames.bulk|;
      if || |f.payload| + earlyFrameBytes > MAX_BYTES
         || (!canCoalesce && earlyFrameCount >= MAX_COUNT)
         || (isNewOperation && earlyOperationCount >= MAX_OPERATIONS)
      {
        FailTransferProtocol();
        return;
      }
      if canCoalesce {
        var last := entries[|entries| - 1];
        entries := entries[..|entries| - 1] + [last.(payload := last.payload + f.payload)];
      } else {
        entries := entries + [Held(f.generation, f.payload, |f.payload| < COALESCE_BYTES)];
        earlyFrameCount := earlyFrameCount + 1;
      }
      assert entries == Stored(Find(earlyFrames.At(lane), f.op), f);
      earlyFrames := earlyFrames.With(lane, Put(earlyFrames.At(lane), f.op, entries));
      earlyFrameBytes := earlyFrameBytes + |f.payload|;
    }

    method RetireOperation(lane: Lane, op: nat)
      modifies this`retiredOperations, this`gone
      ensures retiredOperations == old(retiredOperations).With(lane, Retire(old(retiredOperations.At(lane)), op))
      ensures gone == old(gone).With(lane, old(gone.At(lane)) + {op})
    {
      gone := gone.With(lane, gone.At(lane) + {op});
      if op == 0 || op in retiredOperations.At(lane) {
        return;
      }
      retiredOperations := retiredOperations.With(lane, retiredOperations.At(lane) + [op]);
      if |retiredOperations.At(lane)| > KEPT {
        retiredOperations := retiredOperations.With(lane, retiredOperations.At(lane)[1..]);
      }
    }

    /** Every byte is there. */
    method CompleteOperation(lane: Lane, end: End)
      requires current.At(lane).Some?
      modifies this`retiredOperations, this`gone, this`current, this`delivered
      ensures SideOf(lane) == Completed(old(SideOf(lane)), end) && SideOf(Other(lane)) == old(SideOf(Other(lane)))
    {
      var c := current.At(lane).value;
      delivered := delivered.With(lane, delivered.At(lane) +
        [Delivery(c.id, c.generation, Concat(c.chunks), end.bytes, |arrived.At(lane)|, c.id !in gone.At(lane))]);
      if c.kind.Still? {
        RetireOperation(lane, c.id);
        current := current.With(lane, None);
        return;
      }
      if c.kind.File? {
        ghost var before := gone;
        RetireOperation(lane, c.id);
        gone := before;
      }
      current := current.With(lane, Some(c.(declared := Some(end.bytes), announced := Some(end.bytes))));
    }

    method CompleteDeferredEnd(lane: Lane)
      requires !closed
      modifies this`retiredOperations, this`gone, this`current, this`delivered, this`pendingEnds, this`closed
      ensures Agrees(Snapshot(), Settle(old(Snapshot()), lane, CompleteDeferred(old(SideOf(lane)))))
    {
      if pendingEnds.At(lane).None? {
        return;
      }
      var end := pendingEnds.At(lane).value;
      var received := if current.At(lane).Some? then current.At(lane).value.wire else 0;
      var album := current.At(lane).Some? && current.At(lane).value.album;
      if end.bytes >= UINT64 || (album && end.bytes > MAX_SAFE_INTEGER) || received > end.bytes {
        FailTransferProtocol();
      } else if received == end.bytes {
        pendingEnds := pendingEnds.With(lane, None);
        if Matches(current.At(lane), end) {
          CompleteOperation(lane, end);
        }
      }
    }

    method RouteOrBufferFrame(lane: Lane, f: Frame)
      requires !closed
      modifies this`earlyFrames, this`earlyFrameBytes, this`earlyFrameCount, this`closed,
               this`retiredOperations, this`gone, this`current, this`delivered, this`pendingEnds
      ensures Agrees(Snapshot(), Route(old(Snapshot()), lane, f))
    {
      if f.op == 0 || current.At(lane).None? || current.At(lane).value.id != f.op {
        if f.op in retiredOperations.At(lane) {
          return;
        }
        BufferEarlyFrame(lane, f);
        return;
      }
      var c := current.At(lane).value;
      if f.generation != c.generation {
        return;
      }
      var nextWireBytes := c.wire + |f.payload|;
      if c.declared.Some? && nextWireBytes > c.declared.value {
        FailTransferProtocol();
        return;
      }
      current := current.With(lane, Some(c.(chunks := c.chunks + [f.payload], wire := nextWireBytes)));
      CompleteDeferredEnd(lane);
    }

    method DrainEntry(lane: Lane, op: nat, h: Held)
      requires !closed
      modifies this`earlyFrames, this`earlyFrameBytes, this`earlyFrameCount, this`closed,
               this`retiredOperations, this`gone, this`current, this`delivered, this`pendingEnds
      ensures Agrees(Snapshot(), ReplayEntry(old(Snapshot()), lane, op, h))
    {
      earlyFrameBytes := earlyFrameBytes - |h.payload|;
      earlyFrameCount := earlyFrameCount - 1;
      RouteOrBufferFrame(lane, Frame(op, h.generation, h.payload));
    }

    /** The buffered entries of an operation are routed one by one, as one step. */
    method DrainEarlyFrames(lane: Lane, op: nat)
      requires !closed
      modifies this`earlyFrames, this`earlyFrameBytes, this`earlyFrameCount, this`closed,
               this`retiredOperations, this`gone, this`current, this`delivered, this`pendingEnds
      ensures Agrees(Snapshot(), Drain(old(Snapshot()), lane, op))
    {
      var entries := Find(earlyFrames.At(lane), op);
      earlyFrames := earlyFrames.With(lane, Delete(earlyFrames.At(lane), op));
      ghost var done := Replay(Snapshot(), lane, op, entries);
      assert done == Drain(old(Snapshot()), lane, op);
      var i := 0;
      assert entries[0..] == entries;
      while i < |entries| && !closed
        invariant 0 <= i <= |entries|
        invariant if closed then done.closed else done == Replay(Snapshot(), lane, op, entries[i..])
      {
        ghost var before := Snapshot();
        assert entries[i..] != [] && entries[i..][0] == entries[i] && entries[i..][1..] == entries[i + 1..];
        DrainEntry(lane, op, entries[i]);
        ReplayNextEntry(before, Snapshot(), lane, op, entries[i..], done);
        i := i + 1;
      }
    }

    method DiscardEarlyOperation(lane: Lane, op: nat)
      modifies this`earlyFrames, this`earlyFrameBytes, this`earlyFrameCount
      ensures Snapshot() == DiscardEarly(old(Snapshot()), lane, op)
    {
      var entries := Find(earlyFrames.At(lane), op);
      var i := 0;
      assert entries[0..] == entries;
      while i < |entries|
        invariant 0 <= i <= |entries|
        invariant earlyFrameBytes - BytesOf(entries[i..]) == old(earlyFrameBytes) - BytesOf(entries)
        invariant earlyFrameCount == old(earlyFrameCount) - i
        invariant earlyFrames == old(earlyFrames)
      {
        assert entries[i..][1..] == entries[i + 1..];
        earlyFrameBytes := earlyFrameBytes - |entries[i].payload|;
        earlyFrameCount := earlyFrameCount - 1;
        i := i + 1;
      }
      earlyFrames := earlyFrames.With(lane, Delete(earlyFrames.At(lane), op));
    }

    // ----- handlers

    ghost method Remember(e: Event)
      modifies this`past
      ensures past == old(past) + [e]
      ensures Runs.Run(Step, START, past) == Step(Runs.Run(Step, START, old(past)), e)
    {
      Runs.RunSnoc(Step, START, past, e);
      past := past + [e];
    }

    /** A chunk frame; the handler of the bulk lane insists on generation 0. */
    method HandleFrame(lane: Lane, f: Frame)
      requires Valid() && !closed
      modifies this
      ensures Valid() && past == old(past) + [Frames(lane, f)]
      ensures Agrees(Snapshot(), Step(old(Snapshot()), Frames(lane, f)))
    {
      if lane.Bulk? && f.generation != 0 {
        FailTransferProtocol();
      } else {
        arrived := arrived.With(lane, arrived.At(lane) + [f]);
        RouteOrBufferFrame(lane, f);
      }
      Remember(Frames(lane, f));
    }

    method TakeEnd(lane: Lane, end: End)
      requires !closed
      modifies this`retiredOperations, this`gone, this`current, this`delivered, this`pendingEnds, this`closed, this`heard
      ensures Agrees(Snapshot(), Settle(old(Snapshot()), lane, HearEnd(old(SideOf(lane)), end)))
    {
      heard := heard.With(lane, heard.At(lane) + [end]);
      if !Matches(current.At(lane), end) {
        return;
      }
      var c := current.At(lane).value;
      if end.bytes >= UINT64 || (c.album && end.bytes > MAX_SAFE_INTEGER) || c.wire > end.bytes {
        FailTransferProtocol();
      } else if c.wire < end.bytes {
        pendingEnds := pendingEnds.With(lane, Some(end));
        current := current.With(lane, Some(c.(announced := Some(end.bytes))));
      } else {
        CompleteOperation(lane, end);
      }
    }

    method HandleEnd(lane: Lane, end: End)
      requires Valid() && !closed
      modifies this
      ensures Valid() && past == old(past) + [Tail(lane, end)]
      ensures Agrees(Snapshot(), Step(old(Snapshot()), Tail(lane, end)))
    {
      TakeEnd(lane, end);
      Remember(Tail(lane, end));
    }

    /** Whether a header answers the pending request; if so its operation replaces the current one. */
    method AcceptHeader(lane: Lane, h: Header) returns (accepted: bool)
      modifies this`retiredOperations, this`gone, this`pendingRequests, this`pendingEnds
      ensures accepted <==> Accepts(old(SideOf(lane)), h)
      ensures SideOf(lane) ==
        if accepted then Replaced(old(SideOf(lane)), h.op).(pending := None, end := None) else old(SideOf(lane))
      ensures SideOf(Other(lane)) == old(SideOf(Other(lane)))
    {
      var pending := pendingRequests.At(lane);
      if h.op == 0 || pending.None? || pending.value.request != h.request {
        return false;
      }
      if pending.value.asset.Some? && h.asset != pending.value.asset.value {
        return false;
      }
      if pending.value.generation.Some? && h.generation != pending.value.generation {
        return false;
      }
      var c := current.At(lane);
      if c.Some? && c.value.id != 0 && c.value.id != h.op {
        RetireOperation(lane, c.value.id);
      }
      pendingRequests := pendingRequests.With(lane, None);
      pendingEnds := pendingEnds.With(lane, None);
      accepted := true;
    }

    /** The consumer of an accepted header. */
    method StartOperation(lane: Lane, h: Header)
      requires pendingRequests.At(lane).None? && pendingEnds.At(lane).None?
      modifies this`current, this`gone
      ensures SideOf(lane) == Begin(old(SideOf(lane)), lane, h) && SideOf(Other(lane)) == old(SideOf(Other(lane)))
    {
      var c := current.At(lane);
      if h.op != 0 && c.Some? && c.value.id == h.op {
        gone := gone.With(lane, gone.At(lane) + {h.op});
      }
      if lane.Bulk? {
        current := current.With(lane, Some(NewOperation(h, 0, File)));
      } else if c.Some? && c.value.kind.Video? {
        if h.video {
          current := current.With(lane, Some(NewOperation(h, c.value.generation, Video)));
        }
      } else if !h.video {
        var generation := if h.generation.Some? then h.generation.value else 0;
        current := current.With(lane, Some(NewOperation(h, generation, Still)));
      }
    }

    method ForgetAbandoned(h: Header)
      modifies this`earlyFrames, this`earlyFrameBytes, this`earlyFrameCount, this`retiredOperations, this`gone,
               this`abandonedMediaRequests
      ensures var s := old(Snapshot());
        Snapshot() == DiscardEarly(s.(abandoned := Without(s.abandoned, h.request)).With(Media, GiveUp(s.media, h.op)), Media, h.op)
    {
      abandonedMediaRequests := Without(abandonedMediaRequests, h.request);
      RetireOperation(Media, h.op);
      DiscardEarlyOperation(Media, h.op);
    }

    method TakeHeader(lane: Lane, h: Header)
      requires !closed
      modifies this`earlyFrames, this`earlyFrameBytes, this`earlyFrameCount, this`closed, this`retiredOperations,
               this`gone, this`current, this`delivered, this`pendingEnds, this`pendingRequests, this`abandonedMediaRequests
      ensures Agrees(Snapshot(), HearHeader(old(Snapshot()), lane, h))
    {
      if lane.Media? && h.request in abandonedMediaRequests {
        ForgetAbandoned(h);
        return;
      }
      var accepted := AcceptHeader(lane, h);
      if accepted {
        StartOperation(lane, h);
        BeginForgets(old(SideOf(lane)), lane, h);
        DrainEarlyFrames(lane, h.op);
      }
    }

    lemma BeginForgets(d: Side, lane: Lane, h: Header)
      ensures Begin(Replaced(d, h.op).(pending := None, end := None), lane, h) == Begin(Replaced(d, h.op), lane, h)
    {
    }

    method HandleHeader(lane: Lane, h: Header)
      requires Valid() && !closed
      modifies this
      ensures Valid() && past == old(past) + [Head(lane, h)]
      ensures Agrees(Snapshot(), Step(old(Snapshot()), Head(lane, h)))
    {
      TakeHeader(lane, h);
      Remember(Head(lane, h));
    }

    /** The current operation is over without being complete. */
    method FailOperation(lane: Lane)
      requires Valid() && !closed
      modifies this
      ensures Valid() && past == old(past) + [Over(lane)]
      ensures Agrees(Snapshot(), Step(old(Snapshot()), Over(lane)))
    {
      StopOperation(lane);
      Remember(Over(lane));
    }

    method StopOperation(lane: Lane)
      modifies this`earlyFrames, this`earlyFrameBytes, this`earlyFrameCount, this`retiredOperations, this`gone,
               this`current, this`pendingEnds, this`pendingRequests, this`abandonedMediaRequests
      ensures Snapshot() == Stop(old(Snapshot()), lane)
    {
      if current.At(lane).Some? {
        var op := current.At(lane).value.id;
        HaltOperation(lane, current.At(lane).value);
        DiscardEarlyOperation(lane, op);
      }
    }

    method HaltOperation(lane: Lane, c: Operation)
      modifies this`retiredOperations, this`gone, this`current, this`pendingEnds, this`pendingRequests,
               this`abandonedMediaRequests
      ensures Snapshot() == Halt(old(Snapshot()), lane, c)
    {
      if lane.Media? && c.kind.Video? {
        AbandonRequest();
      }
      HaltConsumer(lane, c);
    }

    method HaltConsumer(lane: Lane, c: Operation)
      modifies this`retiredOperations, this`gone, this`current, this`pendingEnds
      ensures SideOf(Other(lane)) == old(SideOf(Other(lane)))
      ensures var d := old(SideOf(lane));
        SideOf(lane) == GiveUp(d, c.id).(current := None,
                                         end := if d.end.Some? && d.end.value.op == c.id then None else d.end)
    {
      if pendingEnds.At(lane).Some? && pendingEnds.At(lane).value.op == c.id {
        pendingEnds := pendingEnds.With(lane, None);
      }
      RetireOperation(lane, c.id);
      current := current.With(lane, None);
    }

    method AbandonRequest()
      modifies this`pendingRequests, this`abandonedMediaRequests
      ensures pendingRequests == old(pendingRequests).(media := None)
      ensures abandonedMediaRequests ==
        if old(pendingRequests.media.Some?) then Retire(old(abandonedMediaRequests), old(pendingRequests.media.value.request))
        else old(abandonedMediaRequests)
    {
      if pendingRequests.media.Some? {
        abandonedMediaRequests := Retire(abandonedMediaRequests, pendingRequests.media.value.request);
        pendingRequests := pendingRequests.With(Media, None);
      }
    }

    method RequestOperation(lane: Lane, request: nat, asset: Option<nat>)
      requires Valid() && !closed
      modifies this
      ensures Valid() && past == old(past) + [Request(lane, request, asset)]
      ensures Agrees(Snapshot(), Step(old(Snapshot()), Request(lane, request, asset)))
    {
      pendingRequests := pendingRequests.With(lane, Some(Pending(request, asset, None)));
      Remember(Request(lane, request, asset));
    }

    method OpenVideoSession(request: nat, asset: nat, generation: nat)
      requires Valid() && !closed
      modifies this
      ensures Valid() && past == old(past) + [Open(request, asset, generation)]
      ensures Agrees(Snapshot(), Step(old(Snapshot()), Open(request, asset, generation)))
    {
      if current.media.None? {
        current := current.With(Media, Some(Operation(0, 0, asset, generation, Video, false, [], 0, None, None)));
        pendingRequests := pendingRequests.With(Media, Some(Pending(request, Some(asset), Some(generation))));
      }
      Remember(Open(request, asset, generation));
    }

    /** The user seeks: the session moves to a newer generation. */
    method SeekVideo(generation: nat)
      requires Valid() && !closed
      modifies this
      ensures Valid() && past == old(past) + [Seek(generation)]
      ensures Agrees(Snapshot(), Step(old(Snapshot()), Seek(generation)))
    {
      var c := current.media;
      if c.Some? && c.value.kind.Video? && generation > c.value.generation {
        current := current.With(Media, Some(c.value.(generation := generation)));
        gone := gone.With(Media, gone.media + {c.value.id});
      }
      Remember(Seek(generation));
    }

    /** The request for the session's present generation, unless one is on its way. */
    method SendVideoSeek(request: nat) returns (sent: bool)
      requires Valid() && !closed
      modifies this
      ensures Valid() && past == old(past) + [SeekRequest(request)]
      ensures Agrees(Snapshot(), Step(old(Snapshot()), SeekRequest(request)))
    {
      var c := current.media;
      sent := c.Some? && c.value.kind.Video? && c.value.id != 0 && pendingRequests.media.None?;
      if sent {
        pendingRequests := pendingRequests.With(Media, Some(Pending(request, Some(c.value.asset), Some(c.value.generation))));
      }
      Remember(SeekRequest(request));
    }

    /** Early frames have waited too long for their header. */
    method ExpireEarlyFrames()
      requires Valid() && !closed
      modifies this
      ensures Valid() && closed && past == old(past) + [Expire]
    {
      FailTransferProtocol();
      Remember(Expire);
    }

    /** What every caller may rely on, whatever it has called before. */
    lemma Promises()
      requires Valid() && !closed
      ensures SideOk(SideOf(Media)) && SideOk(SideOf(Bulk)) && Balanced(Snapshot(), 0, 0)
    {
      RR.EveryRun(past);
    }
  }
}
