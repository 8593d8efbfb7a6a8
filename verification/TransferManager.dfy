/**
 The agent's transfer manager. Every method is one critical section of the original, or one step of
 a handler or streaming goroutine between two of them, and is proved against the value-level steps
 of MediaTrace and AlbumAgent; a goroutine's local variables are its job record.
 */
module TransferManager {
  import opened Basics
  import M = MediaTrace
  import A = AlbumAgent
  import Runs
  import F = Frames

  /** A requested quality after normalisation; none given means a still preview. */
  datatype Quality = PreviewQuality | VideoQuality | OtherQuality

  datatype Refusal = AssetRequired | UnsupportedQuality | Unavailable | GenerationOutOfRange

  /** What a read returns: data, and possibly the end of the stream with it. */
  datatype Read = Read(data: Bytes, after: M.ReadEnd)

  class Manager {
    var operationSequence: nat       // one sequence for media and bulk operations
    // media
    var mediaOperation: nat
    var mediaID: nat
    var mediaIsVideo: bool
    var currentGeneration: nat
    var mediaCancel: Option<nat>
    var mediaTransfer: bool
    var cancelledContexts: set<nat>
    var mediaJobs: map<nat, M.Job>
    ghost var mediaTrace: seq<M.Sent>
    // bulk
    var bulkTransfer: bool
    var bulkOperation: nat
    const maxDownloads: nat
    var downloads: nat
    var albumBatch: Option<A.Batch>
    var request: Option<A.Wanted>
    var bulkJob: Option<A.Job>
    var controlSent: seq<A.Message>
    ghost var bulkLog: seq<A.Entry>
    // the steps so far
    ghost const counted: nat
    ghost var mediaPast: seq<M.Event>
    ghost var bulkPast: seq<A.Event>

    ghost function Media(): M.State
      reads this
    {
      M.State(operationSequence, mediaOperation, mediaID, mediaIsVideo, currentGeneration, mediaCancel,
              mediaTransfer, cancelledContexts, mediaJobs, mediaTrace)
    }

    ghost function Bulk(): A.State
      reads this
    {
      A.State(operationSequence, bulkTransfer, bulkOperation, maxDownloads, downloads, albumBatch, request,
              bulkJob, bulkLog, controlSent)
    }

    /** The manager is where the runs of its past steps end, so what is proved about all runs holds of it. */
    ghost predicate Valid()
      reads this
    {
      && Media() == Runs.Run(M.Step, M.IDLE, mediaPast)
      && Bulk() == Runs.Run(A.Step, A.Start(maxDownloads, counted), bulkPast)
    }

    constructor (maxDownloads: nat, downloads: nat)
      ensures Valid() && this.maxDownloads == maxDownloads && this.downloads == downloads == counted
      ensures mediaPast == [] && bulkPast == []
    {
      operationSequence := 0;
      mediaOperation, mediaID, mediaIsVideo, currentGeneration := 0, 0, false, 0;
      mediaCancel, mediaTransfer, cancelledContexts, mediaJobs, mediaTrace := None, false, {}, map[], [];
      bulkTransfer, bulkOperation, albumBatch, request, bulkJob := false, 0, None, None, None;
      this.maxDownloads, this.downloads, counted := maxDownloads, downloads, downloads;
      controlSent, bulkLog, mediaPast, bulkPast := [], [], [], [];
    }

    // ----- media: critical sections

    method CancelMedia()
      modifies this`cancelledContexts
      ensures cancelledContexts == old(cancelledContexts) + (if mediaCancel.Some? then {mediaCancel.value} else {})
    {
      if mediaCancel.Some? {
        cancelledContexts := cancelledContexts + {mediaCancel.value};
      }
    }

    method BeginMediaLocked(asset: nat, video: bool, generation: nat, job: M.Job) returns (operation: nat)
      modifies this`operationSequence, this`mediaOperation, this`mediaID, this`mediaIsVideo, this`currentGeneration,
               this`mediaCancel, this`mediaTransfer, this`cancelledContexts, this`mediaJobs
      ensures Media() == M.Begin(old(Media()), asset, video, generation, job)
      ensures operation == operationSequence == old(operationSequence) + 1
    {
      CancelMedia();
      operationSequence := operationSequence + 1;
      operation := operationSequence;
      mediaCancel := Some(operation);
      mediaOperation := operation;
      mediaID, mediaIsVideo := asset, video;
      currentGeneration := generation;
      mediaTransfer := true;
      mediaJobs := mediaJobs[operation := job];
    }

    method BeginMediaIfNewer(parent: nat, asset: nat, generation: nat, job: M.Job) returns (accepted: bool)
      modifies this`operationSequence, this`mediaOperation, this`mediaID, this`mediaIsVideo, this`currentGeneration,
               this`mediaCancel, this`mediaTransfer, this`cancelledContexts, this`mediaJobs
      ensures accepted <==> M.Newer(old(Media()), parent, asset, generation)
      ensures Media() == if accepted then M.Begin(old(Media()), asset, true, generation, job) else old(Media())
      ensures operationSequence == old(operationSequence) + (if accepted then 1 else 0)
    {
      if mediaOperation != parent || mediaID != asset || !mediaIsVideo || generation <= currentGeneration {
        return false;
      }
      var _ := BeginMediaLocked(asset, true, generation, job);
      accepted := true;
    }

    method FinishMedia(operation: nat)
      modifies this`cancelledContexts, this`mediaCancel, this`mediaTransfer
      ensures Media() == M.Finish(old(Media()), operation) && Bulk() == old(Bulk())
    {
      if mediaOperation == operation {
        CancelMedia();
        mediaCancel := None;
        mediaTransfer := false;
      }
    }

    /** A send under the media lock, with whether the lane takes it. */
    method SendIfCurrent(operation: nat, m: M.Sent, ok: bool) returns (sent: bool)
      requires m.op == operation
      modifies this`mediaTrace
      ensures Media() == M.Emit(old(Media()), m, ok) && sent == (mediaOperation == operation && ok)
    {
      if mediaOperation != operation {
        return false;
      }
      if ok {
        mediaTrace := mediaTrace + [m];
      }
      sent := ok;
    }

    method SendMediaErrorIfActive(operation: nat, request: nat, ok: bool)
      modifies this`mediaTrace
      ensures Media() == M.Complain(old(Media()), operation, request, ok)
    {
      if operation != 0 {
        var _ := SendIfCurrent(operation, M.Failure(operation, request), ok);
      }
    }

    // ----- media: handlers

    ghost method Remember(e: M.Event, sequenceTaken: bool)
      modifies this`mediaPast, this`bulkPast
      ensures mediaPast == old(mediaPast) + [e]
      ensures bulkPast == if sequenceTaken then old(bulkPast) + [A.TakeId] else old(bulkPast)
      ensures Runs.Run(M.Step, M.IDLE, mediaPast) == M.Step(Runs.Run(M.Step, M.IDLE, old(mediaPast)), e)
      ensures var start := A.Start(maxDownloads, counted);
        Runs.Run(A.Step, start, bulkPast) ==
          if sequenceTaken then A.Step(Runs.Run(A.Step, start, old(bulkPast)), A.TakeId)
          else Runs.Run(A.Step, start, old(bulkPast))
    {
      Runs.RunSnoc(M.Step, M.IDLE, mediaPast, e);
      mediaPast := mediaPast + [e];
      if sequenceTaken {
        Runs.RunSnoc(A.Step, A.Start(maxDownloads, counted), bulkPast, A.TakeId);
        bulkPast := bulkPast + [A.TakeId];
      }
    }

    /** A preview replaces whatever media operation there is, unless it is refused, with an error that
        names no operation, for the first of the reasons that apply. Asset 0 is the empty id. */
    method HandleAssetPreviewRequest(request: nat, asset: nat, quality: Quality, generation: int, gallery: bool)
      returns (refusal: Option<Refusal>)
      requires Valid()
      modifies this
      ensures Valid()
      ensures refusal == if asset == 0 then Some(AssetRequired)
                         else if quality.OtherQuality? then Some(UnsupportedQuality)
                         else if !gallery then Some(Unavailable)
                         else if !(0 <= generation < M.GENERATIONS) then Some(GenerationOutOfRange)
                         else None
      ensures refusal.None? ==>
        && Media() == M.Step(old(Media()), M.Preview(request, asset, quality.VideoQuality?, generation))
        && Bulk() == A.Step(old(Bulk()), A.TakeId)
      ensures refusal.Some? ==> Media() == old(Media()) && Bulk() == old(Bulk())
    {
      if asset == 0 { return Some(AssetRequired); }
      if quality.OtherQuality? { return Some(UnsupportedQuality); }
      if !gallery { return Some(Unavailable); }
      if generation < 0 || generation >= M.GENERATIONS { return Some(GenerationOutOfRange); }
      StartPreview(request, asset, quality.VideoQuality?, generation);
      refusal := None;
    }

    method StartPreview(request: nat, asset: nat, video: bool, generation: nat)
      requires Valid() && generation < M.GENERATIONS
      modifies this
      ensures Valid() && Media() == M.Step(old(Media()), M.Preview(request, asset, video, generation))
      ensures Bulk() == A.Step(old(Bulk()), A.TakeId)
    {
      var job := M.Job(request, asset, video, generation, if video then generation else 0, None, 0, M.Starting);
      var _ := BeginMediaLocked(asset, video, generation, job);
      assert Media() == M.Step(old(Media()), M.Preview(request, asset, video, generation));
      assert Bulk() == A.Step(old(Bulk()), A.TakeId);
      Remember(M.Preview(request, asset, video, generation), true);
    }

    /** A seek whose first byte has been fetched replaces its parent if it is newer. */
    method SeekFetched(parent: nat, request: nat, asset: nat, generation: nat) returns (accepted: bool)
      requires Valid() && parent != 0 && 0 < generation < M.GENERATIONS
      modifies this
      ensures Valid() && accepted == M.Newer(old(Media()), parent, asset, generation)
      ensures Media() == M.Step(old(Media()), M.SeekFetched(parent, request, asset, generation))
    {
      accepted := BeginMediaIfNewer(parent, asset, generation,
                                    M.Job(request, asset, true, generation, generation, Some(parent), 0, M.Starting));
      Remember(M.SeekFetched(parent, request, asset, generation), accepted);
    }

    /** A seek that is not sound, or whose fetch failed, is an error to its parent if that is current. */
    method SeekRefused(parent: nat, request: nat, ok: bool)
      requires Valid()
      modifies this
      ensures Valid() && Media() == M.Step(old(Media()), M.SeekRefused(parent, request, ok)) && Bulk() == old(Bulk())
    {
      SendMediaErrorIfActive(parent, request, ok);
      Remember(M.SeekRefused(parent, request, ok), false);
    }

    /** The checks of a seek before its data is fetched: true if the fetch is to begin. A seek that is not
        sound is an error to its parent; one for something that is not current is ignored. Between this
        and the fetched data (SeekFetched or SeekRefused) anything may happen. */
    method HandleAssetPreviewSeek(parent: nat, request: nat, asset: nat, quality: Quality, offset: int, generation: int,
                                  gallery: bool, ok: bool) returns (fetching: bool)
      requires Valid() && parent != 0
      modifies this
      ensures Valid() && Bulk() == old(Bulk())
      ensures var sound := asset != 0 && offset >= 0 && quality.VideoQuality? && 0 < generation < M.GENERATIONS && gallery;
        && (fetching <==> sound && mediaOperation == parent && mediaID == asset && mediaIsVideo)
        && Media() == if sound then old(Media()) else M.Complain(old(Media()), parent, request, ok)
    {
      if asset == 0 || offset < 0 || !quality.VideoQuality? || generation <= 0 || generation >= M.GENERATIONS || !gallery {
        SeekRefused(parent, request, ok);
        return false;
      }
      fetching := mediaOperation == parent && mediaID == asset && mediaIsVideo;
    }

    /** A step that only looks at the shared fields. */
    method LookTurn(op: nat, job: M.Job, ghost ok: bool, chunk: Bytes, after: M.ReadEnd) returns (next: M.Job)
      requires !Sends(job.phase) && !job.phase.Closing?
      ensures M.Act(op, job, M.Look(Media(), op, job), ok, chunk, after) == M.Action(next, None)
    {
      next := job.(phase := M.Closing);
      match job.phase {
        case CheckingContext =>
          if op !in cancelledContexts { next := job.(phase := M.CheckingGeneration); }
        case CheckingGeneration =>
          if currentGeneration == job.generation { next := job.(phase := M.Reading); }
        case Reading =>
          if |chunk| == 0 {
            next := job.(phase := M.AfterRead(after));
          } else if op !in cancelledContexts && mediaOperation == op {
            next := job.(total := job.total + |chunk|, phase := M.Sending(chunk, after));
          }
        case CheckingEnd =>
          if op !in cancelledContexts && mediaOperation == op && currentGeneration == job.generation {
            next := job.(phase := M.SendingEnd);
          }
        case _ => next := job;
      }
    }

    predicate Sends(phase: M.Phase) {
      phase.Starting? || phase.Sending? || phase.SendingEnd? || phase.SendingFailure?
    }

    /** A step that sends under the media lock. */
    method SendTurn(op: nat, job: M.Job, ok: bool, chunk: Bytes, after: M.ReadEnd) returns (next: M.Job)
      requires Sends(job.phase)
      modifies this`mediaTrace
      ensures var action := M.Act(op, job, M.Look(old(Media()), op, job), ok, chunk, after);
        next == action.job && mediaTrace == M.Appended(old(mediaTrace), action.sent)
    {
      next := job.(phase := M.Closing);
      match job.phase {
        case Starting =>
          var sent := SendIfCurrent(op, M.Header(op, job.request, job.generation), ok);
          if sent { next := job.(phase := M.CheckingContext); }
        case Sending(held, end) =>
          if op !in cancelledContexts {
            var sent := SendIfCurrent(op, M.Frame(op, job.generation, held), ok);
            if sent { next := job.(phase := M.AfterRead(end)); }
          }
        case SendingEnd =>
          var _ := SendIfCurrent(op, M.EndOf(op, job.request, job.generation, job.total), ok);
        case SendingFailure =>
          if op !in cancelledContexts {
            var _ := SendIfCurrent(op, M.Failure(op, job.request), ok);
          }
      }
    }

    method TakeTurn(op: nat, ok: bool, chunk: Bytes, after: M.ReadEnd)
      requires op in mediaJobs
      modifies this`mediaTrace, this`mediaJobs, this`cancelledContexts, this`mediaCancel, this`mediaTransfer
      ensures Media() == M.Advance(old(Media()), op, ok, chunk, after)
    {
      var job := mediaJobs[op];
      var next := job.(phase := M.Done);
      if Sends(job.phase) {
        next := SendTurn(op, job, ok, chunk, after);
      } else if job.phase.Closing? {
        FinishMedia(op);
        assert Media() == M.Finish(old(Media()), op);
      } else {
        next := LookTurn(op, job, ok, chunk, after);
      }
      mediaJobs := mediaJobs[op := next];
    }

    /** One step of a preview's handler or streaming goroutine. */
    method MediaTurn(op: nat, ok: bool, chunk: Bytes, after: M.ReadEnd)
      requires Valid() && op in mediaJobs
      modifies this
      ensures Valid() && Media() == M.Step(old(Media()), M.Turn(op, ok, chunk, after)) && Bulk() == old(Bulk())
    {
      TakeTurn(op, ok, chunk, after);
      Remember(M.Turn(op, ok, chunk, after), false);
    }

    // ----- bulk: critical sections

    method SendControl(m: A.Message)
      modifies this`controlSent
      ensures controlSent == old(controlSent) + [m]
    {
      controlSent := controlSent + [m];
    }

    /** The token and a new operation for a request that got past the limit check. */
    method AcquireBulk() returns (acquired: bool)
      requires request.Some?
      modifies this`operationSequence, this`bulkOperation, this`bulkTransfer, this`albumBatch, this`bulkJob,
               this`request, this`controlSent
      ensures Bulk() == A.AcquireBulk(old(Bulk())) && acquired == !old(bulkTransfer)
      ensures operationSequence == old(operationSequence) + (if acquired then 1 else 0)
    {
      var wanted := request.value;
      request := None;
      if bulkTransfer {
        SendControl(A.Failure(A.RequestOf(wanted), 0));
        return false;
      }
      operationSequence := operationSequence + 1;
      bulkOperation := operationSequence;
      bulkTransfer := true;
      match wanted {
        case Album(b) =>
          albumBatch := Some(A.Batch(b, None));
          bulkJob := Some(A.AlbumJob(bulkOperation, b, 0, 0, 0, 0, A.Fetching));
        case File(_) =>
          bulkJob := Some(A.FileJob(bulkOperation, A.Archiving));
      }
      acquired := true;
    }

    method ReleaseBulk(operation: nat)
      modifies this`bulkOperation, this`bulkTransfer
      ensures Bulk() == A.ReleaseBulk(old(Bulk()), operation)
    {
      if bulkOperation == operation {
        bulkOperation := 0;
        bulkTransfer := false;
      }
    }

    /** The next part's operation: the token changes hands without being free in between. */
    method AdvanceBulkOperation(current: nat) returns (next: nat, ok: bool)
      modifies this`operationSequence, this`bulkOperation
      ensures ok <==> bulkTransfer && old(bulkOperation) == current
      ensures ok ==> next == operationSequence == bulkOperation == old(operationSequence) + 1
      ensures !ok ==> operationSequence == old(operationSequence) && bulkOperation == old(bulkOperation)
    {
      if !bulkTransfer || bulkOperation != current {
        return 0, false;
      }
      operationSequence := operationSequence + 1;
      bulkOperation := operationSequence;
      next, ok := operationSequence, true;
    }

    method SendBulkErrorIfActive(operation: nat, batch: nat)
      modifies this`controlSent
      ensures Bulk() == A.Complain(old(Bulk()), batch, operation)
    {
      if bulkOperation == operation && bulkTransfer && operation != 0 {
        SendControl(A.Failure(batch, operation));
      }
    }

    ghost method RememberBulk(e: A.Event, sequenceTaken: bool)
      modifies this`mediaPast, this`bulkPast
      ensures bulkPast == old(bulkPast) + [e]
      ensures mediaPast == if sequenceTaken then old(mediaPast) + [M.TakeId] else old(mediaPast)
      ensures var start := A.Start(maxDownloads, counted);
        Runs.Run(A.Step, start, bulkPast) == A.Step(Runs.Run(A.Step, start, old(bulkPast)), e)
      ensures Runs.Run(M.Step, M.IDLE, mediaPast) ==
        if sequenceTaken then M.Step(Runs.Run(M.Step, M.IDLE, old(mediaPast)), M.TakeId)
        else Runs.Run(M.Step, M.IDLE, old(mediaPast))
    {
      Runs.RunSnoc(A.Step, A.Start(maxDownloads, counted), bulkPast, e);
      bulkPast := bulkPast + [e];
      if sequenceTaken {
        Runs.RunSnoc(M.Step, M.IDLE, mediaPast, M.TakeId);
        mediaPast := mediaPast + [M.TakeId];
      }
    }

    // ----- bulk: handlers

    /** The start of every download request: the limit is checked, and the token not yet taken. */
    method HandleDownloadRequest(wanted: A.Wanted)
      requires Valid() && request.None?
      modifies this
      ensures Valid() && Bulk() == A.Step(old(Bulk()), A.Request(wanted)) && Media() == old(Media())
    {
      if maxDownloads > 0 && downloads >= maxDownloads {
        SendControl(A.Failure(A.RequestOf(wanted), 0));
      } else {
        request := Some(wanted);
      }
      RememberBulk(A.Request(wanted), false);
    }

    method StartDownload() returns (started: bool)
      requires Valid() && request.Some?
      modifies this
      ensures Valid() && started == !old(bulkTransfer)
      ensures Bulk() == A.Step(old(Bulk()), A.Acquire)
    {
      started := AcquireBulk();
      assert Media() == if started then M.Step(old(Media()), M.TakeId) else old(Media());
      assert Bulk() == A.Step(old(Bulk()), A.Acquire);
      RememberBulk(A.Acquire, started);
    }

    method HandleAlbumArchiveAck(batch: nat, part: nat, operation: nat, ok: bool)
      requires Valid()
      modifies this
      ensures Valid() && Bulk() == A.Step(old(Bulk()), A.Receive(batch, A.Ack(part, operation, ok))) && Media() == old(Media())
    {
      if operation != 0 && albumBatch.Some? && albumBatch.value.request == batch && albumBatch.value.ack.None? {
        albumBatch := Some(A.Batch(batch, Some(A.Ack(part, operation, ok))));
      }
      RememberBulk(A.Receive(batch, A.Ack(part, operation, ok)), false);
    }

    /** The goroutine of an album download, up to the end of a part's data. */
    method PartTurn(job: A.Job, ok: bool, n: nat)
      requires job.AlbumJob? && bulkJob == Some(job) && Sending(job.stage)
      modifies this`operationSequence, this`bulkOperation, this`bulkJob, this`controlSent, this`bulkLog
      ensures Bulk() == A.AlbumTurn(old(Bulk()), job, ok, n)
    {
      var b, op := job.batch, job.op;
      bulkJob := Some(job.(stage := A.Clearing));
      match job.stage {
        case Fetching =>
          if !ok || n == 0 {
            SendBulkErrorIfActive(op, b);
          } else {
            bulkJob := Some(job.(count := n, part := 1, stage := A.Heading));
          }
        case Advancing =>
          var next, advanced := AdvanceBulkOperation(op);
          if advanced {
            bulkJob := Some(job.(op := next, part := job.part + 1, bytes := 0, stage := A.Heading));
          }
        case Heading =>
          if ok {
            SendControl(A.Header(b, job.part, job.count, op));
            bulkLog := bulkLog + [A.Announced(b, job.part, job.count, op)];
            bulkJob := Some(job.(stage := A.Archiving));
          }
        case Archiving =>
          if !ok {
            SendBulkErrorIfActive(op, b);
          } else if n > 0 {
            bulkJob := Some(job.(bytes := job.bytes + n));
          } else {
            bulkJob := Some(job.(total := job.total + job.bytes, stage := A.Ending));
          }
        case Ending =>
          if ok {
            SendControl(A.EndOf(b, op, job.bytes));
            bulkLog := bulkLog + [A.Ended(b, op, job.bytes)];
            bulkJob := Some(job.(stage := A.Waiting));
          }
      }
    }

    predicate Sending(stage: A.Stage) {
      stage.Fetching? || stage.Advancing? || stage.Heading? || stage.Archiving? || stage.Ending?
    }

    /** The same goroutine from the wait for the acknowledgement on. */
    method AckTurn(job: A.Job, ok: bool, n: nat)
      requires job.AlbumJob? && bulkJob == Some(job) && !Sending(job.stage)
      modifies this`bulkTransfer, this`bulkOperation, this`bulkJob, this`controlSent, this`bulkLog, this`albumBatch,
               this`downloads
      ensures Bulk() == A.AlbumTurn(old(Bulk()), job, ok, n)
    {
      var b, op := job.batch, job.op;
      match job.stage {
        case Waiting =>
          if !ok {
            SendBulkErrorIfActive(op, b);
            bulkJob := Some(job.(stage := A.Clearing));
          } else if albumBatch.Some? && albumBatch.value.ack.Some? {
            var ack := albumBatch.value.ack.value;
            albumBatch := Some(albumBatch.value.(ack := None));
            if !ack.ok || ack.part != job.part || ack.op != op {
              bulkJob := Some(job.(stage := A.Clearing));
            } else {
              bulkLog := bulkLog + [A.Acknowledged(b, job.part, op)];
              bulkJob := Some(job.(stage := if job.part == job.count then A.Counting else A.Advancing));
            }
          }
        case Counting =>
          downloads := downloads + 1;
          bulkLog := bulkLog + [A.Counted(b, job.count, job.total)];
          bulkJob := Some(job.(stage := A.Telling));
        case Telling =>
          if ok {
            SendControl(A.Complete(b, job.count, job.total));
            bulkLog := bulkLog + [A.Told(b, job.count, job.total)];
          }
          bulkJob := Some(job.(stage := A.Clearing));
        case Clearing =>
          if albumBatch.Some? && albumBatch.value.request == b {
            albumBatch := None;
          }
          bulkJob := Some(job.(stage := A.Releasing));
        case Releasing =>
          bulkJob := None;
          ReleaseBulk(op);
      }
    }

    method TakeBulkTurn(job: A.Job, ok: bool, n: nat)
      requires bulkJob == Some(job)
      modifies this`operationSequence, this`bulkTransfer, this`bulkOperation, this`bulkJob, this`controlSent,
               this`bulkLog, this`albumBatch, this`downloads
      ensures Bulk() == A.Step(old(Bulk()), A.Turn(ok, n))
    {
      if job.FileJob? {
        FileTurn(job, ok, n);
      } else if Sending(job.stage) {
        PartTurn(job, ok, n);
      } else {
        AckTurn(job, ok, n);
      }
    }

    /** A step of the goroutine that holds the token. */
    method BulkTurn(ok: bool, n: nat)
      requires Valid() && bulkJob.Some?
      modifies this
      ensures Valid() && Bulk() == A.Step(old(Bulk()), A.Turn(ok, n))
    {
      var before := operationSequence;
      TakeBulkTurn(bulkJob.value, ok, n);
      SequenceTaken(old(Bulk()), ok, n);
      assert Media() == if operationSequence != before then M.Step(old(Media()), M.TakeId) else old(Media());
      RememberBulk(A.Turn(ok, n), operationSequence != before);
    }

    /** A turn takes one operation id or none. */
    lemma SequenceTaken(s: A.State, ok: bool, n: nat)
      ensures var t := A.Step(s, A.Turn(ok, n)); t.sequence == s.sequence || t.sequence == s.sequence + 1
    {
    }

    method FileTurn(job: A.Job, ok: bool, n: nat)
      requires job.FileJob? && bulkJob == Some(job)
      modifies this`bulkTransfer, this`bulkOperation, this`bulkJob, this`bulkLog, this`downloads
      ensures Bulk() == A.FileTurn(old(Bulk()), job, ok, n)
    {
      match job.stage {
        case Archiving =>
          bulkJob := Some(A.FileJob(job.op, if !ok then A.Releasing else if n == 0 then A.Counting else A.Archiving));
        case Counting =>
          downloads := downloads + 1;
          bulkLog := bulkLog + [A.FileCounted];
          bulkJob := Some(A.FileJob(job.op, A.Releasing));
        case _ =>
          bulkJob := None;
          ReleaseBulk(job.op);
      }
    }

    /** What every caller may rely on, whatever it has called before. */
    lemma MediaPromises(op: nat)
      requires Valid()
      ensures M.Ordered(mediaTrace) && M.Lifecycle(M.Own(mediaTrace, op))
    {
      M.TraceSafety(mediaPast, op);
    }

    lemma BulkPromises(batch: nat)
      requires Valid() && A.Fair(maxDownloads, counted, bulkPast)
      ensures bulkTransfer <==> bulkJob.Some?
      ensures bulkJob.Some? ==> bulkOperation == bulkJob.value.op != 0
      ensures downloads == counted + A.Completed(bulkLog)
      ensures A.StopAndWait(A.Own(bulkLog, batch), A.CountOf(A.Own(bulkLog, batch)))
    {
      A.CountsAndToken(maxDownloads, counted, bulkPast);
      A.NextPartAfterAck(maxDownloads, counted, bulkPast, batch);
    }
  }

  // ----- the streaming loop of a part

  /** The data read before the end of the stream. */
  function DataOf(results: seq<Read>): Bytes {
    if results == [] then [] else results[0].data + (if results[0].after.More? then DataOf(results[1..]) else [])
  }

  /** Whether the stream ends, and ends well. */
  predicate EndsWell(results: seq<Read>) {
    results != [] && (results[0].after.Eof? || (results[0].after.More? && EndsWell(results[1..])))
  }

  /** Reads and sends until the end of the stream; a send can fail, which ends it too. `sent` are the
      payloads handed to the bulk lane, each in a frame of its own. */
  method StreamAlbumArchive(results: seq<Read>, sends: seq<bool>, op: nat)
    returns (total: nat, ok: bool, ghost payloads: seq<Bytes>, sent: seq<Bytes>)
    requires |sends| >= |results|
    ensures |sent| == |payloads| && forall i :: 0 <= i < |sent| ==> sent[i] == F.EncodeChunkFrame(op, 0, payloads[i]) && payloads[i] != []
    ensures ok ==> EndsWell(results) && Concat(payloads) == DataOf(results) && total == |DataOf(results)|
    ensures EndsWell(results) && (forall i :: 0 <= i < |results| ==> sends[i]) ==> ok
    ensures Concat(payloads) <= DataOf(results)
  {
    total, ok, payloads, sent := 0, false, [], [];
    var i := 0;
    assert results[0..] == results;
    while i < |results|
      invariant 0 <= i <= |results| && total == |Concat(payloads)|
      invariant |sent| == |payloads|
      invariant forall j :: 0 <= j < |sent| ==> sent[j] == F.EncodeChunkFrame(op, 0, payloads[j]) && payloads[j] != []
      invariant DataOf(results) == Concat(payloads) + DataOf(results[i..])
      invariant EndsWell(results) == EndsWell(results[i..])
      invariant !ok
    {
      var read := results[i];
      assert results[i..][1..] == results[i + 1..];
      ghost var before := payloads;
      if |read.data| > 0 {
        total := total + |read.data|;
        if !sends[i] {
          return;
        }
        sent := sent + [F.EncodeChunkFrame(op, 0, read.data)];
        payloads := payloads + [read.data];
        ConcatSnoc(before, read.data);
      }
      assert Concat(payloads) == Concat(before) + read.data;
      if !read.after.More? {
        ok := read.after.Eof?;
        return;
      }
      i := i + 1;
    }
  }
}
