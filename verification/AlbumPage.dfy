/**
 The browser page's album state, changed in place by its handlers and proved against AlbumBrowser.
 */
module AlbumPage {
  import opened Basics
  import opened Retired
  import opened AlbumBrowser
  import A = AlbumAgent
  import Runs

  class AlbumDownloads {
    var requestSequence: nat
    var pendingBulkRequestId: Option<nat>
    var albumDownloadBatch: Option<View>
    var currentBulkOperation: Option<Part>
    var retiredOperations: seq<nat>
    var sent: seq<Outgoing>
    ghost var saved: seq<Saved>
    ghost var past: seq<Event>

    ghost function Snapshot(): State
      reads this
    {
      State(requestSequence, pendingBulkRequestId, albumDownloadBatch, currentBulkOperation, retiredOperations, saved, sent)
    }

    ghost predicate Valid()
      reads this
    {
      Snapshot() == Runs.Run(Step, IDLE, past)
    }

    constructor ()
      ensures Valid() && past == []
    {
      requestSequence, pendingBulkRequestId, albumDownloadBatch := 0, None, None;
      currentBulkOperation, retiredOperations, sent, saved, past := None, [], [], [], [];
    }

    ghost method Remember(e: Event)
      modifies this`past
      ensures past == old(past) + [e]
      ensures Runs.Run(Step, IDLE, past) == Step(Runs.Run(Step, IDLE, old(past)), e)
    {
      Runs.RunSnoc(Step, IDLE, past, e);
      past := past + [e];
    }

    predicate IsAlbumDownloadActive()
      reads this
    {
      albumDownloadBatch.Some? && albumDownloadBatch.value.status.Active?
    }

    method FailAlbumDownload()
      modifies this`albumDownloadBatch
      ensures Snapshot() == FailAlbum(old(Snapshot()))
    {
      if IsAlbumDownloadActive() {
        albumDownloadBatch := Some(albumDownloadBatch.value.(status := Failed));
      }
    }

    method RequestAlbumDownload()
      requires Valid()
      modifies this
      ensures Valid() && Snapshot() == Ask(old(Snapshot()))
    {
      if !(currentBulkOperation.Some? || pendingBulkRequestId.Some? || IsAlbumDownloadActive()) {
        requestSequence := requestSequence + 1;
        pendingBulkRequestId := Some(requestSequence);
        albumDownloadBatch := Some(View(requestSequence, 0, 0, Active, 0));
        sent := sent + [AlbumRequest(requestSequence)];
      }
      Remember(RequestAlbum);
    }

    /** Only the next part of the active album is accepted, and only when nothing else is under way. */
    method AcceptAlbumHeader(batch: nat, part: nat, count: nat, op: nat) returns (accepted: bool)
      modifies this`pendingBulkRequestId, this`albumDownloadBatch
      ensures accepted <==> Acceptable(old(Snapshot()), batch, part, count, op)
      ensures Snapshot() ==
        if accepted then
          old(Snapshot()).(pending := None, album := Some(old(albumDownloadBatch.value).(count := count, acknowledged := 0)))
        else old(Snapshot())
    {
      if op == 0 || !IsAlbumDownloadActive() || op in retiredOperations { return false; }
      var v := albumDownloadBatch.value;
      if batch != v.batch { return false; }
      if part < 1 || count < 1 || part > count { return false; }
      if part != v.part + 1 { return false; }
      if v.count != 0 && count != v.count { return false; }
      if currentBulkOperation.Some? { return false; }
      if part == 1 && pendingBulkRequestId != Some(batch) { return false; }
      if part > 1 && pendingBulkRequestId.Some? { return false; }
      pendingBulkRequestId := None;
      albumDownloadBatch := Some(v.(count := count, acknowledged := 0));
      accepted := true;
    }

    method RetireOperation(op: nat)
      modifies this`retiredOperations
      ensures retiredOperations == Retire(old(retiredOperations), op)
    {
      if op == 0 || op in retiredOperations {
        return;
      }
      retiredOperations := retiredOperations + [op];
      if |retiredOperations| > KEPT {
        retiredOperations := retiredOperations[1..];
      }
    }

    /** The acknowledgement of a part, and what its failure means for the album. */
    method FinishAlbumPart(c: Part, ok: bool, canSend: bool)
      modifies this`sent, this`albumDownloadBatch
      ensures Snapshot() == Acknowledged(old(Snapshot()), c, ok, canSend)
    {
      if !IsAlbumDownloadActive() || albumDownloadBatch.value.batch != c.batch {
        return;
      }
      if canSend {
        sent := sent + [Acknowledge(c.batch, c.part, c.op, ok)];
      }
      if !ok || !canSend {
        FailAlbumDownload();
        return;
      }
      albumDownloadBatch := Some(albumDownloadBatch.value.(part := c.part, count := c.count, acknowledged := c.op));
    }

    /** The terminal state of the part under way. */
    method TerminalState(ok: bool, canSend: bool)
      requires currentBulkOperation.Some? && (ok ==> currentBulkOperation.value.ended)
      modifies this`retiredOperations, this`currentBulkOperation, this`sent, this`albumDownloadBatch, this`saved
      ensures Snapshot() == FinishPart(old(Snapshot()), ok, canSend)
    {
      var c := currentBulkOperation.value;
      RetireOperation(c.op);
      FinishAlbumPart(c, ok, canSend);
      currentBulkOperation := None;
      if ok {
        saved := saved + [Saved(c.batch, c.part, c.count, c.op)];
      }
    }

    method CompleteAlbumDownload(batch: nat, count: nat)
      modifies this`albumDownloadBatch
      ensures Snapshot() == HearComplete(old(Snapshot()), batch, count)
    {
      if !IsAlbumDownloadActive() || albumDownloadBatch.value.batch != batch {
        return;
      }
      var v := albumDownloadBatch.value;
      if count != v.count || v.part != v.count {
        return;
      }
      albumDownloadBatch := Some(v.(status := Finished));
    }

    method HandleBulkError(batch: nat, op: nat, canSend: bool, ready: bool)
      modifies this`retiredOperations, this`currentBulkOperation, this`sent, this`albumDownloadBatch, this`saved,
               this`pendingBulkRequestId
      ensures Snapshot() == HearFailure(old(Snapshot()), batch, op, canSend, ready)
    {
      var concernsAlbum := IsAlbumDownloadActive() && albumDownloadBatch.value.batch == batch;
      var c := currentBulkOperation;
      if op == 0 {
        if batch != 0 && pendingBulkRequestId != Some(batch) && !concernsAlbum {
          return;
        }
        pendingBulkRequestId := None;
        if concernsAlbum {
          FailAlbumDownload();
        }
      } else if c.Some? && c.value.op == op && c.value.batch == batch {
        RetireOperation(op);
        if ready {
          TerminalState(false, canSend);
        } else {
          pendingBulkRequestId := None;
        }
      } else if concernsAlbum && c.None? && albumDownloadBatch.value.acknowledged == op {
        FailAlbumDownload();
      }
    }

    method HandleControlMessage(m: A.Message, canSend: bool, ready: bool)
      requires Valid()
      modifies this
      ensures Valid() && Snapshot() == Step(old(Snapshot()), Hear(m, canSend, ready))
    {
      match m {
        case Header(batch, part, count, op) =>
          var accepted := AcceptAlbumHeader(batch, part, count, op);
          if accepted {
            currentBulkOperation := Some(Part(batch, part, count, op, false));
          }
        case EndOf(batch, op, _) =>
          var c := currentBulkOperation;
          if c.Some? && c.value.op == op && c.value.batch == batch {
            currentBulkOperation := Some(c.value.(ended := true));
          }
        case Complete(batch, count, _) =>
          CompleteAlbumDownload(batch, count);
        case Failure(batch, op) =>
          HandleBulkError(batch, op, canSend, ready);
      }
      Remember(Hear(m, canSend, ready));
    }

    /** The download's pipeline is done with the part. */
    method PartDone(ok: bool, canSend: bool)
      requires Valid() && currentBulkOperation.Some? && (ok ==> currentBulkOperation.value.ended)
      modifies this
      ensures Valid() && Snapshot() == Step(old(Snapshot()), Finalize(ok, canSend))
    {
      TerminalState(ok, canSend);
      Remember(Finalize(ok, canSend));
    }

    /** The acknowledgement could not be delivered, or the connection closed. */
    method AbandonAlbum()
      requires Valid()
      modifies this
      ensures Valid() && Snapshot() == Step(old(Snapshot()), GiveUp)
    {
      FailAlbumDownload();
      Remember(GiveUp);
    }

    /** What is saved of any album, whatever the agent sent: parts 1, 2, 3 and so on. */
    lemma Promises(batch: nat)
      requires Valid()
      ensures InOrder(Own(saved, batch))
      ensures albumDownloadBatch.Some? && albumDownloadBatch.value.status.Finished? ==>
        |Own(saved, albumDownloadBatch.value.batch)| == albumDownloadBatch.value.count
    {
      EveryRun(past);
    }
  }
}
