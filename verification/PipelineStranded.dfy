/**
  Which documents in progress are stranded: Pub/Sub no longer holds their message and no request works on it.
  The dead-letter topic has no way back to the worker, so nothing in a genuine run ever reaches them again.
 */
module PipelineStranded {
  import opened Wrappers
  import opened Uuids
  import opened Documents
  import OK = ObjectKey
  import opened Pipeline
  import opened PipelineFrames
  import opened PipelineInvariants
  import opened PipelinePhases
  import opened PipelineSteps
  import opened PipelineTheorems
  import opened PipelineProgress

  // ---------- stranded messages ----------

  /**
    The row is neither in the outbox nor listed nor held by Pub/Sub, and no request works on it; with `rejected`, except
    requests that have a verdict against the document and may still record it.
   */
  ghost predicate Stranded(s: State, row: nat, rejected: bool) {
    && row < |s.appended| && row !in s.outbox && row !in s.listed && row !in s.unacked
    && (forall r :: r in s.requests && s.requests[r].message == row ==> rejected && Doomed(s.requests[r].stage))
  }

  /** The row of the message that a document in progress waits for. */
  ghost predicate AwaitsRow(s: State, id: Uuid, row: nat) {
    id in s.docs && InProgress(s.docs[id].status) && row < |s.appended| && s.appended[row] == Awaited(s.docs[id])
  }

  lemma CalmKeepsStranded(s: State, t: State, row: nat, rejected: bool)
    requires Calm(s, t) && t.requests == s.requests && Stranded(s, row, rejected)
    ensures Stranded(t, row, rejected)
  {}

  /** Pub/Sub delivers no message it does not hold, so nothing brings the stranded one back. */
  lemma QueueKeepsStranded(env: Env, s: State, l: Label, t: State, row: nat, rejected: bool)
    requires QueueEffect(env, s, l, t) && Genuine(s, l) && Stranded(s, row, rejected)
    ensures Stranded(t, row, rejected)
  {}

  /** A request for another message moves on: this document is not its business. */
  lemma OtherTurnKeepsStranded(s: State, t: State, r: nat, row: nat, rejected: bool)
    requires Calm(s, t) && OnlyMoves(s, t, r) && Stranded(s, row, rejected)
    requires r in s.requests && s.requests[r].message != row
    ensures Stranded(t, row, rejected)
  {}

  /** Two requests for different rows are about different documents, or about different steps of one. */
  lemma OtherScanIsOver(env: Env, s: State, id: Uuid, row: nat, other: nat)
    requires AwaitsRow(s, id, row) && other != row && RowOk(env, s, row) && RowOk(env, s, other)
    requires s.appended[other].identity.documentId == id && s.docs[id].identity.documentId == id
    requires s.appended[other].ScanRequested?
    ensures s.docs[id].status == Finalizing
  {}

  lemma NoOtherFinalization(env: Env, s: State, id: Uuid, row: nat, other: nat)
    requires AwaitsRow(s, id, row) && other != row && RowOk(env, s, row) && RowOk(env, s, other) && DocOk(env, s, id)
    requires s.appended[other].FinalizationRequested?
    ensures s.appended[other].identity.documentId != id
  {}

  lemma LateScanWritesNothing(s: State, id: Uuid, work: Work, result: ScanResult)
    requires id in s.docs && (work.identity.documentId == id ==> s.docs[id].status == Finalizing)
    ensures var docs := ScanCommand(s, work, result).docs; id in docs && docs[id] == s.docs[id]
  {
    var other := work.identity.documentId;
    if other in s.docs && s.docs[other].identity == work.identity && s.docs[other].objectKey == work.objectKey {
      var (d, t) := ScanData(s.docs[other], result);
      var u := s.(docs := s.docs[other := d]);
      AppendIsCalm(u, t.event, AppendEvent(u, t.event));
    }
  }

  lemma OtherTurnKeepsDocument(env: Env, s: State, q: Request, l: Label, id: Uuid, row: nat)
    requires DocOk(env, s, id) && AwaitsRow(s, id, row) && RowOk(env, s, row)
    requires RequestOk(env, s, q) && q.message != row && RowOk(env, s, q.message)
    ensures var docs := WrittenDocs(s, q.stage, l); id in docs && docs[id] == s.docs[id]
  {
    if q.stage.ScanDecided? {
      if q.stage.work.identity.documentId == id {
        OtherScanIsOver(env, s, id, row, q.message);
      }
      LateScanWritesNothing(s, id, q.stage.work, q.stage.result);
    } else if q.stage.FinalizeVerified? {
      NoOtherFinalization(env, s, id, row, q.message);
    }
  }

  /** A request with a verdict against the document records it, or ends without doing so. */
  lemma DoomedTurn(env: Env, s: State, r: nat, q: Request, l: Label, id: Uuid)
    requires At(s, r, q) && RequestOf(l) == Some(r) && Doomed(q.stage) && id in s.docs
    requires s.docs[id].identity.documentId == id
    requires q.stage.work == WorkOf(s.docs[id]) && s.docs[id].status == PendingUpload && !s.docs[id].archived
    ensures var t := Turn(env, s, r, l);
      || (id in t.docs && Rejected(t.docs[id]))
      || (t.docs == s.docs && (t == s || r !in t.requests))
  {
    if !l.ApplyScan? {
      Idle(env, s, r, l);
    } else {
      DoomedVerdict(s, r, q, q.stage.work, q.stage.result, l.commit, id);
    }
  }

  predicate Rejected(d: DocumentData) {
    d.status == ContainsVirus || d.status == FailedUpload
  }

  lemma DoomedVerdict(s: State, r: nat, q: Request, work: Work, result: ScanResult, commit: Commit, id: Uuid)
    requires id in s.docs && s.docs[id].identity.documentId == id && result != Clean
    requires work == WorkOf(s.docs[id]) && s.docs[id].status == PendingUpload && !s.docs[id].archived
    ensures var t := ApplyScanStep(s, r, q, work, result, commit);
      (id in t.docs && Rejected(t.docs[id])) || (t.docs == s.docs && r !in t.requests)
  {
    if commit.NotCommitted? {
      Gone(s, r);
    } else {
      var d := ScanData(s.docs[id], result).0;
      assert ScanCommand(s, work, result) == s.(docs := s.docs[id := d]);
    }
  }

  // ---------- one step, and every run ----------

  /** The document and its stranded message are as before, or the verdict against it is now recorded. */
  ghost predicate StaysStranded(s: State, t: State, id: Uuid, row: nat, rejected: bool) {
    && id in s.docs && id in t.docs
    && ((t.docs[id] == s.docs[id] && Stranded(t, row, rejected)) || (rejected && Rejected(t.docs[id])))
  }

  lemma OwnTurnStaysStranded(env: Env, s: State, r: nat, q: Request, l: Label, id: Uuid, row: nat, rejected: bool)
    requires DocOk(env, s, id) && AwaitsRow(s, id, row) && Stranded(s, row, rejected)
    requires At(s, r, q) && RequestOf(l) == Some(r) && q.message == row && RequestOk(env, s, q)
    ensures StaysStranded(s, Turn(env, s, r, l), id, row, rejected)
  {
    assert q.stage.work == WorkOf(s.docs[id]) && s.docs[id].status == PendingUpload;
    DoomedTurn(env, s, r, q, l, id);
    TurnIsCalm(env, s, r, q, l);
  }

  lemma TurnStaysStranded(env: Env, s: State, r: nat, q: Request, l: Label, id: Uuid, row: nat, rejected: bool)
    requires Inv(env, s) && AwaitsRow(s, id, row) && Stranded(s, row, rejected) && At(s, r, q)
    requires RequestOf(l) == Some(r)
    ensures StaysStranded(s, Turn(env, s, r, l), id, row, rejected)
  {
    assert RequestOk(env, s, q) && DocOk(env, s, id) && RowOk(env, s, row) && RowOk(env, s, q.message);
    if q.message == row {
      OwnTurnStaysStranded(env, s, r, q, l, id, row, rejected);
    } else {
      TurnIsCalm(env, s, r, q, l);
      OtherTurnKeepsStranded(s, Turn(env, s, r, l), r, row, rejected);
      OtherTurnKeepsDocument(env, s, q, l, id, row);
    }
  }

  lemma StepStaysStranded(env: Env, s: State, l: Label, id: Uuid, row: nat, rejected: bool)
    requires Inv(env, s) && AwaitsRow(s, id, row) && Stranded(s, row, rejected) && Genuine(s, l)
    ensures StaysStranded(s, Next(env, s, l), id, row, rejected)
  {
    if RequestOf(l).Some? {
      var r := RequestOf(l).value;
      TurnIsNext(env, s, r, l);
      if r in s.requests {
        TurnStaysStranded(env, s, r, s.requests[r], l, id, row, rejected);
      }
    } else {
      OutsideStaysStranded(env, s, l, id, row, rejected);
    }
  }

  lemma OutsideStaysStranded(env: Env, s: State, l: Label, id: Uuid, row: nat, rejected: bool)
    requires AwaitsRow(s, id, row) && Stranded(s, row, rejected) && Genuine(s, l) && RequestOf(l).None?
    ensures StaysStranded(s, Next(env, s, l), id, row, rejected)
  {
    if IsQueueLabel(l) {
      var t := NextQueue(env, s, l);
      QueueHasEffect(env, s, l);
      QueueKeepsStranded(env, s, l, t, row, rejected);
    } else {
      ApiIsCalm(s, l, id);
      CalmKeepsStranded(s, NextApi(s, l), row, rejected);
    }
  }

  lemma AwaitsOn(s: State, t: State, id: Uuid, row: nat)
    requires AwaitsRow(s, id, row) && id in t.docs && t.docs[id] == s.docs[id] && s.appended <= t.appended
    ensures AwaitsRow(t, id, row)
  {}

  lemma RejectedForever(env: Env, s: State, labels: seq<Label>, id: Uuid)
    requires TellsApart(env) && Inv(env, s) && id in s.docs && Rejected(s.docs[id])
    ensures var t := Run(env, s, labels); id in t.docs && Rejected(t.docs[id])
  {
    assert DocOk(env, s, id);
    RunKeeps(env, s, labels);
    DocumentFate(env, s, Run(env, s, labels), id);
  }

  lemma {:induction false} RunStaysStranded(env: Env, s: State, labels: seq<Label>, id: Uuid, row: nat, rejected: bool)
    requires TellsApart(env) && Inv(env, s) && AwaitsRow(s, id, row) && Stranded(s, row, rejected)
    requires GenuineRun(env, s, labels)
    ensures StaysStranded(s, Run(env, s, labels), id, row, rejected)
    decreases |labels|, 0
  {
    if labels != [] {
      RunOnStaysStranded(env, s, labels[0], Next(env, s, labels[0]), labels[1..], id, row, rejected);
    }
  }

  lemma RunOnStaysStranded(env: Env, s: State, l: Label, t: State, labels: seq<Label>, id: Uuid, row: nat,
        rejected: bool)
    requires TellsApart(env) && Inv(env, s) && AwaitsRow(s, id, row) && Stranded(s, row, rejected)
    requires Genuine(s, l) && t == Next(env, s, l) && GenuineRun(env, t, labels)
    ensures StaysStranded(s, Run(env, t, labels), id, row, rejected)
    decreases |labels|, 1
  {
    StepStaysStranded(env, s, l, id, row, rejected);
    NextKeeps(env, s, l);
    if rejected && Rejected(t.docs[id]) {
      RejectedForever(env, t, labels, id);
    } else {
      AwaitsOn(s, t, id, row);
      RunStaysStranded(env, t, labels, id, row, rejected);
      StaysStrandedOn(s, t, Run(env, t, labels), id, row, rejected);
    }
  }

  lemma StaysStrandedOn(s: State, t: State, u: State, id: Uuid, row: nat, rejected: bool)
    requires id in s.docs && id in t.docs && t.docs[id] == s.docs[id] && StaysStranded(t, u, id, row, rejected)
    ensures StaysStranded(s, u, id, row, rejected)
  {}

  /**
    A document in progress whose message is neither in the outbox nor held by Pub/Sub nor by a dequeuer that has
    read its row, with no request for it running, never changes again: its message is a dead letter, or was
    acknowledged for an invalid key.
   */
  lemma DeadLetteredNeverChanges(env: Env, s: State, id: Uuid, row: nat, labels: seq<Label>)
    requires Faithful(env) && Reachable(env, s) && AwaitsRow(s, id, row)
    requires row !in s.outbox && row !in s.listed && row !in s.unacked
    requires forall r :: r in s.requests ==> s.requests[r].message != row
    requires GenuineRun(env, s, labels)
    ensures var t := Run(env, s, labels); id in t.docs && t.docs[id] == s.docs[id]
    ensures row in s.dead || OK.Parse(s.docs[id].objectKey).None?
  {
    ReachableInOrder(env, s);
    FaithfulTellsApart(env);
    RunStaysStranded(env, s, labels, id, row, false);
    assert RowOk(env, s, row);
  }

  /** With neither a message nor a request left that could carry it on, a document is never uploaded. */
  lemma NotFinishes(env: Env, s: State, id: Uuid)
    requires TellsApart(env) && Inv(env, s) && Ready(env, s, id) && !Waits(s, id) && !WorkedOn(s, id)
    ensures !Finishes(env, s, id)
  {
    var row := AwaitedRow(env, s, id);
    forall labels | GenuineRun(env, s, labels) ensures !UploadedIn(Run(env, s, labels), id) {
      NotUploadedBy(env, s, labels, id, row);
    }
  }

  lemma NotUploadedBy(env: Env, s: State, labels: seq<Label>, id: Uuid, row: nat)
    requires TellsApart(env) && Inv(env, s) && AwaitsRow(s, id, row) && Stranded(s, row, true)
    requires GenuineRun(env, s, labels)
    ensures !UploadedIn(Run(env, s, labels), id)
  {
    RunStaysStranded(env, s, labels, id, row, true);
    StrandedNotUploaded(s, Run(env, s, labels), id, row);
  }

  lemma StrandedNotUploaded(s: State, t: State, id: Uuid, row: nat)
    requires AwaitsRow(s, id, row) && StaysStranded(s, t, id, row, true)
    ensures !UploadedIn(t, id)
  {}

  lemma AwaitedRow(env: Env, s: State, id: Uuid) returns (row: nat)
    requires Inv(env, s) && Ready(env, s, id) && !Waits(s, id) && !WorkedOn(s, id)
    ensures AwaitsRow(s, id, row) && Stranded(s, row, true)
  {
    assert DocOk(env, s, id);
    row := if s.docs[id].status == PendingUpload then s.scanRow[id] else s.finalRow[id];
    assert RowOk(env, s, row) && !WaitsAt(s, id, row);
  }

  /**
    Exactly when a document in progress can still be carried to the end by deliveries of messages that Pub/Sub
    holds: its message is in the outbox, read by a dequeuer that may still publish it, or unacknowledged, or a
    request for it runs that has not turned against it.
   */
  lemma FinishesIff(env: Env, s: State, id: Uuid)
    requires Faithful(env) && Reachable(env, s) && id in s.docs && InProgress(s.docs[id].status)
    requires OK.Parse(s.docs[id].objectKey).Some? && Intact(env, s, s.docs[id]) && Promotable(env, s.docs[id])
    ensures Finishes(env, s, id) <==> Waits(s, id) || WorkedOn(s, id)
  {
    ReachableInOrder(env, s);
    FaithfulTellsApart(env);
    if WorkedOn(s, id) {
      WorkedOnFinishes(env, s, id);
    } else if Waits(s, id) {
      var row: nat :| WaitsAt(s, id, row);
      WaitingFinishes(env, s, id, row);
    } else {
      NotFinishes(env, s, id);
    }
  }

  lemma WaitingFinishes(env: Env, s: State, id: Uuid, row: nat)
    requires TellsApart(env) && Inv(env, s) && Ready(env, s, id) && WaitsAt(s, id, row)
    ensures Finishes(env, s, id)
  {
    if s.docs[id].status == PendingUpload {
      PendingFinishes(env, s, id, row);
    } else {
      FinalizingFinishes(env, s, id, row);
    }
  }
}
