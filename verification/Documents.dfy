/** The document aggregate: its data, the specification of each transition, and the mutable object. */
module Documents {
  import opened Wrappers
  import opened Uuids
  import opened ObjectKey

  datatype UploadStatus = PendingUpload | Finalizing | Uploaded | ContainsVirus | FailedUpload

  datatype DocumentData = DocumentData(
    identity: DocumentIdentity, workspaceId: Uuid, createdByUserId: Uuid, filename: string, contentType: string,
    contentLength: int, objectKey: string, checksumSha256: string, checksumCrc32c: string, status: UploadStatus,
    archived: bool, createdAt: int)

  datatype CreatePayload = CreatePayload(
    owner: Owner, filename: string, contentType: string, contentLength: int, objectKey: string, checksumSha256: string,
    checksumCrc32c: string)

  datatype Event =
    | ScanRequested(identity: DocumentIdentity, objectKey: string)
    | FinalizationRequested(identity: DocumentIdentity, objectKey: string)

  datatype Outcome = Created | Scanned | Finalized | Archived | Ignored | Rejected

  datatype Transition = Transition(outcome: Outcome, event: Option<Event>)

  datatype LifecycleError = OwnerMismatch | NegativeContentLength

  datatype ScanResult = Clean | Malicious | Failed

  predicate Changed(t: Transition) {
    t.outcome != Ignored && t.outcome != Rejected
  }

  // ---------- transitions on data ----------

  function CreateData(identity: DocumentIdentity, workspaceId: Uuid, user: Uuid, payload: CreatePayload, at: int)
    : Result<(DocumentData, Transition), LifecycleError>
  {
    if payload.owner != identity.owner then Err(OwnerMismatch)
    else if payload.contentLength < 0 then Err(NegativeContentLength)
    else Ok((
      DocumentData(identity, workspaceId, user, payload.filename, payload.contentType, payload.contentLength,
                   payload.objectKey, payload.checksumSha256, payload.checksumCrc32c, PendingUpload, false, at),
      Transition(Created, Some(ScanRequested(identity, payload.objectKey)))))
  }

  function ScanData(d: DocumentData, result: ScanResult): (DocumentData, Transition) {
    if d.archived || d.status != PendingUpload then (d, Transition(Ignored, None))
    else match result
         case Clean =>
           (d.(status := Finalizing), Transition(Scanned, Some(FinalizationRequested(d.identity, d.objectKey))))
         case Malicious => (d.(status := ContainsVirus), Transition(Scanned, None))
         case Failed => (d.(status := FailedUpload), Transition(Scanned, None))
  }

  function FinalizeData(d: DocumentData, finalKey: string): (DocumentData, Transition) {
    if d.archived || d.status != Finalizing then (d, Transition(Ignored, None))
    else (d.(objectKey := finalKey, status := Uploaded), Transition(Finalized, None))
  }

  function ArchiveData(d: DocumentData): (DocumentData, Transition) {
    if d.archived then (d, Transition(Ignored, None))
    else if d.status == PendingUpload || d.status == Finalizing then (d, Transition(Rejected, None))
    else (d.(archived := true), Transition(Archived, None))
  }

  // ---------- what every transition respects ----------

  predicate InProgress(status: UploadStatus) {
    status == PendingUpload || status == Finalizing
  }

  /** The only ways a status can change, over one or more transitions. */
  predicate Forward(from: UploadStatus, to: UploadStatus) {
    from == to || from == PendingUpload || (from == Finalizing && to == Uploaded)
  }

  /** One document before and after any number of transitions. */
  predicate DataEvolves(d: DocumentData, e: DocumentData) {
    && e == d.(objectKey := e.objectKey, status := e.status, archived := e.archived)
    && Forward(d.status, e.status)
    && (d.archived ==> e == d)
    && (e.status != Uploaded || d.status == Uploaded ==> e.objectKey == d.objectKey)
  }

  predicate ArchivedIsTerminal(d: DocumentData) {
    d.archived ==> !InProgress(d.status)
  }

  lemma TransitionsEvolve(d: DocumentData, result: ScanResult, finalKey: string)
    requires ArchivedIsTerminal(d)
    ensures DataEvolves(d, ScanData(d, result).0) && ArchivedIsTerminal(ScanData(d, result).0)
    ensures DataEvolves(d, FinalizeData(d, finalKey).0) && ArchivedIsTerminal(FinalizeData(d, finalKey).0)
    ensures DataEvolves(d, ArchiveData(d).0) && ArchivedIsTerminal(ArchiveData(d).0)
  {}

  lemma EvolvesTransitive(d: DocumentData, e: DocumentData, f: DocumentData)
    requires DataEvolves(d, e) && DataEvolves(e, f)
    ensures DataEvolves(d, f)
  {}

  // ---------- the object ----------

  class Document {
    const identity: DocumentIdentity
    const workspaceId: Uuid
    const createdByUserId: Uuid
    const filename: string
    const contentType: string
    const contentLength: int
    const checksumSha256: string
    const checksumCrc32c: string
    const createdAt: int
    var objectKey: string
    var uploadStatus: UploadStatus
    var archived: bool

    function Data(): DocumentData
      reads this
    {
      DocumentData(identity, workspaceId, createdByUserId, filename, contentType, contentLength, objectKey,
                   checksumSha256, checksumCrc32c, uploadStatus, archived, createdAt)
    }

    constructor Rehydrate(d: DocumentData)
      ensures Data() == d
    {
      identity, workspaceId, createdByUserId, filename := d.identity, d.workspaceId, d.createdByUserId, d.filename;
      contentType, contentLength, objectKey := d.contentType, d.contentLength, d.objectKey;
      checksumSha256, checksumCrc32c, uploadStatus := d.checksumSha256, d.checksumCrc32c, d.status;
      archived, createdAt := d.archived, d.createdAt;
    }

    static method Create(identity: DocumentIdentity, workspaceId: Uuid, user: Uuid, payload: CreatePayload, at: int)
      returns (r: Result<Document, LifecycleError>, t: Transition)
      ensures match CreateData(identity, workspaceId, user, payload, at)
              case Err(e) => r == Err(e)
              case Ok((d, created)) => r.Ok? && fresh(r.value) && r.value.Data() == d && t == created
      ensures r.Ok? <==> payload.owner == identity.owner && payload.contentLength >= 0
      ensures r == Err(OwnerMismatch) <==> payload.owner != identity.owner
      ensures r.Ok? ==>
        && t == Transition(Created, Some(ScanRequested(identity, payload.objectKey)))
        && r.value.identity == identity && r.value.workspaceId == workspaceId && r.value.createdByUserId == user
        && r.value.filename == payload.filename && r.value.contentType == payload.contentType
        && r.value.contentLength == payload.contentLength && r.value.objectKey == payload.objectKey
        && r.value.checksumSha256 == payload.checksumSha256 && r.value.checksumCrc32c == payload.checksumCrc32c
        && r.value.uploadStatus == PendingUpload && !r.value.archived && r.value.createdAt == at
    {
      t := Transition(Ignored, None);
      if payload.owner != identity.owner {
        return Err(OwnerMismatch), t;
      }
      if payload.contentLength < 0 {
        return Err(NegativeContentLength), t;
      }
      var document := new Document.Rehydrate(
        DocumentData(identity, workspaceId, user, payload.filename, payload.contentType, payload.contentLength,
                     payload.objectKey, payload.checksumSha256, payload.checksumCrc32c, PendingUpload, false, at));
      t := Transition(Created, Some(ScanRequested(document.identity, document.objectKey)));
      r := Ok(document);
    }

    method TransitionTo(expected: UploadStatus, next: UploadStatus, event: Option<Event>) returns (t: Transition)
      modifies this
      ensures if old(archived || uploadStatus != expected)
              then Data() == old(Data()) && t == Transition(Ignored, None)
              else Data() == old(Data()).(status := next) && t == Transition(Scanned, event)
    {
      if archived || uploadStatus != expected {
        return Transition(Ignored, None);
      }
      uploadStatus := next;
      t := Transition(Scanned, event);
    }

    method ScanClean() returns (t: Transition)
      modifies this
      ensures (Data(), t) == ScanData(old(Data()), Clean)
      ensures if old(archived || uploadStatus != PendingUpload)
              then Data() == old(Data()) && t == Transition(Ignored, None)
              else Data() == old(Data()).(status := Finalizing)
                   && t.event == Some(FinalizationRequested(identity, old(objectKey)))
    {
      t := TransitionTo(PendingUpload, Finalizing, Some(FinalizationRequested(identity, objectKey)));
    }

    method ScanMalicious() returns (t: Transition)
      modifies this
      ensures (Data(), t) == ScanData(old(Data()), Malicious)
      ensures if old(archived || uploadStatus != PendingUpload)
              then Data() == old(Data()) && t == Transition(Ignored, None)
              else Data() == old(Data()).(status := ContainsVirus) && t.event.None?
    {
      t := TransitionTo(PendingUpload, ContainsVirus, None);
    }

    method ScanFailed() returns (t: Transition)
      modifies this
      ensures (Data(), t) == ScanData(old(Data()), Failed)
      ensures if old(archived || uploadStatus != PendingUpload)
              then Data() == old(Data()) && t == Transition(Ignored, None)
              else Data() == old(Data()).(status := FailedUpload) && t.event.None?
    {
      t := TransitionTo(PendingUpload, FailedUpload, None);
    }

    method FinalizeUploaded(finalObjectKey: string) returns (t: Transition)
      modifies this
      ensures (Data(), t) == FinalizeData(old(Data()), finalObjectKey)
      ensures if old(archived || uploadStatus != Finalizing)
              then Data() == old(Data()) && t == Transition(Ignored, None)
              else Data() == old(Data()).(status := Uploaded, objectKey := finalObjectKey) && t.outcome == Finalized
    {
      if archived || uploadStatus != Finalizing {
        return Transition(Ignored, None);
      }
      objectKey := finalObjectKey;
      uploadStatus := Uploaded;
      t := Transition(Finalized, None);
    }

    method Archive() returns (t: Transition)
      modifies this
      ensures (Data(), t) == ArchiveData(old(Data()))
      ensures t.outcome == Archived <==>
        !old(archived) && uploadStatus in {Uploaded, ContainsVirus, FailedUpload}
      ensures t.outcome == Rejected <==> !old(archived) && uploadStatus in {PendingUpload, Finalizing}
      ensures Data() == old(Data()).(archived := old(archived) || t.outcome == Archived)
    {
      if archived {
        return Transition(Ignored, None);
      }
      if uploadStatus != Uploaded && uploadStatus != ContainsVirus && uploadStatus != FailedUpload {
        return Transition(Rejected, None);
      }
      archived := true;
      t := Transition(Archived, None);
    }
  }
}
