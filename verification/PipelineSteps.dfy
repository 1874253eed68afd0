/** Every API step and every step of the two worker handlers keeps the pipeline invariant. */
module PipelineSteps {
  import opened Wrappers
  import opened Uuids
  import opened Documents
  import OK = ObjectKey
  import W = Worker
  import opened Pipeline
  import opened PipelineFrames
  import opened PipelineInvariants
  import opened PipelinePhases

  // ---------- moving a request ----------

  /** A request may move to any stage that is in order. */
  lemma MoveKeeps(env: Env, s: State, r: nat, stage: Stage)
    requires Inv(env, s) && r in s.requests
    requires StageOk(env, s, s.appended[s.requests[r].message], stage)
    ensures Inv(env, GoTo(s, r, s.requests[r], stage)) && Evolves(env, s, GoTo(s, r, s.requests[r], stage))
  {
    var q := s.requests[r];
    assert RequestOk(env, s, q);
    PutRequestKeeps(env, s, GoTo(s, r, q, stage), r, q.(stage := stage));
  }

  // ---------- loading work ----------

  /** When the work query finds nothing, the row's work has already been done. */
  lemma NotFoundMeansDone(env: Env, s: State, row: nat, p: W.HandlerPayload)
    requires Inv(env, s) && row < |s.appended|
    requires var e := s.appended[row]; e.identity == p.identity && e.objectKey == p.objectKey
    ensures var e := s.appended[row];
      LoadWork(s, p, if e.ScanRequested? then PendingUpload else Finalizing).None? ==> Discharged(env, s, e)
  {
    var id := p.identity.documentId;
    assert RowOk(env, s, row);
    assert DocOk(env, s, id);
  }

  lemma LoadedWorkIsOriginal(env: Env, s: State, p: W.HandlerPayload, status: UploadStatus)
    requires Inv(env, s) && status != Uploaded && LoadWork(s, p, status).Some?
    ensures var work := LoadWork(s, p, status).value;
      HasOriginalWork(s, work) && work.identity == p.identity && work.objectKey == p.objectKey
  {
    assert DocOk(env, s, p.identity.documentId);
  }

  lemma LoadScanKeeps(env: Env, s: State, r: nat, p: W.HandlerPayload)
    requires Inv(env, s) && r in s.requests && s.requests[r].stage == ScanStarted(p)
    ensures var t := LoadScanStep(s, r, s.requests[r], p); Inv(env, t) && Evolves(env, s, t)
  {
    assert RequestOk(env, s, s.requests[r]);
    NotFoundMeansDone(env, s, s.requests[r].message, p);
    match LoadWork(s, p, PendingUpload)
    case Some(work) =>
      LoadedWorkIsOriginal(env, s, p, PendingUpload);
      MoveKeeps(env, s, r, ScanLoaded(work));
    case None => MoveKeeps(env, s, r, Succeeded);
  }

  lemma LoadFinalizeKeeps(env: Env, s: State, r: nat, p: W.HandlerPayload)
    requires Inv(env, s) && r in s.requests && s.requests[r].stage == FinalizeStarted(p)
    ensures var t := LoadFinalizeStep(s, r, s.requests[r], p); Inv(env, t) && Evolves(env, s, t)
  {
    assert RequestOk(env, s, s.requests[r]);
    NotFoundMeansDone(env, s, s.requests[r].message, p);
    match LoadWork(s, p, Finalizing)
    case Some(work) =>
      LoadedWorkIsOriginal(env, s, p, Finalizing);
      MoveKeeps(env, s, r, FinalizeLoaded(p, work));
    case None => MoveKeeps(env, s, r, Succeeded);
  }

  // ---------- the scan handler ----------

  lemma DecideKeeps(env: Env, s: State, r: nat, work: Work, result: ScanResult)
    requires Inv(env, s) && r in s.requests && result == Failed
    requires s.requests[r].stage == ScanLoaded(work) || (s.requests[r].stage.ScanFetched?
                                                         && s.requests[r].stage.work == work)
    ensures var t := GoTo(s, r, s.requests[r], ScanDecided(work, result)); Inv(env, t) && Evolves(env, s, t)
  {
    assert RequestOk(env, s, s.requests[r]);
    MoveKeeps(env, s, r, ScanDecided(work, result));
  }

  lemma FailOrRetryKeeps(env: Env, s: State, r: nat, work: Work)
    requires Inv(env, s) && r in s.requests
    requires s.requests[r].stage == ScanLoaded(work) || (s.requests[r].stage.ScanFetched?
                                                         && s.requests[r].stage.work == work)
    ensures var t := FailOrRetry(s, r, s.requests[r], work); Inv(env, t) && Evolves(env, s, t)
  {
    if s.requests[r].finalDelivery {
      DecideKeeps(env, s, r, work, Failed);
    } else {
      DropKeeps(env, s, r);
    }
  }

  lemma FetchedKeeps(env: Env, s: State, r: nat, work: Work)
    requires Inv(env, s) && r in s.requests && s.requests[r].stage == ScanLoaded(work)
    requires work.objectKey in s.quarantine && Matches(env, s.quarantine[work.objectKey], work)
    requires env.validKey(work.objectKey)
    ensures var t := GoTo(s, r, s.requests[r], ScanFetched(work, s.quarantine[work.objectKey]));
      Inv(env, t) && Evolves(env, s, t)
  {
    assert RequestOk(env, s, s.requests[r]);
    MoveKeeps(env, s, r, ScanFetched(work, s.quarantine[work.objectKey]));
  }

  lemma FetchKeeps(env: Env, s: State, r: nat, work: Work, read: ReadOutcome)
    requires Inv(env, s) && r in s.requests && s.requests[r].stage == ScanLoaded(work)
    ensures var t := FetchStep(env, s, r, s.requests[r], work, read); Inv(env, t) && Evolves(env, s, t)
  {
    if !env.validKey(work.objectKey) {
      DropKeeps(env, s, r);
    } else if read.ReadError? {
      FailOrRetryKeeps(env, s, r, work);
    } else if work.objectKey !in s.quarantine {
      DecideKeeps(env, s, r, work, Failed);
    } else if work.contentLength < 0 {
      DropKeeps(env, s, r);
    } else if Matches(env, s.quarantine[work.objectKey], work) {
      FetchedKeeps(env, s, r, work);
    } else {
      FailOrRetryKeeps(env, s, r, work);
    }
  }

  lemma NotingKeeps(env: Env, s: State, work: Work, stored: StoredObject, result: ScanResult)
    requires Inv(env, s)
    ensures var u := Noted(s, work, stored, result); Inv(env, u) && Evolves(env, s, u)
  {
    var u := Noted(s, work, stored, result);
    assert RequestsFrom(env, s, u) && QueueKept(env, s, u) && StoredKept(env, s, u);
    StepKeeps(env, s, u);
  }

  lemma EvolvesTrans(env: Env, s: State, t: State, u: State)
    requires Evolves(env, s, t) && Evolves(env, t, u)
    ensures Evolves(env, s, u)
  {
    forall id | UploadMatches(env, s, id) && Stored(env, s, id) ensures Stored(env, u, id) {
      FactsKept(env, s, t, id);
    }
  }

  lemma JudgingKeeps(env: Env, s: State, r: nat, work: Work, stored: StoredObject, result: ScanResult)
    requires Inv(env, s) && r in s.requests && s.requests[r].stage == ScanFetched(work, stored)
    ensures var t := GoTo(Noted(s, work, stored, result), r, s.requests[r], ScanDecided(work, result));
      Inv(env, t) && Evolves(env, s, t)
  {
    var u := Noted(s, work, stored, result);
    NotingKeeps(env, s, work, stored, result);
    assert RequestOk(env, u, s.requests[r]);
    MoveKeeps(env, u, r, ScanDecided(work, result));
    EvolvesTrans(env, s, u, GoTo(u, r, s.requests[r], ScanDecided(work, result)));
  }

  lemma VerdictKeeps(env: Env, s: State, r: nat, work: Work, stored: StoredObject, verdict: Verdict)
    requires Inv(env, s) && r in s.requests && s.requests[r].stage == ScanFetched(work, stored)
    ensures var t := VerdictStep(s, r, s.requests[r], work, stored, verdict); Inv(env, t) && Evolves(env, s, t)
  {
    match verdict
    case SaysClean => JudgingKeeps(env, s, r, work, stored, Clean);
    case SaysMalicious => JudgingKeeps(env, s, r, work, stored, Malicious);
    case SaysFailed => JudgingKeeps(env, s, r, work, stored, Failed);
    case ScannerError => FailOrRetryKeeps(env, s, r, work);
  }

  // ---------- appending to the outbox ----------

  /** The tables after one document and its event, if any, were written together. */
  ghost predicate Wrote(s: State, t: State, id: Uuid, d: DocumentData, event: Option<Event>) {
    && t.docs == s.docs[id := d]
    && (event.None? ==>
        t.appended == s.appended && t.outbox == s.outbox && t.scanRow == s.scanRow && t.finalRow == s.finalRow)
    && (event.Some? ==>
          && event.value.identity.documentId == id
          && t.appended == s.appended + [event.value] && t.outbox == s.outbox + {|s.appended|}
          && (event.value.ScanRequested? ==> t.scanRow == s.scanRow[id := |s.appended|] && t.finalRow == s.finalRow)
          && (event.value.FinalizationRequested? ==>
              t.finalRow == s.finalRow[id := |s.appended|] && t.scanRow == s.scanRow))
    && t.policies == s.policies && t.published == s.published && t.unacked == s.unacked && t.dead == s.dead
    && t.listed == s.listed
    && t.quarantine == s.quarantine && t.evidence == s.evidence && t.written == s.written
      && t.verdicts == s.verdicts
    && t.requests == s.requests
  }

  ghost predicate WriteAllowed(s: State, t: State, id: Uuid, d: DocumentData, event: Option<Event>) {
    && Wrote(s, t, id, d, event)
    && (id in s.docs ==> DataEvolves(s.docs[id], d) && t.origin == s.origin)
    && (id !in s.docs ==> t.origin == s.origin[id := d.objectKey] && event.Some? && event.value.ScanRequested?)
    && (id in s.docs && event.Some? ==> event.value.FinalizationRequested? && id !in s.finalRow)
    && (event.Some? ==> event.value.identity == d.identity && id in t.origin && event.value.objectKey == t.origin[id])
  }

  lemma WriteEvolves(env: Env, s: State, t: State, id: Uuid, d: DocumentData, event: Option<Event>)
    requires Bookkeeping(s) && WriteAllowed(s, t, id, d, event)
    ensures Evolves(env, s, t)
  {
    WriteEvolvesDocs(s, t, id, d, event);
    forall x | UploadMatches(env, s, x) && Stored(env, s, x) ensures Stored(env, t, x) {
      OriginalWorkKept(env, s, t, x);
    }
  }

  lemma WriteEvolvesDocs(s: State, t: State, id: Uuid, d: DocumentData, event: Option<Event>)
    requires WriteAllowed(s, t, id, d, event)
    ensures DocsEvolve(s, t) && s.appended <= t.appended
  {}

  lemma WriteBookkeeping(s: State, t: State, id: Uuid, d: DocumentData, event: Option<Event>)
    requires Bookkeeping(s) && WriteAllowed(s, t, id, d, event)
    ensures Bookkeeping(t)
  {}

  /** A document written together with its event keeps the invariant when the document itself is in order. */
  lemma WriteKeeps(env: Env, s: State, t: State, id: Uuid, d: DocumentData, event: Option<Event>)
    requires Inv(env, s) && WriteAllowed(s, t, id, d, event) && DocOk(env, t, id)
    ensures Inv(env, t) && Evolves(env, s, t)
  {
    WriteEvolves(env, s, t, id, d, event);
    WriteBookkeeping(s, t, id, d, event);
    WriteKeepsDocs(env, s, t, id, d, event);
    WriteKeepsRows(env, s, t, id, d, event);
    assert RequestsFrom(env, s, t);
    RequestsKept(env, s, t);
  }

  lemma WriteKeepsDocs(env: Env, s: State, t: State, id: Uuid, d: DocumentData, event: Option<Event>)
    requires DocsOk(env, s) && Wrote(s, t, id, d, event) && Evolves(env, s, t)
    requires DocOk(env, t, id)
    ensures DocsOk(env, t)
  {
    forall x | x in t.docs ensures DocOk(env, t, x) {
      if x != id {
        assert DocOk(env, s, x);
        assert x in t.finalRow <==> x in s.finalRow;
        DocKept(env, s, t, x);
      }
    }
  }

  lemma WriteKeepsQueue(env: Env, s: State, t: State, id: Uuid, d: DocumentData, event: Option<Event>)
    requires Wrote(s, t, id, d, event)
    ensures QueueKept(env, s, t)
  {}

  lemma NewRowOk(env: Env, s: State, t: State, id: Uuid, d: DocumentData, event: Option<Event>)
    requires Wrote(s, t, id, d, event) && event.Some?
    requires event.value.identity == d.identity && id in t.origin && event.value.objectKey == t.origin[id]
    requires |s.appended| !in s.published
    ensures RowOk(env, t, |s.appended|)
  {}

  lemma WriteKeepsRows(env: Env, s: State, t: State, id: Uuid, d: DocumentData, event: Option<Event>)
    requires RowsOk(env, s) && Wrote(s, t, id, d, event) && Evolves(env, s, t)
    requires |s.appended| !in s.published
    requires event.Some? ==>
      event.value.identity == d.identity && id in t.origin && event.value.objectKey == t.origin[id]
    requires event.Some? && event.value.ScanRequested? ==> id !in s.scanRow
    requires event.Some? && event.value.FinalizationRequested? ==> id !in s.finalRow
    ensures RowsOk(env, t)
  {
    WriteKeepsQueue(env, s, t, id, d, event);
    RowsKept(env, s, t);
    if event.Some? {
      NewRowOk(env, s, t, id, d, event);
    }
  }

  lemma PlainWriteAllowed(s: State, t: State, id: Uuid, d: DocumentData)
    requires id in s.docs && t == s.(docs := s.docs[id := d]) && DataEvolves(s.docs[id], d)
    ensures WriteAllowed(s, t, id, d, None)
  {}

  // ---------- commands on documents ----------

  /** A clean verdict on cleared bytes: the document moves on and its finalization row is written with it. */
  lemma ClearedDocOk(env: Env, s: State, t: State, id: Uuid, d: DocumentData, event: Event)
    requires DocOk(env, s, id) && s.docs[id].status == PendingUpload && Cleared(env, s, id)
    requires d == s.docs[id].(status := Finalizing) && event == FinalizationRequested(d.identity, s.origin[id])
    requires Wrote(s, t, id, d, Some(event)) && t.origin == s.origin && Evolves(env, s, t)
    ensures DocOk(env, t, id)
  {
    FactsKept(env, s, t, id);
  }

  lemma ClearedWriteAllowed(env: Env, s: State, t: State, id: Uuid, d: DocumentData, event: Event)
    requires DocOk(env, s, id) && s.docs[id].status == PendingUpload
    requires d == s.docs[id].(status := Finalizing) && event == FinalizationRequested(d.identity, s.origin[id])
    requires t == AppendEvent(s.(docs := s.docs[id := d]), Some(event))
    ensures WriteAllowed(s, t, id, d, Some(event))
  {}

  lemma ScanCleanKeeps(env: Env, s: State, t: State, id: Uuid)
    requires Inv(env, s) && id in s.docs && s.docs[id].status == PendingUpload && !s.docs[id].archived
    requires Cleared(env, s, id)
    requires var (d, tr) := ScanData(s.docs[id], Clean); t == AppendEvent(s.(docs := s.docs[id := d]), tr.event)
    ensures Inv(env, t) && Evolves(env, s, t)
  {
    assert DocOk(env, s, id);
    var d := s.docs[id].(status := Finalizing);
    var event := FinalizationRequested(d.identity, s.origin[id]);
    ClearedWriteAllowed(env, s, t, id, d, event);
    WriteEvolves(env, s, t, id, d, Some(event));
    ClearedDocOk(env, s, t, id, d, event);
    WriteKeeps(env, s, t, id, d, Some(event));
  }

  /** A verdict of malicious or failed ends the document's life. */
  lemma ScanRejectKeeps(env: Env, s: State, t: State, id: Uuid, result: ScanResult)
    requires Inv(env, s) && id in s.docs && s.docs[id].status == PendingUpload && !s.docs[id].archived
    requires result != Clean && (result == Malicious ==> Judged(env, s, id, Malicious))
    requires t == s.(docs := s.docs[id := ScanData(s.docs[id], result).0])
    ensures Inv(env, t) && Evolves(env, s, t)
  {
    assert DocOk(env, s, id);
    var d := ScanData(s.docs[id], result).0;
    PlainWriteAllowed(s, t, id, d);
    WriteEvolves(env, s, t, id, d, None);
    RejectedDocOk(env, s, t, id, d);
    WriteKeeps(env, s, t, id, d, None);
  }

  lemma RejectedDocOk(env: Env, s: State, t: State, id: Uuid, d: DocumentData)
    requires DocOk(env, s, id) && s.docs[id].status == PendingUpload
    requires d == s.docs[id].(status := d.status) && (d.status == ContainsVirus || d.status == FailedUpload)
    requires d.status == ContainsVirus ==> Judged(env, s, id, Malicious)
    requires t == s.(docs := s.docs[id := d]) && Evolves(env, s, t)
    ensures DocOk(env, t, id)
  {
    FactsKept(env, s, t, id);
  }

  lemma ScanCommandWrites(env: Env, s: State, work: Work, result: ScanResult)
    requires HasOriginalWork(s, work) && DocOk(env, s, work.identity.documentId)
    ensures var id := work.identity.documentId;
      var t := ScanCommand(s, work, result);
      if s.docs[id].archived || s.docs[id].status != PendingUpload then t == s
      else if result == Clean then
        var (d, tr) := ScanData(s.docs[id], Clean); t == AppendEvent(s.(docs := s.docs[id := d]), tr.event)
      else t == s.(docs := s.docs[id := ScanData(s.docs[id], result).0])
  {}

  lemma ScanCommandKeeps(env: Env, s: State, work: Work, result: ScanResult)
    requires Inv(env, s) && HasOriginalWork(s, work)
    requires result == Clean ==> Cleared(env, s, work.identity.documentId)
    requires result == Malicious ==> Judged(env, s, work.identity.documentId, Malicious)
    ensures Inv(env, ScanCommand(s, work, result)) && Evolves(env, s, ScanCommand(s, work, result))
  {
    var id := work.identity.documentId;
    var t := ScanCommand(s, work, result);
    assert DocOk(env, s, id);
    ScanCommandWrites(env, s, work, result);
    if t == s {
      NothingHappens(env, s);
    } else if result == Clean {
      ScanCleanKeeps(env, s, t, id);
    } else {
      ScanRejectKeeps(env, s, t, id, result);
    }
  }

  lemma ScanCommandDischarges(env: Env, s: State, work: Work, result: ScanResult)
    requires HasOriginalWork(s, work) && DocOk(env, s, work.identity.documentId)
    ensures Discharged(env, ScanCommand(s, work, result), ScanRequested(work.identity, work.objectKey))
  {
    ScanCommandWrites(env, s, work, result);
  }

  lemma FinalizeCommandWrites(env: Env, s: State, work: Work, finalKey: string)
    requires HasOriginalWork(s, work) && DocOk(env, s, work.identity.documentId)
    ensures var id := work.identity.documentId;
      var t := FinalizeCommand(s, work, finalKey);
      if FinalizeApplies(s, work) then t == s.(docs := s.docs[id := FinalizeData(s.docs[id], finalKey).0])
                                       && s.docs[id].status == Finalizing && !s.docs[id].archived
      else t == s && s.docs[id].status != Finalizing
  {}

  lemma FinalizeCommandKeeps(env: Env, s: State, work: Work, finalKey: string)
    requires Inv(env, s) && HasOriginalWork(s, work)
    requires FinalKeyOf(env, s.docs[work.identity.documentId]) == Some(finalKey)
    requires UploadMatches(env, s, work.identity.documentId) && Stored(env, s, work.identity.documentId)
    ensures Inv(env, FinalizeCommand(s, work, finalKey)) && Evolves(env, s, FinalizeCommand(s, work, finalKey))
  {
    var id := work.identity.documentId;
    var t := FinalizeCommand(s, work, finalKey);
    assert DocOk(env, s, id);
    FinalizeCommandWrites(env, s, work, finalKey);
    if FinalizeApplies(s, work) {
      FinalizeWriteKeeps(env, s, t, id, finalKey);
    } else {
      NothingHappens(env, s);
    }
  }

  lemma FinalizeWriteKeeps(env: Env, s: State, t: State, id: Uuid, finalKey: string)
    requires Inv(env, s) && id in s.docs && s.docs[id].status == Finalizing && !s.docs[id].archived
    requires t == s.(docs := s.docs[id := FinalizeData(s.docs[id], finalKey).0])
    requires FinalKeyOf(env, s.docs[id]) == Some(finalKey) && Stored(env, s, id)
    ensures Inv(env, t) && Evolves(env, s, t)
  {
    assert DocOk(env, s, id);
    FinalizedDocOk(env, s, t, id, finalKey);
    PlainWriteAllowed(s, t, id, FinalizeData(s.docs[id], finalKey).0);
    WriteKeeps(env, s, t, id, FinalizeData(s.docs[id], finalKey).0, None);
  }

  /** Once its finalization row exists, a document that the command leaves alone is already uploaded. */
  lemma FinalizeCommandDischarges(env: Env, s: State, work: Work, finalKey: string)
    requires HasOriginalWork(s, work) && DocOk(env, s, work.identity.documentId)
    requires work.identity.documentId in s.finalRow
    ensures Discharged(env, FinalizeCommand(s, work, finalKey), FinalizationRequested(work.identity, work.objectKey))
  {
    FinalizeCommandWrites(env, s, work, finalKey);
  }

  lemma FinalizedDocOk(env: Env, s: State, t: State, id: Uuid, finalKey: string)
    requires DocOk(env, s, id) && Changed(FinalizeData(s.docs[id], finalKey).1)
    requires t == s.(docs := s.docs[id := FinalizeData(s.docs[id], finalKey).0])
    requires FinalKeyOf(env, s.docs[id]) == Some(finalKey) && Stored(env, s, id)
    ensures DocOk(env, t, id)
  {
    assert FinalKeyOf(env, t.docs[id]) == FinalKeyOf(env, s.docs[id]);
    assert OriginalWork(t, id) == OriginalWork(s, id);
  }

  lemma ArchiveDocumentKeeps(env: Env, s: State, id: Uuid)
    requires Inv(env, s)
    ensures Inv(env, ArchiveDocumentStep(s, id)) && Evolves(env, s, ArchiveDocumentStep(s, id))
  {
    var t := ArchiveDocumentStep(s, id);
    if id in s.docs {
      var d := ArchiveData(s.docs[id]).0;
      assert DocOk(env, s, id);
      TransitionsEvolve(s.docs[id], Clean, "");
      ArchivedDocOk(env, s, t, id);
      WriteKeeps(env, s, t, id, d, None);
    } else {
      NothingHappens(env, s);
    }
  }

  lemma ArchivedDocOk(env: Env, s: State, t: State, id: Uuid)
    requires DocOk(env, s, id) && t == s.(docs := s.docs[id := ArchiveData(s.docs[id]).0])
    ensures DocOk(env, t, id)
  {
    assert FinalKeyOf(env, t.docs[id]) == FinalKeyOf(env, s.docs[id]);
    assert OriginalWork(t, id) == OriginalWork(s, id);
  }

  lemma CreatedDocOk(
      env: Env, s: State, t: State, identity: OK.DocumentIdentity, workspace: Uuid, user: Uuid, payload: CreatePayload,
        at: int)
    requires Bookkeeping(s) && identity.documentId !in s.docs && Eligible(s, identity.owner, workspace)
    requires CreateData(identity, workspace, user, payload, at).Ok?
    requires var (d, tr) := CreateData(identity, workspace, user, payload, at).value;
      t == AppendEvent(
        s.(docs := s.docs[identity.documentId := d], origin := s.origin[identity.documentId := d.objectKey]), tr.event)
    ensures var (d, tr) := CreateData(identity, workspace, user, payload, at).value;
      WriteAllowed(s, t, identity.documentId, d, tr.event) && DocOk(env, t, identity.documentId)
  {
    var id := identity.documentId;
    assert id !in s.finalRow && |s.appended| !in s.published;
    assert t.appended[|s.appended|] == ScanRequested(identity, payload.objectKey);
  }

  lemma CreateDocumentKeeps(
      env: Env, s: State, identity: OK.DocumentIdentity, workspace: Uuid, user: Uuid, payload: CreatePayload, at: int)
    requires Inv(env, s)
    ensures var t := CreateDocumentStep(s, identity, workspace, user, payload, at); Inv(env, t) && Evolves(env, s, t)
  {
    var t := CreateDocumentStep(s, identity, workspace, user, payload, at);
    if identity.documentId !in s.docs && Eligible(s, identity.owner, workspace)
       && CreateData(identity, workspace, user, payload, at).Ok? {
      var (d, tr) := CreateData(identity, workspace, user, payload, at).value;
      CreatedDocOk(env, s, t, identity, workspace, user, payload, at);
      WriteKeeps(env, s, t, identity.documentId, d, tr.event);
    } else {
      NothingHappens(env, s);
    }
  }

  // ---------- policies ----------

  lemma PoliciesKeep(env: Env, s: State, t: State)
    requires Inv(env, s) && t == s.(policies := t.policies)
    requires forall id :: id in s.docs && s.docs[id].identity.owner.Policy? && InProgress(s.docs[id].status) ==>
      PolicyLive(t, s.docs[id].identity.owner.id, s.docs[id].workspaceId)
    ensures Inv(env, t) && Evolves(env, s, t)
  {
    PoliciesKeepDocs(env, s, t);
    assert QueueKept(env, s, t) && RequestsFrom(env, s, t);
    PoliciesEvolve(env, s, t);
    RowsKept(env, s, t);
    RequestsKept(env, s, t);
  }

  lemma PoliciesEvolve(env: Env, s: State, t: State)
    requires t == s.(policies := t.policies)
    ensures Evolves(env, s, t)
  {}

  lemma PoliciesKeepDocs(env: Env, s: State, t: State)
    requires DocsOk(env, s) && t == s.(policies := t.policies)
    requires forall id :: id in s.docs && s.docs[id].identity.owner.Policy? && InProgress(s.docs[id].status) ==>
      PolicyLive(t, s.docs[id].identity.owner.id, s.docs[id].workspaceId)
    ensures DocsOk(env, t)
  {
    forall id | id in t.docs ensures DocOk(env, t, id) {
      PolicyKeepsDoc(env, s, t, id);
    }
  }

  lemma PolicyKeepsDoc(env: Env, s: State, t: State, id: Uuid)
    requires DocOk(env, s, id) && t == s.(policies := t.policies)
    requires s.docs[id].identity.owner.Policy? && InProgress(s.docs[id].status) ==>
      PolicyLive(t, s.docs[id].identity.owner.id, s.docs[id].workspaceId)
    ensures DocOk(env, t, id)
  {}

  lemma InProgressPolicyLive(env: Env, s: State, id: Uuid)
    requires DocOk(env, s, id) && s.docs[id].identity.owner.Policy? && InProgress(s.docs[id].status)
    ensures PolicyLive(s, s.docs[id].identity.owner.id, s.docs[id].workspaceId)
  {}

  lemma CreatePolicyKeeps(env: Env, s: State, policy: Uuid, workspace: Uuid)
    requires Inv(env, s)
    ensures Inv(env, CreatePolicyStep(s, policy, workspace)) && Evolves(env, s, CreatePolicyStep(s, policy, workspace))
  {
    var t := CreatePolicyStep(s, policy, workspace);
    if policy in s.policies {
      NothingHappens(env, s);
    } else {
      forall id | id in s.docs && s.docs[id].identity.owner.Policy? && InProgress(s.docs[id].status)
        ensures PolicyLive(t, s.docs[id].identity.owner.id, s.docs[id].workspaceId)
      {
        InProgressPolicyLive(env, s, id);
      }
      PoliciesKeep(env, s, t);
    }
  }

  /** The guard on archiving is what keeps documents in progress visible to the workers. */
  lemma ArchivePolicyKeeps(env: Env, s: State, policy: Uuid)
    requires Inv(env, s)
    ensures Inv(env, ArchivePolicyStep(s, policy)) && Evolves(env, s, ArchivePolicyStep(s, policy))
  {
    var t := ArchivePolicyStep(s, policy);
    if t == s {
      NothingHappens(env, s);
      return;
    }
    forall id | id in s.docs && s.docs[id].identity.owner.Policy? && InProgress(s.docs[id].status)
      ensures PolicyLive(t, s.docs[id].identity.owner.id, s.docs[id].workspaceId)
    {
      InProgressPolicyLive(env, s, id);
      assert DocOk(env, s, id);
    }
    PoliciesKeep(env, s, t);
  }

  // ---------- the stores ----------

  lemma UploadKeeps(env: Env, s: State, key: string, stored: StoredObject)
    requires Inv(env, s)
    ensures Inv(env, UploadStep(s, key, stored)) && Evolves(env, s, UploadStep(s, key, stored))
  {
    var t := UploadStep(s, key, stored);
    if key in s.written {
      NothingHappens(env, s);
    } else {
      assert WrittenKept(s, t) && QuarantineOk(t);
      UploadKeepsStored(env, s, t);
      assert QueueKept(env, s, t) && RequestsFrom(env, s, t);
      StepKeeps(env, s, t);
    }
  }

  lemma UploadKeepsStored(env: Env, s: State, t: State)
    requires WrittenKept(s, t) && t == s.(written := t.written, quarantine := t.quarantine)
    ensures StoredKept(env, s, t)
  {}

  lemma RemoveUploadKeeps(env: Env, s: State, key: string)
    requires Inv(env, s)
    ensures var t := s.(quarantine := s.quarantine - {key}); Inv(env, t) && Evolves(env, s, t)
  {
    var t := s.(quarantine := s.quarantine - {key});
    assert StoredKept(env, s, t) && QueueKept(env, s, t) && RequestsFrom(env, s, t);
    StepKeeps(env, s, t);
  }

  /** A final key belongs to one document identity. */
  ghost predicate TellsApart(env: Env) {
    forall w1, i1, f1, w2, i2, f2 ::
      env.finalKey(w1, i1, f1).Some? && env.finalKey(w1, i1, f1) == env.finalKey(w2, i2, f2) ==> i1 == i2
  }

  lemma FaithfulTellsApart(env: Env)
    requires Faithful(env)
    ensures TellsApart(env)
  {
    forall w1, i1, f1, w2, i2, f2 | env.finalKey(w1, i1, f1).Some?
      && env.finalKey(w1, i1, f1) == env.finalKey(w2, i2, f2)
      ensures i1 == i2
    {
      OK.FinalKeyInjective(w1, i1, f1, w2, i2, f2);
    }
  }

  /** Two documents never share a final key. */
  lemma FinalKeysDiffer(env: Env, s: State, a: Uuid, b: Uuid)
    requires TellsApart(env)
    requires DocsOk(env, s) && a in s.docs && b in s.docs
    requires FinalKeyOf(env, s.docs[a]).Some? && FinalKeyOf(env, s.docs[a]) == FinalKeyOf(env, s.docs[b])
    ensures a == b
  {
    assert DocOk(env, s, a) && DocOk(env, s, b);
  }

  /** Writing a document's own upload under its final key harms no verified copy. */
  lemma WriteCopyKeepsStored(env: Env, s: State, t: State, id: Uuid, finalKey: string, stored: StoredObject)
    requires TellsApart(env)
    requires DocsOk(env, s) && id in s.docs && id in s.origin && s.origin[id] in s.written
    requires stored == s.written[s.origin[id]]
    requires FinalKeyOf(env, s.docs[id]) == Some(finalKey) && t == s.(evidence := s.evidence[finalKey := stored])
    ensures StoredKept(env, s, t) && Stored(env, t, id)
  {
    forall x | UploadMatches(env, s, x) && Stored(env, s, x) ensures Stored(env, t, x) {
      if FinalKeyOf(env, s.docs[x]) == Some(finalKey) {
        FinalKeysDiffer(env, s, x, id);
      }
    }
  }

  lemma WriteCopyKeeps(env: Env, s: State, id: Uuid, finalKey: string, stored: StoredObject)
    requires TellsApart(env)
    requires Inv(env, s) && id in s.docs && s.origin[id] in s.written && stored == s.written[s.origin[id]]
    requires FinalKeyOf(env, s.docs[id]) == Some(finalKey)
    ensures var t := s.(evidence := s.evidence[finalKey := stored]);
      Inv(env, t) && Evolves(env, s, t) && Stored(env, t, id)
  {
    var t := s.(evidence := s.evidence[finalKey := stored]);
    WriteCopyKeepsStored(env, s, t, id, finalKey, stored);
    assert QueueKept(env, s, t) && RequestsFrom(env, s, t);
    StepKeeps(env, s, t);
  }

  /** Removing a copy that does not match its document harms no verified copy. */
  lemma RemoveCopyKeepsStored(env: Env, s: State, t: State, id: Uuid, finalKey: string)
    requires TellsApart(env)
    requires DocsOk(env, s) && id in s.docs && FinalKeyOf(env, s.docs[id]) == Some(finalKey)
    requires !UploadMatches(env, s, id)
    requires t == s.(evidence := s.evidence - {finalKey})
    ensures StoredKept(env, s, t)
  {
    forall x | UploadMatches(env, s, x) && Stored(env, s, x) ensures Stored(env, t, x) {
      if FinalKeyOf(env, s.docs[x]) == Some(finalKey) {
        FinalKeysDiffer(env, s, x, id);
      }
    }
  }

  lemma RemoveCopyKeeps(env: Env, s: State, id: Uuid, finalKey: string)
    requires TellsApart(env)
    requires Inv(env, s) && id in s.docs && FinalKeyOf(env, s.docs[id]) == Some(finalKey) && !UploadMatches(env, s, id)
    ensures var t := s.(evidence := s.evidence - {finalKey}); Inv(env, t) && Evolves(env, s, t)
  {
    var t := s.(evidence := s.evidence - {finalKey});
    RemoveCopyKeepsStored(env, s, t, id, finalKey);
    assert QueueKept(env, s, t) && RequestsFrom(env, s, t);
    StepKeeps(env, s, t);
  }

  // ---------- worker steps that commit or touch a store ----------

  /** Two changes in a row, each of which keeps the invariant. */
  lemma ThenDrop(env: Env, s: State, t: State, r: nat)
    requires Inv(env, t) && Evolves(env, s, t)
    ensures Inv(env, Drop(t, r)) && Evolves(env, s, Drop(t, r))
  {
    DropKeeps(env, t, r);
    EvolvesTrans(env, s, t, Drop(t, r));
  }

  lemma ThenMove(env: Env, s: State, t: State, r: nat, q: Request, stage: Stage)
    requires Inv(env, t) && Evolves(env, s, t) && r in t.requests && t.requests[r] == q
    requires StageOk(env, t, t.appended[q.message], stage)
    ensures Inv(env, GoTo(t, r, q, stage)) && Evolves(env, s, GoTo(t, r, q, stage))
  {
    MoveKeeps(env, t, r, stage);
    EvolvesTrans(env, s, t, GoTo(t, r, q, stage));
  }

  /** A message's row never changes. */
  lemma SameRow(env: Env, s: State, t: State, q: Request)
    requires Evolves(env, s, t) && q.message < |s.appended|
    ensures q.message < |t.appended| && t.appended[q.message] == s.appended[q.message]
  {}

  lemma ApplyScanKeeps(env: Env, s: State, r: nat, work: Work, result: ScanResult, commit: Commit)
    requires Inv(env, s) && r in s.requests && s.requests[r].stage == ScanDecided(work, result)
    ensures var t := ApplyScanStep(s, r, s.requests[r], work, result, commit); Inv(env, t) && Evolves(env, s, t)
  {
    match commit
    case Committed => RecordedScanKeeps(env, s, r, work, result, true);
    case CommittedUnacknowledged => RecordedScanKeeps(env, s, r, work, result, false);
    case NotCommitted => DropKeeps(env, s, r);
  }

  lemma RecordedScanKeeps(env: Env, s: State, r: nat, work: Work, result: ScanResult, acknowledged: bool)
    requires Inv(env, s) && r in s.requests && s.requests[r].stage == ScanDecided(work, result)
    ensures var u := ScanCommand(s, work, result);
      var t := if acknowledged then GoTo(u, r, s.requests[r], Succeeded) else Drop(u, r);
      Inv(env, t) && Evolves(env, s, t)
  {
    var q := s.requests[r];
    var u := ScanCommand(s, work, result);
    ScanCommandKeeps(env, s, work, result);
    if acknowledged {
      RecordedScanIsDone(env, s, q, work, result);
      ScanCommandRequests(s, work, result);
      ThenMove(env, s, u, r, q, Succeeded);
    } else {
      ThenDrop(env, s, u, r);
    }
  }

  /** Once the command has committed, the request has nothing left to do. */
  lemma RecordedScanIsDone(env: Env, s: State, q: Request, work: Work, result: ScanResult)
    requires DocsOk(env, s) && RequestOk(env, s, q) && q.stage == ScanDecided(work, result)
    requires Evolves(env, s, ScanCommand(s, work, result))
    ensures var u := ScanCommand(s, work, result);
      q.message < |u.appended| && StageOk(env, u, u.appended[q.message], Succeeded)
  {
    assert DocOk(env, s, work.identity.documentId);
    ScanCommandDischarges(env, s, work, result);
    SameRow(env, s, ScanCommand(s, work, result), q);
  }

  lemma ScanCommandRequests(s: State, work: Work, result: ScanResult)
    ensures ScanCommand(s, work, result).requests == s.requests
  {
    ScanCommandIsCalm(s, work, result);
  }

  lemma CopiedKeeps(env: Env, s: State, r: nat, p: W.HandlerPayload, work: Work, finalKey: string,
                    stored: StoredObject, acknowledged: bool)
    requires TellsApart(env)
    requires Inv(env, s) && r in s.requests && s.requests[r].stage == FinalizeLoaded(p, work)
    requires env.finalKey(work.workspaceId, work.identity, work.filename) == Some(finalKey)
    requires p.objectKey in s.written && stored == s.written[p.objectKey]
    ensures var u := s.(evidence := s.evidence[finalKey := stored]);
      var t := if acknowledged then GoTo(u, r, s.requests[r], FinalizeCopied(p, work, finalKey, stored))
        else Drop(u, r);
      Inv(env, t) && Evolves(env, s, t)
  {
    var q := s.requests[r];
    assert RequestOk(env, s, q);
    var u := s.(evidence := s.evidence[finalKey := stored]);
    WriteCopyKeeps(env, s, work.identity.documentId, finalKey, stored);
    if acknowledged {
      ThenMove(env, s, u, r, q, FinalizeCopied(p, work, finalKey, stored));
    } else {
      ThenDrop(env, s, u, r);
    }
  }

  lemma PromotedIs(env: Env, s: State, r: nat, q: Request, p: W.HandlerPayload, work: Work, copy: Copy,
                   finalKey: string)
    requires env.finalKey(work.workspaceId, work.identity, work.filename) == Some(finalKey)
    requires env.sameWorkspace(p.objectKey, finalKey) && p.objectKey in s.quarantine && !copy.CopyError?
    ensures var stored := s.quarantine[p.objectKey];
      var u := s.(evidence := s.evidence[finalKey := stored]);
      PromoteStep(env, s, r, q, p, work, copy)
      == if copy.CopyDone? then GoTo(u, r, q, FinalizeCopied(p, work, finalKey, stored)) else Drop(u, r)
  {}

  lemma PromotedKeeps(env: Env, s: State, r: nat, p: W.HandlerPayload, work: Work, copy: Copy, finalKey: string)
    requires TellsApart(env)
    requires Inv(env, s) && r in s.requests && s.requests[r].stage == FinalizeLoaded(p, work)
    requires env.finalKey(work.workspaceId, work.identity, work.filename) == Some(finalKey)
    requires env.sameWorkspace(p.objectKey, finalKey) && p.objectKey in s.quarantine && !copy.CopyError?
    ensures var t := PromoteStep(env, s, r, s.requests[r], p, work, copy); Inv(env, t) && Evolves(env, s, t)
  {
    PromotedIs(env, s, r, s.requests[r], p, work, copy, finalKey);
    CopiedKeeps(env, s, r, p, work, finalKey, s.quarantine[p.objectKey], copy.CopyDone?);
  }

  lemma PromoteKeeps(env: Env, s: State, r: nat, p: W.HandlerPayload, work: Work, copy: Copy)
    requires TellsApart(env)
    requires Inv(env, s) && r in s.requests && s.requests[r].stage == FinalizeLoaded(p, work)
    ensures var t := PromoteStep(env, s, r, s.requests[r], p, work, copy); Inv(env, t) && Evolves(env, s, t)
  {
    var t := PromoteStep(env, s, r, s.requests[r], p, work, copy);
    var key := env.finalKey(work.workspaceId, work.identity, work.filename);
    if key.None? || !env.sameWorkspace(p.objectKey, key.value) || p.objectKey !in s.quarantine || copy.CopyError? {
      assert t == Drop(s, r);
      DropKeeps(env, s, r);
    } else {
      PromotedKeeps(env, s, r, p, work, copy, key.value);
    }
  }

  lemma CheckCopyKeeps(
      env: Env, s: State, r: nat, p: W.HandlerPayload, work: Work, finalKey: string, stored: StoredObject,
        deleted: bool)
    requires TellsApart(env)
    requires Inv(env, s) && r in s.requests && s.requests[r].stage == FinalizeCopied(p, work, finalKey, stored)
    ensures var t := CheckCopyStep(env, s, r, s.requests[r], p, work, finalKey, stored, deleted);
      Inv(env, t) && Evolves(env, s, t)
  {
    var q := s.requests[r];
    assert RequestOk(env, s, q);
    if Matches(env, stored, work) {
      MoveKeeps(env, s, r, FinalizeVerified(p, work, finalKey));
    } else if deleted {
      RemoveCopyKeeps(env, s, work.identity.documentId, finalKey);
      ThenDrop(env, s, s.(evidence := s.evidence - {finalKey}), r);
    } else {
      DropKeeps(env, s, r);
    }
  }

  lemma FinalizationRowKnown(env: Env, s: State, row: nat)
    requires RowsOk(env, s) && row < |s.appended| && s.appended[row].FinalizationRequested?
    ensures s.appended[row].identity.documentId in s.finalRow
  {
    assert RowOk(env, s, row);
  }

  lemma ApplyFinalizeKeeps(
      env: Env, s: State, r: nat, p: W.HandlerPayload, work: Work, finalKey: string, commit: Commit)
    requires Inv(env, s) && r in s.requests && s.requests[r].stage == FinalizeVerified(p, work, finalKey)
    ensures var t := ApplyFinalizeStep(s, r, s.requests[r], p, work, finalKey, commit);
      Inv(env, t) && Evolves(env, s, t)
  {
    match commit
    case Committed => RecordedFinalizationKeeps(env, s, r, p, work, finalKey, true);
    case CommittedUnacknowledged => RecordedFinalizationKeeps(env, s, r, p, work, finalKey, false);
    case NotCommitted => DropKeeps(env, s, r);
  }

  lemma RecordedFinalizationKeeps(
      env: Env, s: State, r: nat, p: W.HandlerPayload, work: Work, finalKey: string, acknowledged: bool)
    requires Inv(env, s) && r in s.requests && s.requests[r].stage == FinalizeVerified(p, work, finalKey)
    ensures var u := FinalizeCommand(s, work, finalKey);
      var next := if FinalizeApplies(s, work) then FinalizeApplied(p) else Succeeded;
      var t := if acknowledged then GoTo(u, r, s.requests[r], next) else Drop(u, r);
      Inv(env, t) && Evolves(env, s, t)
  {
    var q := s.requests[r];
    var u := FinalizeCommand(s, work, finalKey);
    assert RequestOk(env, s, q);
    FinalizeCommandKeeps(env, s, work, finalKey);
    if acknowledged {
      RecordedFinalizationIsDone(env, s, q, p, work, finalKey);
      FinalizeCommandRequests(s, work, finalKey);
      ThenMove(env, s, u, r, q, if FinalizeApplies(s, work) then FinalizeApplied(p) else Succeeded);
    } else {
      ThenDrop(env, s, u, r);
    }
  }

  lemma RecordedFinalizationIsDone(env: Env, s: State, q: Request, p: W.HandlerPayload, work: Work, finalKey: string)
    requires DocsOk(env, s) && RowsOk(env, s) && RequestOk(env, s, q) && q.stage == FinalizeVerified(p, work, finalKey)
    requires Evolves(env, s, FinalizeCommand(s, work, finalKey))
    ensures var u := FinalizeCommand(s, work, finalKey);
      q.message < |u.appended| && Discharged(env, u, u.appended[q.message])
  {
    FinalizationRowKnown(env, s, q.message);
    assert DocOk(env, s, work.identity.documentId);
    FinalizeCommandDischarges(env, s, work, finalKey);
    SameRow(env, s, FinalizeCommand(s, work, finalKey), q);
  }

  lemma FinalizeCommandRequests(s: State, work: Work, finalKey: string)
    ensures FinalizeCommand(s, work, finalKey).requests == s.requests
  {
    FinalizeCommandIsCalm(s, work, finalKey);
  }

  lemma DeleteSourceKeeps(env: Env, s: State, r: nat, p: W.HandlerPayload, deleted: bool)
    requires Inv(env, s) && r in s.requests && s.requests[r].stage == FinalizeApplied(p)
    ensures var t := DeleteSourceStep(s, r, s.requests[r], p, deleted); Inv(env, t) && Evolves(env, s, t)
  {
    var q := s.requests[r];
    assert RequestOk(env, s, q);
    if deleted {
      var u := s.(quarantine := s.quarantine - {p.objectKey});
      RemoveUploadKeeps(env, s, p.objectKey);
      SameRow(env, s, u, q);
      ThenMove(env, s, u, r, q, Succeeded);
    } else {
      MoveKeeps(env, s, r, Succeeded);
    }
  }

  // ---------- every step ----------

  lemma ApiKeeps(env: Env, s: State, l: Label, t: State)
    requires Inv(env, s) && t == NextApi(s, l)
    ensures Inv(env, t) && Evolves(env, s, t)
  {
    if l.CreatePolicy? {
      CreatePolicyKeeps(env, s, l.policy, l.workspace);
    } else if l.ArchivePolicy? {
      ArchivePolicyKeeps(env, s, l.policy);
    } else if l.Upload? {
      UploadKeeps(env, s, l.key, l.stored);
    } else {
      DocumentApiKeeps(env, s, l, t);
    }
  }

  lemma DocumentApiKeeps(env: Env, s: State, l: Label, t: State)
    requires Inv(env, s) && t == NextApi(s, l) && !l.CreatePolicy? && !l.ArchivePolicy? && !l.Upload?
    ensures Inv(env, t) && Evolves(env, s, t)
  {
    if l.CreateDocument? {
      CreateDocumentKeeps(env, s, l.identity, l.workspace, l.user, l.payload, l.at);
    } else if l.ArchiveDocument? {
      ArchiveDocumentKeeps(env, s, l.document);
    } else if l.DiscardUpload? {
      RemoveUploadKeeps(env, s, l.key);
    } else {
      NothingHappens(env, s);
    }
  }

  lemma QueueKeeps(env: Env, s: State, l: Label, t: State)
    requires Inv(env, s) && t == NextQueue(env, s, l)
    ensures Inv(env, t) && Evolves(env, s, t)
  {
    if l.List? {
      assert t == ListStep(s, l.row);
      ListKeeps(env, s, l.row);
    } else if l.Unlist? {
      assert t == UnlistStep(s, l.row);
      UnlistKeeps(env, s, l.row);
    } else if l.Publish? {
      assert t == PublishStep(s, l.row);
      PublishKeeps(env, s, l.row);
    } else if l.DeleteRow? {
      assert t == DeleteRowStep(s, l.row);
      DeleteRowKeeps(env, s, l.row);
    } else if l.DeadLetter? {
      assert t == DeadLetterStep(s, l.row);
      DeadLetterKeeps(env, s, l.row);
    } else {
      MessageKeeps(env, s, l, t);
    }
  }

  lemma DeliverLabelKeeps(env: Env, s: State, l: Label, t: State)
    requires Inv(env, s) && l.Deliver? && t == NextQueue(env, s, l)
    ensures Inv(env, t) && Evolves(env, s, t)
  {
    assert t == DeliverStep(env, s, l.row, l.request, l.delivery);
    DeliverKeeps(env, s, l.row, l.request, l.delivery);
  }

  lemma MessageKeeps(env: Env, s: State, l: Label, t: State)
    requires Inv(env, s) && t == NextQueue(env, s, l) && !l.List? && !l.Unlist?
    requires !l.Publish? && !l.DeleteRow? && !l.DeadLetter?
    ensures Inv(env, t) && Evolves(env, s, t)
  {
    if l.Deliver? {
      DeliverLabelKeeps(env, s, l, t);
    } else if l.Acknowledge? {
      assert t == AcknowledgeStep(s, l.request);
      AcknowledgeKeeps(env, s, l.request);
    } else if l.Crash? {
      assert t == Drop(s, l.request);
      DropKeeps(env, s, l.request);
    } else {
      assert t == s;
      NothingHappens(env, s);
    }
  }

  lemma ScanStepKeeps(env: Env, s: State, r: nat, l: Label, t: State)
    requires Inv(env, s) && r in s.requests && t == NextRequest(env, s, r, s.requests[r], l)
    requires ScanStage(s.requests[r].stage) && Fits(s.requests[r].stage, l)
    ensures Inv(env, t) && Evolves(env, s, t)
  {
    var stage := s.requests[r].stage;
    if stage.ScanStarted? {
      LoadScanKeeps(env, s, r, stage.payload);
    } else if stage.ScanLoaded? {
      FetchKeeps(env, s, r, stage.work, l.read);
    } else {
      VerdictOrApplyKeeps(env, s, r, l, t);
    }
  }

  lemma VerdictOrApplyKeeps(env: Env, s: State, r: nat, l: Label, t: State)
    requires Inv(env, s) && r in s.requests && t == NextRequest(env, s, r, s.requests[r], l)
    requires (s.requests[r].stage.ScanFetched? && l.Scan?) || (s.requests[r].stage.ScanDecided? && l.ApplyScan?)
    ensures Inv(env, t) && Evolves(env, s, t)
  {
    var stage := s.requests[r].stage;
    if stage.ScanFetched? {
      VerdictKeeps(env, s, r, stage.work, stage.stored, l.verdict);
    } else {
      ApplyScanKeeps(env, s, r, stage.work, stage.result, l.commit);
    }
  }

  lemma FinalizeStepKeeps(env: Env, s: State, r: nat, l: Label, t: State)
    requires TellsApart(env)
    requires Inv(env, s) && r in s.requests && t == NextRequest(env, s, r, s.requests[r], l)
    requires !ScanStage(s.requests[r].stage) && Fits(s.requests[r].stage, l)
    ensures Inv(env, t) && Evolves(env, s, t)
  {
    var stage := s.requests[r].stage;
    if stage.FinalizeStarted? {
      LoadFinalizeKeeps(env, s, r, stage.payload);
    } else if stage.FinalizeLoaded? {
      PromoteKeeps(env, s, r, stage.payload, stage.work, l.copy);
    } else if stage.FinalizeCopied? {
      CheckCopyKeeps(env, s, r, stage.payload, stage.work, stage.finalKey, stage.copied, l.deleted);
    } else {
      ApplyOrDeleteKeeps(env, s, r, l, t);
    }
  }

  lemma ApplyOrDeleteKeeps(env: Env, s: State, r: nat, l: Label, t: State)
    requires Inv(env, s) && r in s.requests && t == NextRequest(env, s, r, s.requests[r], l)
    requires (s.requests[r].stage.FinalizeVerified? && l.ApplyFinalize?)
      || (s.requests[r].stage.FinalizeApplied? && l.DeleteSource?)
    ensures Inv(env, t) && Evolves(env, s, t)
  {
    var stage := s.requests[r].stage;
    if stage.FinalizeVerified? {
      ApplyFinalizeKeeps(env, s, r, stage.payload, stage.work, stage.finalKey, l.commit);
    } else {
      DeleteSourceKeeps(env, s, r, stage.payload, l.deleted);
    }
  }

  /** Whatever the API, the dequeuer, Pub/Sub or a worker does next, the invariant survives. */
  lemma NextKeeps(env: Env, s: State, l: Label)
    requires TellsApart(env)
    requires Inv(env, s)
    ensures Inv(env, Next(env, s, l)) && Evolves(env, s, Next(env, s, l))
  {
    match RequestOf(l)
    case None =>
      if IsQueueLabel(l) {
        QueueKeeps(env, s, l, Next(env, s, l));
      } else {
        ApiKeeps(env, s, l, Next(env, s, l));
      }
    case Some(r) =>
      if r !in s.requests {
        NothingHappens(env, s);
      } else if !Fits(s.requests[r].stage, l) {
        UnfitDoesNothing(env, s, r, s.requests[r], l);
        NothingHappens(env, s);
      } else if ScanStage(s.requests[r].stage) {
        ScanStepKeeps(env, s, r, l, Next(env, s, l));
      } else {
        FinalizeStepKeeps(env, s, r, l, Next(env, s, l));
      }
  }

  lemma {:induction false} RunKeeps(env: Env, s: State, labels: seq<Label>)
    requires TellsApart(env)
    requires Inv(env, s)
    ensures Inv(env, Run(env, s, labels)) && Evolves(env, s, Run(env, s, labels))
    decreases |labels|
  {
    if labels == [] {
      NothingHappens(env, s);
    } else {
      var t := Next(env, s, labels[0]);
      NextKeeps(env, s, labels[0]);
      RunKeeps(env, t, labels[1..]);
      EvolvesTrans(env, s, t, Run(env, t, labels[1..]));
    }
  }

  lemma InitiallyInOrder(env: Env)
    ensures Inv(env, INITIAL)
  {}
}
