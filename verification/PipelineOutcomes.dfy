/** What becomes of a document when a handler runs undisturbed from its message to its answer. */
module PipelineOutcomes {
  import opened Wrappers
  import opened Uuids
  import opened Documents
  import W = Worker
  import opened Pipeline
  import opened PipelinePhases
  import opened PipelineTheorems

  /** The calls of the two handlers after their work is loaded. */
  function ScanLabels(k: nat, read: ReadOutcome, verdict: Verdict, commit: Commit): seq<Label> {
    [Fetch(k, read), Scan(k, verdict), ApplyScan(k, commit)]
  }

  function FinalizeLabels(k: nat, copy: Copy, badCopyDeleted: bool, commit: Commit, deleted: bool): seq<Label> {
    [Promote(k, copy), CheckCopy(k, badCopyDeleted), ApplyFinalize(k, commit), DeleteSource(k, deleted)]
  }

  // ---------- loading ----------

  /** The document that the message names, as the message names it, at this status and visible to the workers. */
  ghost predicate Loadable(s: State, p: W.HandlerPayload, status: UploadStatus) {
    && p.identity.documentId in s.docs
    && var d := s.docs[p.identity.documentId];
    && d.identity == p.identity && d.objectKey == p.objectKey && d.status == status && !d.archived
    && match d.identity.owner
       case EvidenceSubmission(_) => true
       case Policy(policy) =>
         policy in s.policies && s.policies[policy].workspaceId == d.workspaceId && !s.policies[policy].archived
  }

  lemma LoadsExactly(s: State, p: W.HandlerPayload, status: UploadStatus)
    ensures LoadWork(s, p, status).Some? <==> Loadable(s, p, status)
    ensures LoadWork(s, p, status).Some? ==>
      var d := s.docs[p.identity.documentId];
      LoadWork(s, p, status) == Some(Work(d.workspaceId, d.identity, d.filename, d.contentType, d.contentLength,
                                          d.objectKey, d.checksumSha256))
  {}

  /** A delivery is the last one exactly when its attempt number has reached the maximum. */
  lemma LastDeliveryIff(env: Env, s: State, row: nat, r: nat, d: Delivery)
    requires row in s.published && row < |s.appended| && r !in s.requests
    ensures var t := Next(env, s, Deliver(row, r, d));
      r in t.requests && (t.requests[r].finalDelivery <==> d.attempt.Some? && d.attempt.value >= d.maxAttempts)
  {
    DeliverIs(env, s, row, r, d);
  }

  // ---------- scanning ----------

  ghost predicate SameAs(env: Env, stored: StoredObject, work: Work) {
    && stored.contentType == work.contentType && |stored.bytes| == work.contentLength
    && env.sha(stored.bytes) == work.checksumSha256
  }

  /** The upload is there, with the recorded type, length and digest. */
  ghost predicate UploadIntact(env: Env, s: State, work: Work) {
    work.objectKey in s.quarantine && SameAs(env, s.quarantine[work.objectKey], work)
  }

  /**
    What the handler decides: what cannot be known is tried again until the last delivery and then counts as a failure;
    a missing upload is a failure at once; a key or length that cannot be right is tried again for ever.
   */
  lemma DecidesExactly(env: Env, s: State, k: nat, q: Request, work: Work, read: ReadOutcome, verdict: Verdict)
    requires At(s, k, q) && q.stage == ScanLoaded(work)
    ensures var t := Turn(env, Turn(env, s, k, Fetch(k, read)), k, Scan(k, verdict));
      var unsure := if q.finalDelivery then Some(Failed) else None;
      var decided :=
        if !env.validKey(work.objectKey) then None
        else if read.ReadError? then unsure
        else if work.objectKey !in s.quarantine then Some(Failed)
        else if work.contentLength < 0 then None
        else if !UploadIntact(env, s, work) then unsure
        else match verdict
             case SaysClean => Some(Clean)
             case SaysMalicious => Some(Malicious)
             case SaysFailed => Some(Failed)
             case ScannerError => unsure;
      && t.docs == s.docs
      && if decided.Some? then At(t, k, q.(stage := ScanDecided(work, decided.value))) else k !in t.requests
  {
    var u := FetchStep(env, s, k, q, work, read);
    FetchGoesTo(env, s, k, q, work, read);
    FetchIs(env, s, k, q, work, read);
    if k in u.requests && u.requests[k].stage.ScanFetched? {
      VerdictGoesTo(env, u, k, u.requests[k], verdict);
    } else {
      Idle(env, u, k, Scan(k, verdict));
    }
  }

  lemma FetchIs(env: Env, s: State, k: nat, q: Request, work: Work, read: ReadOutcome)
    requires At(s, k, q) && q.stage == ScanLoaded(work)
    ensures Turn(env, s, k, Fetch(k, read)) == FetchStep(env, s, k, q, work, read)
  {}

  lemma FetchGoesTo(env: Env, s: State, k: nat, q: Request, work: Work, read: ReadOutcome)
    ensures var t := FetchStep(env, s, k, q, work, read);
      && t.docs == s.docs
      && if !env.validKey(work.objectKey) then k !in t.requests
         else if read.ReadError? then Unsure(t, k, q, work)
         else if work.objectKey !in s.quarantine then At(t, k, q.(stage := ScanDecided(work, Failed)))
         else if work.contentLength < 0 then k !in t.requests
         else if !UploadIntact(env, s, work) then Unsure(t, k, q, work)
         else At(t, k, q.(stage := ScanFetched(work, s.quarantine[work.objectKey])))
  {
    UnsureIs(s, k, q, work);
    if work.objectKey in s.quarantine {
      FoundGoesTo(env, s, k, q, work);
    } else {
      NotFoundGoesTo(s, k, q, work);
    }
  }

  lemma NotFoundGoesTo(s: State, k: nat, q: Request, work: Work)
    ensures k !in Drop(s, k).requests && Drop(s, k).docs == s.docs
    ensures var t := GoTo(s, k, q, ScanDecided(work, Failed));
      At(t, k, q.(stage := ScanDecided(work, Failed))) && t.docs == s.docs
  {
    Gone(s, k);
    Moved(s, k, q, ScanDecided(work, Failed));
  }

  lemma FoundGoesTo(env: Env, s: State, k: nat, q: Request, work: Work)
    requires work.objectKey in s.quarantine
    ensures k !in Drop(s, k).requests && Drop(s, k).docs == s.docs
    ensures var t := GoTo(s, k, q, ScanFetched(work, s.quarantine[work.objectKey]));
      At(t, k, q.(stage := ScanFetched(work, s.quarantine[work.objectKey]))) && t.docs == s.docs
    ensures Matches(env, s.quarantine[work.objectKey], work) <==> UploadIntact(env, s, work)
  {
    Gone(s, k);
    Moved(s, k, q, ScanFetched(work, s.quarantine[work.objectKey]));
  }

  lemma UnsureIs(s: State, k: nat, q: Request, work: Work)
    ensures Unsure(FailOrRetry(s, k, q, work), k, q, work) && FailOrRetry(s, k, q, work).docs == s.docs
  {
    Moved(s, k, q, ScanDecided(work, Failed));
    Gone(s, k);
  }

  ghost predicate Unsure(t: State, k: nat, q: Request, work: Work) {
    if q.finalDelivery then At(t, k, q.(stage := ScanDecided(work, Failed))) else k !in t.requests
  }

  lemma VerdictGoesTo(env: Env, s: State, k: nat, q: Request, verdict: Verdict)
    requires At(s, k, q) && q.stage.ScanFetched?
    ensures var t := Turn(env, s, k, Scan(k, verdict));
      && t.docs == s.docs
      && match verdict
         case SaysClean => At(t, k, q.(stage := ScanDecided(q.stage.work, Clean)))
         case SaysMalicious => At(t, k, q.(stage := ScanDecided(q.stage.work, Malicious)))
         case SaysFailed => At(t, k, q.(stage := ScanDecided(q.stage.work, Failed)))
         case ScannerError => Unsure(t, k, q, q.stage.work)
  {
    assert Turn(env, s, k, Scan(k, verdict)) == VerdictStep(s, k, q, q.stage.work, q.stage.stored, verdict);
  }

  /** A pending document gets the status of the verdict, and only that. */
  lemma RecordsExactly(env: Env, s: State, k: nat, q: Request, work: Work, result: ScanResult, commit: Commit)
    requires At(s, k, q) && q.stage == ScanDecided(work, result) && work.identity.documentId in s.docs
    requires var d := s.docs[work.identity.documentId];
      d.identity == work.identity && d.objectKey == work.objectKey && d.status == PendingUpload && !d.archived
    ensures var t := Turn(env, s, k, ApplyScan(k, commit));
      var id := work.identity.documentId;
      && Returned(t, k, commit.Committed?)
      && t.docs == if commit.NotCommitted? then s.docs
                   else s.docs[id := s.docs[id].(status := match result
                                                           case Clean => Finalizing
                                                           case Malicious => ContainsVirus
                                                           case Failed => FailedUpload)]
  {
    ScanCommandWorld(s, work, result);
    var u := if commit.NotCommitted? then s else ScanCommand(s, work, result);
    assert Turn(env, s, k, ApplyScan(k, commit)) == if commit.Committed? then GoTo(u, k, q, Succeeded) else Drop(u, k);
  }

  lemma ScanFromLoaded(env: Env, s: State, k: nat, q: Request, work: Work, read: ReadOutcome, verdict: Verdict,
                       commit: Commit, decided: Option<ScanResult>)
    requires At(s, k, q) && work.identity.documentId in s.docs
    requires var d := s.docs[work.identity.documentId];
      d.identity == work.identity && d.objectKey == work.objectKey && d.status == PendingUpload && !d.archived
    requires var t := Turn(env, Turn(env, s, k, Fetch(k, read)), k, Scan(k, verdict));
      && t.docs == s.docs
      && if decided.Some? then At(t, k, q.(stage := ScanDecided(work, decided.value))) else k !in t.requests
    ensures var t := Turns(env, s, k, ScanLabels(k, read, verdict, commit));
      var id := work.identity.documentId;
      && Returned(t, k, decided.Some? && commit.Committed?)
      && t.docs == if decided.None? || commit.NotCommitted? then s.docs
                   else s.docs[id := s.docs[id].(status := match decided.value
                                                           case Clean => Finalizing
                                                           case Malicious => ContainsVirus
                                                           case Failed => FailedUpload)]
  {
    TurnsThree(env, s, k, ScanLabels(k, read, verdict, commit));
    var t := Turn(env, Turn(env, s, k, Fetch(k, read)), k, Scan(k, verdict));
    if decided.Some? {
      RecordsExactly(env, t, k, q.(stage := ScanDecided(work, decided.value)), work, decided.value, commit);
    } else {
      Idle(env, t, k, ApplyScan(k, commit));
    }
  }

  /** The whole scan handler: what it makes of the document, and what it answers. */
  lemma ScanOutcome(env: Env, s: State, k: nat, p: W.HandlerPayload, read: ReadOutcome, verdict: Verdict,
                    commit: Commit)
    requires k in s.requests && s.requests[k].stage == ScanStarted(p) && Loadable(s, p, PendingUpload)
    ensures var t := Run(env, s, [Load(k)] + ScanLabels(k, read, verdict, commit));
      var id := p.identity.documentId;
      var work := WorkOf(s.docs[id]);
      var unsure := if s.requests[k].finalDelivery then Some(Failed) else None;
      var decided :=
        if !env.validKey(p.objectKey) then None
        else if read.ReadError? then unsure
        else if p.objectKey !in s.quarantine then Some(Failed)
        else if s.docs[id].contentLength < 0 then None
        else if !UploadIntact(env, s, work) then unsure
        else match verdict
             case SaysClean => Some(Clean)
             case SaysMalicious => Some(Malicious)
             case SaysFailed => Some(Failed)
             case ScannerError => unsure;
      && Returned(t, k, decided.Some? && commit.Committed?)
      && t.docs == if decided.None? || commit.NotCommitted? then s.docs
                   else s.docs[id := s.docs[id].(status := match decided.value
                                                           case Clean => Finalizing
                                                           case Malicious => ContainsVirus
                                                           case Failed => FailedUpload)]
  {
    var q := s.requests[k];
    var work := WorkOf(s.docs[p.identity.documentId]);
    LoadsExactly(s, p, PendingUpload);
    RunFromLoad(env, s, k, ScanLabels(k, read, verdict, commit));
    LoadGoesTo(env, s, k, q, p, Some(work));
    var u := GoTo(s, k, q, ScanLoaded(work));
    Moved(s, k, q, ScanLoaded(work));
    DecidesExactly(env, u, k, q.(stage := ScanLoaded(work)), work, read, verdict);
    var t := Turn(env, Turn(env, u, k, Fetch(k, read)), k, Scan(k, verdict));
    var decided := if k in t.requests then Some(t.requests[k].stage.result) else None;
    ScanFromLoaded(env, u, k, q.(stage := ScanLoaded(work)), work, read, verdict, commit, decided);
  }

  /** Without work to load nothing happens, and the message is done. */
  lemma NothingToScan(env: Env, s: State, k: nat, p: W.HandlerPayload, read: ReadOutcome, verdict: Verdict,
                      commit: Commit)
    requires k in s.requests && s.requests[k].stage == ScanStarted(p) && !Loadable(s, p, PendingUpload)
    ensures var t := Run(env, s, [Load(k)] + ScanLabels(k, read, verdict, commit));
      WorldOf(t) == WorldOf(s) && Returned(t, k, true)
  {
    var q := s.requests[k];
    LoadsExactly(s, p, PendingUpload);
    RunFromLoad(env, s, k, ScanLabels(k, read, verdict, commit));
    LoadGoesTo(env, s, k, q, p, None);
    Moved(s, k, q, Succeeded);
    RestIsIdle(env, GoTo(s, k, q, Succeeded), k, true, ScanLabels(k, read, verdict, commit));
  }

  // ---------- finalization ----------

  lemma AppliesExactly(env: Env, s: State, k: nat, q: Request, work: Work, commit: Commit)
    requires At(s, k, q) && q.stage.FinalizeVerified? && q.stage.work == work && work.identity.documentId in s.docs
    requires var d := s.docs[work.identity.documentId];
      d.identity == work.identity && d.objectKey == work.objectKey && d.status == Finalizing && !d.archived
    ensures var t := Turn(env, s, k, ApplyFinalize(k, commit));
      var id := work.identity.documentId;
      && t.evidence == s.evidence && t.quarantine == s.quarantine
      && t.docs == (if commit.NotCommitted? then s.docs
                    else s.docs[id := s.docs[id].(status := Uploaded, objectKey := q.stage.finalKey)])
      && if commit.Committed? then At(t, k, q.(stage := FinalizeApplied(q.stage.payload))) else k !in t.requests
  {
    var u := if commit.NotCommitted? then s else FinalizeCommand(s, work, q.stage.finalKey);
    var t := Turn(env, s, k, ApplyFinalize(k, commit));
    if commit.Committed? {
      assert t == GoTo(u, k, q, FinalizeApplied(q.stage.payload));
      Moved(u, k, q, FinalizeApplied(q.stage.payload));
    } else {
      assert t == Drop(u, k);
      Gone(u, k);
    }
  }

  /** When the command finds nothing to do, the message is done, and the upload is left where it is. */
  lemma NothingApplied(env: Env, s: State, k: nat, q: Request, work: Work)
    requires At(s, k, q) && q.stage.FinalizeVerified? && q.stage.work == work
    requires work.identity.documentId in s.docs ==>
      var d := s.docs[work.identity.documentId];
      d.identity != work.identity || d.objectKey != work.objectKey || d.status != Finalizing || d.archived
    ensures var t := Turn(env, s, k, ApplyFinalize(k, Committed)); WorldOf(t) == WorldOf(s) && Returned(t, k, true)
  {
    assert Turn(env, s, k, ApplyFinalize(k, Committed)) == GoTo(s, k, q, Succeeded);
    Moved(s, k, q, Succeeded);
  }

  lemma DeletesExactly(env: Env, s: State, k: nat, q: Request, deleted: bool)
    requires At(s, k, q) && q.stage.FinalizeApplied?
    ensures var t := Turn(env, s, k, DeleteSource(k, deleted));
      && t.docs == s.docs && t.evidence == s.evidence && Returned(t, k, true)
      && t.quarantine == if deleted then s.quarantine - {q.stage.payload.objectKey} else s.quarantine
  {
    var u := if deleted then s.(quarantine := s.quarantine - {q.stage.payload.objectKey}) else s;
    assert Turn(env, s, k, DeleteSource(k, deleted)) == GoTo(u, k, q, Succeeded);
    Moved(u, k, q, Succeeded);
  }

  /** From a verified copy on: the upload is recorded, then its quarantine object goes, or is left behind. */
  lemma VerifiedOutcome(env: Env, s: State, k: nat, q: Request, work: Work, commit: Commit, deleted: bool)
    requires At(s, k, q) && q.stage.FinalizeVerified? && q.stage.work == work && work.identity.documentId in s.docs
    requires var d := s.docs[work.identity.documentId];
      d.identity == work.identity && d.objectKey == work.objectKey && d.status == Finalizing && !d.archived
    ensures var t := Turn(env, Turn(env, s, k, ApplyFinalize(k, commit)), k, DeleteSource(k, deleted));
      var id := work.identity.documentId;
      && Returned(t, k, commit.Committed?) && t.evidence == s.evidence
      && t.docs == (if commit.NotCommitted? then s.docs
                    else s.docs[id := s.docs[id].(status := Uploaded, objectKey := q.stage.finalKey)])
      && t.quarantine == if commit.Committed? && deleted then s.quarantine - {q.stage.payload.objectKey}
                         else s.quarantine
  {
    AppliesExactly(env, s, k, q, work, commit);
    var t := Turn(env, s, k, ApplyFinalize(k, commit));
    if commit.Committed? {
      DeletesExactly(env, t, k, q.(stage := FinalizeApplied(q.stage.payload)), deleted);
    } else {
      Idle(env, t, k, DeleteSource(k, deleted));
    }
  }

  /** The copy can be made: there is a final key in the workspace of the staged one, and the upload is there. */
  ghost predicate Copies(env: Env, s: State, p: W.HandlerPayload, work: Work, copy: Copy) {
    var key := env.finalKey(work.workspaceId, work.identity, work.filename);
    key.Some? && env.sameWorkspace(p.objectKey, key.value) && p.objectKey in s.quarantine && !copy.CopyError?
  }

  /** The finalization handler when nothing is copied: everything stays as it was, and the message is tried again. */
  lemma NothingCopied(env: Env, s: State, k: nat, p: W.HandlerPayload, copy: Copy, badCopyDeleted: bool,
                      commit: Commit, deleted: bool)
    requires k in s.requests && s.requests[k].stage == FinalizeStarted(p) && Loadable(s, p, Finalizing)
    requires !Copies(env, s, p, WorkOf(s.docs[p.identity.documentId]), copy)
    ensures var t := Run(env, s, [Load(k)] + FinalizeLabels(k, copy, badCopyDeleted, commit, deleted));
      WorldOf(t) == WorldOf(s) && Returned(t, k, false)
  {
    var work := WorkOf(s.docs[p.identity.documentId]);
    var q := s.requests[k].(stage := FinalizeLoaded(p, work));
    var u := FinalizationLoads(env, s, k, p, copy, badCopyDeleted, commit, deleted);
    PromoteGoesTo(env, u, k, q, p, work, copy);
    RestIsIdle(env, Turn(env, u, k, Promote(k, copy)), k, false, AfterCopy(k, badCopyDeleted, commit, deleted));
  }

  function AfterCopy(k: nat, badCopyDeleted: bool, commit: Commit, deleted: bool): seq<Label> {
    [CheckCopy(k, badCopyDeleted), ApplyFinalize(k, commit), DeleteSource(k, deleted)]
  }

  lemma FinalizationLoads(env: Env, s: State, k: nat, p: W.HandlerPayload, copy: Copy, badCopyDeleted: bool,
                          commit: Commit, deleted: bool) returns (u: State)
    requires k in s.requests && s.requests[k].stage == FinalizeStarted(p) && Loadable(s, p, Finalizing)
    ensures var work := WorkOf(s.docs[p.identity.documentId]);
      At(u, k, s.requests[k].(stage := FinalizeLoaded(p, work))) && WorldOf(u) == WorldOf(s)
    ensures Run(env, s, [Load(k)] + FinalizeLabels(k, copy, badCopyDeleted, commit, deleted))
         == Turns(env, Turn(env, u, k, Promote(k, copy)), k, AfterCopy(k, badCopyDeleted, commit, deleted))
  {
    var q := s.requests[k];
    var work := WorkOf(s.docs[p.identity.documentId]);
    LoadsExactly(s, p, Finalizing);
    RunFromLoad(env, s, k, FinalizeLabels(k, copy, badCopyDeleted, commit, deleted));
    LoadGoesTo(env, s, k, q, p, Some(work));
    u := GoTo(s, k, q, FinalizeLoaded(p, work));
    Moved(s, k, q, FinalizeLoaded(p, work));
    TurnsFirst(env, u, k, Promote(k, copy), AfterCopy(k, badCopyDeleted, commit, deleted));
    assert [Promote(k, copy)] + AfterCopy(k, badCopyDeleted, commit, deleted)
        == FinalizeLabels(k, copy, badCopyDeleted, commit, deleted);
  }

  /**
    When the upload is copied: only a copy that is acknowledged and matches is recorded, under the final key, and only
    then is the upload deleted; a copy that does not match is removed again if possible.
   */
  lemma FinalizationOutcome(env: Env, s: State, k: nat, p: W.HandlerPayload, copy: Copy, badCopyDeleted: bool,
                            commit: Commit, deleted: bool, finalKey: string)
    requires k in s.requests && s.requests[k].stage == FinalizeStarted(p) && Loadable(s, p, Finalizing)
    requires Copies(env, s, p, WorkOf(s.docs[p.identity.documentId]), copy)
    requires var d := s.docs[p.identity.documentId];
      env.finalKey(d.workspaceId, d.identity, d.filename) == Some(finalKey)
    ensures var t := Run(env, s, [Load(k)] + FinalizeLabels(k, copy, badCopyDeleted, commit, deleted));
      var intact := UploadIntact(env, s, WorkOf(s.docs[p.identity.documentId]));
      if copy.CopyDone? then FinalizedAs(s, t, k, p, finalKey, intact, badCopyDeleted, commit, deleted)
      else FinalizedAs(s, t, k, p, finalKey, false, false, commit, deleted)
  {
    var work := WorkOf(s.docs[p.identity.documentId]);
    var v := FinalizationCopies(env, s, k, p, copy, badCopyDeleted, commit, deleted, finalKey);
    if copy.CopyDone? {
      CopiedOutcome(env, v, k, v.requests[k], work, badCopyDeleted, commit, deleted);
      CopyReplaces(s, p, finalKey);
    } else {
      RestIsIdle(env, v, k, false, AfterCopy(k, badCopyDeleted, commit, deleted));
    }
  }

  lemma CopyReplaces(s: State, p: W.HandlerPayload, finalKey: string)
    requires p.objectKey in s.quarantine
    ensures s.evidence[finalKey := s.quarantine[p.objectKey]] - {finalKey} == s.evidence - {finalKey}
  {}

  /** The tables and stores after the upload was copied, with a good copy or one that is dropped or left. */
  ghost predicate FinalizedAs(s: State, t: State, k: nat, p: W.HandlerPayload, finalKey: string, good: bool,
                              dropped: bool, commit: Commit, deleted: bool)
    requires p.identity.documentId in s.docs && p.objectKey in s.quarantine
  {
    var id := p.identity.documentId;
    && Returned(t, k, good && commit.Committed?)
    && t.docs == (if !good || commit.NotCommitted? then s.docs
                  else s.docs[id := s.docs[id].(status := Uploaded, objectKey := finalKey)])
    && t.evidence == (if !good && dropped then s.evidence - {finalKey}
                      else s.evidence[finalKey := s.quarantine[p.objectKey]])
    && t.quarantine == if good && commit.Committed? && deleted then s.quarantine - {p.objectKey} else s.quarantine
  }

  lemma FinalizationCopies(env: Env, s: State, k: nat, p: W.HandlerPayload, copy: Copy, badCopyDeleted: bool,
                           commit: Commit, deleted: bool, finalKey: string) returns (v: State)
    requires k in s.requests && s.requests[k].stage == FinalizeStarted(p) && Loadable(s, p, Finalizing)
    requires Copies(env, s, p, WorkOf(s.docs[p.identity.documentId]), copy)
    requires var d := s.docs[p.identity.documentId];
      env.finalKey(d.workspaceId, d.identity, d.filename) == Some(finalKey)
    ensures Run(env, s, [Load(k)] + FinalizeLabels(k, copy, badCopyDeleted, commit, deleted))
         == Turns(env, v, k, AfterCopy(k, badCopyDeleted, commit, deleted))
    ensures v.docs == s.docs && v.quarantine == s.quarantine
    ensures v.evidence == s.evidence[finalKey := s.quarantine[p.objectKey]]
    ensures var work := WorkOf(s.docs[p.identity.documentId]);
      if copy.CopyDone?
      then At(v, k, s.requests[k].(stage := FinalizeCopied(p, work, finalKey, s.quarantine[p.objectKey])))
      else k !in v.requests
  {
    var work := WorkOf(s.docs[p.identity.documentId]);
    var q := s.requests[k].(stage := FinalizeLoaded(p, work));
    var u := FinalizationLoads(env, s, k, p, copy, badCopyDeleted, commit, deleted);
    PromoteGoesTo(env, u, k, q, p, work, copy);
    v := Turn(env, u, k, Promote(k, copy));
  }

  lemma CopiedOutcome(env: Env, s: State, k: nat, q: Request, work: Work, badCopyDeleted: bool, commit: Commit,
                      deleted: bool)
    requires At(s, k, q) && q.stage.FinalizeCopied? && q.stage.work == work && work.identity.documentId in s.docs
    requires var d := s.docs[work.identity.documentId];
      d.identity == work.identity && d.objectKey == work.objectKey && d.status == Finalizing && !d.archived
    ensures var t := Turns(env, s, k, AfterCopy(k, badCopyDeleted, commit, deleted));
      var id := work.identity.documentId;
      var good := SameAs(env, q.stage.copied, work);
      && Returned(t, k, good && commit.Committed?)
      && t.docs == (if !good || commit.NotCommitted? then s.docs
                    else s.docs[id := s.docs[id].(status := Uploaded, objectKey := q.stage.finalKey)])
      && t.evidence == (if !good && badCopyDeleted then s.evidence - {q.stage.finalKey} else s.evidence)
      && t.quarantine == if good && commit.Committed? && deleted then s.quarantine - {q.stage.payload.objectKey}
                         else s.quarantine
  {
    TurnsThree(env, s, k, AfterCopy(k, badCopyDeleted, commit, deleted));
    CheckedExactly(env, s, k, q, work, badCopyDeleted);
    var t := Turn(env, s, k, CheckCopy(k, badCopyDeleted));
    if SameAs(env, q.stage.copied, work) {
      VerifiedOutcome(env, t, k, q.(stage := FinalizeVerified(q.stage.payload, work, q.stage.finalKey)), work, commit,
                      deleted);
    } else {
      GoneIsIdle(env, t, k, ApplyFinalize(k, commit), DeleteSource(k, deleted));
    }
  }

  lemma CheckedExactly(env: Env, s: State, k: nat, q: Request, work: Work, badCopyDeleted: bool)
    requires At(s, k, q) && q.stage.FinalizeCopied? && q.stage.work == work
    ensures var t := Turn(env, s, k, CheckCopy(k, badCopyDeleted));
      && t.docs == s.docs && t.quarantine == s.quarantine
      && if SameAs(env, q.stage.copied, work)
         then At(t, k, q.(stage := FinalizeVerified(q.stage.payload, work, q.stage.finalKey)))
           && t.evidence == s.evidence
         else k !in t.requests && t.evidence == if badCopyDeleted then s.evidence - {q.stage.finalKey} else s.evidence
  {
    CheckCopyGoesTo(env, s, k, q, q.stage.payload, work, q.stage.finalKey, q.stage.copied, badCopyDeleted);
    var t := Turn(env, s, k, CheckCopy(k, badCopyDeleted));
    assert t.docs == WorldOf(t).docs && t.quarantine == WorldOf(t).quarantine && t.evidence == WorldOf(t).evidence;
  }
}
