/**
  The two worker handlers in their own form: straight code over the document, policy and outbox tables and the
  two stores. Each is proved to leave behind exactly what the run of its protocol steps leaves behind, and to
  succeed or fail as that run does. So an undisturbed execution is one run of the protocol, in which other
  steps may fall between any two of its calls.
 */
module PipelineWorkers {
  import opened ByteStrings
  import opened Wrappers
  import opened Uuids
  import opened Documents
  import W = Worker
  import opened Pipeline
  import opened PipelineOutcomes
  import opened PipelinePhases

  datatype Fetched = GiveBack | MarkFailed | Ready(stored: StoredObject)

  class DocumentWorker {
    const env: Env
    var policies: map<Uuid, PolicyRow>
    var docs: map<Uuid, DocumentData>
    var appended: seq<Event>
    var outbox: set<nat>
    var quarantine: map<string, StoredObject>
    var evidence: map<string, StoredObject>
    ghost var verdicts: set<(Uuid, Bytes, ScanResult)>
    ghost var scanRow: map<Uuid, nat>
    ghost var finalRow: map<Uuid, nat>

    ghost function Contents(): World
      reads this
    {
      World(policies, docs, appended, outbox, quarantine, evidence, verdicts, scanRow, finalRow)
    }

    constructor (e: Env, ghost s: State, w: World)
      requires w == WorldOf(s)
      ensures env == e && Contents() == w
    {
      env := e;
      policies, docs, appended, outbox := w.policies, w.docs, w.appended, w.outbox;
      quarantine, evidence := w.quarantine, w.evidence;
      verdicts, scanRow, finalRow := w.verdicts, w.scanRow, w.finalRow;
    }

    // ---------- database ----------

    method LoadUploadWork(p: W.HandlerPayload, status: UploadStatus, ghost s: State) returns (work: Option<Work>)
      requires Contents() == WorldOf(s)
      ensures work == LoadWork(s, p, status)
    {
      var id := p.identity.documentId;
      if id !in docs || docs[id].archived || docs[id].identity != p.identity || docs[id].objectKey != p.objectKey
         || docs[id].status != status {
        return None;
      }
      var d := docs[id];
      if d.identity.owner.Policy? {
        var policy := d.identity.owner.id;
        if policy !in policies || policies[policy].workspaceId != d.workspaceId || policies[policy].archived {
          return None;
        }
      }
      work := Some(Work(d.workspaceId, d.identity, d.filename, d.contentType, d.contentLength, d.objectKey,
                        d.checksumSha256));
    }

    /** Load the aggregate and let it decide. */
    method JudgeDocument(id: Uuid, result: ScanResult) returns (d: DocumentData, t: Transition)
      requires id in docs
      ensures (d, t) == ScanData(docs[id], result)
    {
      var document := new Document.Rehydrate(docs[id]);
      match result {
        case Clean => t := document.ScanClean();
        case Malicious => t := document.ScanMalicious();
        case Failed => t := document.ScanFailed();
      }
      d := document.Data();
    }

    /** The transaction of the scan command. */
    method ScanDocument(work: Work, result: ScanResult, ghost s: State)
      requires Contents() == WorldOf(s)
      modifies this`docs, this`appended, this`outbox, this`scanRow, this`finalRow
      ensures Contents() == WorldOf(ScanCommand(s, work, result))
    {
      var id := work.identity.documentId;
      if id !in docs || docs[id].identity != work.identity || docs[id].objectKey != work.objectKey {
        return;
      }
      ScanCommandWorld(s, work, result);
      var d, t := JudgeDocument(id, result);
      if !Changed(t) {
        return;
      }
      docs := docs[id := d];
      if t.event.Some? {
        Append(t.event.value);
      }
    }

    method Append(e: Event)
      modifies this`appended, this`outbox, this`scanRow, this`finalRow
      ensures Contents() == Appended(old(Contents()), e)
    {
      outbox := outbox + {|appended|};
      if e.ScanRequested? {
        scanRow := scanRow[e.identity.documentId := |appended|];
      } else {
        finalRow := finalRow[e.identity.documentId := |appended|];
      }
      appended := appended + [e];
    }

    /** The transaction of the finalize command. */
    method FinalizeDocument(work: Work, finalKey: string, ghost s: State) returns (applied: bool)
      requires Contents() == WorldOf(s)
      modifies this`docs
      ensures Contents() == WorldOf(FinalizeCommand(s, work, finalKey))
      ensures applied == FinalizeApplies(s, work)
    {
      var id := work.identity.documentId;
      if id !in docs || docs[id].identity != work.identity || docs[id].objectKey != work.objectKey {
        return false;
      }
      var document := new Document.Rehydrate(docs[id]);
      var t := document.FinalizeUploaded(finalKey);
      applied := Changed(t);
      if applied {
        docs := docs[id := document.Data()];
      }
    }

    // ---------- the scan handler ----------

    /** The last call of the handler; its acknowledgement decides how the handler returns. */
    method ApplyResult(work: Work, result: ScanResult, commit: Commit, ghost s: State, ghost k: nat, ghost q: Request)
      returns (ok: bool)
      requires Contents() == WorldOf(s) && At(s, k, q) && q.stage == ScanDecided(work, result)
      modifies this`docs, this`appended, this`outbox, this`scanRow, this`finalRow
      ensures var t := Turn(env, s, k, ApplyScan(k, commit)); Contents() == WorldOf(t) && Returned(t, k, ok)
    {
      ghost var u := if commit.NotCommitted? then s else ScanCommand(s, work, result);
      if !commit.NotCommitted? {
        ScanDocument(work, result, s);
      }
      ok := commit.Committed?;
      Moved(u, k, q, Succeeded);
      Gone(u, k);
    }

    /** Scan the bytes and record the verdict. */
    method ScanAndApply(work: Work, stored: StoredObject, finalDelivery: bool, verdict: Verdict, commit: Commit,
                        ghost s: State, ghost k: nat, ghost q: Request)
      returns (ok: bool)
      requires Contents() == WorldOf(s) && At(s, k, q) && q.stage == ScanFetched(work, stored)
      requires q.finalDelivery == finalDelivery
      modifies this
      ensures var t := Turn(env, Turn(env, s, k, Scan(k, verdict)), k, ApplyScan(k, commit));
        Contents() == WorldOf(t) && Returned(t, k, ok)
    {
      ghost var u := Turn(env, s, k, Scan(k, verdict));
      var result := AskScanner(work, stored, finalDelivery, verdict, s, k, q);
      if result.None? {
        Idle(env, u, k, ApplyScan(k, commit));
        return false;
      }
      ok := ApplyResult(work, result.value, commit, u, k, q.(stage := ScanDecided(work, result.value)));
    }

    /** What the scanner says, which is put on record; an error counts only on the last delivery. */
    method AskScanner(work: Work, stored: StoredObject, finalDelivery: bool, verdict: Verdict,
                      ghost s: State, ghost k: nat, ghost q: Request)
      returns (result: Option<ScanResult>)
      requires Contents() == WorldOf(s) && At(s, k, q) && q.stage == ScanFetched(work, stored)
      requires q.finalDelivery == finalDelivery
      modifies this`verdicts
      ensures var t := Turn(env, s, k, Scan(k, verdict));
        && Contents() == WorldOf(t)
        && if result.Some? then At(t, k, q.(stage := ScanDecided(work, result.value))) else k !in t.requests
    {
      match verdict {
        case SaysClean => result := Some(Clean);
        case SaysMalicious => result := Some(Malicious);
        case SaysFailed => result := Some(Failed);
        case ScannerError => result := if finalDelivery then Some(Failed) else None;
      }
      if result.None? {
        Gone(s, k);
        return;
      }
      if !verdict.ScannerError? {
        verdicts := verdicts + {(work.identity.documentId, stored.bytes, result.value)};
      }
      Moved(if verdict.ScannerError? then s else Noted(s, work, stored, result.value), k, q,
            ScanDecided(work, result.value));
    }

    /** Fetch the object and compare it with the document; most failures count only on the last delivery. */
    method FetchAndCompare(work: Work, finalDelivery: bool, read: ReadOutcome, ghost s: State, ghost k: nat,
          ghost q: Request)
      returns (f: Fetched)
      requires Contents() == WorldOf(s) && At(s, k, q) && q.stage == ScanLoaded(work)
      requires q.finalDelivery == finalDelivery
      ensures var t := Turn(env, s, k, Fetch(k, read)); Contents() == WorldOf(t) && FetchedAs(f, work, t, k, q)
    {
      Gone(s, k);
      Moved(s, k, q, ScanDecided(work, Failed));
      if !env.validKey(work.objectKey) {
        return GiveBack;
      }
      if read.ReadError? {
        return if finalDelivery then MarkFailed else GiveBack;
      }
      if work.objectKey !in quarantine {
        return MarkFailed;
      }
      if work.contentLength < 0 {
        return GiveBack;
      }
      var stored := quarantine[work.objectKey];
      if stored.contentType != work.contentType || |stored.bytes| != work.contentLength
         || env.sha(stored.bytes) != work.checksumSha256 {
        return if finalDelivery then MarkFailed else GiveBack;
      }
      Moved(s, k, q, ScanFetched(work, stored));
      f := Ready(stored);
    }

    /** How far the request has come, in the protocol's terms, when fetching ended this way. */
    static ghost predicate FetchedAs(f: Fetched, work: Work, t: State, k: nat, q: Request) {
      match f
      case GiveBack => k !in t.requests
      case MarkFailed => At(t, k, q.(stage := ScanDecided(work, Failed)))
      case Ready(stored) => At(t, k, q.(stage := ScanFetched(work, stored)))
    }

    method FinishScan(f: Fetched, work: Work, finalDelivery: bool, verdict: Verdict, commit: Commit,
                      ghost t: State, ghost k: nat, ghost q: Request)
      returns (ok: bool)
      requires Contents() == WorldOf(t) && q.finalDelivery == finalDelivery && FetchedAs(f, work, t, k, q)
      modifies this
      ensures var u := Turn(env, Turn(env, t, k, Scan(k, verdict)), k, ApplyScan(k, commit));
        Contents() == WorldOf(u) && Returned(u, k, ok)
    {
      match f {
        case GiveBack =>
          GoneIsIdle(env, t, k, Scan(k, verdict), ApplyScan(k, commit));
          ok := false;
        case MarkFailed =>
          Idle(env, t, k, Scan(k, verdict));
          ok := ApplyResult(work, Failed, commit, t, k, q.(stage := ScanDecided(work, Failed)));
        case Ready(stored) =>
          ok := ScanAndApply(work, stored, finalDelivery, verdict, commit, t, k,
                             q.(stage := ScanFetched(work, stored)));
      }
    }

    method ScanWork(work: Work, finalDelivery: bool, read: ReadOutcome, verdict: Verdict, commit: Commit,
                    ghost s: State, ghost k: nat, ghost q: Request)
      returns (ok: bool)
      requires Contents() == WorldOf(s) && At(s, k, q) && q.stage == ScanLoaded(work)
      requires q.finalDelivery == finalDelivery
      modifies this
      ensures var t := Turns(env, s, k, ScanLabels(k, read, verdict, commit));
        Contents() == WorldOf(t) && Returned(t, k, ok)
    {
      TurnsThree(env, s, k, ScanLabels(k, read, verdict, commit));
      ghost var t := Turn(env, s, k, Fetch(k, read));
      var f := FetchAndCompare(work, finalDelivery, read, s, k, q);
      ok := FinishScan(f, work, finalDelivery, verdict, commit, t, k, q);
    }

    /** The scan handler leaves the tables and stores of the run of its four steps, and returns as that run does. */
    method HandleScanRequested(p: W.HandlerPayload, finalDelivery: bool, read: ReadOutcome, verdict: Verdict,
                               commit: Commit, ghost s: State, ghost k: nat)
      returns (ok: bool)
      requires Contents() == WorldOf(s) && k in s.requests
      requires s.requests[k].stage == ScanStarted(p) && s.requests[k].finalDelivery == finalDelivery
      modifies this
      ensures var t := Run(env, s, [Load(k)] + ScanLabels(k, read, verdict, commit));
        Contents() == WorldOf(t) && Returned(t, k, ok)
      ensures (Loadable(s, p, PendingUpload) && env.validKey(p.objectKey) && read.ReadDone? && commit.Committed?
               && UploadIntact(env, s, WorkOf(s.docs[p.identity.documentId])) && !verdict.ScannerError?) ==>
        ok && docs == s.docs[p.identity.documentId := s.docs[p.identity.documentId].(
          status := if verdict.SaysClean? then Finalizing else if verdict.SaysMalicious? then ContainsVirus
                    else FailedUpload)]
    {
      if Loadable(s, p, PendingUpload) {
        ScanOutcome(env, s, k, p, read, verdict, commit);
      }
      ghost var q := s.requests[k];
      ghost var rest := ScanLabels(k, read, verdict, commit);
      RunFromLoad(env, s, k, rest);
      var work := LoadUploadWork(p, PendingUpload, s);
      LoadGoesTo(env, s, k, q, p, work);
      if work.None? {
        Moved(s, k, q, Succeeded);
        RestIsIdle(env, GoTo(s, k, q, Succeeded), k, true, rest);
        return true;
      }
      Moved(s, k, q, ScanLoaded(work.value));
      ok := ScanWork(work.value, finalDelivery, read, verdict, commit, GoTo(s, k, q, ScanLoaded(work.value)), k,
                     q.(stage := ScanLoaded(work.value)));
    }

    // ---------- the finalization handler ----------

    /** Delete the quarantine object; failing to does not matter. */
    method DeleteQuarantined(p: W.HandlerPayload, deleted: bool, ghost s: State, ghost k: nat, ghost q: Request)
      requires Contents() == WorldOf(s) && At(s, k, q) && q.stage == FinalizeApplied(p)
      modifies this`quarantine
      ensures var t := Turn(env, s, k, DeleteSource(k, deleted)); Contents() == WorldOf(t) && Returned(t, k, true)
    {
      if deleted {
        quarantine := quarantine - {p.objectKey};
      }
      Moved(if deleted then s.(quarantine := quarantine) else s, k, q, Succeeded);
    }

    /** Finalize in the database, then delete the quarantine object if that changed the document. */
    method ApplyAndDelete(p: W.HandlerPayload, work: Work, finalKey: string, commit: Commit, deleted: bool,
                          ghost s: State, ghost k: nat, ghost q: Request)
      returns (ok: bool)
      requires Contents() == WorldOf(s) && At(s, k, q) && q.stage == FinalizeVerified(p, work, finalKey)
      modifies this
      ensures var t := Turn(env, Turn(env, s, k, ApplyFinalize(k, commit)), k, DeleteSource(k, deleted));
        Contents() == WorldOf(t) && Returned(t, k, ok)
    {
      ghost var u := if commit.NotCommitted? then s else FinalizeCommand(s, work, finalKey);
      var applied := false;
      if !commit.NotCommitted? {
        applied := FinalizeDocument(work, finalKey, s);
      }
      ok := commit.Committed?;
      if ok && applied {
        assert Turn(env, s, k, ApplyFinalize(k, commit)) == GoTo(u, k, q, FinalizeApplied(p));
        Moved(u, k, q, FinalizeApplied(p));
        DeleteQuarantined(p, deleted, GoTo(u, k, q, FinalizeApplied(p)), k, q.(stage := FinalizeApplied(p)));
      } else {
        ghost var t := if ok then GoTo(u, k, q, Succeeded) else Drop(u, k);
        assert Turn(env, s, k, ApplyFinalize(k, commit)) == t;
        Moved(u, k, q, Succeeded);
        Gone(u, k);
        Idle(env, t, k, DeleteSource(k, deleted));
      }
    }

    /** A copy that does not match the document is deleted, if possible, and the message is retried. */
    method CheckCopied(p: W.HandlerPayload, work: Work, finalKey: string, copied: StoredObject, badCopyDeleted: bool,
                       ghost s: State, ghost k: nat, ghost q: Request)
      returns (good: bool)
      requires Contents() == WorldOf(s) && At(s, k, q) && q.stage == FinalizeCopied(p, work, finalKey, copied)
      modifies this`evidence
      ensures var t := Turn(env, s, k, CheckCopy(k, badCopyDeleted));
        && Contents() == WorldOf(t)
        && if good then At(t, k, q.(stage := FinalizeVerified(p, work, finalKey))) else k !in t.requests
    {
      good := copied.contentType == work.contentType && |copied.bytes| == work.contentLength
              && env.sha(copied.bytes) == work.checksumSha256;
      assert good == Matches(env, copied, work);
      CheckCopyGoesTo(env, s, k, q, p, work, finalKey, copied, badCopyDeleted);
      if !good && badCopyDeleted {
        evidence := evidence - {finalKey};
        assert Contents() == WorldOf(s).(evidence := s.evidence - {finalKey});
      } else {
        assert Contents() == WorldOf(s);
      }
    }

    /** Copy the object under its final key. */
    method Promote(p: W.HandlerPayload, work: Work, copy: Copy, ghost s: State, ghost k: nat, ghost q: Request)
      returns (copied: Option<(string, StoredObject)>)
      requires Contents() == WorldOf(s) && At(s, k, q) && q.stage == FinalizeLoaded(p, work)
      modifies this`evidence
      ensures var t := Turn(env, s, k, Pipeline.Promote(k, copy));
        && Contents() == WorldOf(t)
        && match copied
           case None => Returned(t, k, false)
           case Some((finalKey, stored)) => At(t, k, q.(stage := FinalizeCopied(p, work, finalKey, stored)))
    {
      PromoteGoesTo(env, s, k, q, p, work, copy);
      var finalKey := env.finalKey(work.workspaceId, work.identity, work.filename);
      if finalKey.None? || !env.sameWorkspace(p.objectKey, finalKey.value) || p.objectKey !in quarantine
        || copy.CopyError? {
        return None;
      }
      var stored := quarantine[p.objectKey];
      evidence := evidence[finalKey.value := stored];
      copied := if copy.CopyDone? then Some((finalKey.value, stored)) else None;
    }

    method FinalizeWork(p: W.HandlerPayload, work: Work, copy: Copy, badCopyDeleted: bool, commit: Commit,
                        deleted: bool, ghost s: State, ghost k: nat, ghost q: Request)
      returns (ok: bool)
      requires Contents() == WorldOf(s) && At(s, k, q) && q.stage == FinalizeLoaded(p, work)
      modifies this
      ensures var t := Turns(env, s, k, FinalizeLabels(k, copy, badCopyDeleted, commit, deleted));
        Contents() == WorldOf(t) && Returned(t, k, ok)
    {
      ghost var rest := [CheckCopy(k, badCopyDeleted), ApplyFinalize(k, commit), DeleteSource(k, deleted)];
      TurnsFirst(env, s, k, Pipeline.Promote(k, copy), rest);
      assert [Pipeline.Promote(k, copy)] + rest == FinalizeLabels(k, copy, badCopyDeleted, commit, deleted);
      ghost var t := Turn(env, s, k, Pipeline.Promote(k, copy));
      var copied := Promote(p, work, copy, s, k, q);
      if copied.None? {
        RestIsIdle(env, t, k, false, rest);
        return false;
      }
      TurnsThree(env, t, k, rest);
      var (finalKey, stored) := copied.value;
      ghost var u := Turn(env, t, k, CheckCopy(k, badCopyDeleted));
      var good := CheckCopied(p, work, finalKey, stored, badCopyDeleted, t, k,
                              q.(stage := FinalizeCopied(p, work, finalKey, stored)));
      if !good {
        GoneIsIdle(env, u, k, ApplyFinalize(k, commit), DeleteSource(k, deleted));
        return false;
      }
      ok := ApplyAndDelete(p, work, finalKey, commit, deleted, u, k, q.(stage := FinalizeVerified(p, work, finalKey)));
    }

    /**
      The finalization handler leaves the tables and stores of the run of its five steps, and returns as that run
      does.
     */
    method HandleFinalizationRequested(p: W.HandlerPayload, copy: Copy, badCopyDeleted: bool, commit: Commit,
                                       deleted: bool, ghost s: State, ghost k: nat)
      returns (ok: bool)
      requires Contents() == WorldOf(s) && k in s.requests && s.requests[k].stage == FinalizeStarted(p)
      modifies this
      ensures var t := Run(env, s, [Load(k)] + FinalizeLabels(k, copy, badCopyDeleted, commit, deleted));
        Contents() == WorldOf(t) && Returned(t, k, ok)
    {
      ghost var q := s.requests[k];
      ghost var rest := FinalizeLabels(k, copy, badCopyDeleted, commit, deleted);
      RunFromLoad(env, s, k, rest);
      var work := LoadUploadWork(p, Finalizing, s);
      LoadGoesTo(env, s, k, q, p, work);
      if work.None? {
        Moved(s, k, q, Succeeded);
        RestIsIdle(env, GoTo(s, k, q, Succeeded), k, true, rest);
        return true;
      }
      ghost var loaded := FinalizeLoaded(p, work.value);
      Moved(s, k, q, loaded);
      ok := FinalizeWork(p, work.value, copy, badCopyDeleted, commit, deleted, GoTo(s, k, q, loaded), k,
                         q.(stage := loaded));
    }
  }
}
