/** What each step of the document pipeline leaves alone. */
module PipelineFrames {
  import opened Wrappers
  import opened Uuids
  import opened Documents
  import W = Worker
  import opened Pipeline
  import opened PipelinePhases

  /** Nothing is published, acknowledged or deleted, and no old row comes back. */
  ghost predicate Calm(s: State, t: State) {
    && s.appended <= t.appended && t.unacked == s.unacked && t.listed == s.listed
    && (forall i :: i in t.outbox ==> i in s.outbox || i >= |s.appended|)
  }

  /** No policy and no request but `r` is touched, and `r` at most moves on or ends. */
  ghost predicate OnlyMoves(s: State, t: State, r: nat) {
    && t.policies == s.policies
    && (forall x :: x in t.requests ==>
          && x in s.requests && t.requests[x].message == s.requests[x].message
          && (x != r ==> t.requests[x] == s.requests[x]))
    && (forall x :: x in s.requests && x != r ==> x in t.requests)
  }

  /** The stores are as they were. */
  ghost predicate Quiet(s: State, t: State) {
    t.evidence == s.evidence && t.quarantine == s.quarantine && t.written == s.written
  }

  /** The request is gone, or at any stage but right before a promotion. */
  ghost predicate NotPromoting(t: State, r: nat) {
    r in t.requests ==> !t.requests[r].stage.FinalizeLoaded?
  }

  lemma RowAppended(s: State, e: Event)
    ensures var t := AppendEvent(s, Some(e));
      && t.appended == s.appended + [e] && t.outbox == s.outbox + {|s.appended|} && t.unacked == s.unacked
      && t.listed == s.listed
      && t.requests == s.requests && t.docs == s.docs && t.policies == s.policies && Quiet(s, t)
  {}

  lemma AppendIsCalm(s: State, event: Option<Event>, t: State)
    requires t == AppendEvent(s, event)
    ensures Calm(s, t) && t.requests == s.requests && t.docs == s.docs && t.policies == s.policies && Quiet(s, t)
  {
    if event.Some? {
      RowAppended(s, event.value);
    }
  }

  lemma ScanCommandIsCalm(s: State, work: Work, result: ScanResult)
    ensures var t := ScanCommand(s, work, result);
      && Calm(s, t) && t.requests == s.requests && t.policies == s.policies && t.docs.Keys == s.docs.Keys
      && Quiet(s, t)
  {
    var id := work.identity.documentId;
    if id in s.docs && s.docs[id].identity == work.identity && s.docs[id].objectKey == work.objectKey {
      var (d, t) := ScanData(s.docs[id], result);
      var u := s.(docs := s.docs[id := d]);
      AppendIsCalm(u, t.event, AppendEvent(u, t.event));
    }
  }

  lemma FinalizeCommandIsCalm(s: State, work: Work, finalKey: string)
    ensures var t := FinalizeCommand(s, work, finalKey);
      && Calm(s, t) && t.requests == s.requests && t.policies == s.policies && t.docs.Keys == s.docs.Keys
      && Quiet(s, t)
  {
    var id := work.identity.documentId;
    if id in s.docs && s.docs[id].identity == work.identity && s.docs[id].objectKey == work.objectKey {
      var (d, t) := FinalizeData(s.docs[id], finalKey);
      var u := s.(docs := s.docs[id := d]);
      assert FinalizeCommand(s, work, finalKey) == if Changed(t) then u else s;
    }
  }

  lemma MoveIsCalm(s: State, u: State, r: nat, q: Request, stage: Stage)
    requires At(s, r, q) && Calm(s, u) && u.requests == s.requests && u.policies == s.policies
    ensures var t := GoTo(u, r, q, stage);
      Calm(s, t) && OnlyMoves(s, t, r) && t.docs == u.docs && Quiet(u, t) && At(t, r, q.(stage := stage))
  {}

  lemma EndIsCalm(s: State, u: State, r: nat)
    requires Calm(s, u) && u.requests == s.requests && u.policies == s.policies
    ensures var t := Drop(u, r); Calm(s, t) && OnlyMoves(s, t, r) && t.docs == u.docs && Quiet(u, t) && r !in t.requests
  {}

  lemma NothingIsCalm(s: State, r: nat)
    ensures Calm(s, s) && OnlyMoves(s, s, r) && Quiet(s, s)
  {}

  lemma FailOrRetryIsCalm(s: State, r: nat, q: Request, work: Work)
    requires At(s, r, q)
    ensures var t := FailOrRetry(s, r, q, work);
      Calm(s, t) && OnlyMoves(s, t, r) && t.docs == s.docs && Quiet(s, t) && NotPromoting(t, r)
  {
    if q.finalDelivery {
      MoveIsCalm(s, s, r, q, ScanDecided(work, Failed));
    } else {
      EndIsCalm(s, s, r);
    }
  }

  lemma LoadScanIsCalm(s: State, r: nat, q: Request, p: W.HandlerPayload)
    requires At(s, r, q)
    ensures var t := LoadScanStep(s, r, q, p);
      Calm(s, t) && OnlyMoves(s, t, r) && t.docs == s.docs && Quiet(s, t) && NotPromoting(t, r)
  {
    match LoadWork(s, p, PendingUpload)
    case Some(work) => MoveIsCalm(s, s, r, q, ScanLoaded(work));
    case None => MoveIsCalm(s, s, r, q, Succeeded);
  }

  lemma LoadFinalizeIsCalm(s: State, r: nat, q: Request, p: W.HandlerPayload)
    requires At(s, r, q)
    ensures var t := LoadFinalizeStep(s, r, q, p);
      && Calm(s, t) && OnlyMoves(s, t, r) && t.docs == s.docs && Quiet(s, t)
      && (NotPromoting(t, r) || LoadWork(s, p, Finalizing) == Some(t.requests[r].stage.work))
  {
    match LoadWork(s, p, Finalizing)
    case Some(work) => MoveIsCalm(s, s, r, q, FinalizeLoaded(p, work));
    case None => MoveIsCalm(s, s, r, q, Succeeded);
  }

  lemma FetchIsCalm(env: Env, s: State, r: nat, q: Request, work: Work, read: ReadOutcome)
    requires At(s, r, q)
    ensures var t := FetchStep(env, s, r, q, work, read);
      Calm(s, t) && OnlyMoves(s, t, r) && t.docs == s.docs && Quiet(s, t) && NotPromoting(t, r)
  {
    if !env.validKey(work.objectKey) {
      EndIsCalm(s, s, r);
    } else if read.ReadError? {
      FailOrRetryIsCalm(s, r, q, work);
    } else if work.objectKey !in s.quarantine {
      MoveIsCalm(s, s, r, q, ScanDecided(work, Failed));
    } else if work.contentLength < 0 {
      EndIsCalm(s, s, r);
    } else if Matches(env, s.quarantine[work.objectKey], work) {
      MoveIsCalm(s, s, r, q, ScanFetched(work, s.quarantine[work.objectKey]));
    } else {
      FailOrRetryIsCalm(s, r, q, work);
    }
  }

  lemma VerdictIsCalm(s: State, r: nat, q: Request, work: Work, stored: StoredObject, verdict: Verdict)
    requires At(s, r, q)
    ensures var t := VerdictStep(s, r, q, work, stored, verdict);
      Calm(s, t) && OnlyMoves(s, t, r) && t.docs == s.docs && Quiet(s, t) && NotPromoting(t, r)
  {
    match verdict
    case SaysClean => MoveIsCalm(s, Noted(s, work, stored, Clean), r, q, ScanDecided(work, Clean));
    case SaysMalicious => MoveIsCalm(s, Noted(s, work, stored, Malicious), r, q, ScanDecided(work, Malicious));
    case SaysFailed => MoveIsCalm(s, Noted(s, work, stored, Failed), r, q, ScanDecided(work, Failed));
    case ScannerError => FailOrRetryIsCalm(s, r, q, work);
  }

  lemma ApplyScanIsCalm(s: State, r: nat, q: Request, work: Work, result: ScanResult, commit: Commit)
    requires At(s, r, q)
    ensures var t := ApplyScanStep(s, r, q, work, result, commit);
      && Calm(s, t) && OnlyMoves(s, t, r) && Quiet(s, t) && NotPromoting(t, r)
      && t.docs == if commit.NotCommitted? then s.docs else ScanCommand(s, work, result).docs
  {
    var u := ScanCommand(s, work, result);
    ScanCommandIsCalm(s, work, result);
    match commit
    case Committed => MoveIsCalm(s, u, r, q, Succeeded);
    case CommittedUnacknowledged => EndIsCalm(s, u, r);
    case NotCommitted => EndIsCalm(s, s, r);
  }

  /** The key a request is about to write, if its checks let it write. */
  function Target(env: Env, s: State, r: nat): Option<string> {
    if r in s.requests && s.requests[r].stage.FinalizeLoaded? then
      var (p, work) := (s.requests[r].stage.payload, s.requests[r].stage.work);
      var key := env.finalKey(work.workspaceId, work.identity, work.filename);
      if key.Some? && env.sameWorkspace(p.objectKey, key.value) && p.objectKey in s.quarantine then key else None
    else None
  }

  /** The key whose object a request is about to delete because the copy does not match. */
  function Discards(env: Env, s: State, r: nat): Option<string> {
    if r in s.requests && s.requests[r].stage.FinalizeCopied?
       && !Matches(env, s.requests[r].stage.copied, s.requests[r].stage.work)
    then Some(s.requests[r].stage.finalKey) else None
  }

  /** What a label does to the objects in the evidence store. */
  function EvidenceAfter(env: Env, s: State, objects: map<string, StoredObject>, l: Label): map<string, StoredObject> {
    if l.Promote? && Target(env, s, l.request).Some? && !l.copy.CopyError?
    then objects[Target(env, s, l.request).value := s.quarantine[s.requests[l.request].stage.payload.objectKey]]
    else if l.CheckCopy? && Discards(env, s, l.request).Some? && l.deleted
      then objects - {Discards(env, s, l.request).value}
    else objects
  }

  lemma PromoteIsCalm(env: Env, s: State, r: nat, q: Request, copy: Copy)
    requires At(s, r, q) && q.stage.FinalizeLoaded?
    ensures var t := PromoteStep(env, s, r, q, q.stage.payload, q.stage.work, copy);
      && Calm(s, t) && OnlyMoves(s, t, r) && t.docs == s.docs && NotPromoting(t, r)
      && t.quarantine == s.quarantine && t.written == s.written
      && t.evidence == EvidenceAfter(env, s, s.evidence, Promote(r, copy))
  {
    var p, work := q.stage.payload, q.stage.work;
    var target := Target(env, s, r);
    if target.None? || copy.CopyError? {
      assert PromoteStep(env, s, r, q, p, work, copy) == Drop(s, r);
      EndIsCalm(s, s, r);
    } else {
      var stored := s.quarantine[p.objectKey];
      var u := s.(evidence := s.evidence[target.value := stored]);
      if copy.CopyDone? {
        MoveIsCalm(s, u, r, q, FinalizeCopied(p, work, target.value, stored));
      } else {
        EndIsCalm(s, u, r);
      }
    }
  }

  lemma CheckCopyIsCalm(env: Env, s: State, r: nat, q: Request, deleted: bool)
    requires At(s, r, q) && q.stage.FinalizeCopied?
    ensures var t := CheckCopyStep(env, s, r, q, q.stage.payload, q.stage.work, q.stage.finalKey, q.stage.copied,
                                   deleted);
      && Calm(s, t) && OnlyMoves(s, t, r) && t.docs == s.docs && NotPromoting(t, r)
      && t.quarantine == s.quarantine && t.written == s.written
      && t.evidence == EvidenceAfter(env, s, s.evidence, CheckCopy(r, deleted))
  {
    if Matches(env, q.stage.copied, q.stage.work) {
      MoveIsCalm(s, s, r, q, FinalizeVerified(q.stage.payload, q.stage.work, q.stage.finalKey));
    } else if deleted {
      EndIsCalm(s, s.(evidence := s.evidence - {q.stage.finalKey}), r);
    } else {
      EndIsCalm(s, s, r);
    }
  }

  lemma ApplyFinalizeIsCalm(s: State, r: nat, q: Request, p: W.HandlerPayload, work: Work, finalKey: string,
        commit: Commit)
    requires At(s, r, q)
    ensures var t := ApplyFinalizeStep(s, r, q, p, work, finalKey, commit);
      && Calm(s, t) && OnlyMoves(s, t, r) && Quiet(s, t) && NotPromoting(t, r)
      && t.docs == if commit.NotCommitted? then s.docs else FinalizeCommand(s, work, finalKey).docs
  {
    var u := FinalizeCommand(s, work, finalKey);
    FinalizeCommandIsCalm(s, work, finalKey);
    match commit
    case Committed => MoveIsCalm(s, u, r, q, if FinalizeApplies(s, work) then FinalizeApplied(p) else Succeeded);
    case CommittedUnacknowledged => EndIsCalm(s, u, r);
    case NotCommitted => EndIsCalm(s, s, r);
  }

  lemma DeleteSourceIsCalm(s: State, r: nat, q: Request, p: W.HandlerPayload, deleted: bool)
    requires At(s, r, q)
    ensures var t := DeleteSourceStep(s, r, q, p, deleted);
      && Calm(s, t) && OnlyMoves(s, t, r) && t.docs == s.docs && NotPromoting(t, r)
      && t.quarantine.Keys <= s.quarantine.Keys && t.written == s.written && t.evidence == s.evidence
  {
    MoveIsCalm(s, if deleted then s.(quarantine := s.quarantine - {p.objectKey}) else s, r, q, Succeeded);
  }

  /** Which steps of a request write documents, and which ones they write. */
  function WrittenDocs(s: State, stage: Stage, l: Label): map<Uuid, DocumentData> {
    if stage.ScanDecided? && l.ApplyScan? && !l.commit.NotCommitted? then ScanCommand(s, stage.work, stage.result).docs
    else if stage.FinalizeVerified? && l.ApplyFinalize? && !l.commit.NotCommitted?
    then FinalizeCommand(s, stage.work, stage.finalKey).docs
    else s.docs
  }

  /** Everything about one step of a request that does not depend on which step it is. */
  ghost predicate TurnEffect(env: Env, s: State, r: nat, q: Request, l: Label, t: State) {
    && Calm(s, t) && OnlyMoves(s, t, r) && t.docs == WrittenDocs(s, q.stage, l)
    && t.quarantine.Keys <= s.quarantine.Keys && t.written == s.written
      && t.evidence == EvidenceAfter(env, s, s.evidence, l)
    && (NotPromoting(t, r) || t == s
        || (q.stage.FinalizeStarted? && LoadWork(s, q.stage.payload, Finalizing) == Some(t.requests[r].stage.work)))
  }

  lemma ScanTurnIsCalm(env: Env, s: State, r: nat, q: Request, l: Label)
    requires At(s, r, q) && RequestOf(l) == Some(r) && Fits(q.stage, l) && ScanStage(q.stage)
    ensures TurnEffect(env, s, r, q, l, Turn(env, s, r, l))
  {
    if q.stage.ScanStarted? {
      LoadScanIsCalm(s, r, q, q.stage.payload);
    } else if q.stage.ScanLoaded? {
      FetchIsCalm(env, s, r, q, q.stage.work, l.read);
    } else if q.stage.ScanFetched? {
      VerdictIsCalm(s, r, q, q.stage.work, q.stage.stored, l.verdict);
    } else {
      ApplyScanIsCalm(s, r, q, q.stage.work, q.stage.result, l.commit);
    }
  }

  lemma FinalizeTurnIsCalm(env: Env, s: State, r: nat, q: Request, l: Label)
    requires At(s, r, q) && RequestOf(l) == Some(r) && Fits(q.stage, l) && !ScanStage(q.stage)
    ensures TurnEffect(env, s, r, q, l, Turn(env, s, r, l))
  {
    if q.stage.FinalizeStarted? {
      LoadFinalizeIsCalm(s, r, q, q.stage.payload);
    } else if q.stage.FinalizeLoaded? {
      PromoteIsCalm(env, s, r, q, l.copy);
    } else if q.stage.FinalizeCopied? {
      CheckCopyIsCalm(env, s, r, q, l.deleted);
    } else if q.stage.FinalizeVerified? {
      ApplyFinalizeIsCalm(s, r, q, q.stage.payload, q.stage.work, q.stage.finalKey, l.commit);
    } else {
      DeleteSourceIsCalm(s, r, q, q.stage.payload, l.deleted);
    }
  }

  lemma TurnIsCalm(env: Env, s: State, r: nat, q: Request, l: Label)
    requires At(s, r, q) && RequestOf(l) == Some(r)
    ensures TurnEffect(env, s, r, q, l, Turn(env, s, r, l))
  {
    if !Fits(q.stage, l) {
      Idle(env, s, r, l);
      NothingIsCalm(s, r);
    } else if ScanStage(q.stage) {
      ScanTurnIsCalm(env, s, r, q, l);
    } else {
      FinalizeTurnIsCalm(env, s, r, q, l);
    }
  }

  lemma PolicyOrUploadIsCalm(s: State, l: Label)
    requires RequestOf(l).None? && !IsQueueLabel(l) && !l.CreateDocument? && !l.ArchiveDocument?
    ensures var t := NextApi(s, l); Calm(s, t) && t.requests == s.requests && t.docs == s.docs
  {
    if l.CreatePolicy? {
      assert NextApi(s, l) == CreatePolicyStep(s, l.policy, l.workspace);
    } else if l.ArchivePolicy? {
      assert NextApi(s, l) == ArchivePolicyStep(s, l.policy);
    } else if l.Upload? {
      assert NextApi(s, l) == UploadStep(s, l.key, l.stored);
    } else {
      assert NextApi(s, l) == s.(quarantine := s.quarantine - {l.key});
    }
  }

  lemma SameMessagesAreCalm(s: State, t: State)
    requires t.appended == s.appended && t.outbox == s.outbox && t.unacked == s.unacked && t.listed == s.listed
    ensures Calm(s, t)
  {}

  lemma ArchiveIsCalm(s: State, document: Uuid, id: Uuid)
    requires id in s.docs && InProgress(s.docs[id].status)
    ensures var t := ArchiveDocumentStep(s, document);
      Calm(s, t) && t.requests == s.requests && id in t.docs && t.docs[id] == s.docs[id]
  {
    if document in s.docs {
      var d := ArchiveData(s.docs[document]).0;
      assert document == id ==> d == s.docs[id];
      SameMessagesAreCalm(s, s.(docs := s.docs[document := d]));
    }
  }

  lemma CreateIsCalm(s: State, l: Label, id: Uuid)
    requires l.CreateDocument? && id in s.docs
    ensures var t := NextApi(s, l); Calm(s, t) && t.requests == s.requests && id in t.docs && t.docs[id] == s.docs[id]
  {
    var t := CreateDocumentStep(s, l.identity, l.workspace, l.user, l.payload, l.at);
    var created := CreateData(l.identity, l.workspace, l.user, l.payload, l.at);
    assert NextApi(s, l) == t;
    if t != s {
      var d := created.value.0;
      var u := s.(docs := s.docs[l.identity.documentId := d], origin := s.origin[l.identity.documentId := d.objectKey]);
      assert t == AppendEvent(u, created.value.1.event);
      AppendIsCalm(u, created.value.1.event, t);
    }
  }

  /** The API never touches a document in progress. */
  lemma ApiIsCalm(s: State, l: Label, id: Uuid)
    requires RequestOf(l).None? && !IsQueueLabel(l) && id in s.docs && InProgress(s.docs[id].status)
    ensures var t := NextApi(s, l); Calm(s, t) && t.requests == s.requests && id in t.docs && t.docs[id] == s.docs[id]
  {
    if l.CreateDocument? {
      CreateIsCalm(s, l, id);
    } else if l.ArchiveDocument? {
      ArchiveIsCalm(s, l.document, id);
    } else {
      PolicyOrUploadIsCalm(s, l);
    }
  }

  // ---------- the queue ----------

  /** A request that runs afterwards ran before, or was just delivered and is at its first stage. */
  ghost predicate OnlyDelivers(env: Env, s: State, l: Label, t: State) {
    forall x :: x in t.requests ==>
      || (x in s.requests && t.requests[x] == s.requests[x])
      || (l.Deliver? && l.row < |s.appended| && t.requests[x].message == l.row
          && t.requests[x].stage == FirstStage(env, s.appended[l.row]))
  }

  /** What the dequeuer, Pub/Sub and the ends of requests do. */
  ghost predicate QueueEffect(env: Env, s: State, l: Label, t: State) {
    && t.docs == s.docs && t.policies == s.policies && t.appended == s.appended && Quiet(s, t)
    && t.outbox <= s.outbox && OnlyDelivers(env, s, l, t)
    && (forall i :: i in t.listed ==> i in s.listed || i in s.outbox)
    && (forall i :: i in t.unacked ==> i in s.unacked || i in s.listed)
  }

  lemma ListEffect(env: Env, s: State, l: Label)
    requires l.List?
    ensures QueueEffect(env, s, l, ListStep(s, l.row))
  {
    if l.row in s.outbox {
      var t := s.(listed := s.listed + multiset{l.row});
      assert ListStep(s, l.row) == t && QueueEffect(env, s, l, t);
    } else {
      assert QueueEffect(env, s, l, s);
    }
  }

  lemma UnlistEffect(env: Env, s: State, l: Label)
    requires l.Unlist?
    ensures QueueEffect(env, s, l, UnlistStep(s, l.row))
  {
    var t := s.(listed := s.listed - multiset{l.row});
    assert UnlistStep(s, l.row) == t && QueueEffect(env, s, l, t);
  }

  lemma PublishEffect(env: Env, s: State, l: Label)
    requires l.Publish?
    ensures QueueEffect(env, s, l, PublishStep(s, l.row))
  {
    if l.row in s.listed {
      var t := s.(listed := s.listed - multiset{l.row}, published := s.published + {l.row},
                  unacked := s.unacked + multiset{l.row});
      assert PublishStep(s, l.row) == t && QueueEffect(env, s, l, t);
    } else {
      assert QueueEffect(env, s, l, s);
    }
  }

  lemma DeleteRowEffect(env: Env, s: State, l: Label)
    requires l.DeleteRow?
    ensures QueueEffect(env, s, l, DeleteRowStep(s, l.row))
  {
    if l.row in s.published {
      var t := s.(outbox := s.outbox - {l.row});
      assert DeleteRowStep(s, l.row) == t && QueueEffect(env, s, l, t);
    } else {
      assert QueueEffect(env, s, l, s);
    }
  }

  lemma DeadLetterEffect(env: Env, s: State, l: Label)
    requires l.DeadLetter?
    ensures QueueEffect(env, s, l, DeadLetterStep(s, l.row))
  {
    if l.row in s.unacked {
      var t := s.(unacked := s.unacked - multiset{l.row}, dead := s.dead + {l.row});
      assert DeadLetterStep(s, l.row) == t && QueueEffect(env, s, l, t);
    } else {
      assert QueueEffect(env, s, l, s);
    }
  }

  lemma DeliverEffect(env: Env, s: State, l: Label)
    requires l.Deliver?
    ensures QueueEffect(env, s, l, DeliverStep(env, s, l.row, l.request, l.delivery))
  {
    var d := l.delivery;
    if l.row in s.published && l.row < |s.appended| && l.request !in s.requests {
      var final := d.attempt.Some? && d.attempt.value >= d.maxAttempts;
      var q := Request(l.row, final, FirstStage(env, s.appended[l.row]));
      assert DeliverStep(env, s, l.row, l.request, d) == s.(requests := s.requests[l.request := q]);
      StartEffect(env, s, l, q);
    } else {
      assert QueueEffect(env, s, l, s);
    }
  }

  lemma StartEffect(env: Env, s: State, l: Label, q: Request)
    requires l.Deliver? && l.row < |s.appended| && q.message == l.row && q.stage == FirstStage(env, s.appended[l.row])
    ensures QueueEffect(env, s, l, s.(requests := s.requests[l.request := q]))
  {}

  lemma AcknowledgeEffect(env: Env, s: State, l: Label)
    requires l.Acknowledge?
    ensures QueueEffect(env, s, l, AcknowledgeStep(s, l.request))
  {
    var r := l.request;
    if r in s.requests && s.requests[r].stage.Succeeded? {
      var t := s.(requests := s.requests - {r}, unacked := s.unacked - multiset{s.requests[r].message});
      assert AcknowledgeStep(s, r) == t && QueueEffect(env, s, l, t);
    } else {
      assert QueueEffect(env, s, l, s);
    }
  }

  lemma CrashEffect(env: Env, s: State, l: Label)
    requires l.Crash?
    ensures QueueEffect(env, s, l, Drop(s, l.request))
  {
    var t := s.(requests := s.requests - {l.request});
    assert Drop(s, l.request) == t && QueueEffect(env, s, l, t);
  }

  lemma ListingHasEffect(env: Env, s: State, l: Label)
    requires l.List? || l.Unlist?
    ensures QueueEffect(env, s, l, NextQueue(env, s, l))
  {
    if l.List? {
      ListEffect(env, s, l);
    } else {
      UnlistEffect(env, s, l);
    }
  }

  lemma PublishingHasEffect(env: Env, s: State, l: Label)
    requires l.Publish? || l.DeleteRow?
    ensures QueueEffect(env, s, l, NextQueue(env, s, l))
  {
    if l.Publish? {
      PublishEffect(env, s, l);
    } else {
      DeleteRowEffect(env, s, l);
    }
  }

  lemma DeliveryHasEffect(env: Env, s: State, l: Label)
    requires l.DeadLetter? || l.Deliver?
    ensures QueueEffect(env, s, l, NextQueue(env, s, l))
  {
    if l.DeadLetter? {
      DeadLetterEffect(env, s, l);
    } else {
      DeliverEffect(env, s, l);
    }
  }

  lemma EndingHasEffect(env: Env, s: State, l: Label)
    requires l.Acknowledge? || l.Crash?
    ensures QueueEffect(env, s, l, NextQueue(env, s, l))
  {
    if l.Acknowledge? {
      AcknowledgeEffect(env, s, l);
    } else {
      CrashEffect(env, s, l);
    }
  }

  lemma QueueHasEffect(env: Env, s: State, l: Label)
    requires IsQueueLabel(l)
    ensures QueueEffect(env, s, l, NextQueue(env, s, l))
  {
    if l.List? || l.Unlist? {
      ListingHasEffect(env, s, l);
    } else if l.Publish? || l.DeleteRow? {
      PublishingHasEffect(env, s, l);
    } else if l.DeadLetter? || l.Deliver? {
      DeliveryHasEffect(env, s, l);
    } else {
      EndingHasEffect(env, s, l);
    }
  }
}
