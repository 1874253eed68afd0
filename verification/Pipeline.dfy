/**
  The document quarantine pipeline as a protocol. One state holds the database (policies, documents,
  outbox), Pub/Sub, the two object stores and every running worker request; one label is one atomic
  step of the API, the dequeuer, Pub/Sub or a worker. Labels carry every choice the environment
  makes: failures, lost acknowledgements, scan verdicts, wire forms and attempt numbers. Any
  sequence of labels is a run, so runs include every interleaving, duplicated and reordered
  delivery, redelivery after an acknowledgement, and a crash between any two steps.

  SHA-256 is the arbitrary function `sha`. A promotion is one atomic copy, as a rewrite inside the cloud store is;
  `PipelineDisk` follows the copies of the file system store, which are not.
 */
module Pipeline {
  import opened ByteStrings
  import opened Wrappers
  import opened Uuids
  import opened Documents
  import OK = ObjectKey
  import W = Worker

  /** The digest and the object-key functions; `Faithful` says which ones the latter are. */
  datatype Env = Env(
    sha: Bytes -> string,
    validKey: string -> bool,
    finalKey: (Uuid, OK.DocumentIdentity, string) -> Option<string>,
    sameWorkspace: (string, string) -> bool)

  ghost predicate Faithful(env: Env) {
    && (forall k :: env.validKey(k) == OK.Parse(k).Some?)
    && (forall w, i, f :: env.finalKey(w, i, f) == OK.FinalKey(w, i, f))
    && (forall a, b :: env.sameWorkspace(a, b) == OK.HasSameWorkspace(a, b))
  }

  datatype StoredObject = StoredObject(contentType: string, bytes: Bytes)

  datatype PolicyRow = PolicyRow(workspaceId: Uuid, archived: bool)

  /** What `load_pending_upload_work` and `load_finalizing_upload_work` return. */
  datatype Work = Work(
    workspaceId: Uuid, identity: OK.DocumentIdentity, filename: string, contentType: string, contentLength: int,
    objectKey: string, checksumSha256: string)

  datatype Stage =
    | ScanStarted(payload: W.HandlerPayload)
    | ScanLoaded(work: Work)
    | ScanFetched(work: Work, stored: StoredObject)
    | ScanDecided(work: Work, result: ScanResult)
    | FinalizeStarted(payload: W.HandlerPayload)
    | FinalizeLoaded(payload: W.HandlerPayload, work: Work)
    | FinalizeCopied(payload: W.HandlerPayload, work: Work, finalKey: string, copied: StoredObject)
    | FinalizeVerified(payload: W.HandlerPayload, work: Work, finalKey: string)
    | FinalizeApplied(payload: W.HandlerPayload)
    | Succeeded

  /** A running push request: which message it carries, whether it is the last delivery, how far it got. */
  datatype Request = Request(message: nat, finalDelivery: bool, stage: Stage)

  datatype State = State(
    policies: map<Uuid, PolicyRow>,
    docs: map<Uuid, DocumentData>,
    appended: seq<Event>,               // every outbox row ever written; a row's id is its index
    outbox: set<nat>,                   // rows not yet deleted
    listed: multiset<nat>,              // rows that a dequeuer has read and may still publish, once per reading
    published: set<nat>,                // rows that reached Pub/Sub at least once
    unacked: multiset<nat>,             // messages that Pub/Sub holds, one per publication
    dead: set<nat>,
    quarantine: map<string, StoredObject>,
    evidence: map<string, StoredObject>,
    requests: map<nat, Request>,
    written: map<string, StoredObject>, // history: every quarantine upload
    origin: map<Uuid, string>,          // history: the key each document was created with
    verdicts: set<(Uuid, Bytes, ScanResult)>, // history: what the scanner said of which bytes, per document
    scanRow: map<Uuid, nat>,            // history: the scan row of each document
    finalRow: map<Uuid, nat>)           // history: the finalization row of each document

  const INITIAL :=
    State(map[], map[], [], {}, multiset{}, {}, multiset{}, {}, map[], map[], map[], map[], map[], {}, map[], map[])

  datatype ReadOutcome = ReadDone | ReadError
  datatype Verdict = SaysClean | SaysMalicious | SaysFailed | ScannerError
  datatype Commit = Committed | CommittedUnacknowledged | NotCommitted
  datatype Copy = CopyDone | CopyDoneUnacknowledged | CopyError

  datatype Delivery = Delivery(messageId: Uuid, correlation: Option<Uuid>, causation: Option<Uuid>, legacy: bool,
                               pushId: string, attempt: Option<nat>, maxAttempts: nat)

  datatype Label =
    | CreatePolicy(policy: Uuid, workspace: Uuid)
    | ArchivePolicy(policy: Uuid)
    | Upload(key: string, stored: StoredObject)
    | CreateDocument(identity: OK.DocumentIdentity, workspace: Uuid, user: Uuid, payload: CreatePayload, at: int)
    | ArchiveDocument(document: Uuid)
    | DiscardUpload(key: string)
    | List(row: nat)
    | Unlist(row: nat)
    | Publish(row: nat)
    | DeleteRow(row: nat)
    | DeadLetter(row: nat)
    | Deliver(row: nat, request: nat, delivery: Delivery)
    | Load(request: nat)
    | Fetch(request: nat, read: ReadOutcome)
    | Scan(request: nat, verdict: Verdict)
    | ApplyScan(request: nat, commit: Commit)
    | Promote(request: nat, copy: Copy)
    | CheckCopy(request: nat, deleted: bool)
    | ApplyFinalize(request: nat, commit: Commit)
    | DeleteSource(request: nat, deleted: bool)
    | Acknowledge(request: nat)
    | Crash(request: nat)

  // ---------- database reads ----------

  function WorkOf(d: DocumentData): Work {
    Work(d.workspaceId, d.identity, d.filename, d.contentType, d.contentLength, d.objectKey, d.checksumSha256)
  }

  predicate PolicyLive(s: State, policy: Uuid, workspace: Uuid) {
    policy in s.policies && s.policies[policy].workspaceId == workspace && !s.policies[policy].archived
  }

  /** The row filter of the work query; archived policies hide their documents. */
  predicate Visible(s: State, id: Uuid) {
    id in s.docs && !s.docs[id].archived
    && (s.docs[id].identity.owner.Policy? ==> PolicyLive(s, s.docs[id].identity.owner.id, s.docs[id].workspaceId))
  }

  function LoadWork(s: State, p: W.HandlerPayload, status: UploadStatus): Option<Work> {
    var id := p.identity.documentId;
    if Visible(s, id) && s.docs[id].identity == p.identity && s.docs[id].objectKey == p.objectKey
      && s.docs[id].status == status
    then Some(WorkOf(s.docs[id])) else None
  }

  predicate DocumentInProgress(s: State, policy: Uuid, workspace: Uuid) {
    exists id :: id in s.docs && s.docs[id].identity.owner == OK.Policy(policy) && s.docs[id].workspaceId == workspace
                 && !s.docs[id].archived && InProgress(s.docs[id].status)
  }

  predicate HasCurrentDocument(s: State, policy: Uuid, workspace: Uuid) {
    exists id :: id in s.docs && s.docs[id].identity.owner == OK.Policy(policy) && s.docs[id].workspaceId == workspace
                 && !s.docs[id].archived
  }

  predicate Eligible(s: State, owner: OK.Owner, workspace: Uuid) {
    owner.Policy? ==> PolicyLive(s, owner.id, workspace) && !HasCurrentDocument(s, owner.id, workspace)
  }

  predicate Matches(env: Env, stored: StoredObject, work: Work) {
    stored.contentType == work.contentType && |stored.bytes| == work.contentLength
      && env.sha(stored.bytes) == work.checksumSha256
  }

  // ---------- database commands ----------

  /** Append the transition's event, if any, to the outbox in the same transaction. */
  function AppendEvent(s: State, event: Option<Event>): State {
    match event
    case None => s
    case Some(e) =>
      var row := |s.appended|;
      var id := e.identity.documentId;
      var t := s.(appended := s.appended + [e], outbox := s.outbox + {row});
      if e.ScanRequested? then t.(scanRow := t.scanRow[id := row]) else t.(finalRow := t.finalRow[id := row])
  }

  function ScanCommand(s: State, work: Work, result: ScanResult): State {
    var id := work.identity.documentId;
    if id !in s.docs || s.docs[id].identity != work.identity || s.docs[id].objectKey != work.objectKey then s
    else
      var (d, t) := ScanData(s.docs[id], result);
      if Changed(t) then AppendEvent(s.(docs := s.docs[id := d]), t.event) else s
  }

  predicate FinalizeApplies(s: State, work: Work) {
    var id := work.identity.documentId;
    id in s.docs && s.docs[id].identity == work.identity && s.docs[id].objectKey == work.objectKey
    && !s.docs[id].archived && s.docs[id].status == Finalizing
  }

  function FinalizeCommand(s: State, work: Work, finalKey: string): State {
    var id := work.identity.documentId;
    if id !in s.docs || s.docs[id].identity != work.identity || s.docs[id].objectKey != work.objectKey then s
    else
      var (d, t) := FinalizeData(s.docs[id], finalKey);
      if Changed(t) then s.(docs := s.docs[id := d]) else s
  }

  // ---------- request bookkeeping ----------

  function Drop(s: State, r: nat): State {
    s.(requests := s.requests - {r})
  }

  function GoTo(s: State, r: nat, q: Request, stage: Stage): State {
    s.(requests := s.requests[r := q.(stage := stage)])
  }

  /** Decode, route and parse the push request for a row: where the worker starts. */
  function DecodedStage(e: Event, d: Delivery): Stage {
    var kind := if e.ScanRequested? then W.ScanWork else W.FinalizationWork;
    var m := W.MessageFor(kind, e.identity, e.objectKey, d.messageId, d.correlation, d.causation);
    var row := if d.legacy then W.RowFor(0, m).(version := 0) else W.RowFor(0, m);
    match W.DecodeWorkerMessage(W.PushOf(row, d.pushId, d.attempt))
    case Err(_) => Succeeded
    case Ok(message) =>
      match W.Dispatch(message.eventType)
      case ScanHandler => (match W.ScanPayload(message) case Ok(p) => ScanStarted(p) case Err(_) => Succeeded)
      case FinalizationHandler =>
        (match W.FinalizationPayload(message) case Some(p) => FinalizeStarted(p) case None => Succeeded)
      case InvitationHandler => Succeeded
      case NoHandler => Succeeded
  }

  /** The same without the wire; `DecodingGivesFirstStage` proves it for every delivery. */
  function FirstStage(env: Env, e: Event): Stage {
    if !env.validKey(e.objectKey) then Succeeded
    else if e.ScanRequested? then ScanStarted(W.HandlerPayload(e.identity, e.objectKey))
    else FinalizeStarted(W.HandlerPayload(e.identity, e.objectKey))
  }

  /**
    Whatever wire form and attempt a delivery has, the worker starts at the handler meant for the row, with its own
    payload.
   */
  lemma DecodingGivesFirstStage(env: Env, e: Event, d: Delivery)
    requires Faithful(env)
    ensures DecodedStage(e, d) == FirstStage(env, e)
  {
    var kind := if e.ScanRequested? then W.ScanWork else W.FinalizationWork;
    var m := W.MessageFor(kind, e.identity, e.objectKey, d.messageId, d.correlation, d.causation);
    W.WorkArrivesUnchanged(kind, e.identity, e.objectKey, d.messageId, d.correlation, d.causation, 0, d.legacy,
                           d.pushId, d.attempt);
    var row := if d.legacy then W.RowFor(0, m).(version := 0) else W.RowFor(0, m);
    W.PayloadParsersAgree(W.DecodeWorkerMessage(W.PushOf(row, d.pushId, d.attempt)).value);
  }

  // ---------- steps ----------

  function CreatePolicyStep(s: State, policy: Uuid, workspace: Uuid): State {
    if policy in s.policies then s else s.(policies := s.policies[policy := PolicyRow(workspace, false)])
  }

  function ArchivePolicyStep(s: State, policy: Uuid): State {
    if policy !in s.policies || s.policies[policy].archived
      || DocumentInProgress(s, policy, s.policies[policy].workspaceId) then s
    else s.(policies := s.policies[policy := s.policies[policy].(archived := true)])
  }

  function UploadStep(s: State, key: string, stored: StoredObject): State {
    if key in s.written then s
    else s.(quarantine := s.quarantine[key := stored], written := s.written[key := stored])
  }

  function CreateDocumentStep(
      s: State, identity: OK.DocumentIdentity, workspace: Uuid, user: Uuid, payload: CreatePayload, at: int): State {
    if identity.documentId in s.docs || !Eligible(s, identity.owner, workspace) then s
    else
      match CreateData(identity, workspace, user, payload, at)
      case Err(_) => s
      case Ok((d, t)) =>
        AppendEvent(
          s.(docs := s.docs[identity.documentId := d], origin := s.origin[identity.documentId := d.objectKey]), t.event)
  }

  function ArchiveDocumentStep(s: State, id: Uuid): State {
    if id in s.docs then s.(docs := s.docs[id := ArchiveData(s.docs[id]).0]) else s
  }

  function NextApi(s: State, l: Label): State {
    match l
    case CreatePolicy(policy, workspace) => CreatePolicyStep(s, policy, workspace)
    case ArchivePolicy(policy) => ArchivePolicyStep(s, policy)
    case Upload(key, stored) => UploadStep(s, key, stored)
    case CreateDocument(identity, workspace, user, payload, at) =>
      CreateDocumentStep(s, identity, workspace, user, payload, at)
    case ArchiveDocument(id) => ArchiveDocumentStep(s, id)
    case DiscardUpload(key) => s.(quarantine := s.quarantine - {key})
    case _ => s
  }

  /** A dequeuer reads a row. Nothing locks it: others may read it too, and it may be deleted meanwhile. */
  function ListStep(s: State, row: nat): State {
    if row in s.outbox then s.(listed := s.listed + multiset{row}) else s
  }

  /** A dequeuer fails to publish a row that it has read, or stops. */
  function UnlistStep(s: State, row: nat): State {
    s.(listed := s.listed - multiset{row})
  }

  function PublishStep(s: State, row: nat): State {
    if row in s.listed then
      s.(listed := s.listed - multiset{row}, published := s.published + {row}, unacked := s.unacked + multiset{row})
    else s
  }

  function DeleteRowStep(s: State, row: nat): State {
    if row in s.published then s.(outbox := s.outbox - {row}) else s
  }

  function DeadLetterStep(s: State, row: nat): State {
    if row in s.unacked then s.(unacked := s.unacked - multiset{row}, dead := s.dead + {row}) else s
  }

  function DeliverStep(env: Env, s: State, row: nat, r: nat, d: Delivery): State {
    if row in s.published && row < |s.appended| && r !in s.requests then
      var final := d.attempt.Some? && d.attempt.value >= d.maxAttempts;
      s.(requests := s.requests[r := Request(row, final, FirstStage(env, s.appended[row]))])
    else s
  }

  function AcknowledgeStep(s: State, r: nat): State {
    if r in s.requests && s.requests[r].stage.Succeeded?
    then Drop(s, r).(unacked := s.unacked - multiset{s.requests[r].message}) else s
  }

  function NextQueue(env: Env, s: State, l: Label): State {
    match l
    case List(row) => ListStep(s, row)
    case Unlist(row) => UnlistStep(s, row)
    case Publish(row) => PublishStep(s, row)
    case DeleteRow(row) => DeleteRowStep(s, row)
    case DeadLetter(row) => DeadLetterStep(s, row)
    case Deliver(row, r, d) => DeliverStep(env, s, row, r, d)
    case Acknowledge(r) => AcknowledgeStep(s, r)
    case Crash(r) => Drop(s, r)
    case _ => s
  }

  // Returning a retryable error leaves the message unacknowledged, which is what dropping the request does.

  function LoadScanStep(s: State, r: nat, q: Request, p: W.HandlerPayload): State {
    match LoadWork(s, p, PendingUpload)
    case Some(work) => GoTo(s, r, q, ScanLoaded(work))
    case None => GoTo(s, r, q, Succeeded)
  }

  function LoadFinalizeStep(s: State, r: nat, q: Request, p: W.HandlerPayload): State {
    match LoadWork(s, p, Finalizing)
    case Some(work) => GoTo(s, r, q, FinalizeLoaded(p, work))
    case None => GoTo(s, r, q, Succeeded)
  }

  /** On the last delivery a failure is final; before that it is retried. */
  function FailOrRetry(s: State, r: nat, q: Request, work: Work): State {
    if q.finalDelivery then GoTo(s, r, q, ScanDecided(work, Failed)) else Drop(s, r)
  }

  function FetchStep(env: Env, s: State, r: nat, q: Request, work: Work, read: ReadOutcome): State {
    if !env.validKey(work.objectKey) then Drop(s, r)
    else if read.ReadError? then FailOrRetry(s, r, q, work)
    else if work.objectKey !in s.quarantine then GoTo(s, r, q, ScanDecided(work, Failed))
    else if work.contentLength < 0 then Drop(s, r)
    else if Matches(env, s.quarantine[work.objectKey], work)
      then GoTo(s, r, q, ScanFetched(work, s.quarantine[work.objectKey]))
    else FailOrRetry(s, r, q, work)
  }

  function Noted(s: State, work: Work, stored: StoredObject, result: ScanResult): State {
    s.(verdicts := s.verdicts + {(work.identity.documentId, stored.bytes, result)})
  }

  function VerdictStep(s: State, r: nat, q: Request, work: Work, stored: StoredObject, verdict: Verdict): State {
    match verdict
    case SaysClean => GoTo(Noted(s, work, stored, Clean), r, q, ScanDecided(work, Clean))
    case SaysMalicious => GoTo(Noted(s, work, stored, Malicious), r, q, ScanDecided(work, Malicious))
    case SaysFailed => GoTo(Noted(s, work, stored, Failed), r, q, ScanDecided(work, Failed))
    case ScannerError => FailOrRetry(s, r, q, work)
  }

  function ApplyScanStep(s: State, r: nat, q: Request, work: Work, result: ScanResult, commit: Commit): State {
    match commit
    case Committed => GoTo(ScanCommand(s, work, result), r, q, Succeeded)
    case CommittedUnacknowledged => Drop(ScanCommand(s, work, result), r)
    case NotCommitted => Drop(s, r)
  }

  function PromoteStep(env: Env, s: State, r: nat, q: Request, p: W.HandlerPayload, work: Work, copy: Copy): State {
    match env.finalKey(work.workspaceId, work.identity, work.filename)
    case None => Drop(s, r)
    case Some(finalKey) =>
      if !env.sameWorkspace(p.objectKey, finalKey) || p.objectKey !in s.quarantine || copy.CopyError? then Drop(s, r)
      else
        var stored := s.quarantine[p.objectKey];
        var copied := s.(evidence := s.evidence[finalKey := stored]);
        if copy.CopyDone? then GoTo(copied, r, q, FinalizeCopied(p, work, finalKey, stored)) else Drop(copied, r)
  }

  function CheckCopyStep(
      env: Env, s: State, r: nat, q: Request, p: W.HandlerPayload, work: Work, finalKey: string, stored: StoredObject,
        deleted: bool)
    : State {
    if Matches(env, stored, work) then GoTo(s, r, q, FinalizeVerified(p, work, finalKey))
    else if deleted then Drop(s.(evidence := s.evidence - {finalKey}), r)
    else Drop(s, r)
  }

  function ApplyFinalizeStep(s: State, r: nat, q: Request, p: W.HandlerPayload, work: Work, finalKey: string,
        commit: Commit): State {
    match commit
    case Committed =>
      GoTo(FinalizeCommand(s, work, finalKey), r, q, if FinalizeApplies(s, work) then FinalizeApplied(p) else Succeeded)
    case CommittedUnacknowledged => Drop(FinalizeCommand(s, work, finalKey), r)
    case NotCommitted => Drop(s, r)
  }

  function DeleteSourceStep(s: State, r: nat, q: Request, p: W.HandlerPayload, deleted: bool): State {
    GoTo(if deleted then s.(quarantine := s.quarantine - {p.objectKey}) else s, r, q, Succeeded)
  }

  function NextRequest(env: Env, s: State, r: nat, q: Request, l: Label): State {
    match q.stage
    case ScanStarted(p) => if l.Load? then LoadScanStep(s, r, q, p) else s
    case ScanLoaded(work) => if l.Fetch? then FetchStep(env, s, r, q, work, l.read) else s
    case ScanFetched(work, stored) => if l.Scan? then VerdictStep(s, r, q, work, stored, l.verdict) else s
    case ScanDecided(work, result) => if l.ApplyScan? then ApplyScanStep(s, r, q, work, result, l.commit) else s
    case FinalizeStarted(p) => if l.Load? then LoadFinalizeStep(s, r, q, p) else s
    case FinalizeLoaded(p, work) => if l.Promote? then PromoteStep(env, s, r, q, p, work, l.copy) else s
    case FinalizeCopied(p, work, finalKey, stored) =>
      if l.CheckCopy? then CheckCopyStep(env, s, r, q, p, work, finalKey, stored, l.deleted) else s
    case FinalizeVerified(p, work, finalKey) =>
      if l.ApplyFinalize? then ApplyFinalizeStep(s, r, q, p, work, finalKey, l.commit) else s
    case FinalizeApplied(p) => if l.DeleteSource? then DeleteSourceStep(s, r, q, p, l.deleted) else s
    case Succeeded => s
  }

  function RequestOf(l: Label): Option<nat> {
    match l
    case Load(r) => Some(r)
    case Fetch(r, _) => Some(r)
    case Scan(r, _) => Some(r)
    case ApplyScan(r, _) => Some(r)
    case Promote(r, _) => Some(r)
    case CheckCopy(r, _) => Some(r)
    case ApplyFinalize(r, _) => Some(r)
    case DeleteSource(r, _) => Some(r)
    case _ => None
  }

  predicate IsQueueLabel(l: Label) {
    || l.List? || l.Unlist? || l.Publish? || l.DeleteRow? || l.DeadLetter? || l.Deliver? || l.Acknowledge?
    || l.Crash?
  }

  predicate ScanStage(stage: Stage) {
    stage.ScanStarted? || stage.ScanLoaded? || stage.ScanFetched? || stage.ScanDecided?
  }

  function Next(env: Env, s: State, l: Label): State {
    match RequestOf(l)
    case None => if IsQueueLabel(l) then NextQueue(env, s, l) else NextApi(s, l)
    case Some(r) =>
      if r !in s.requests then s
      else NextRequest(env, s, r, s.requests[r], l)
  }

  function Run(env: Env, s: State, labels: seq<Label>): State
    decreases |labels|
  {
    if labels == [] then s else Run(env, Next(env, s, labels[0]), labels[1..])
  }
}
