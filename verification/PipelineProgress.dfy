/**
  Which documents in progress can still be carried to the end, when Pub/Sub delivers only messages it holds.
  For safety the protocol lets any published message arrive at any time; here a delivery must be of a message that
  is neither acknowledged nor dead-lettered.
 */
module PipelineProgress {
  import opened Wrappers
  import opened Uuids
  import opened Documents
  import W = Worker
  import opened Pipeline
  import opened PipelineFrames
  import opened PipelineInvariants
  import opened PipelinePhases
  import opened PipelineSteps
  import opened PipelineTheorems

  predicate Genuine(s: State, l: Label) {
    l.Deliver? ==> l.row in s.unacked
  }

  ghost predicate GenuineRun(env: Env, s: State, labels: seq<Label>)
    decreases |labels|
  {
    labels == [] || (Genuine(s, labels[0]) && GenuineRun(env, Next(env, s, labels[0]), labels[1..]))
  }

  /** Some genuine run ends with the document uploaded. */
  ghost predicate Finishes(env: Env, s: State, id: Uuid) {
    exists labels :: GenuineRun(env, s, labels) && UploadedIn(Run(env, s, labels), id)
  }

  predicate UploadedIn(s: State, id: Uuid) {
    id in s.docs && s.docs[id].status == Uploaded
  }

  lemma FinishesNow(env: Env, s: State, id: Uuid)
    requires UploadedIn(s, id)
    ensures Finishes(env, s, id)
  {
    assert GenuineRun(env, s, []) && Run(env, s, []) == s;
  }

  /** A genuine run leads from one state to the other. */
  ghost predicate Leads(env: Env, s: State, t: State) {
    exists labels :: GenuineRun(env, s, labels) && t == Run(env, s, labels)
  }

  lemma LeadsNowhere(env: Env, s: State)
    ensures Leads(env, s, s)
  {
    assert GenuineRun(env, s, []) && Run(env, s, []) == s;
  }

  lemma LeadsByStep(env: Env, s: State, l: Label, t: State)
    requires Genuine(s, l) && t == Next(env, s, l)
    ensures Leads(env, s, t)
  {
    assert [l][1..] == [] && GenuineRun(env, t, []) && GenuineRun(env, s, [l]) && Run(env, s, [l]) == t;
  }

  lemma {:induction false} GenuineConcat(env: Env, s: State, a: seq<Label>, b: seq<Label>)
    requires GenuineRun(env, s, a) && GenuineRun(env, Run(env, s, a), b)
    ensures GenuineRun(env, s, a + b)
    decreases |a|
  {
    if a == [] {
      assert a + b == b;
    } else {
      assert (a + b)[0] == a[0] && (a + b)[1..] == a[1..] + b;
      GenuineConcat(env, Next(env, s, a[0]), a[1..], b);
    }
  }

  lemma LeadsOn(env: Env, s: State, t: State, u: State)
    requires Leads(env, s, t) && Leads(env, t, u)
    ensures Leads(env, s, u)
  {
    var a :| GenuineRun(env, s, a) && t == Run(env, s, a);
    var b :| GenuineRun(env, t, b) && u == Run(env, t, b);
    GenuineConcat(env, s, a, b);
    RunConcat(env, s, a, b);
  }

  lemma LeadsFinishes(env: Env, s: State, t: State, id: Uuid)
    requires Leads(env, s, t) && Finishes(env, t, id)
    ensures Finishes(env, s, id)
  {
    var a :| GenuineRun(env, s, a) && t == Run(env, s, a);
    var b :| GenuineRun(env, t, b) && UploadedIn(Run(env, t, b), id);
    GenuineConcat(env, s, a, b);
    RunConcat(env, s, a, b);
  }

  // ---------- documents that can be finished ----------

  /** The upload is in quarantine, with the recorded type, length and digest. */
  predicate Intact(env: Env, s: State, d: DocumentData) {
    d.objectKey in s.quarantine && Matches(env, s.quarantine[d.objectKey], WorkOf(d))
  }

  /** What promotion needs: a file name that makes a key, in the workspace of the staged key. */
  predicate Promotable(env: Env, d: DocumentData) {
    FinalKeyOf(env, d).Some? && env.sameWorkspace(d.objectKey, FinalKeyOf(env, d).value)
  }

  predicate Ready(env: Env, s: State, id: Uuid) {
    && id in s.docs && InProgress(s.docs[id].status) && env.validKey(s.docs[id].objectKey)
    && Intact(env, s, s.docs[id]) && Promotable(env, s.docs[id])
  }

  /** The message that a document in progress waits for. */
  function Awaited(d: DocumentData): Event {
    if d.status == PendingUpload then ScanRequested(d.identity, d.objectKey)
      else FinalizationRequested(d.identity, d.objectKey)
  }

  lemma ReadyKept(env: Env, s: State, t: State, id: Uuid)
    requires Ready(env, s, id) && t.docs == s.docs && t.quarantine == s.quarantine
    ensures Ready(env, t, id)
  {}

  /** What the invariant knows about a document in progress. */
  lemma InProgressFacts(env: Env, s: State, id: Uuid)
    requires Inv(env, s) && id in s.docs && InProgress(s.docs[id].status)
    ensures s.docs[id].identity.documentId == id && id in s.origin && s.origin[id] == s.docs[id].objectKey
    ensures !s.docs[id].archived && s.docs[id].contentLength >= 0 && OriginalWork(s, id) == WorkOf(s.docs[id])
    ensures LoadWork(s, W.HandlerPayload(s.docs[id].identity, s.docs[id].objectKey), s.docs[id].status)
      == Some(WorkOf(s.docs[id]))
  {
    assert DocOk(env, s, id);
  }

  /** A genuine run leads on, to a state in which the document can still be finished. */
  ghost predicate LeadsTo(env: Env, s: State, t: State, id: Uuid) {
    Inv(env, t) && Ready(env, t, id) && Leads(env, s, t)
  }

  lemma TurnLeadsTo(env: Env, s: State, r: nat, l: Label, t: State, id: Uuid)
    requires TellsApart(env) && Inv(env, s) && RequestOf(l) == Some(r) && t == Turn(env, s, r, l) && Ready(env, t, id)
    ensures LeadsTo(env, s, t, id)
  {
    TurnIsNext(env, s, r, l);
    NextKeeps(env, s, l);
    LeadsByStep(env, s, l, t);
  }

  /** A step of the document's own request that leaves documents and quarantine alone. */
  lemma TakeTurn(env: Env, s: State, r: nat, l: Label, t: State, id: Uuid)
    requires TellsApart(env) && Inv(env, s) && Ready(env, s, id) && RequestOf(l) == Some(r) && t == Turn(env, s, r, l)
    requires t.docs == s.docs && t.quarantine == s.quarantine
    ensures LeadsTo(env, s, t, id)
  {
    ReadyKept(env, s, t, id);
    TurnLeadsTo(env, s, r, l, t, id);
  }

  lemma OthersStay(env: Env, s: State, r: nat, q: Request, l: Label)
    requires At(s, r, q) && RequestOf(l) == Some(r)
    ensures OnlyMoves(s, Turn(env, s, r, l), r)
  {
    TurnIsCalm(env, s, r, q, l);
  }

  // ---------- the promotion, last step first ----------

  lemma VerifiedUploads(env: Env, s: State, id: Uuid, r: nat, q: Request, p: W.HandlerPayload, finalKey: string)
    requires id in s.docs && s.docs[id].status == Finalizing && !s.docs[id].archived
    requires s.docs[id].identity.documentId == id
    requires At(s, r, q) && q.stage == FinalizeVerified(p, WorkOf(s.docs[id]), finalKey)
    ensures var t := Turn(env, s, r, ApplyFinalize(r, Committed)); UploadedIn(t, id) && t.docs[id].objectKey == finalKey
  {
    var work := WorkOf(s.docs[id]);
    var u := FinalizeCommand(s, work, finalKey);
    assert Turn(env, s, r, ApplyFinalize(r, Committed)) == GoTo(u, r, q, FinalizeApplied(p));
  }

  lemma FromVerified(env: Env, s: State, id: Uuid, r: nat, q: Request, p: W.HandlerPayload, finalKey: string)
    requires Inv(env, s) && Ready(env, s, id) && s.docs[id].status == Finalizing
    requires At(s, r, q) && q.stage == FinalizeVerified(p, WorkOf(s.docs[id]), finalKey)
    ensures Finishes(env, s, id)
  {
    InProgressFacts(env, s, id);
    var l := ApplyFinalize(r, Committed);
    var t := Turn(env, s, r, l);
    TurnIsNext(env, s, r, l);
    VerifiedUploads(env, s, id, r, q, p, finalKey);
    FinishesNow(env, t, id);
    LeadsByStep(env, s, l, t);
    LeadsFinishes(env, s, t, id);
  }

  lemma CheckTo(env: Env, s: State, id: Uuid, r: nat, q: Request, p: W.HandlerPayload, finalKey: string,
        copied: StoredObject)
    returns (t: State)
    requires TellsApart(env) && Inv(env, s) && Ready(env, s, id)
    requires At(s, r, q) && q.stage == FinalizeCopied(p, WorkOf(s.docs[id]), finalKey, copied)
    requires Matches(env, copied, WorkOf(s.docs[id]))
    ensures LeadsTo(env, s, t, id) && t.docs == s.docs && OnlyMoves(s, t, r)
    ensures At(t, r, q.(stage := FinalizeVerified(p, WorkOf(s.docs[id]), finalKey)))
  {
    t := Turn(env, s, r, CheckCopy(r, true));
    CheckCopyGoesTo(env, s, r, q, p, WorkOf(s.docs[id]), finalKey, copied, true);
    OthersStay(env, s, r, q, CheckCopy(r, true));
    TakeTurn(env, s, r, CheckCopy(r, true), t, id);
  }

  lemma FromCopied(env: Env, s: State, id: Uuid, r: nat, q: Request, p: W.HandlerPayload, finalKey: string,
        copied: StoredObject)
    requires TellsApart(env) && Inv(env, s) && Ready(env, s, id) && s.docs[id].status == Finalizing
    requires At(s, r, q) && q.stage == FinalizeCopied(p, WorkOf(s.docs[id]), finalKey, copied)
    requires Matches(env, copied, WorkOf(s.docs[id]))
    ensures Finishes(env, s, id)
  {
    var t := CheckTo(env, s, id, r, q, p, finalKey, copied);
    FromVerified(env, t, id, r, q.(stage := FinalizeVerified(p, WorkOf(s.docs[id]), finalKey)), p, finalKey);
    LeadsFinishes(env, s, t, id);
  }

  lemma PromotionCopies(env: Env, s: State, d: DocumentData, r: nat, q: Request, p: W.HandlerPayload, finalKey: string)
    requires At(s, r, q) && q.stage == FinalizeLoaded(p, WorkOf(d))
    requires FinalKeyOf(env, d) == Some(finalKey) && env.sameWorkspace(p.objectKey, finalKey)
    requires p.objectKey in s.quarantine
    ensures var t := Turn(env, s, r, Promote(r, CopyDone));
      && t.docs == s.docs && t.quarantine == s.quarantine
      && At(t, r, q.(stage := FinalizeCopied(p, WorkOf(d), finalKey, s.quarantine[p.objectKey])))
  {
    var stored := s.quarantine[p.objectKey];
    var u := s.(evidence := s.evidence[finalKey := stored]);
    assert Turn(env, s, r, Promote(r, CopyDone)) == GoTo(u, r, q, FinalizeCopied(p, WorkOf(d), finalKey, stored));
    Moved(u, r, q, FinalizeCopied(p, WorkOf(d), finalKey, stored));
  }

  lemma PromoteTo(env: Env, s: State, id: Uuid, r: nat, q: Request, p: W.HandlerPayload, finalKey: string)
    returns (t: State)
    requires TellsApart(env) && Inv(env, s) && Ready(env, s, id) && FinalKeyOf(env, s.docs[id]) == Some(finalKey)
    requires At(s, r, q) && q.stage == FinalizeLoaded(p, WorkOf(s.docs[id])) && p.objectKey == s.docs[id].objectKey
    ensures LeadsTo(env, s, t, id) && t.docs == s.docs && OnlyMoves(s, t, r)
    ensures At(t, r, q.(stage := FinalizeCopied(p, WorkOf(s.docs[id]), finalKey, s.quarantine[p.objectKey])))
  {
    t := Turn(env, s, r, Promote(r, CopyDone));
    PromotionCopies(env, s, s.docs[id], r, q, p, finalKey);
    OthersStay(env, s, r, q, Promote(r, CopyDone));
    TakeTurn(env, s, r, Promote(r, CopyDone), t, id);
  }

  lemma FromFinalizeLoaded(env: Env, s: State, id: Uuid, r: nat, q: Request, p: W.HandlerPayload)
    requires TellsApart(env) && Inv(env, s) && Ready(env, s, id) && s.docs[id].status == Finalizing
    requires At(s, r, q) && q.stage == FinalizeLoaded(p, WorkOf(s.docs[id])) && p.objectKey == s.docs[id].objectKey
    ensures Finishes(env, s, id)
  {
    var finalKey := FinalKeyOf(env, s.docs[id]).value;
    var copied := s.quarantine[p.objectKey];
    var t := PromoteTo(env, s, id, r, q, p, finalKey);
    FromCopied(env, t, id, r, q.(stage := FinalizeCopied(p, WorkOf(s.docs[id]), finalKey, copied)), p, finalKey,
               copied);
    LeadsFinishes(env, s, t, id);
  }

  function PayloadOf(d: DocumentData): W.HandlerPayload {
    W.HandlerPayload(d.identity, d.objectKey)
  }

  /** Where the handler for a document in progress starts, and where it is once the work is loaded. */
  function StartStage(d: DocumentData): Stage {
    if d.status == PendingUpload then ScanStarted(PayloadOf(d)) else FinalizeStarted(PayloadOf(d))
  }

  function LoadedStage(d: DocumentData): Stage {
    if d.status == PendingUpload then ScanLoaded(WorkOf(d)) else FinalizeLoaded(PayloadOf(d), WorkOf(d))
  }

  lemma LoadTurn(env: Env, s: State, r: nat, q: Request, d: DocumentData)
    requires At(s, r, q) && InProgress(d.status) && LoadWork(s, PayloadOf(d), d.status) == Some(WorkOf(d))
    requires q.stage == StartStage(d)
    ensures var t := Turn(env, s, r, Load(r));
      t.docs == s.docs && t.quarantine == s.quarantine && At(t, r, q.(stage := LoadedStage(d)))
  {
    LoadGoesTo(env, s, r, q, PayloadOf(d), Some(WorkOf(d)));
    Moved(s, r, q, LoadedStage(d));
  }

  lemma LoadTo(env: Env, s: State, id: Uuid, r: nat, q: Request, d: DocumentData) returns (t: State)
    requires TellsApart(env) && Inv(env, s) && Ready(env, s, id) && d == s.docs[id] && At(s, r, q)
    requires q.stage == StartStage(d)
    ensures LeadsTo(env, s, t, id) && t.docs == s.docs && At(t, r, q.(stage := LoadedStage(d)))
    ensures OnlyMoves(s, t, r)
  {
    t := Turn(env, s, r, Load(r));
    LoadedTurn(env, s, id, r, q);
    OthersStay(env, s, r, q, Load(r));
    TakeTurn(env, s, r, Load(r), t, id);
  }

  lemma LoadedTurn(env: Env, s: State, id: Uuid, r: nat, q: Request)
    requires Inv(env, s) && id in s.docs && InProgress(s.docs[id].status) && At(s, r, q)
    requires q.stage == StartStage(s.docs[id])
    ensures var t := Turn(env, s, r, Load(r));
      t.docs == s.docs && t.quarantine == s.quarantine && At(t, r, q.(stage := LoadedStage(s.docs[id])))
  {
    InProgressFacts(env, s, id);
    LoadTurn(env, s, r, q, s.docs[id]);
  }

  lemma FromFinalizeStarted(env: Env, s: State, id: Uuid, r: nat, q: Request)
    requires TellsApart(env) && Inv(env, s) && Ready(env, s, id) && s.docs[id].status == Finalizing
    requires At(s, r, q) && q.stage == StartStage(s.docs[id])
    ensures Finishes(env, s, id)
  {
    var t := LoadTo(env, s, id, r, q, s.docs[id]);
    FromFinalizeLoaded(env, t, id, r, q.(stage := LoadedStage(s.docs[id])), PayloadOf(s.docs[id]));
    LeadsFinishes(env, s, t, id);
  }

  // ---------- delivery ----------

  lemma DeliveredState(env: Env, s: State, row: nat, r: nat)
    requires row < |s.appended| && row in s.published && r !in s.requests
    ensures var t := DeliverStep(env, s, row, r, ANY_DELIVERY);
      && t.docs == s.docs && t.quarantine == s.quarantine
      && At(t, r, Request(row, false, FirstStage(env, s.appended[row])))
  {}

  /** Pub/Sub delivers a message that it holds. */
  lemma DeliverTo(env: Env, s: State, id: Uuid, row: nat, r: nat) returns (t: State)
    requires TellsApart(env) && Inv(env, s) && Ready(env, s, id) && r !in s.requests
    requires row < |s.appended| && row in s.unacked && row in s.published
    ensures LeadsTo(env, s, t, id) && t.docs == s.docs && t == DeliverStep(env, s, row, r, ANY_DELIVERY)
    ensures At(t, r, Request(row, false, FirstStage(env, s.appended[row])))
  {
    t := DeliverStep(env, s, row, r, ANY_DELIVERY);
    DeliverIs(env, s, row, r, ANY_DELIVERY);
    DeliverKeeps(env, s, row, r, ANY_DELIVERY);
    DeliveredState(env, s, row, r);
    ReadyKept(env, s, t, id);
    LeadsByStep(env, s, Deliver(row, r, ANY_DELIVERY), t);
  }

  lemma PublishedState(s: State, row: nat)
    requires row in s.listed
    ensures var t := PublishStep(s, row);
      t.docs == s.docs && t.quarantine == s.quarantine && t.appended == s.appended && row in t.published
        && row in t.unacked
  {}

  lemma ReadState(s: State, row: nat)
    requires row in s.outbox
    ensures var t := ListStep(s, row);
      t.docs == s.docs && t.quarantine == s.quarantine && t.appended == s.appended && row in t.listed
  {}

  lemma ListTo(env: Env, s: State, id: Uuid, row: nat) returns (t: State)
    requires TellsApart(env) && Inv(env, s) && Ready(env, s, id) && row in s.outbox
    ensures LeadsTo(env, s, t, id) && t.docs == s.docs && t.appended == s.appended && row in t.listed
  {
    t := ListStep(s, row);
    ListIs(env, s, row);
    ListKeeps(env, s, row);
    ReadState(s, row);
    ReadyKept(env, s, t, id);
    LeadsByStep(env, s, List(row), t);
  }

  lemma PublishTo(env: Env, s: State, id: Uuid, row: nat) returns (t: State)
    requires TellsApart(env) && Inv(env, s) && Ready(env, s, id) && row in s.listed
    ensures LeadsTo(env, s, t, id) && t.docs == s.docs && t.appended == s.appended && row in t.published
    ensures row in t.unacked
  {
    t := PublishStep(s, row);
    PublishIs(env, s, row);
    PublishKeeps(env, s, row);
    PublishedState(s, row);
    ReadyKept(env, s, t, id);
    LeadsByStep(env, s, Publish(row), t);
  }

  /** The awaited message is in the outbox, a dequeuer has read it and may publish it, or Pub/Sub holds it. */
  predicate WaitsAt(s: State, id: Uuid, row: nat) {
    && id in s.docs && row < |s.appended| && s.appended[row] == Awaited(s.docs[id])
    && (row in s.outbox || row in s.listed || (row in s.unacked && row in s.published))
  }

  /** From there Pub/Sub can get to hold it. */
  lemma HoldTo(env: Env, s: State, id: Uuid, row: nat) returns (t: State)
    requires TellsApart(env) && Inv(env, s) && Ready(env, s, id) && WaitsAt(s, id, row)
    ensures LeadsTo(env, s, t, id) && t.docs == s.docs && t.appended == s.appended
    ensures row in t.unacked && row in t.published
  {
    if row in s.unacked && row in s.published {
      t := s;
      LeadsNowhere(env, s);
    } else if row in s.listed {
      t := PublishTo(env, s, id, row);
    } else {
      var u := ListTo(env, s, id, row);
      t := PublishTo(env, u, id, row);
      LeadsOn(env, s, u, t);
    }
  }

  /** From there its handler can be started. */
  lemma StartTo(env: Env, s: State, id: Uuid, row: nat) returns (t: State, r: nat, q: Request)
    requires TellsApart(env) && Inv(env, s) && Ready(env, s, id) && WaitsAt(s, id, row)
    ensures LeadsTo(env, s, t, id) && t.docs == s.docs && At(t, r, q) && q.stage == StartStage(s.docs[id])
  {
    var u := HoldTo(env, s, id, row);
    r := FreshRequest(u);
    t := DeliverTo(env, u, id, row, r);
    LeadsOn(env, s, u, t);
    q := Request(row, false, FirstStage(env, u.appended[row]));
  }

  lemma FinalizingFinishes(env: Env, s: State, id: Uuid, row: nat)
    requires TellsApart(env) && Inv(env, s) && Ready(env, s, id) && s.docs[id].status == Finalizing
    requires WaitsAt(s, id, row)
    ensures Finishes(env, s, id)
  {
    var t, r, q := StartTo(env, s, id, row);
    FromFinalizeStarted(env, t, id, r, q);
    LeadsFinishes(env, s, t, id);
  }

  // ---------- the scan, last step first ----------

  /** A clean verdict that is recorded moves the document on and puts its next message into the outbox. */
  lemma CleanVerdictMovesOn(env: Env, s: State, id: Uuid, r: nat, q: Request)
    requires id in s.docs && s.docs[id].status == PendingUpload && !s.docs[id].archived
    requires s.docs[id].identity.documentId == id
    requires At(s, r, q) && q.stage == ScanDecided(WorkOf(s.docs[id]), Clean)
    ensures var t := Turn(env, s, r, ApplyScan(r, Committed));
      && id in t.docs && t.docs[id] == s.docs[id].(status := Finalizing) && t.quarantine == s.quarantine
      && WaitsAt(t, id, |s.appended|)
  {
    var work := WorkOf(s.docs[id]);
    var u := ScanCommand(s, work, Clean);
    assert Turn(env, s, r, ApplyScan(r, Committed)) == GoTo(u, r, q, Succeeded);
    Moved(u, r, q, Succeeded);
    ScanCommandWorld(s, work, Clean);
  }

  lemma ApplyTo(env: Env, s: State, id: Uuid, r: nat, q: Request) returns (t: State)
    requires TellsApart(env) && Inv(env, s) && Ready(env, s, id) && s.docs[id].status == PendingUpload
    requires At(s, r, q) && q.stage == ScanDecided(WorkOf(s.docs[id]), Clean)
    ensures LeadsTo(env, s, t, id) && t.docs[id].status == Finalizing && WaitsAt(t, id, |s.appended|)
  {
    var l := ApplyScan(r, Committed);
    t := Turn(env, s, r, l);
    InProgressFacts(env, s, id);
    CleanVerdictMovesOn(env, s, id, r, q);
    ReadyMovesOn(env, s, t, id);
    TurnLeadsTo(env, s, r, l, t, id);
  }

  /** The next status asks nothing new of the document. */
  lemma ReadyMovesOn(env: Env, s: State, t: State, id: Uuid)
    requires Ready(env, s, id) && id in t.docs && t.docs[id] == s.docs[id].(status := Finalizing)
    requires t.quarantine == s.quarantine
    ensures Ready(env, t, id)
  {}

  lemma FromDecided(env: Env, s: State, id: Uuid, r: nat, q: Request)
    requires TellsApart(env) && Inv(env, s) && Ready(env, s, id) && s.docs[id].status == PendingUpload
    requires At(s, r, q) && q.stage == ScanDecided(WorkOf(s.docs[id]), Clean)
    ensures Finishes(env, s, id)
  {
    var t := ApplyTo(env, s, id, r, q);
    FinalizingFinishes(env, t, id, |s.appended|);
    LeadsFinishes(env, s, t, id);
  }

  lemma ScanTo(env: Env, s: State, id: Uuid, r: nat, q: Request, stored: StoredObject) returns (t: State)
    requires TellsApart(env) && Inv(env, s) && Ready(env, s, id)
    requires At(s, r, q) && q.stage == ScanFetched(WorkOf(s.docs[id]), stored)
    ensures LeadsTo(env, s, t, id) && t.docs == s.docs && At(t, r, q.(stage := ScanDecided(WorkOf(s.docs[id]), Clean)))
  {
    var work := WorkOf(s.docs[id]);
    t := Turn(env, s, r, Scan(r, SaysClean));
    CleanScanTurn(env, s, r, q, work, stored);
    TakeTurn(env, s, r, Scan(r, SaysClean), t, id);
  }

  lemma CleanScanTurn(env: Env, s: State, r: nat, q: Request, work: Work, stored: StoredObject)
    requires At(s, r, q) && q.stage == ScanFetched(work, stored)
    ensures var t := Turn(env, s, r, Scan(r, SaysClean));
      t.docs == s.docs && t.quarantine == s.quarantine && At(t, r, q.(stage := ScanDecided(work, Clean)))
  {
    var u := Noted(s, work, stored, Clean);
    assert Turn(env, s, r, Scan(r, SaysClean)) == GoTo(u, r, q, ScanDecided(work, Clean));
    Moved(u, r, q, ScanDecided(work, Clean));
  }

  lemma FetchTo(env: Env, s: State, id: Uuid, r: nat, q: Request) returns (t: State, stored: StoredObject)
    requires TellsApart(env) && Inv(env, s) && Ready(env, s, id) && At(s, r, q)
    requires q.stage == ScanLoaded(WorkOf(s.docs[id]))
    ensures LeadsTo(env, s, t, id) && t.docs == s.docs && At(t, r, q.(stage := ScanFetched(WorkOf(s.docs[id]), stored)))
  {
    InProgressFacts(env, s, id);
    stored := s.quarantine[s.docs[id].objectKey];
    t := Turn(env, s, r, Fetch(r, ReadDone));
    MatchingFetchTurn(env, s, r, q, WorkOf(s.docs[id]));
    TakeTurn(env, s, r, Fetch(r, ReadDone), t, id);
  }

  lemma MatchingFetchTurn(env: Env, s: State, r: nat, q: Request, work: Work)
    requires At(s, r, q) && q.stage == ScanLoaded(work) && env.validKey(work.objectKey) && work.contentLength >= 0
    requires work.objectKey in s.quarantine && Matches(env, s.quarantine[work.objectKey], work)
    ensures var t := Turn(env, s, r, Fetch(r, ReadDone));
      && t.docs == s.docs && t.quarantine == s.quarantine
      && At(t, r, q.(stage := ScanFetched(work, s.quarantine[work.objectKey])))
  {
    var stored := s.quarantine[work.objectKey];
    assert Turn(env, s, r, Fetch(r, ReadDone)) == GoTo(s, r, q, ScanFetched(work, stored));
    Moved(s, r, q, ScanFetched(work, stored));
  }

  /** A scan request for this document at any stage but a verdict against it. */
  predicate OwnScan(d: DocumentData, stage: Stage) {
    || (d.status == PendingUpload && stage == StartStage(d)) || stage == ScanLoaded(WorkOf(d))
    || (stage.ScanFetched? && stage.work == WorkOf(d)) || stage == ScanDecided(WorkOf(d), Clean)
  }

  lemma FromFetched(env: Env, s: State, id: Uuid, r: nat, q: Request, stored: StoredObject)
    requires TellsApart(env) && Inv(env, s) && Ready(env, s, id) && s.docs[id].status == PendingUpload
    requires At(s, r, q) && q.stage == ScanFetched(WorkOf(s.docs[id]), stored)
    ensures Finishes(env, s, id)
  {
    var t := ScanTo(env, s, id, r, q, stored);
    FromDecided(env, t, id, r, q.(stage := ScanDecided(WorkOf(s.docs[id]), Clean)));
    LeadsFinishes(env, s, t, id);
  }

  lemma FromScanLoaded(env: Env, s: State, id: Uuid, r: nat, q: Request)
    requires TellsApart(env) && Inv(env, s) && Ready(env, s, id) && s.docs[id].status == PendingUpload
    requires At(s, r, q) && q.stage == ScanLoaded(WorkOf(s.docs[id]))
    ensures Finishes(env, s, id)
  {
    var t, stored := FetchTo(env, s, id, r, q);
    FromFetched(env, t, id, r, q.(stage := ScanFetched(WorkOf(s.docs[id]), stored)), stored);
    LeadsFinishes(env, s, t, id);
  }

  lemma FromScanStarted(env: Env, s: State, id: Uuid, r: nat, q: Request)
    requires TellsApart(env) && Inv(env, s) && Ready(env, s, id) && s.docs[id].status == PendingUpload
    requires At(s, r, q) && q.stage == StartStage(s.docs[id])
    ensures Finishes(env, s, id)
  {
    var t := LoadTo(env, s, id, r, q, s.docs[id]);
    FromScanLoaded(env, t, id, r, q.(stage := ScanLoaded(WorkOf(s.docs[id]))));
    LeadsFinishes(env, s, t, id);
  }

  lemma FromScanRequest(env: Env, s: State, id: Uuid, r: nat, q: Request)
    requires TellsApart(env) && Inv(env, s) && Ready(env, s, id) && s.docs[id].status == PendingUpload && At(s, r, q)
    requires OwnScan(s.docs[id], q.stage)
    ensures Finishes(env, s, id)
  {
    if q.stage.ScanStarted? {
      FromScanStarted(env, s, id, r, q);
    } else if q.stage.ScanLoaded? {
      FromScanLoaded(env, s, id, r, q);
    } else if q.stage.ScanFetched? {
      FromFetched(env, s, id, r, q, q.stage.stored);
    } else {
      FromDecided(env, s, id, r, q);
    }
  }

  lemma PendingFinishes(env: Env, s: State, id: Uuid, row: nat)
    requires TellsApart(env) && Inv(env, s) && Ready(env, s, id) && s.docs[id].status == PendingUpload
    requires WaitsAt(s, id, row)
    ensures Finishes(env, s, id)
  {
    var t, r, q := StartTo(env, s, id, row);
    FromScanRequest(env, t, id, r, q);
    LeadsFinishes(env, s, t, id);
  }

  // ---------- a running request ----------

  /** A request for the awaited message that has not turned against the document. */
  ghost predicate WorkedOn(s: State, id: Uuid) {
    id in s.docs && exists r ::
      r in s.requests && s.requests[r].message < |s.appended|
        && s.appended[s.requests[r].message] == Awaited(s.docs[id])
      && !Doomed(s.requests[r].stage)
  }

  predicate Doomed(stage: Stage) {
    stage.ScanDecided? && stage.result != Clean
  }

  ghost predicate Waits(s: State, id: Uuid) {
    exists row: nat :: WaitsAt(s, id, row)
  }

  /** A finalization request for this document, before it is done. */
  predicate OwnFinalization(s: State, d: DocumentData, stage: Stage) {
    || (d.status == Finalizing && stage == StartStage(d))
    || (stage.FinalizeLoaded? && stage.work == WorkOf(d) && stage.payload.objectKey == d.objectKey)
    || (stage.FinalizeCopied? && stage.work == WorkOf(d) && d.objectKey in s.written
        && stage.copied == s.written[d.objectKey])
    || (stage.FinalizeVerified? && stage.work == WorkOf(d))
  }

  /** What a request for the awaited message works on is the document's own. */
  lemma RequestHasOwnWork(env: Env, s: State, id: Uuid, q: Request)
    requires Inv(env, s) && id in s.docs && InProgress(s.docs[id].status) && env.validKey(s.docs[id].objectKey)
    requires RequestOk(env, s, q) && s.appended[q.message] == Awaited(s.docs[id]) && !Doomed(q.stage)
    ensures if s.docs[id].status == PendingUpload then OwnScan(s.docs[id], q.stage)
      else OwnFinalization(s, s.docs[id], q.stage)
  {
    InProgressFacts(env, s, id);
    if s.docs[id].status == PendingUpload {
      OwnScanRequest(env, s, id, q);
    } else {
      OwnFinalizationRequest(env, s, id, q);
    }
  }

  lemma OwnScanRequest(env: Env, s: State, id: Uuid, q: Request)
    requires id in s.docs && s.docs[id].status == PendingUpload && env.validKey(s.docs[id].objectKey)
    requires s.docs[id].identity.documentId == id && id in s.origin && OriginalWork(s, id) == WorkOf(s.docs[id])
    requires RequestOk(env, s, q) && s.appended[q.message] == Awaited(s.docs[id]) && !Doomed(q.stage)
    ensures OwnScan(s.docs[id], q.stage)
  {}

  lemma OwnFinalizationRequest(env: Env, s: State, id: Uuid, q: Request)
    requires id in s.docs && s.docs[id].status == Finalizing && env.validKey(s.docs[id].objectKey)
    requires s.docs[id].identity.documentId == id && id in s.origin && OriginalWork(s, id) == WorkOf(s.docs[id])
    requires RequestOk(env, s, q) && s.appended[q.message] == Awaited(s.docs[id]) && !Doomed(q.stage)
    ensures OwnFinalization(s, s.docs[id], q.stage)
  {}

  lemma CopiedMatches(env: Env, s: State, d: DocumentData, copied: StoredObject)
    requires QuarantineOk(s) && Intact(env, s, d) && d.objectKey in s.written && copied == s.written[d.objectKey]
    ensures Matches(env, copied, WorkOf(d))
  {}

  lemma FromOwnCopy(env: Env, s: State, id: Uuid, r: nat, q: Request)
    requires TellsApart(env) && Inv(env, s) && Ready(env, s, id) && s.docs[id].status == Finalizing && At(s, r, q)
    requires q.stage.FinalizeCopied? && OwnFinalization(s, s.docs[id], q.stage)
    ensures Finishes(env, s, id)
  {
    CopiedMatches(env, s, s.docs[id], q.stage.copied);
    FromCopied(env, s, id, r, q, q.stage.payload, q.stage.finalKey, q.stage.copied);
  }

  lemma FromFinalizeRequest(env: Env, s: State, id: Uuid, r: nat, q: Request)
    requires TellsApart(env) && Inv(env, s) && Ready(env, s, id) && s.docs[id].status == Finalizing && At(s, r, q)
    requires OwnFinalization(s, s.docs[id], q.stage)
    ensures Finishes(env, s, id)
  {
    if q.stage.FinalizeStarted? {
      FromFinalizeStarted(env, s, id, r, q);
    } else if q.stage.FinalizeLoaded? {
      FromFinalizeLoaded(env, s, id, r, q, q.stage.payload);
    } else if q.stage.FinalizeCopied? {
      FromOwnCopy(env, s, id, r, q);
    } else {
      FromVerified(env, s, id, r, q, q.stage.payload, q.stage.finalKey);
    }
  }

  lemma WorkedOnFinishes(env: Env, s: State, id: Uuid)
    requires TellsApart(env) && Inv(env, s) && Ready(env, s, id) && WorkedOn(s, id)
    ensures Finishes(env, s, id)
  {
    var r :| r in s.requests && s.requests[r].message < |s.appended|
             && s.appended[s.requests[r].message] == Awaited(s.docs[id]) && !Doomed(s.requests[r].stage);
    var q := s.requests[r];
    assert RequestOk(env, s, q);
    RequestHasOwnWork(env, s, id, q);
    if s.docs[id].status == PendingUpload {
      FromScanRequest(env, s, id, r, q);
    } else {
      FromFinalizeRequest(env, s, id, r, q);
    }
  }
}
