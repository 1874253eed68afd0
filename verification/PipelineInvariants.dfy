/** What every step of the document pipeline keeps. */
module PipelineInvariants {
  import opened Wrappers
  import opened Uuids
  import opened Documents
  import opened Pipeline

  // ---------- facts about one document ----------

  function FinalKeyOf(env: Env, d: DocumentData): Option<string> {
    env.finalKey(d.workspaceId, d.identity, d.filename)
  }

  /** The work item as it was when the document was created. */
  function OriginalWork(s: State, id: Uuid): Work
    requires id in s.docs && id in s.origin
  {
    WorkOf(s.docs[id]).(objectKey := s.origin[id])
  }

  /** The upload the document was created from has the recorded type, length and digest. */
  ghost predicate UploadMatches(env: Env, s: State, id: Uuid) {
    && id in s.docs && id in s.origin && s.origin[id] in s.written
    && Matches(env, s.written[s.origin[id]], OriginalWork(s, id))
  }

  /** The scanner gave this verdict on exactly those bytes, for this document. */
  ghost predicate Judged(env: Env, s: State, id: Uuid, result: ScanResult) {
    UploadMatches(env, s, id) && (id, s.written[s.origin[id]].bytes, result) in s.verdicts
  }

  /** It called them clean; only a valid key gets that far. */
  ghost predicate Cleared(env: Env, s: State, id: Uuid) {
    Judged(env, s, id, Clean) && env.validKey(s.origin[id])
  }

  /** The evidence store holds exactly those bytes under the document's final key. */
  ghost predicate Stored(env: Env, s: State, id: Uuid) {
    && id in s.docs && id in s.origin && s.origin[id] in s.written
    && FinalKeyOf(env, s.docs[id]).Some? && FinalKeyOf(env, s.docs[id]).value in s.evidence
    && s.evidence[FinalKeyOf(env, s.docs[id]).value] == s.written[s.origin[id]]
  }

  predicate PastScan(status: UploadStatus) {
    status == Finalizing || status == Uploaded
  }

  ghost predicate RowIs(s: State, rows: map<Uuid, nat>, id: Uuid, e: Event) {
    id in rows && rows[id] < |s.appended| && s.appended[rows[id]] == e
  }

  ghost predicate DocOk(env: Env, s: State, id: Uuid) {
    && id in s.docs && id in s.origin
    && var d := s.docs[id];
    && d.identity.documentId == id && d.contentLength >= 0 && ArchivedIsTerminal(d)
    && (d.status != Uploaded ==> d.objectKey == s.origin[id])
    && (d.identity.owner.Policy? && InProgress(d.status) ==> PolicyLive(s, d.identity.owner.id, d.workspaceId))
    && RowIs(s, s.scanRow, id, ScanRequested(d.identity, s.origin[id]))
    && (id in s.finalRow <==> PastScan(d.status))
    && (PastScan(d.status) ==>
          RowIs(s, s.finalRow, id, FinalizationRequested(d.identity, s.origin[id])) && Cleared(env, s, id))
    && (d.status == Uploaded ==> FinalKeyOf(env, d) == Some(d.objectKey) && Stored(env, s, id))
    && (d.status == ContainsVirus ==> Judged(env, s, id, Malicious))
  }

  // ---------- facts about one outbox row ----------

  /** The work the row asks for is done, or no handler will ever accept its key. */
  ghost predicate Discharged(env: Env, s: State, e: Event) {
    || !env.validKey(e.objectKey)
    || (e.identity.documentId in s.docs
        && var status := s.docs[e.identity.documentId].status;
           if e.ScanRequested? then status != PendingUpload else status == Uploaded)
  }

  ghost predicate RowOk(env: Env, s: State, i: nat) {
    && i < |s.appended|
    && var e := s.appended[i];
       var id := e.identity.documentId;
    && id in s.docs && s.docs[id].identity == e.identity && id in s.origin && s.origin[id] == e.objectKey
    && (e.ScanRequested? ==> id in s.scanRow && s.scanRow[id] == i)
    && (e.FinalizationRequested? ==> id in s.finalRow && s.finalRow[id] == i)
    && (i in s.outbox || i in s.published)
    && (i in s.published ==> i in s.unacked || i in s.dead || Discharged(env, s, e))
  }

  // ---------- facts about one running request ----------

  ghost predicate HasOriginalWork(s: State, work: Work) {
    var id := work.identity.documentId;
    id in s.docs && id in s.origin && work == OriginalWork(s, id)
  }

  ghost predicate StageOk(env: Env, s: State, e: Event, stage: Stage) {
    match stage
    case ScanStarted(p) => e == ScanRequested(p.identity, p.objectKey)
    case ScanLoaded(work) => e == ScanRequested(work.identity, work.objectKey) && HasOriginalWork(s, work)
    case ScanFetched(work, stored) =>
      && e == ScanRequested(work.identity, work.objectKey) && HasOriginalWork(s, work)
      && UploadMatches(env, s, work.identity.documentId) && stored == s.written[work.objectKey]
        && env.validKey(work.objectKey)
    case ScanDecided(work, result) =>
      && e == ScanRequested(work.identity, work.objectKey) && HasOriginalWork(s, work)
      && (result == Clean ==> Cleared(env, s, work.identity.documentId))
      && (result == Malicious ==> Judged(env, s, work.identity.documentId, Malicious))
    case FinalizeStarted(p) => e == FinalizationRequested(p.identity, p.objectKey)
    case FinalizeLoaded(p, work) =>
      e == FinalizationRequested(p.identity, p.objectKey) && HasOriginalWork(s, work)
      && p.identity == work.identity && p.objectKey == work.objectKey
    case FinalizeCopied(p, work, finalKey, copied) =>
      && e == FinalizationRequested(p.identity, p.objectKey) && HasOriginalWork(s, work)
      && p.identity == work.identity && p.objectKey == work.objectKey
      && FinalKeyOf(env, s.docs[work.identity.documentId]) == Some(finalKey)
      && work.objectKey in s.written && copied == s.written[work.objectKey]
      && (Matches(env, copied, work) ==> Stored(env, s, work.identity.documentId))
    case FinalizeVerified(p, work, finalKey) =>
      && e == FinalizationRequested(p.identity, p.objectKey) && HasOriginalWork(s, work)
      && p.identity == work.identity && p.objectKey == work.objectKey
      && FinalKeyOf(env, s.docs[work.identity.documentId]) == Some(finalKey)
      && UploadMatches(env, s, work.identity.documentId) && Stored(env, s, work.identity.documentId)
    case FinalizeApplied(p) => Discharged(env, s, e)
    case Succeeded => Discharged(env, s, e)
  }

  ghost predicate RequestOk(env: Env, s: State, q: Request) {
    q.message < |s.appended| && q.message in s.published && StageOk(env, s, s.appended[q.message], q.stage)
  }

  // ---------- the invariant ----------

  ghost predicate Bookkeeping(s: State) {
    && s.origin.Keys == s.docs.Keys && s.scanRow.Keys == s.docs.Keys && s.finalRow.Keys <= s.docs.Keys
    && (forall i :: i in s.published ==> i < |s.appended|)
    && (forall i :: i in s.outbox ==> i < |s.appended|)
    && (forall i :: i in s.listed ==> i < |s.appended|)
    && QuarantineOk(s)
  }

  ghost predicate DocsOk(env: Env, s: State) {
    forall id :: id in s.docs ==> DocOk(env, s, id)
  }

  ghost predicate RowsOk(env: Env, s: State) {
    forall i: nat :: i < |s.appended| ==> RowOk(env, s, i)
  }

  ghost predicate RequestsOk(env: Env, s: State) {
    forall r :: r in s.requests ==> RequestOk(env, s, s.requests[r])
  }

  ghost predicate Inv(env: Env, s: State) {
    Bookkeeping(s) && DocsOk(env, s) && RowsOk(env, s) && RequestsOk(env, s)
  }

  // ---------- what a later state keeps of an earlier one ----------

  ghost predicate DocsEvolve(s: State, t: State) {
    forall id :: id in s.docs && id in s.origin ==>
      id in t.docs && id in t.origin && t.origin[id] == s.origin[id] && DataEvolves(s.docs[id], t.docs[id])
  }

  ghost predicate WrittenKept(s: State, t: State) {
    forall k :: k in s.written ==> k in t.written && t.written[k] == s.written[k]
  }

  /** A verified copy is never lost again. */
  ghost predicate StoredKept(env: Env, s: State, t: State) {
    forall id :: UploadMatches(env, s, id) && Stored(env, s, id) ==> Stored(env, t, id)
  }

  ghost predicate Evolves(env: Env, s: State, t: State) {
    && DocsEvolve(s, t) && WrittenKept(s, t) && s.verdicts <= t.verdicts && s.appended <= t.appended
    && s.published <= t.published && s.dead <= t.dead && StoredKept(env, s, t)
  }

  lemma OriginalWorkKept(env: Env, s: State, t: State, id: Uuid)
    requires DocsEvolve(s, t) && id in s.docs && id in s.origin
    ensures id in t.docs && id in t.origin && t.origin[id] == s.origin[id]
    ensures OriginalWork(t, id) == OriginalWork(s, id) && FinalKeyOf(env, t.docs[id]) == FinalKeyOf(env, s.docs[id])
    ensures DataEvolves(s.docs[id], t.docs[id])
  {}

  lemma FactsKept(env: Env, s: State, t: State, id: Uuid)
    requires Evolves(env, s, t)
    ensures UploadMatches(env, s, id) ==> UploadMatches(env, t, id)
    ensures Cleared(env, s, id) ==> Cleared(env, t, id)
    ensures Judged(env, s, id, Malicious) ==> Judged(env, t, id, Malicious)
    ensures UploadMatches(env, s, id) && Stored(env, s, id) ==> Stored(env, t, id)
  {
    if UploadMatches(env, s, id) {
      OriginalWorkKept(env, s, t, id);
    }
  }

  lemma WorkKept(env: Env, s: State, t: State, work: Work)
    requires DocsEvolve(s, t) && HasOriginalWork(s, work)
    ensures HasOriginalWork(t, work)
    ensures FinalKeyOf(env, t.docs[work.identity.documentId]) == FinalKeyOf(env, s.docs[work.identity.documentId])
  {
    OriginalWorkKept(env, s, t, work.identity.documentId);
  }

  lemma DischargedKept(env: Env, s: State, t: State, e: Event)
    requires DocsEvolve(s, t) && s.docs.Keys <= s.origin.Keys && Discharged(env, s, e)
    ensures Discharged(env, t, e)
  {}

  lemma ScanStageKept(env: Env, s: State, t: State, e: Event, stage: Stage)
    requires ScanStage(stage) && Evolves(env, s, t) && StageOk(env, s, e, stage)
    ensures StageOk(env, t, e, stage)
  {
    match stage
    case ScanStarted(_) =>
    case ScanLoaded(work) => WorkKept(env, s, t, work);
    case ScanFetched(work, _) => WorkKept(env, s, t, work); FactsKept(env, s, t, work.identity.documentId);
    case ScanDecided(work, _) => WorkKept(env, s, t, work); FactsKept(env, s, t, work.identity.documentId);
  }

  lemma StageKept(env: Env, s: State, t: State, e: Event, stage: Stage)
    requires Evolves(env, s, t) && s.docs.Keys <= s.origin.Keys && StageOk(env, s, e, stage)
    ensures StageOk(env, t, e, stage)
  {
    if ScanStage(stage) {
      ScanStageKept(env, s, t, e, stage);
    } else {
      match stage
      case FinalizeStarted(_) =>
      case FinalizeLoaded(_, work) => WorkKept(env, s, t, work);
      case FinalizeCopied(_, work, _, _) => WorkKept(env, s, t, work); FactsKept(env, s, t, work.identity.documentId);
      case FinalizeVerified(_, work, _) => WorkKept(env, s, t, work); FactsKept(env, s, t, work.identity.documentId);
      case FinalizeApplied(_) => DischargedKept(env, s, t, e);
      case Succeeded => DischargedKept(env, s, t, e);
    }
  }

  lemma RequestKept(env: Env, s: State, t: State, q: Request)
    requires Evolves(env, s, t) && s.docs.Keys <= s.origin.Keys && RequestOk(env, s, q)
    ensures RequestOk(env, t, q)
  {
    StageKept(env, s, t, s.appended[q.message], q.stage);
  }

  lemma DocKept(env: Env, s: State, t: State, id: Uuid)
    requires Evolves(env, s, t) && DocOk(env, s, id) && id in t.docs && t.docs[id] == s.docs[id]
    requires id in t.scanRow && t.scanRow[id] == s.scanRow[id]
    requires id in t.finalRow <==> id in s.finalRow
    requires id in s.finalRow ==> t.finalRow[id] == s.finalRow[id]
    requires forall p, w :: PolicyLive(s, p, w) ==> PolicyLive(t, p, w)
    ensures DocOk(env, t, id)
  {
    FactsKept(env, s, t, id);
  }

  lemma RowKept(env: Env, s: State, t: State, i: nat)
    requires Evolves(env, s, t) && RowOk(env, s, i)
    requires forall id :: id in s.scanRow ==> id in t.scanRow && t.scanRow[id] == s.scanRow[id]
    requires forall id :: id in s.finalRow ==> id in t.finalRow && t.finalRow[id] == s.finalRow[id]
    requires i in s.outbox ==> i in t.outbox || i in t.published
    requires i in t.published ==> i in s.published || i in t.unacked
    requires i in s.unacked || i in s.dead ==> i in t.unacked || i in t.dead || Discharged(env, t, s.appended[i])
    ensures RowOk(env, t, i)
  {
    OriginalWorkKept(env, s, t, s.appended[i].identity.documentId);
  }

  /** No row is deleted unpublished, and none leaves Pub/Sub before its work is done. */
  ghost predicate QueueKept(env: Env, s: State, t: State) {
    forall i :: 0 <= i < |s.appended| ==>
      && (i in s.outbox ==> i in t.outbox || i in t.published)
      && (i in t.published ==> i in s.published || i in t.unacked)
      && (i in s.unacked || i in s.dead ==> i in t.unacked || i in t.dead || Discharged(env, t, s.appended[i]))
  }

  lemma RowsKept(env: Env, s: State, t: State)
    requires Evolves(env, s, t) && RowsOk(env, s) && QueueKept(env, s, t)
    requires forall id :: id in s.scanRow ==> id in t.scanRow && t.scanRow[id] == s.scanRow[id]
    requires forall id :: id in s.finalRow ==> id in t.finalRow && t.finalRow[id] == s.finalRow[id]
    ensures forall i: nat :: i < |s.appended| ==> RowOk(env, t, i)
  {
    forall i: nat | i < |s.appended| ensures RowOk(env, t, i) {
      RowKept(env, s, t, i);
    }
  }

  // ---------- steps that touch no document ----------

  /** The tables that only commands change. */
  ghost predicate SameTables(s: State, t: State) {
    && t.policies == s.policies && t.docs == s.docs && t.appended == s.appended && t.origin == s.origin
    && t.scanRow == s.scanRow && t.finalRow == s.finalRow
  }

  ghost predicate QuarantineOk(s: State) {
    forall k :: k in s.quarantine ==> k in s.written && s.quarantine[k] == s.written[k]
  }

  lemma SameTablesEvolve(env: Env, s: State, t: State)
    requires SameTables(s, t) && s.published <= t.published && s.dead <= t.dead && WrittenKept(s, t)
    requires s.verdicts <= t.verdicts
    requires StoredKept(env, s, t)
    ensures Evolves(env, s, t)
  {}

  lemma SameTablesDocs(env: Env, s: State, t: State)
    requires SameTables(s, t) && Evolves(env, s, t) && DocsOk(env, s)
    ensures DocsOk(env, t)
  {
    forall id | id in t.docs ensures DocOk(env, t, id) {
      DocKept(env, s, t, id);
    }
  }

  /** Every request of `t` is one of `s`, or in order. */
  ghost predicate RequestsFrom(env: Env, s: State, t: State) {
    forall x :: x in t.requests ==>
      (x in s.requests && t.requests[x] == s.requests[x]) || RequestOk(env, t, t.requests[x])
  }

  lemma RequestsKept(env: Env, s: State, t: State)
    requires Evolves(env, s, t) && s.docs.Keys <= s.origin.Keys && RequestsOk(env, s) && RequestsFrom(env, s, t)
    ensures RequestsOk(env, t)
  {
    forall x | x in t.requests ensures RequestOk(env, t, t.requests[x]) {
      if x in s.requests && t.requests[x] == s.requests[x] {
        RequestKept(env, s, t, s.requests[x]);
      }
    }
  }

  /** Every step that leaves the tables alone and is careful with messages, stores and requests. */
  lemma StepKeeps(env: Env, s: State, t: State)
    requires Inv(env, s) && SameTables(s, t) && QuarantineOk(t) && QueueKept(env, s, t)
    requires WrittenKept(s, t) && s.verdicts <= t.verdicts && StoredKept(env, s, t)
    requires s.published <= t.published && s.dead <= t.dead && t.outbox <= s.outbox
    requires forall i :: i in t.published ==> i < |t.appended|
    requires forall i :: i in t.listed ==> i < |t.appended|
    requires RequestsFrom(env, s, t)
    ensures Inv(env, t) && Evolves(env, s, t)
  {
    SameTablesEvolve(env, s, t);
    SameTablesDocs(env, s, t);
    RowsKept(env, s, t);
    RequestsKept(env, s, t);
  }

  /** Steps that leave the stores alone as well. */
  lemma QueueStep(env: Env, s: State, t: State)
    requires Inv(env, s) && SameTables(s, t) && QueueKept(env, s, t)
    requires t.quarantine == s.quarantine && t.written == s.written && t.evidence == s.evidence
    requires t.verdicts == s.verdicts
    requires s.published <= t.published && s.dead <= t.dead && t.outbox <= s.outbox
    requires forall i :: i in t.published ==> i < |t.appended|
    requires forall i :: i in t.listed ==> i < |t.appended|
    requires RequestsFrom(env, s, t)
    ensures Inv(env, t) && Evolves(env, s, t)
  {
    StepKeeps(env, s, t);
  }

  lemma NothingHappens(env: Env, s: State)
    ensures Evolves(env, s, s)
  {}

  lemma ListKeeps(env: Env, s: State, row: nat)
    requires Inv(env, s)
    ensures Inv(env, ListStep(s, row)) && Evolves(env, s, ListStep(s, row))
  {
    var t := ListStep(s, row);
    if row in s.outbox {
      assert RequestsFrom(env, s, t) && QueueKept(env, s, t);
      QueueStep(env, s, t);
    } else {
      NothingHappens(env, s);
    }
  }

  lemma UnlistKeeps(env: Env, s: State, row: nat)
    requires Inv(env, s)
    ensures Inv(env, UnlistStep(s, row)) && Evolves(env, s, UnlistStep(s, row))
  {
    var t := UnlistStep(s, row);
    assert RequestsFrom(env, s, t) && QueueKept(env, s, t);
    QueueStep(env, s, t);
  }

  lemma PublishKeeps(env: Env, s: State, row: nat)
    requires Inv(env, s)
    ensures Inv(env, PublishStep(s, row)) && Evolves(env, s, PublishStep(s, row))
  {
    var t := PublishStep(s, row);
    if row in s.listed {
      assert RequestsFrom(env, s, t) && QueueKept(env, s, t);
      QueueStep(env, s, t);
    } else {
      NothingHappens(env, s);
    }
  }

  lemma DeleteRowKeeps(env: Env, s: State, row: nat)
    requires Inv(env, s)
    ensures Inv(env, DeleteRowStep(s, row)) && Evolves(env, s, DeleteRowStep(s, row))
  {
    var t := DeleteRowStep(s, row);
    if row in s.published {
      assert RequestsFrom(env, s, t) && QueueKept(env, s, t);
      QueueStep(env, s, t);
    } else {
      NothingHappens(env, s);
    }
  }

  lemma DeadLetterKeeps(env: Env, s: State, row: nat)
    requires Inv(env, s)
    ensures Inv(env, DeadLetterStep(s, row)) && Evolves(env, s, DeadLetterStep(s, row))
  {
    var t := DeadLetterStep(s, row);
    if row in s.unacked {
      assert RequestsFrom(env, s, t) && QueueKept(env, s, t);
      QueueStep(env, s, t);
    } else {
      NothingHappens(env, s);
    }
  }

  lemma FirstStageOk(env: Env, s: State, e: Event)
    ensures StageOk(env, s, e, FirstStage(env, e))
  {}

  /** Whether a request is in order does not depend on which other requests run. */
  lemma RequestOkAt(env: Env, s: State, t: State, q: Request)
    requires t == s.(requests := t.requests) && s.docs.Keys <= s.origin.Keys
    requires RequestOk(env, s, q)
    ensures RequestOk(env, t, q)
  {
    OnlyRequestsChange(env, s, t);
    StageKept(env, s, t, s.appended[q.message], q.stage);
  }

  lemma OnlyRequestsChange(env: Env, s: State, t: State)
    requires t == s.(requests := t.requests)
    ensures Evolves(env, s, t)
  {}

  /** A request that is in order may be put under any number. */
  lemma PutRequestKeeps(env: Env, s: State, t: State, r: nat, q: Request)
    requires Inv(env, s) && RequestOk(env, s, q) && t == s.(requests := s.requests[r := q])
    ensures Inv(env, t) && Evolves(env, s, t)
  {
    RequestOkAt(env, s, t, q);
    assert RequestsFrom(env, s, t) && QueueKept(env, s, t);
    QueueStep(env, s, t);
  }

  lemma DeliverKeeps(env: Env, s: State, row: nat, r: nat, d: Delivery)
    requires Inv(env, s)
    ensures Inv(env, DeliverStep(env, s, row, r, d)) && Evolves(env, s, DeliverStep(env, s, row, r, d))
  {
    var t := DeliverStep(env, s, row, r, d);
    if row in s.published && r !in s.requests {
      FirstStageOk(env, s, s.appended[row]);
      PutRequestKeeps(env, s, t, r, t.requests[r]);
    } else {
      NothingHappens(env, s);
    }
  }

  lemma AcknowledgeKeeps(env: Env, s: State, r: nat)
    requires Inv(env, s)
    ensures Inv(env, AcknowledgeStep(s, r)) && Evolves(env, s, AcknowledgeStep(s, r))
  {
    var t := AcknowledgeStep(s, r);
    if r in s.requests && s.requests[r].stage.Succeeded? {
      assert RequestOk(env, s, s.requests[r]);
      AcknowledgedQueue(env, s, r, t);
      QueueStep(env, s, t);
    } else {
      NothingHappens(env, s);
    }
  }

  /** Only a message whose work is done is acknowledged. */
  lemma AcknowledgedQueue(env: Env, s: State, r: nat, t: State)
    requires r in s.requests && s.requests[r].stage.Succeeded? && RequestOk(env, s, s.requests[r])
    requires t == s.(requests := s.requests - {r}, unacked := s.unacked - multiset{s.requests[r].message})
    ensures RequestsFrom(env, s, t) && QueueKept(env, s, t)
  {
    var m := s.requests[r].message;
    assert Discharged(env, s, s.appended[m]);
    forall i | 0 <= i < |s.appended| && (i in s.unacked || i in s.dead)
      ensures i in t.unacked || i in t.dead || Discharged(env, t, s.appended[i])
    {
      assert i == m || i in t.unacked || i in t.dead;
    }
  }

  lemma DropKeeps(env: Env, s: State, r: nat)
    requires Inv(env, s)
    ensures Inv(env, Drop(s, r)) && Evolves(env, s, Drop(s, r))
  {
    QueueStep(env, s, Drop(s, r));
  }
}
