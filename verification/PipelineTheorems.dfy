/** What the document pipeline guarantees in every reachable state and over every run. */
module PipelineTheorems {
  import opened Wrappers
  import opened Uuids
  import opened Documents
  import OK = ObjectKey
  import opened Pipeline
  import opened PipelineInvariants
  import opened PipelinePhases
  import opened PipelineSteps

  ghost predicate Reachable(env: Env, s: State) {
    exists labels :: s == Run(env, INITIAL, labels)
  }

  lemma ReachableInOrder(env: Env, s: State)
    requires Reachable(env, s) && Faithful(env)
    ensures Inv(env, s)
  {
    var labels :| s == Run(env, INITIAL, labels);
    FaithfulTellsApart(env);
    InitiallyInOrder(env);
    RunKeeps(env, INITIAL, labels);
  }

  // ---------- safety ----------

  /**
    An uploaded document lives at the key its own identity determines, the evidence store holds there an
    object of the recorded type, length and SHA-256, and the scanner called exactly those bytes clean.
   */
  lemma UploadedIsClearedAndStored(env: Env, s: State, id: Uuid)
    requires Faithful(env) && Reachable(env, s) && id in s.docs && s.docs[id].status == Uploaded
    ensures var d := s.docs[id];
      && OK.FinalKey(d.workspaceId, d.identity, d.filename) == Some(d.objectKey)
      && d.objectKey in s.evidence
      && var stored := s.evidence[d.objectKey];
      && stored.contentType == d.contentType && |stored.bytes| == d.contentLength
      && env.sha(stored.bytes) == d.checksumSha256
      && (id, stored.bytes, Clean) in s.verdicts
  {
    ReachableInOrder(env, s);
    UploadedFacts(env, s, id);
  }

  lemma UploadedFacts(env: Env, s: State, id: Uuid)
    requires DocOk(env, s, id) && s.docs[id].status == Uploaded
    ensures FinalKeyOf(env, s.docs[id]) == Some(s.docs[id].objectKey) && s.docs[id].objectKey in s.evidence
    ensures Matches(env, s.evidence[s.docs[id].objectKey], WorkOf(s.docs[id]))
    ensures (id, s.evidence[s.docs[id].objectKey].bytes, Clean) in s.verdicts
  {}

  /**
    A document marked as infected is so because the scanner called malicious exactly the bytes that were uploaded
    for it, which have the recorded type, length and SHA-256.
   */
  lemma InfectedWasCalledMalicious(env: Env, s: State, id: Uuid)
    requires Faithful(env) && Reachable(env, s) && id in s.docs && s.docs[id].status == ContainsVirus
    ensures var d := s.docs[id];
      && d.objectKey in s.written
      && var upload := s.written[d.objectKey];
      && upload.contentType == d.contentType && |upload.bytes| == d.contentLength
      && env.sha(upload.bytes) == d.checksumSha256
      && (id, upload.bytes, Malicious) in s.verdicts
  {
    ReachableInOrder(env, s);
    assert DocOk(env, s, id);
  }

  /** What a document can become: final verdicts are final, an upload stays put, an archived document is frozen. */
  lemma VerdictsAreFinal(env: Env, s: State, labels: seq<Label>, id: Uuid)
    requires Faithful(env) && Reachable(env, s) && id in s.docs
    ensures var t := Run(env, s, labels);
      && id in t.docs && DataEvolves(s.docs[id], t.docs[id])
      && (s.docs[id].status == ContainsVirus || s.docs[id].status == FailedUpload ==>
          t.docs[id].status == s.docs[id].status)
      && (s.docs[id].status == Uploaded ==>
          t.docs[id].status == Uploaded && t.docs[id].objectKey == s.docs[id].objectKey)
      && (s.docs[id].archived ==> t.docs[id] == s.docs[id] && !InProgress(s.docs[id].status))
  {
    ReachableInOrder(env, s);
    assert DocOk(env, s, id);
    FaithfulTellsApart(env);
    RunKeeps(env, s, labels);
    DocumentFate(env, s, Run(env, s, labels), id);
  }

  lemma DocumentFate(env: Env, s: State, t: State, id: Uuid)
    requires DocOk(env, s, id) && DocsEvolve(s, t)
    ensures id in t.docs && DataEvolves(s.docs[id], t.docs[id])
    ensures s.docs[id].status == ContainsVirus || s.docs[id].status == FailedUpload ==>
      t.docs[id].status == s.docs[id].status
    ensures s.docs[id].status == Uploaded ==>
      t.docs[id].status == Uploaded && t.docs[id].objectKey == s.docs[id].objectKey
    ensures s.docs[id].archived ==> t.docs[id] == s.docs[id] && !InProgress(s.docs[id].status)
  {}

  // ---------- no work is lost ----------

  /** The event is in the outbox, waiting in Pub/Sub, or dead-lettered. */
  ghost predicate Held(s: State, row: nat) {
    row in s.outbox || row in s.unacked || row in s.dead
  }

  lemma RowHeldUntilDone(env: Env, s: State, row: nat)
    requires RowOk(env, s, row) && !Discharged(env, s, s.appended[row])
    ensures Held(s, row)
  {}

  ghost predicate HasMessage(s: State, e: Event) {
    exists row: nat :: row < |s.appended| && s.appended[row] == e && Held(s, row)
  }

  ghost predicate DeadLettered(s: State, e: Event) {
    exists row: nat :: row < |s.appended| && s.appended[row] == e && row in s.dead
  }

  /** A pending document with a valid key still has its scan message. */
  lemma PendingHasScanMessage(env: Env, s: State, id: Uuid)
    requires Faithful(env) && Reachable(env, s) && id in s.docs && s.docs[id].status == PendingUpload
    requires OK.Parse(s.docs[id].objectKey).Some?
    ensures HasMessage(s, ScanRequested(s.docs[id].identity, s.docs[id].objectKey))
  {
    ReachableInOrder(env, s);
    assert DocOk(env, s, id) && RowOk(env, s, s.scanRow[id]);
    RowHeldUntilDone(env, s, s.scanRow[id]);
  }

  /** A finalizing document still has its finalization message; no document gets that far with an invalid key. */
  lemma FinalizingHasFinalizationMessage(env: Env, s: State, id: Uuid)
    requires Faithful(env) && Reachable(env, s) && id in s.docs && s.docs[id].status == Finalizing
    ensures OK.Parse(s.docs[id].objectKey).Some?
    ensures HasMessage(s, FinalizationRequested(s.docs[id].identity, s.docs[id].objectKey))
  {
    ReachableInOrder(env, s);
    assert DocOk(env, s, id) && RowOk(env, s, s.finalRow[id]);
    RowHeldUntilDone(env, s, s.finalRow[id]);
  }

  /** A row is gone from the outbox only after Pub/Sub has it. */
  lemma RowsLeaveOnlyPublished(env: Env, s: State, row: nat)
    requires Faithful(env) && Reachable(env, s) && row < |s.appended| && row !in s.outbox
    ensures row in s.published
  {
    ReachableInOrder(env, s);
    assert RowOk(env, s, row);
  }

  /** One document, one kind of event: at most one row, ever. */
  lemma EventsAreUnique(env: Env, s: State, i: nat, j: nat)
    requires Faithful(env) && Reachable(env, s) && i < |s.appended| && j < |s.appended|
    requires s.appended[i].identity.documentId == s.appended[j].identity.documentId
    requires s.appended[i].ScanRequested? == s.appended[j].ScanRequested?
    ensures i == j
  {
    ReachableInOrder(env, s);
    assert RowOk(env, s, i) && RowOk(env, s, j);
  }

  // ---------- composing runs ----------

  lemma ReachableOn(env: Env, s: State, labels: seq<Label>)
    requires Reachable(env, s)
    ensures Reachable(env, Run(env, s, labels))
  {
    var before :| s == Run(env, INITIAL, before);
    RunConcat(env, INITIAL, before, labels);
  }

  // ---------- where the valid key is needed ----------

  const ANY_DELIVERY := Delivery(ZERO_DIGITS, None, None, false, "", None, 0)

  lemma FreshRequest(s: State) returns (r: nat)
    ensures r !in s.requests
  {
    r := FreshAbove(s.requests.Keys);
  }

  lemma {:induction false} FreshAbove(used: set<nat>) returns (r: nat)
    ensures forall x :: x in used ==> x < r
    decreases |used|
  {
    r := 0;
    if used != {} {
      var x :| x in used;
      var above := FreshAbove(used - {x});
      r := if x < above then above else x + 1;
      assert forall y :: y in used ==> y == x || y in used - {x};
    }
  }

  lemma ListIs(env: Env, s: State, row: nat)
    ensures Next(env, s, List(row)) == ListStep(s, row)
  {}

  lemma PublishIs(env: Env, s: State, row: nat)
    ensures Next(env, s, Publish(row)) == PublishStep(s, row)
  {}

  lemma DeleteRowIs(env: Env, s: State, row: nat)
    ensures Next(env, s, DeleteRow(row)) == DeleteRowStep(s, row)
  {}

  lemma DeliverIs(env: Env, s: State, row: nat, r: nat, d: Delivery)
    ensures Next(env, s, Deliver(row, r, d)) == DeliverStep(env, s, row, r, d)
  {}

  lemma AcknowledgeIs(env: Env, s: State, r: nat)
    ensures Next(env, s, Acknowledge(r)) == AcknowledgeStep(s, r)
  {}

  /** The row is published and deleted. */
  lemma PublishedAndDeleted(env: Env, s: State, row: nat)
    requires row in s.outbox || row in s.published
    ensures var t := Run(env, s, [List(row), Publish(row), DeleteRow(row)]);
      t.docs == s.docs && t.appended == s.appended && t.dead == s.dead && row in t.published && row !in t.outbox
  {
    var t := ListStep(s, row);
    var u := PublishStep(t, row);
    RunThree(env, s, List(row), Publish(row), DeleteRow(row));
    ListIs(env, s, row);
    PublishIs(env, t, row);
    DeleteRowIs(env, u, row);
    ListedState(s, row);
    DeletedState(t, row);
  }

  lemma ListedState(s: State, row: nat)
    ensures var t := ListStep(s, row);
      && t.docs == s.docs && t.appended == s.appended && t.dead == s.dead && t.published == s.published
      && (row in s.outbox ==> row in t.listed)
  {
    if row in s.outbox {
      assert ListStep(s, row) == s.(listed := s.listed + multiset{row});
    }
  }

  lemma DeletedState(s: State, row: nat)
    requires row in s.listed || row in s.published
    ensures var t := DeleteRowStep(PublishStep(s, row), row);
      t.docs == s.docs && t.appended == s.appended && t.dead == s.dead && row in t.published && row !in t.outbox
  {
    var u := PublishStep(s, row);
    assert u.docs == s.docs && u.appended == s.appended && u.dead == s.dead && row in u.published;
    assert DeleteRowStep(u, row) == u.(outbox := u.outbox - {row});
  }

  /** Delivering and acknowledging a message for an invalid key takes one copy of it away and changes nothing else. */
  lemma OneCopyAcknowledged(env: Env, s: State, row: nat, r: nat)
    requires row < |s.appended| && row in s.published && r !in s.requests && !env.validKey(s.appended[row].objectKey)
    ensures Run(env, s, [Deliver(row, r, ANY_DELIVERY), Acknowledge(r)]) == s.(unacked := s.unacked - multiset{row})
  {
    var q := Request(row, false, Succeeded);
    var t := s.(requests := s.requests[r := q]);
    DeliverIs(env, s, row, r, ANY_DELIVERY);
    assert DeliverStep(env, s, row, r, ANY_DELIVERY) == t;
    AcknowledgeIs(env, t, r);
    assert s.requests[r := q] - {r} == s.requests;
    RunTwo(env, s, Deliver(row, r, ANY_DELIVERY), Acknowledge(r));
  }

  /** So all copies can be acknowledged. */
  lemma {:induction false} AllCopiesAcknowledged(env: Env, s: State, row: nat) returns (labels: seq<Label>)
    requires row < |s.appended| && row in s.published && !env.validKey(s.appended[row].objectKey)
    ensures var t := Run(env, s, labels);
      t.docs == s.docs && t.appended == s.appended && t.dead == s.dead && t.outbox == s.outbox && row !in t.unacked
    decreases s.unacked[row]
  {
    labels := [];
    if row in s.unacked {
      var r := FreshRequest(s);
      var t := s.(unacked := s.unacked - multiset{row});
      OneCopyAcknowledged(env, s, row, r);
      var rest := AllCopiesAcknowledged(env, t, row);
      labels := [Deliver(row, r, ANY_DELIVERY), Acknowledge(r)] + rest;
      RunConcat(env, s, [Deliver(row, r, ANY_DELIVERY), Acknowledge(r)], rest);
    }
  }

  lemma Stranding(env: Env, s: State, row: nat) returns (labels: seq<Label>)
    requires row < |s.appended| && (row in s.outbox || row in s.published) && row !in s.dead
    requires !env.validKey(s.appended[row].objectKey)
    ensures var t := Run(env, s, labels); t.docs == s.docs && t.appended == s.appended && !Held(t, row)
  {
    var first := [List(row), Publish(row), DeleteRow(row)];
    PublishedAndDeleted(env, s, row);
    var rest := AllCopiesAcknowledged(env, Run(env, s, first), row);
    labels := first + rest;
    RunConcat(env, s, first, rest);
  }

  /** As long as the document is pending, now or later, its scan message is still there. */
  ghost predicate NeverForgotten(env: Env, s: State, id: Uuid)
    requires id in s.docs
  {
    var e := ScanRequested(s.docs[id].identity, s.docs[id].objectKey);
    forall labels ::
      var t := Run(env, s, labels);
      id in t.docs && t.docs[id].status == PendingUpload ==> HasMessage(t, e)
  }

  lemma HeldNeverForgotten(env: Env, s: State, id: Uuid)
    requires Faithful(env) && Reachable(env, s) && id in s.docs && s.docs[id].status == PendingUpload
    requires var e := ScanRequested(s.docs[id].identity, s.docs[id].objectKey);
      env.validKey(s.docs[id].objectKey) || DeadLettered(s, e)
    ensures NeverForgotten(env, s, id)
  {
    var e := ScanRequested(s.docs[id].identity, s.docs[id].objectKey);
    forall labels ensures
      var t := Run(env, s, labels); id in t.docs && t.docs[id].status == PendingUpload ==> HasMessage(t, e)
    {
      ReachableOn(env, s, labels);
      VerdictsAreFinal(env, s, labels, id);
      var t := Run(env, s, labels);
      if t.docs[id].status == PendingUpload {
        if env.validKey(s.docs[id].objectKey) {
          PendingHasScanMessage(env, t, id);
        } else {
          DeadLetterStays(env, s, labels, e);
        }
      }
    }
  }

  lemma DeadLetterStays(env: Env, s: State, labels: seq<Label>, e: Event)
    requires Faithful(env) && Reachable(env, s) && DeadLettered(s, e)
    ensures HasMessage(Run(env, s, labels), e)
  {
    var row: nat :| row < |s.appended| && s.appended[row] == e && row in s.dead;
    ReachableInOrder(env, s);
    FaithfulTellsApart(env);
    RunKeeps(env, s, labels);
    var t := Run(env, s, labels);
    assert t.appended[row] == e && Held(t, row);
  }

  lemma InvalidKeyForgotten(env: Env, s: State, id: Uuid)
    requires Faithful(env) && Reachable(env, s) && id in s.docs && s.docs[id].status == PendingUpload
    requires !env.validKey(s.docs[id].objectKey)
    requires !DeadLettered(s, ScanRequested(s.docs[id].identity, s.docs[id].objectKey))
    ensures !NeverForgotten(env, s, id)
  {
    ReachableInOrder(env, s);
    var row := s.scanRow[id];
    assert DocOk(env, s, id) && RowOk(env, s, row);
    var labels := Stranding(env, s, row);
    ReachableOn(env, s, labels);
    OnlyMessage(env, Run(env, s, labels), row);
  }

  lemma OnlyMessage(env: Env, t: State, row: nat)
    requires Faithful(env) && Reachable(env, t) && row < |t.appended| && !Held(t, row)
    ensures !HasMessage(t, t.appended[row])
  {
    if HasMessage(t, t.appended[row]) {
      var i: nat :| i < |t.appended| && t.appended[i] == t.appended[row] && Held(t, i);
      EventsAreUnique(env, t, i, row);
      assert false;
    }
  }

  /**
    Exactly when a pending document cannot be forgotten: its key is one the workers accept, or its message is
    already dead-lettered. With an invalid key the workers acknowledge the message without looking at the
    document, which stays pending with nothing to pick it up.
   */
  lemma NeverForgottenIffKeyValid(env: Env, s: State, id: Uuid)
    requires Faithful(env) && Reachable(env, s) && id in s.docs && s.docs[id].status == PendingUpload
    ensures NeverForgotten(env, s, id) <==>
      OK.Parse(s.docs[id].objectKey).Some? || DeadLettered(s, ScanRequested(s.docs[id].identity, s.docs[id].objectKey))
  {
    if env.validKey(s.docs[id].objectKey) || DeadLettered(s, ScanRequested(s.docs[id].identity, s.docs[id].objectKey)) {
      HeldNeverForgotten(env, s, id);
    } else {
      InvalidKeyForgotten(env, s, id);
    }
  }

  /**
    Such documents exist: the create command takes any object key, so creating a document under the empty key is
    enough. The upload service never does that; see `StagedKeysAreValid`.
   */
  lemma InvalidKeyWitness(env: Env) returns (s: State, id: Uuid)
    requires Faithful(env)
    ensures Reachable(env, s) && id in s.docs && s.docs[id].status == PendingUpload
    ensures OK.Parse(s.docs[id].objectKey).None?
    ensures !NeverForgotten(env, s, id)
  {
    id := ZERO_DIGITS;
    var owner := OK.EvidenceSubmission(id);
    var payload := CreatePayload(owner, "", "", 0, "", "", "");
    var l := CreateDocument(OK.DocumentIdentity(owner, id), id, id, payload, 0);
    s := Next(env, INITIAL, l);
    assert s == CreateDocumentStep(INITIAL, l.identity, id, id, payload, 0);
    assert s == Run(env, INITIAL, [l]);
    EmptyKeyIsInvalid();
    NeverForgottenIffKeyValid(env, s, id);
  }

  lemma EmptyKeyIsInvalid()
    ensures OK.Parse("").None?
  {}

  /** Keys that the upload service stages are always valid, so its documents are never forgotten. */
  lemma StagedKeysAreValid(workspace: Uuid, owner: OK.Owner, upload: Uuid, filename: string)
    requires OK.StagedKey(workspace, owner, upload, filename).Some?
    ensures OK.Parse(OK.StagedKey(workspace, owner, upload, filename).value).Some?
  {
    OK.NewIsValid(workspace, OK.DocumentPrefix(owner, upload), filename);
  }
}
