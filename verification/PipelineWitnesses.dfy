/** Reachable states in which the pipeline fails: a document that is stranded, and an upload that can still be lost. */
module PipelineWitnesses {
  import opened Text
  import opened Wrappers
  import opened Uuids
  import opened Documents
  import OK = ObjectKey
  import opened Pipeline
  import opened PipelineDisk
  import opened PipelineFrames
  import opened PipelineInvariants
  import opened PipelinePhases
  import opened PipelineProgress
  import opened PipelineSteps
  import opened PipelineStranded
  import opened PipelineTheorems
  import opened PipelineTornCopies

  // ---------- an upload and a document created from it ----------

  const ID: Uuid := ZERO_DIGITS
  const IDENTITY := OK.DocumentIdentity(OK.EvidenceSubmission(ID), ID)
  const EMPTY_FILE := StoredObject("", [])

  function StagedPayload(env: Env, key: string): CreatePayload {
    CreatePayload(IDENTITY.owner, "a", "", 0, key, env.sha([]), "")
  }

  function StagedDocument(env: Env, key: string): DocumentData {
    DocumentData(IDENTITY, ID, ID, "a", "", 0, key, env.sha([]), "", PendingUpload, false, 0)
  }

  function StagedState(env: Env, key: string): State {
    INITIAL.(quarantine := map[key := EMPTY_FILE], written := map[key := EMPTY_FILE],
             docs := map[ID := StagedDocument(env, key)], origin := map[ID := key],
             appended := [ScanRequested(IDENTITY, key)], outbox := {0}, scanRow := map[ID := 0])
  }

  lemma PlainNameIsCanonical()
    ensures OK.IsCanonicalRelativePath("a")
  {
    SplitPlain("a", '/');
  }

  /** The upload service stages the file under a valid key, from which it can be promoted. */
  lemma StagedKeyWorks(env: Env) returns (key: string)
    requires Faithful(env)
    ensures OK.StagedKey(ID, IDENTITY.owner, ID, "a") == Some(key)
    ensures env.validKey(key) && Promotable(env, StagedDocument(env, key))
  {
    PlainNameIsCanonical();
    OK.FinalKeyExists(ID, IDENTITY, "a");
    assert OK.StagedKey(ID, IDENTITY.owner, ID, "a") == OK.FinalKey(ID, IDENTITY, "a");
    key := OK.StagedKey(ID, IDENTITY.owner, ID, "a").value;
    StagedKeysAreValid(ID, IDENTITY.owner, ID, "a");
    OK.StagedAndFinalShareWorkspace(ID, IDENTITY.owner, ID, "a", ID, IDENTITY, "a");
  }

  lemma StagedIsReachable(env: Env, key: string)
    ensures Reachable(env, StagedState(env, key))
  {
    var upload := Upload(key, EMPTY_FILE);
    var create := CreateDocument(IDENTITY, ID, ID, StagedPayload(env, key), 0);
    var s := INITIAL.(quarantine := map[key := EMPTY_FILE], written := map[key := EMPTY_FILE]);
    assert Next(env, INITIAL, upload) == UploadStep(INITIAL, key, EMPTY_FILE) == s;
    assert Next(env, s, create) == CreateDocumentStep(s, IDENTITY, ID, ID, StagedPayload(env, key), 0);
    assert CreateDocumentStep(s, IDENTITY, ID, ID, StagedPayload(env, key), 0) == StagedState(env, key);
    RunTwo(env, INITIAL, upload, create);
  }

  // ---------- a dead-lettered message ----------

  function SentState(env: Env, key: string): State {
    StagedState(env, key).(published := {0}, unacked := multiset{0})
  }

  function DeadState(env: Env, key: string): State {
    StagedState(env, key).(outbox := {}, published := {0}, dead := {0})
  }

  lemma SentIsReachable(env: Env, key: string)
    ensures Reachable(env, SentState(env, key))
  {
    var s := StagedState(env, key);
    var t := s.(listed := multiset{0});
    StagedIsReachable(env, key);
    assert Next(env, s, List(0)) == ListStep(s, 0) == t;
    assert Next(env, t, Publish(0)) == PublishStep(t, 0) == SentState(env, key);
    RunTwo(env, s, List(0), Publish(0));
    ReachableOn(env, s, [List(0), Publish(0)]);
  }

  lemma DeadIsReachable(env: Env, key: string)
    ensures Reachable(env, DeadState(env, key))
  {
    var s := SentState(env, key);
    var t := s.(outbox := {});
    SentIsReachable(env, key);
    assert Next(env, s, DeleteRow(0)) == DeleteRowStep(s, 0) == t;
    assert Next(env, t, DeadLetter(0)) == DeadLetterStep(t, 0) == DeadState(env, key);
    RunTwo(env, s, DeleteRow(0), DeadLetter(0));
    ReachableOn(env, s, [DeleteRow(0), DeadLetter(0)]);
  }

  /**
    A document that is in progress, intact and promotable can be stranded: its scan message is published, its row
    deleted, and the message dead-lettered. No genuine run changes it any more, let alone uploads it.
   */
  lemma StrandedWitness(env: Env) returns (s: State, id: Uuid)
    requires Faithful(env)
    ensures Reachable(env, s) && id in s.docs && InProgress(s.docs[id].status)
    ensures OK.Parse(s.docs[id].objectKey).Some? && Intact(env, s, s.docs[id]) && Promotable(env, s.docs[id])
    ensures !Waits(s, id) && !WorkedOn(s, id) && !Finishes(env, s, id)
    ensures forall labels :: GenuineRun(env, s, labels) ==>
      id in Run(env, s, labels).docs && Run(env, s, labels).docs[id] == s.docs[id]
  {
    var key := StagedKeyWorks(env);
    id := ID;
    s := DeadState(env, key);
    DeadIsReachable(env, key);
    assert forall row: nat :: !WaitsAt(s, id, row);
    FinishesIff(env, s, id);
    forall labels | GenuineRun(env, s, labels)
      ensures id in Run(env, s, labels).docs && Run(env, s, labels).docs[id] == s.docs[id]
    {
      DeadLetteredNeverChanges(env, s, id, 0, labels);
    }
  }

  // ---------- two deliveries of one finalization message ----------

  lemma LeadsReachable(env: Env, s: State, t: State)
    requires Reachable(env, s) && Leads(env, s, t)
    ensures Reachable(env, t)
  {
    var labels :| GenuineRun(env, s, labels) && t == Run(env, s, labels);
    ReachableOn(env, s, labels);
  }

  /** The document is scanned and found clean. */
  lemma ScannedClean(env: Env, s: State, id: Uuid, row: nat) returns (t: State, next: nat)
    requires TellsApart(env) && Inv(env, s) && Ready(env, s, id) && s.docs[id].status == PendingUpload
    requires Reachable(env, s) && WaitsAt(s, id, row)
    ensures Reachable(env, t) && Inv(env, t) && Ready(env, t, id) && t.docs[id].status == Finalizing
    ensures WaitsAt(t, id, next)
  {
    var d := s.docs[id];
    var a, r, q := StartTo(env, s, id, row);
    LeadsReachable(env, s, a);
    var b := LoadTo(env, a, id, r, q, d);
    LeadsReachable(env, a, b);
    var c, stored := FetchTo(env, b, id, r, q.(stage := ScanLoaded(WorkOf(d))));
    LeadsReachable(env, b, c);
    var e := ScanTo(env, c, id, r, q.(stage := ScanFetched(WorkOf(d), stored)), stored);
    LeadsReachable(env, c, e);
    t := ApplyTo(env, e, id, r, q.(stage := ScanDecided(WorkOf(d), Clean)));
    LeadsReachable(env, e, t);
    next := |e.appended|;
  }

  /** Its finalization message is delivered twice. */
  lemma DeliveredTwice(env: Env, s: State, id: Uuid, row: nat) returns (t: State, a: nat, b: nat, q: Request)
    requires TellsApart(env) && Inv(env, s) && Ready(env, s, id) && s.docs[id].status == Finalizing
    requires Reachable(env, s) && WaitsAt(s, id, row)
    ensures Reachable(env, t) && Inv(env, t) && Ready(env, t, id) && t.docs == s.docs
    ensures a != b && At(t, a, q) && At(t, b, q) && q.stage == StartStage(s.docs[id])
  {
    var u := HoldTo(env, s, id, row);
    LeadsReachable(env, s, u);
    a := FreshRequest(u);
    var v := DeliverTo(env, u, id, row, a);
    LeadsReachable(env, u, v);
    DeliveryKeeps(env, u, row, a);
    b := FreshRequest(v);
    t := DeliverTo(env, v, id, row, b);
    LeadsReachable(env, v, t);
    q := Request(row, false, FirstStage(env, u.appended[row]));
    DeliveryKeeps(env, v, row, b);
  }

  lemma DeliveryKeeps(env: Env, s: State, row: nat, r: nat)
    requires r !in s.requests
    ensures var t := DeliverStep(env, s, row, r, ANY_DELIVERY);
      && t.appended == s.appended && t.unacked == s.unacked && t.published == s.published
      && forall o :: o in s.requests ==> o in t.requests && t.requests[o] == s.requests[o]
  {
    if row in s.published && row < |s.appended| {
      assert DeliverStep(env, s, row, r, ANY_DELIVERY)
          == s.(requests := s.requests[r := Request(row, false, FirstStage(env, s.appended[row]))]);
    }
  }

  lemma OtherStays(s: State, t: State, r: nat, o: nat, other: Request)
    requires OnlyMoves(s, t, r) && At(s, o, other) && o != r
    ensures At(t, o, other)
  {}

  lemma OneLoads(env: Env, s: State, id: Uuid, a: nat, q: Request, b: nat, other: Request) returns (t: State)
    requires TellsApart(env) && Inv(env, s) && Ready(env, s, id) && Reachable(env, s)
    requires a != b && At(s, a, q) && At(s, b, other) && q.stage == StartStage(s.docs[id])
    ensures Reachable(env, t) && Inv(env, t) && Ready(env, t, id) && t.docs == s.docs
    ensures At(t, a, q.(stage := LoadedStage(s.docs[id]))) && At(t, b, other)
  {
    t := LoadTo(env, s, id, a, q, s.docs[id]);
    LeadsReachable(env, s, t);
    OtherStays(s, t, a, b, other);
  }

  /** Both requests load the work. */
  lemma LoadedTwice(env: Env, s: State, id: Uuid, a: nat, b: nat, q: Request) returns (t: State)
    requires TellsApart(env) && Inv(env, s) && Ready(env, s, id) && Reachable(env, s)
    requires a != b && At(s, a, q) && At(s, b, q) && q.stage == StartStage(s.docs[id])
    ensures Reachable(env, t) && Inv(env, t) && Ready(env, t, id) && t.docs == s.docs
    ensures At(t, a, q.(stage := LoadedStage(s.docs[id]))) && At(t, b, q.(stage := LoadedStage(s.docs[id])))
  {
    var u := OneLoads(env, s, id, a, q, b, q);
    t := OneLoads(env, u, id, b, q, a, q.(stage := LoadedStage(s.docs[id])));
  }

  lemma OneCopies(env: Env, s: State, id: Uuid, a: nat, b: nat, q: Request, finalKey: string) returns (t: State)
    requires TellsApart(env) && Inv(env, s) && Ready(env, s, id) && s.docs[id].status == Finalizing && Reachable(env, s)
    requires a != b && At(s, a, q) && At(s, b, q) && q.stage == LoadedStage(s.docs[id])
    requires FinalKeyOf(env, s.docs[id]) == Some(finalKey)
    ensures Reachable(env, t) && Inv(env, t) && Ready(env, t, id) && t.docs == s.docs && At(t, b, q)
    ensures At(t, a, q.(stage := FinalizeCopied(PayloadOf(s.docs[id]), WorkOf(s.docs[id]), finalKey,
                                                s.quarantine[s.docs[id].objectKey])))
  {
    t := PromoteTo(env, s, id, a, q, PayloadOf(s.docs[id]), finalKey);
    LeadsReachable(env, s, t);
    OtherStays(s, t, a, b, q);
  }

  lemma OneChecks(env: Env, s: State, id: Uuid, a: nat, q: Request, b: nat, other: Request, copied: StoredObject,
                  finalKey: string)
    returns (t: State)
    requires TellsApart(env) && Inv(env, s) && Ready(env, s, id) && Reachable(env, s)
    requires a != b && At(s, a, q) && At(s, b, other) && Matches(env, copied, WorkOf(s.docs[id]))
    requires q.stage == FinalizeCopied(PayloadOf(s.docs[id]), WorkOf(s.docs[id]), finalKey, copied)
    ensures Reachable(env, t) && Inv(env, t) && Ready(env, t, id) && t.docs == s.docs && At(t, b, other)
    ensures At(t, a, q.(stage := FinalizeVerified(PayloadOf(s.docs[id]), WorkOf(s.docs[id]), finalKey)))
  {
    t := CheckTo(env, s, id, a, q, PayloadOf(s.docs[id]), finalKey, copied);
    LeadsReachable(env, s, t);
    OtherStays(s, t, a, b, other);
  }

  /** One of them copies the object and verifies the copy. */
  lemma OneVerifies(env: Env, s: State, id: Uuid, a: nat, b: nat, q: Request, finalKey: string) returns (t: State)
    requires TellsApart(env) && Inv(env, s) && Ready(env, s, id) && s.docs[id].status == Finalizing && Reachable(env, s)
    requires a != b && At(s, a, q) && At(s, b, q) && q.stage == LoadedStage(s.docs[id])
    requires FinalKeyOf(env, s.docs[id]) == Some(finalKey)
    ensures Reachable(env, t) && Inv(env, t) && Ready(env, t, id) && t.docs == s.docs && At(t, b, q)
    ensures At(t, a, q.(stage := FinalizeVerified(PayloadOf(s.docs[id]), WorkOf(s.docs[id]), finalKey)))
  {
    var d := s.docs[id];
    var copied := s.quarantine[d.objectKey];
    var u := OneCopies(env, s, id, a, b, q, finalKey);
    t := OneChecks(env, u, id, a, q.(stage := FinalizeCopied(PayloadOf(d), WorkOf(d), finalKey, copied)), b, q, copied,
                   finalKey);
  }

  /** And records the upload, while the other one is still about to promote. */
  lemma OneUploads(env: Env, s: State, id: Uuid, a: nat, b: nat, q: Request, q': Request, finalKey: string)
    returns (t: State)
    requires Inv(env, s) && Ready(env, s, id) && s.docs[id].status == Finalizing && Reachable(env, s)
    requires a != b && At(s, b, q') && q'.stage == LoadedStage(s.docs[id])
    requires FinalKeyOf(env, s.docs[id]) == Some(finalKey)
    requires At(s, a, q) && q.stage == FinalizeVerified(PayloadOf(s.docs[id]), WorkOf(s.docs[id]), finalKey)
    ensures Reachable(env, t) && UploadedIn(t, id) && BothHold(env, t, id, a, b)
  {
    var l := ApplyFinalize(a, Committed);
    t := Turn(env, s, a, l);
    InProgressFacts(env, s, id);
    VerifiedUploads(env, s, id, a, q, PayloadOf(s.docs[id]), finalKey);
    OthersStay(env, s, a, q, l);
    OtherStays(s, t, a, b, q');
    TurnIsNext(env, s, a, l);
    LeadsByStep(env, s, l, t);
    LeadsReachable(env, s, t);
    UploaderGoesOn(env, s, id, a, q);
  }

  /** The document is uploaded by `a`, which is about to delete the source, while `b` is still about to promote it. */
  ghost predicate BothHold(env: Env, s: State, id: Uuid, a: nat, b: nat) {
    && a in s.requests && s.requests[a].stage.FinalizeApplied?
    && Promoting(s, b, id) && Target(env, s, b).Some?
    && s.requests[b].stage.payload == s.requests[a].stage.payload
  }

  lemma UploaderGoesOn(env: Env, s: State, id: Uuid, a: nat, q: Request)
    requires id in s.docs && s.docs[id].status == Finalizing && !s.docs[id].archived
    requires At(s, a, q) && q.stage.FinalizeVerified? && q.stage.work == WorkOf(s.docs[id])
    requires s.docs[id].identity.documentId == id
    ensures var t := Turn(env, s, a, ApplyFinalize(a, Committed));
      t.quarantine == s.quarantine && At(t, a, q.(stage := FinalizeApplied(q.stage.payload)))
  {
    var u := FinalizeCommand(s, q.stage.work, q.stage.finalKey);
    assert Turn(env, s, a, ApplyFinalize(a, Committed)) == GoTo(u, a, q, FinalizeApplied(q.stage.payload));
    Moved(u, a, q, FinalizeApplied(q.stage.payload));
  }

  /** One request has verified its copy, another one is still about to promote. */
  ghost predicate Racing(env: Env, s: State, id: Uuid, a: nat, b: nat, finalKey: string) {
    && Inv(env, s) && Ready(env, s, id) && s.docs[id].status == Finalizing && a != b
    && FinalKeyOf(env, s.docs[id]) == Some(finalKey)
    && a in s.requests && b in s.requests && s.requests[b].stage == LoadedStage(s.docs[id])
    && s.requests[a].stage == FinalizeVerified(PayloadOf(s.docs[id]), WorkOf(s.docs[id]), finalKey)
  }

  /** Such a state is reached. */
  lemma RaceIsReachable(env: Env) returns (s: State, id: Uuid, a: nat, b: nat, finalKey: string)
    requires Faithful(env)
    ensures Reachable(env, s) && Racing(env, s, id, a, b, finalKey)
  {
    var key := StagedKeyWorks(env);
    id := ID;
    FaithfulTellsApart(env);
    var first := StagedState(env, key);
    StagedIsReachable(env, key);
    ReachableInOrder(env, first);
    var scanned, row := ScannedClean(env, first, id, 0);
    var q;
    s, a, b, q := DeliveredTwice(env, scanned, id, row);
    var d := s.docs[id];
    s := LoadedTwice(env, s, id, a, b, q);
    finalKey := FinalKeyOf(env, d).value;
    s := OneVerifies(env, s, id, a, b, q.(stage := LoadedStage(d)), finalKey);
  }

  lemma UploadedTwice(env: Env) returns (s: State, id: Uuid, a: nat, b: nat)
    requires Faithful(env)
    ensures Reachable(env, s) && UploadedIn(s, id) && BothHold(env, s, id, a, b)
  {
    var verified, finalKey;
    verified, id, a, b, finalKey := RaceIsReachable(env);
    s := OneUploads(env, verified, id, a, b, verified.requests[a], verified.requests[b], finalKey);
  }

  /**
    An uploaded document whose object is whole can still lose it: its finalization message was delivered twice, both
    deliveries had loaded the work before one of them uploaded it, and the other one is interrupted in its copy.
   */
  lemma ExposedWitness(env: Env) returns (x: DiskState, y: DiskState, id: Uuid)
    requires Faithful(env)
    ensures DiskReachable(env, x) && UploadedIn(x.s, id) && x.s.docs[id].objectKey in x.disk
    ensures Matches(env, x.disk[x.s.docs[id].objectKey], WorkOf(x.s.docs[id]))
    ensures Exposed(env, x, id) && !Survives(env, x, x.s.docs[id].objectKey)
    ensures DiskReachable(env, y) && UploadedIn(y.s, id) && y.s.docs[id] == x.s.docs[id]
    ensures y.s.docs[id].objectKey !in y.disk
  {
    var s, a, b;
    s, id, a, b := UploadedTwice(env);
    x := Settled(s);
    ProtocolRunsEmbed(env, s);
    UploadedIsClearedAndStored(env, s, id);
    assert Exposed(env, x, id);
    SurvivesIffUnexposed(env, x, id);
    y := LostBy(env, x, id, b);
  }

  lemma LostBy(env: Env, x: DiskState, id: Uuid, b: nat) returns (y: DiskState)
    requires Faithful(env) && DiskReachable(env, x) && UploadedIn(x.s, id)
    requires Promoting(x.s, b, id) && Target(env, x.s, b).Some?
    ensures DiskReachable(env, y) && y.s == x.s && x.s.docs[id].objectKey !in y.disk
  {
    var key := x.s.docs[id].objectKey;
    DiskReachableInOrder(env, x);
    WritesToKey(env, x.s, b, id, key);
    OpenThenSpillLoses(env, x, b, key);
    DiskReachableOn(env, x, [Open(b), Spill(b, None)]);
    y := DiskRun(env, x, [Open(b), Spill(b, None)]);
  }

  lemma DiskReachableOn(env: Env, x: DiskState, labels: seq<DiskLabel>)
    requires DiskReachable(env, x)
    ensures DiskReachable(env, DiskRun(env, x, labels))
  {
    var before :| x == DiskRun(env, DISK_INITIAL, before);
    DiskRunConcat(env, DISK_INITIAL, before, labels);
  }

  // ---------- a source that is open when its name goes ----------

  lemma SourceDeleted(env: Env, s: State, id: Uuid, a: nat, b: nat)
    requires BothHold(env, s, id, a, b)
    ensures var t := Next(env, s, DeleteSource(a, true));
      && t.docs == s.docs && At(t, b, s.requests[b]) && s.requests[b].stage.payload.objectKey !in t.quarantine
  {
    var p := s.requests[a].stage.payload;
    var u := s.(quarantine := s.quarantine - {p.objectKey});
    assert Next(env, s, DeleteSource(a, true)) == GoTo(u, a, s.requests[a], Succeeded);
  }

  /** `b` opens the source, then `a` deletes its name: `b` can still write. */
  lemma OpenedThenDeleted(env: Env, x: DiskState, id: Uuid, a: nat, b: nat)
    requires BothHold(env, x.s, id, a, b)
    ensures var y := PlainStep(env, OpenStep(env, x, b), DeleteSource(a, true));
      && y.s == Next(env, x.s, DeleteSource(a, true)) && b in y.sources && y.disk == x.disk
  {
    var u := OpenStep(env, x, b);
    assert u.s == x.s && u.disk == x.disk && b in u.sources;
    SourceDeleted(env, x.s, id, a, b);
  }

  lemma DiskRunTwo(env: Env, x: DiskState, a: DiskLabel, b: DiskLabel)
    ensures DiskRun(env, x, [a, b]) == DiskNext(env, DiskNext(env, x, a), b)
  {
    DiskRunConcat(env, x, [a], [b]);
    DiskRunOne(env, x, a);
    DiskRunOne(env, DiskNext(env, x, a), b);
    assert [a, b] == [a] + [b];
  }

  /**
    Deleting the upload from quarantine does not end this: a request that opened it before can lose the object when
    no request could open it any more.
   */
  lemma OpenSourceWitness(env: Env) returns (x: DiskState, id: Uuid)
    requires Faithful(env)
    ensures DiskReachable(env, x) && UploadedIn(x.s, id) && x.s.docs[id].objectKey in x.disk
    ensures exists r :: Promoting(x.s, r, id) && r in x.sources && Target(env, x.s, r).None?
    ensures !Survives(env, x, x.s.docs[id].objectKey)
  {
    var s, a, b;
    s, id, a, b := UploadedTwice(env);
    ProtocolRunsEmbed(env, s);
    UploadedIsClearedAndStored(env, s, id);
    var labels := [Open(b), Plain(DeleteSource(a, true))];
    x := DiskRun(env, Settled(s), labels);
    DiskReachableOn(env, Settled(s), labels);
    DiskRunTwo(env, Settled(s), Open(b), Plain(DeleteSource(a, true)));
    OpenedThenDeleted(env, Settled(s), id, a, b);
    SourceDeleted(env, s, id, a, b);
    assert Promoting(x.s, b, id) && b in x.sources && Target(env, x.s, b).None?;
    SurvivesIffUnexposed(env, x, id);
  }

  // ---------- an object that is torn before the upload is recorded ----------

  lemma RecordsUpload(env: Env, s: State, id: Uuid, a: nat, finalKey: string)
    requires id in s.docs && s.docs[id].status == Finalizing && !s.docs[id].archived && a in s.requests
    requires s.docs[id].identity.documentId == id
    requires s.requests[a].stage == FinalizeVerified(PayloadOf(s.docs[id]), WorkOf(s.docs[id]), finalKey)
    ensures UploadedAs(Next(env, s, ApplyFinalize(a, Committed)), id, finalKey)
  {
    VerifiedUploads(env, s, id, a, s.requests[a], PayloadOf(s.docs[id]), finalKey);
    TurnIsNext(env, s, a, ApplyFinalize(a, Committed));
  }

  lemma RecordingKeepsDisk(env: Env, x: DiskState, a: nat)
    ensures var l := ApplyFinalize(a, Committed);
      var y := DiskNext(env, x, Plain(l)); y.s == Next(env, x.s, l) && y.disk == x.disk
  {}

  lemma CanOverwrite(env: Env, s: State, id: Uuid, a: nat, b: nat, finalKey: string)
    requires Racing(env, s, id, a, b, finalKey)
    ensures Target(env, s, b) == Some(finalKey) && KeyOf(env, s, b) == Some(finalKey)
  {}

  /** The handler checks what its copy reported and not the disk: it records an upload whose object is gone. */
  lemma LostBeforeUploadWitness(env: Env) returns (x: DiskState, l: Label, id: Uuid)
    requires Faithful(env)
    ensures DiskReachable(env, x) && id in x.s.docs && x.s.docs[id].status == Finalizing
    ensures var y := DiskNext(env, x, Plain(l)); UploadedIn(y.s, id) && y.s.docs[id].objectKey !in y.disk
  {
    var s, a, b, finalKey;
    s, id, a, b, finalKey := RaceIsReachable(env);
    ProtocolRunsEmbed(env, s);
    CanOverwrite(env, s, id, a, b, finalKey);
    OpenThenSpillLoses(env, Settled(s), b, finalKey);
    x := DiskRun(env, Settled(s), [Open(b), Spill(b, None)]);
    DiskReachableOn(env, Settled(s), [Open(b), Spill(b, None)]);
    l := ApplyFinalize(a, Committed);
    InProgressFacts(env, s, id);
    RecordsUpload(env, s, id, a, finalKey);
    RecordingKeepsDisk(env, x, a);
  }
}
