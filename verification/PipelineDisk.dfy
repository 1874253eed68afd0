/**
  Promotions that are not atomic. The file system store opens the source, truncates the destination and streams the
  bytes, so a promotion that is slow or interrupted leaves part of the object, or none, where a whole one may have
  been, and an open source can be read after its name is gone. The disk and the open sources are followed beside the
  protocol state. A promotion is three kinds of steps: open, spill one or more times, finish. The spills of a request
  cover every state that its writes, and its clean-up after an error, can leave. Writers of one key do not know of
  each other: what a writer leaves in the end is its source only if no other wrote there since it began.
 */
module PipelineDisk {
  import opened Text
  import opened Wrappers
  import opened Uuids
  import opened Documents
  import OK = ObjectKey
  import W = Worker
  import opened Pipeline
  import opened PipelineFrames
  import opened PipelineInvariants
  import opened PipelinePhases
  import opened PipelineSteps
  import opened PipelineTheorems

  type Disk = map<string, StoredObject>

  /** Whether a request has begun to write, and whether another one has written to the same key since. */
  datatype Phase = Opened | Writing | Spoiled

  datatype Source = Source(stored: StoredObject, phase: Phase)

  datatype DiskState = DiskState(
    s: State,
    disk: Disk,
    sources: map<nat, Source>,  // what each promoting request has open, and how far it is
    torn: set<string>)          // history: keys whose last write left something other than the whole source

  const DISK_INITIAL := DiskState(INITIAL, map[], map[], {})

  datatype DiskLabel =
    | Plain(l: Label)
    | Open(request: nat)
    | Spill(request: nat, left: Option<StoredObject>)
    | Finish(request: nat, acknowledged: bool, left: Option<StoredObject>)

  /** The final key of the work that a request has loaded. */
  function KeyOf(env: Env, s: State, r: nat): Option<string> {
    if r in s.requests && s.requests[r].stage.FinalizeLoaded? then
      var work := s.requests[r].stage.work;
      env.finalKey(work.workspaceId, work.identity, work.filename)
    else None
  }

  /** A promotion in one step is replaced by the steps below; one that fails before it writes is left. */
  function WithoutCopy(l: Label): (plain: Label)
    ensures NoCopy(plain)
  {
    if l.Promote? then Promote(l.request, CopyError) else l
  }

  predicate NoCopy(l: Label) {
    l.Promote? ==> l.copy.CopyError?
  }

  /** A source is closed when its request is over. */
  function StillOpen(t: State, sources: map<nat, Source>): map<nat, Source> {
    map r | r in sources && r in t.requests && t.requests[r].stage.FinalizeLoaded? :: sources[r]
  }

  /** Every writer of the key but `r` finds its file changed. */
  function Spoil(env: Env, x: DiskState, key: string, r: Option<nat>): map<nat, Source> {
    map o | o in x.sources ::
      if Some(o) != r && KeyOf(env, x.s, o) == Some(key) && x.sources[o].phase.Writing?
      then x.sources[o].(phase := Spoiled) else x.sources[o]
  }

  function PlainStep(env: Env, x: DiskState, l: Label): DiskState {
    var t := Next(env, x.s, l);
    var sources := if l.CheckCopy? && Discards(env, x.s, l.request).Some? && l.deleted
                   then Spoil(env, x, Discards(env, x.s, l.request).value, None) else x.sources;
    DiskState(t, EvidenceAfter(env, x.s, x.disk, l), StillOpen(t, sources), x.torn)
  }

  /** The source can be opened while it is in quarantine, once the key and workspace checks have passed. */
  function OpenStep(env: Env, x: DiskState, r: nat): DiskState {
    if Target(env, x.s, r).Some? && r !in x.sources then
      x.(sources := x.sources[r := Source(x.s.quarantine[x.s.requests[r].stage.payload.objectKey], Opened)])
    else x
  }

  /** The request has its source open and knows where to write. */
  predicate CanWrite(env: Env, x: DiskState, r: nat, key: string) {
    r in x.sources && KeyOf(env, x.s, r) == Some(key)
  }

  function Put(disk: Disk, key: string, left: Option<StoredObject>): Disk {
    if left.Some? then disk[key := left.value] else disk - {key}
  }

  /** The disk and its history after a request has left this under its key. */
  function Leave(x: DiskState, r: nat, key: string, left: Option<StoredObject>): DiskState
    requires r in x.sources
  {
    x.(disk := Put(x.disk, key, left),
       torn := if left == Some(x.sources[r].stored) then x.torn - {key} else x.torn + {key})
  }

  function SpillStep(env: Env, x: DiskState, r: nat, left: Option<StoredObject>): DiskState {
    var key := KeyOf(env, x.s, r);
    if r in x.sources && key.Some? then
      var sources := Spoil(env, x, key.value, Some(r));
      var phase := if x.sources[r].phase.Opened? then Writing else x.sources[r].phase;
      Leave(x, r, key.value, left).(sources := sources[r := x.sources[r].(phase := phase)])
    else x
  }

  /** What finishing a copy does to the protocol state; the name of the source may be gone by then. */
  function CopiedState(s: State, r: nat, key: string, stored: StoredObject, acknowledged: bool): State
    requires r in s.requests && s.requests[r].stage.FinalizeLoaded?
  {
    var q := s.requests[r];
    var u := s.(evidence := s.evidence[key := stored]);
    if acknowledged then GoTo(u, r, q, FinalizeCopied(q.stage.payload, q.stage.work, key, stored)) else Drop(u, r)
  }

  /** A writer that was not disturbed leaves its source; one that was leaves anything, and cannot tell. */
  function FinishStep(env: Env, x: DiskState, r: nat, acknowledged: bool, left: Option<StoredObject>): DiskState {
    var key := KeyOf(env, x.s, r);
    if r in x.sources && key.Some? && !x.sources[r].phase.Opened? then
      var stored := x.sources[r].stored;
      Leave(x, r, key.value, LeftBy(x.sources[r], left)).(
        s := CopiedState(x.s, r, key.value, stored, acknowledged), sources := x.sources - {r})
    else x
  }

  function LeftBy(source: Source, left: Option<StoredObject>): Option<StoredObject> {
    if source.phase.Spoiled? then left else Some(source.stored)
  }

  function DiskNext(env: Env, x: DiskState, l: DiskLabel): DiskState {
    match l
    case Plain(plain) => PlainStep(env, x, WithoutCopy(plain))
    case Open(r) => OpenStep(env, x, r)
    case Spill(r, left) => SpillStep(env, x, r, left)
    case Finish(r, acknowledged, left) => FinishStep(env, x, r, acknowledged, left)
  }

  function DiskRun(env: Env, x: DiskState, labels: seq<DiskLabel>): DiskState
    decreases |labels|
  {
    if labels == [] then x else DiskRun(env, DiskNext(env, x, labels[0]), labels[1..])
  }

  ghost predicate DiskReachable(env: Env, x: DiskState) {
    exists labels :: x == DiskRun(env, DISK_INITIAL, labels)
  }

  // ---------- what every step does to the stores ----------

  /** Uploads never reuse a key. */
  ghost predicate NothingComesBack(s: State, t: State) {
    forall k :: k in t.quarantine && k in s.written ==> k in s.quarantine
  }

  lemma ApiStores(s: State, l: Label)
    requires RequestOf(l).None? && !IsQueueLabel(l)
    ensures NextApi(s, l).evidence == s.evidence && NothingComesBack(s, NextApi(s, l))
  {
    if l.CreateDocument? {
      CreateStores(s, l);
    } else if l.ArchiveDocument? {
      assert NextApi(s, l) == ArchiveDocumentStep(s, l.document);
    } else if l.Upload? {
      assert NextApi(s, l) == UploadStep(s, l.key, l.stored);
    }
  }

  lemma CreateStores(s: State, l: Label)
    requires l.CreateDocument?
    ensures Quiet(s, NextApi(s, l)) && NextApi(s, l).requests == s.requests
  {
    var created := CreateData(l.identity, l.workspace, l.user, l.payload, l.at);
    if !(l.identity.documentId in s.docs || !Eligible(s, l.identity.owner, l.workspace)) && created.Ok? {
      var d := created.value.0;
      var u := s.(docs := s.docs[l.identity.documentId := d], origin := s.origin[l.identity.documentId := d.objectKey]);
      assert NextApi(s, l) == AppendEvent(u, created.value.1.event);
      AppendIsCalm(u, created.value.1.event, AppendEvent(u, created.value.1.event));
    }
  }

  lemma TurnStores(env: Env, s: State, r: nat, l: Label)
    requires RequestOf(l) == Some(r)
    ensures var t := Turn(env, s, r, l);
      t.evidence == EvidenceAfter(env, s, s.evidence, l) && NothingComesBack(s, t)
  {
    if r in s.requests {
      TurnIsCalm(env, s, r, s.requests[r], l);
    }
  }

  lemma QueueStores(env: Env, s: State, l: Label)
    requires IsQueueLabel(l)
    ensures NextQueue(env, s, l).evidence == s.evidence && NothingComesBack(s, NextQueue(env, s, l))
  {
    QueueHasEffect(env, s, l);
  }

  /** What every step does to the stores. */
  lemma StoresAfter(env: Env, s: State, l: Label)
    ensures Next(env, s, l).evidence == EvidenceAfter(env, s, s.evidence, l) && NothingComesBack(s, Next(env, s, l))
  {
    var o := RequestOf(l);
    if o.Some? {
      TurnIsNext(env, s, o.value, l);
      TurnStores(env, s, o.value, l);
    } else if IsQueueLabel(l) {
      QueueStores(env, s, l);
    } else {
      ApiStores(s, l);
    }
  }

  // ---------- requests that are about to promote ----------

  ghost predicate Promoting(s: State, r: nat, id: Uuid) {
    r in s.requests && s.requests[r].stage.FinalizeLoaded? && s.requests[r].stage.work.identity.documentId == id
  }

  lemma QueueKeepsPromoting(env: Env, s: State, l: Label, t: State, r: nat, id: Uuid)
    requires QueueEffect(env, s, l, t) && Promoting(t, r, id)
    ensures r in s.requests && t.requests[r] == s.requests[r]
  {}

  /** Work is loaded for finalizing documents only. */
  lemma LoadsOnlyFinalizing(s: State, p: W.HandlerPayload, work: Work)
    requires LoadWork(s, p, Finalizing) == Some(work)
    ensures work.identity.documentId in s.docs ==> s.docs[p.identity.documentId].status == Finalizing
    ensures work.identity == p.identity
  {}

  lemma TurnKeepsPromoting(env: Env, s: State, o: nat, q: Request, l: Label, r: nat, id: Uuid)
    requires At(s, o, q) && RequestOf(l) == Some(o) && id in s.docs && s.docs[id].status == Uploaded
    requires Promoting(Turn(env, s, o, l), r, id)
    ensures r in s.requests && Turn(env, s, o, l).requests[r] == s.requests[r]
  {
    var t := Turn(env, s, o, l);
    TurnIsCalm(env, s, o, q, l);
    if r == o && t != s {
      LoadsOnlyFinalizing(s, q.stage.payload, t.requests[r].stage.work);
    }
  }

  /** No request starts to promote a document that is already uploaded. */
  lemma NoNewPromotion(env: Env, s: State, l: Label, r: nat, id: Uuid)
    requires id in s.docs && s.docs[id].status == Uploaded && Promoting(Next(env, s, l), r, id)
    ensures r in s.requests && Next(env, s, l).requests[r] == s.requests[r]
  {
    var o := RequestOf(l);
    if o.Some? {
      TurnIsNext(env, s, o.value, l);
      if o.value in s.requests {
        TurnKeepsPromoting(env, s, o.value, s.requests[o.value], l, r, id);
      }
    } else if IsQueueLabel(l) {
      QueueHasEffect(env, s, l);
      QueueKeepsPromoting(env, s, l, NextQueue(env, s, l), r, id);
    } else {
      ApiKeepsRequests(s, l);
    }
  }

  lemma ApiKeepsRequests(s: State, l: Label)
    requires RequestOf(l).None? && !IsQueueLabel(l)
    ensures NextApi(s, l).requests == s.requests
  {
    if l.CreateDocument? {
      CreateStores(s, l);
    } else if l.ArchiveDocument? {
      assert NextApi(s, l) == ArchiveDocumentStep(s, l.document);
    } else {
      PolicyOrUploadIsCalm(s, l);
    }
  }

  /** Its source is the upload the document was created from, which was written once. */
  lemma PromotesTheUpload(env: Env, s: State, r: nat, id: Uuid)
    requires Inv(env, s) && Promoting(s, r, id) && id in s.docs && s.docs[id].status == Uploaded
    ensures s.requests[r].stage.payload.objectKey in s.written
  {
    assert RequestOk(env, s, s.requests[r]) && DocOk(env, s, id);
  }

  // ---------- the invariant ----------

  /** Every object of the evidence store is the upload of the one document with that final key and workspace. */
  ghost predicate Owned(env: Env, s: State, key: string, id: Uuid) {
    && id in s.docs && id in s.origin && FinalKeyOf(env, s.docs[id]) == Some(key)
    && key in s.evidence && s.origin[id] in s.written && s.evidence[key] == s.written[s.origin[id]]
    && env.sameWorkspace(s.origin[id], key)
  }

  ghost predicate EvidenceOwned(env: Env, s: State) {
    forall key :: key in s.evidence ==> exists id :: Owned(env, s, key, id)
  }

  /** An open source is the upload that the request was asked to promote. */
  ghost predicate OpenOk(env: Env, s: State, r: nat, stored: StoredObject) {
    && r in s.requests && s.requests[r].stage.FinalizeLoaded? && KeyOf(env, s, r).Some?
    && env.sameWorkspace(s.requests[r].stage.payload.objectKey, KeyOf(env, s, r).value)
    && s.requests[r].stage.payload.objectKey in s.written
    && stored == s.written[s.requests[r].stage.payload.objectKey]
  }

  ghost predicate SourcesOk(env: Env, x: DiskState) {
    forall r :: r in x.sources ==> OpenOk(env, x.s, r, x.sources[r].stored)
  }

  predicate Whole(x: DiskState, key: string) {
    key in x.disk && key in x.s.evidence && x.disk[key] == x.s.evidence[key]
  }

  /** The disk has what the protocol put there, except where a copy is torn. */
  ghost predicate DiskOk(x: DiskState) {
    forall key :: key in x.s.evidence ==> (Whole(x, key) <==> key !in x.torn)
  }

  ghost predicate DiskInv(env: Env, x: DiskState) {
    Inv(env, x.s) && EvidenceOwned(env, x.s) && SourcesOk(env, x) && DiskOk(x)
  }

  lemma OwnedKept(env: Env, s: State, t: State, key: string, id: Uuid)
    requires Owned(env, s, key, id) && DocsEvolve(s, t) && WrittenKept(s, t)
    requires key in t.evidence && t.evidence[key] == s.evidence[key]
    ensures Owned(env, t, key, id)
  {
    OriginalWorkKept(env, s, t, id);
  }

  lemma EvidenceKept(env: Env, s: State, t: State)
    requires EvidenceOwned(env, s) && DocsEvolve(s, t) && WrittenKept(s, t)
    requires forall key :: key in t.evidence ==> key in s.evidence && t.evidence[key] == s.evidence[key]
    ensures EvidenceOwned(env, t)
  {
    forall key | key in t.evidence ensures exists id :: Owned(env, t, key, id) {
      var id :| Owned(env, s, key, id);
      OwnedKept(env, s, t, key, id);
    }
  }

  // ---------- plain steps ----------

  /** Requests that are about to promote stay as they are while they are there. */
  lemma LoadedStays(env: Env, s: State, l: Label, r: nat)
    requires r in s.requests && s.requests[r].stage.FinalizeLoaded?
    requires r in Next(env, s, l).requests && Next(env, s, l).requests[r].stage.FinalizeLoaded?
    ensures Next(env, s, l).requests[r] == s.requests[r]
  {
    var o := RequestOf(l);
    if o.Some? {
      TurnIsNext(env, s, o.value, l);
      if o.value in s.requests {
        TurnIsCalm(env, s, o.value, s.requests[o.value], l);
      }
    } else if IsQueueLabel(l) {
      QueueHasEffect(env, s, l);
    } else {
      ApiKeepsRequests(s, l);
    }
  }

  lemma OpenKept(env: Env, s: State, t: State, r: nat, stored: StoredObject)
    requires OpenOk(env, s, r, stored) && WrittenKept(s, t) && r in t.requests && t.requests[r] == s.requests[r]
    ensures OpenOk(env, t, r, stored)
  {}

  lemma PlainKeepsSources(env: Env, x: DiskState, l: Label)
    requires SourcesOk(env, x) && NoCopy(l) && WrittenKept(x.s, Next(env, x.s, l))
    ensures SourcesOk(env, PlainStep(env, x, l))
  {
    var t := Next(env, x.s, l);
    var y := PlainStep(env, x, l);
    forall r | r in y.sources ensures OpenOk(env, y.s, r, y.sources[r].stored) {
      PlainKeepsSource(env, x, l, r);
      LoadedStays(env, x.s, l, r);
      OpenKept(env, x.s, t, r, x.sources[r].stored);
    }
  }

  /** An open source was open before. */
  lemma PlainKeepsSource(env: Env, x: DiskState, l: Label, r: nat)
    requires r in PlainStep(env, x, l).sources
    ensures var y := PlainStep(env, x, l);
      && r in x.sources && y.sources[r].stored == x.sources[r].stored && y.s == Next(env, x.s, l)
      && r in y.s.requests && y.s.requests[r].stage.FinalizeLoaded?
  {}

  /** A step that is no copy only ever deletes evidence, and then from the disk as well. */
  lemma PlainKeepsObject(env: Env, x: DiskState, l: Label, key: string)
    requires NoCopy(l) && key in PlainStep(env, x, l).s.evidence
    ensures var y := PlainStep(env, x, l);
      && key in x.s.evidence && y.s.evidence[key] == x.s.evidence[key] && (Whole(y, key) <==> Whole(x, key))
  {
    StoresAfter(env, x.s, l);
  }

  lemma PlainKeeps(env: Env, x: DiskState, l: Label)
    requires TellsApart(env) && DiskInv(env, x) && NoCopy(l)
    ensures DiskInv(env, PlainStep(env, x, l))
  {
    var y := PlainStep(env, x, l);
    NextKeeps(env, x.s, l);
    PlainKeepsSources(env, x, l);
    forall key | key in y.s.evidence
      ensures key in x.s.evidence && y.s.evidence[key] == x.s.evidence[key] && (Whole(y, key) <==> Whole(x, key))
    {
      PlainKeepsObject(env, x, l, key);
    }
    EvidenceKept(env, x.s, y.s);
  }

  // ---------- opening and writing ----------

  lemma OpenKeeps(env: Env, x: DiskState, r: nat)
    requires DiskInv(env, x)
    ensures DiskInv(env, OpenStep(env, x, r))
  {
    if Target(env, x.s, r).Some? && r !in x.sources {
      var stored := x.s.quarantine[x.s.requests[r].stage.payload.objectKey];
      assert OpenOk(env, x.s, r, stored);
    }
  }

  /** The object in the evidence store under the key that a request writes is the source it has open. */
  lemma SourceIsEvidence(env: Env, x: DiskState, r: nat, key: string)
    requires TellsApart(env) && DiskInv(env, x) && CanWrite(env, x, r, key) && key in x.s.evidence
    ensures x.s.evidence[key] == x.sources[r].stored
  {
    assert OpenOk(env, x.s, r, x.sources[r].stored) && RequestOk(env, x.s, x.s.requests[r]);
    var id :| Owned(env, x.s, key, id);
    FinalKeysDiffer(env, x.s, id, x.s.requests[r].stage.work.identity.documentId);
    OwnerHasUpload(env, x.s, r, key, id);
  }

  lemma OwnerHasUpload(env: Env, s: State, r: nat, key: string, id: Uuid)
    requires Owned(env, s, key, id) && r in s.requests && RequestOk(env, s, s.requests[r])
    requires s.requests[r].stage.FinalizeLoaded? && s.requests[r].stage.work.identity.documentId == id
    ensures s.evidence[key] == s.written[s.requests[r].stage.payload.objectKey]
  {}

  /** Whatever is left under the key, the history tells whether it is what the protocol put there. */
  lemma LeaveKeepsDiskOk(x: DiskState, r: nat, key: string, left: Option<StoredObject>, evidence: Disk)
    requires DiskOk(x) && r in x.sources && (key in evidence ==> evidence[key] == x.sources[r].stored)
    requires forall k :: k != key ==>
      (k in evidence <==> k in x.s.evidence) && (k in evidence ==> evidence[k] == x.s.evidence[k])
    ensures DiskOk(Leave(x, r, key, left).(s := x.s.(evidence := evidence)))
  {
    var y := Leave(x, r, key, left).(s := x.s.(evidence := evidence));
    forall k | k in y.s.evidence ensures Whole(y, k) <==> k !in y.torn {
      if k != key {
        assert Whole(y, k) <==> Whole(x, k);
      }
    }
  }

  lemma DiskOkAt(x: DiskState, y: DiskState)
    requires DiskOk(x) && y.disk == x.disk && y.torn == x.torn && y.s.evidence == x.s.evidence
    ensures DiskOk(y)
  {
    forall k | k in y.s.evidence ensures Whole(y, k) <==> k !in y.torn {
      assert Whole(y, k) <==> Whole(x, k);
    }
  }

  lemma SpillKeeps(env: Env, x: DiskState, r: nat, left: Option<StoredObject>)
    requires TellsApart(env) && DiskInv(env, x)
    ensures DiskInv(env, SpillStep(env, x, r, left))
  {
    var key := KeyOf(env, x.s, r);
    if r in x.sources && key.Some? {
      if key.value in x.s.evidence {
        SourceIsEvidence(env, x, r, key.value);
      }
      SpillKeepsDisk(env, x, r, left, key.value);
      SpillKeepsSources(env, x, r, left);
    }
  }

  lemma SpillKeepsDisk(env: Env, x: DiskState, r: nat, left: Option<StoredObject>, key: string)
    requires DiskOk(x) && CanWrite(env, x, r, key) && (key in x.s.evidence ==> x.s.evidence[key] == x.sources[r].stored)
    ensures DiskOk(SpillStep(env, x, r, left)) && SpillStep(env, x, r, left).s == x.s
  {
    LeaveKeepsDiskOk(x, r, key, left, x.s.evidence);
    DiskOkAt(Leave(x, r, key, left).(s := x.s.(evidence := x.s.evidence)), SpillStep(env, x, r, left));
  }

  lemma SpillKeepsSources(env: Env, x: DiskState, r: nat, left: Option<StoredObject>)
    requires SourcesOk(env, x)
    ensures SourcesOk(env, SpillStep(env, x, r, left))
  {}

  // ---------- finishing ----------

  lemma FinishKeepsProtocol(env: Env, x: DiskState, r: nat, key: string, acknowledged: bool)
    requires TellsApart(env) && DiskInv(env, x) && CanWrite(env, x, r, key)
    ensures var t := CopiedState(x.s, r, key, x.sources[r].stored, acknowledged); Inv(env, t) && Evolves(env, x.s, t)
  {
    assert OpenOk(env, x.s, r, x.sources[r].stored);
    var stage := x.s.requests[r].stage;
    CopiedKeeps(env, x.s, r, stage.payload, stage.work, key, x.sources[r].stored, acknowledged);
  }

  lemma CopiedFrame(s: State, r: nat, key: string, stored: StoredObject, acknowledged: bool)
    requires r in s.requests && s.requests[r].stage.FinalizeLoaded?
    ensures var t := CopiedState(s, r, key, stored, acknowledged);
      && t.docs == s.docs && t.written == s.written && t.quarantine == s.quarantine && t.origin == s.origin
      && t.evidence == s.evidence[key := stored] && OnlyMoves(s, t, r) && NotPromoting(t, r)
  {
    var q := s.requests[r];
    var u := s.(evidence := s.evidence[key := stored]);
    if acknowledged {
      MoveIsCalm(s, u, r, q, FinalizeCopied(q.stage.payload, q.stage.work, key, stored));
    } else {
      EndIsCalm(s, u, r);
    }
  }

  lemma FinishKeepsOwned(env: Env, x: DiskState, r: nat, key: string, t: State)
    requires EvidenceOwned(env, x.s) && CanWrite(env, x, r, key)
    requires OpenOk(env, x.s, r, x.sources[r].stored) && RequestOk(env, x.s, x.s.requests[r])
    requires t.docs == x.s.docs && t.written == x.s.written && t.origin == x.s.origin
    requires t.evidence == x.s.evidence[key := x.sources[r].stored]
    ensures EvidenceOwned(env, t)
  {
    forall k | k in t.evidence ensures exists id :: Owned(env, t, k, id) {
      if k == key {
        assert Owned(env, t, key, x.s.requests[r].stage.work.identity.documentId);
      } else {
        var id :| Owned(env, x.s, k, id);
        assert Owned(env, t, k, id);
      }
    }
  }

  lemma FinishKeepsDisk(x: DiskState, y: DiskState, r: nat, key: string, left: Option<StoredObject>)
    requires DiskOk(x) && r in x.sources && y.disk == Leave(x, r, key, left).disk
    requires y.torn == Leave(x, r, key, left).torn
    requires y.s.evidence == x.s.evidence[key := x.sources[r].stored]
    ensures DiskOk(y)
  {
    LeaveKeepsDiskOk(x, r, key, left, y.s.evidence);
    DiskOkAt(Leave(x, r, key, left).(s := x.s.(evidence := y.s.evidence)), y);
  }

  lemma FinishKeepsSources(env: Env, x: DiskState, y: DiskState, r: nat)
    requires SourcesOk(env, x) && y.sources == x.sources - {r} && OnlyMoves(x.s, y.s, r) && y.s.written == x.s.written
    ensures SourcesOk(env, y)
  {
    forall o | o in y.sources ensures OpenOk(env, y.s, o, y.sources[o].stored) {
      OpenKept(env, x.s, y.s, o, x.sources[o].stored);
    }
  }

  lemma FinishKeeps(env: Env, x: DiskState, r: nat, acknowledged: bool, left: Option<StoredObject>)
    requires TellsApart(env) && DiskInv(env, x)
    ensures DiskInv(env, FinishStep(env, x, r, acknowledged, left))
  {
    var key := KeyOf(env, x.s, r);
    if r in x.sources && key.Some? && !x.sources[r].phase.Opened? {
      FinishKeepsProtocol(env, x, r, key.value, acknowledged);
      FinishKeepsRest(env, x, r, key.value, acknowledged, left);
    }
  }

  lemma FinishKeepsRest(env: Env, x: DiskState, r: nat, key: string, acknowledged: bool, left: Option<StoredObject>)
    requires DiskInv(env, x) && CanWrite(env, x, r, key) && !x.sources[r].phase.Opened?
    ensures var y := FinishStep(env, x, r, acknowledged, left);
      && y.s == CopiedState(x.s, r, key, x.sources[r].stored, acknowledged)
      && EvidenceOwned(env, y.s) && DiskOk(y) && SourcesOk(env, y)
  {
    var y := FinishStep(env, x, r, acknowledged, left);
    assert OpenOk(env, x.s, r, x.sources[r].stored) && RequestOk(env, x.s, x.s.requests[r]);
    CopiedFrame(x.s, r, key, x.sources[r].stored, acknowledged);
    FinishKeepsOwned(env, x, r, key, y.s);
    FinishKeepsDisk(x, y, r, key, LeftBy(x.sources[r], left));
    FinishKeepsSources(env, x, y, r);
  }

  // ---------- every run ----------

  lemma DiskNextKeeps(env: Env, x: DiskState, l: DiskLabel)
    requires TellsApart(env) && DiskInv(env, x)
    ensures DiskInv(env, DiskNext(env, x, l))
  {
    match l
    case Plain(plain) => PlainKeeps(env, x, WithoutCopy(plain));
    case Open(r) => OpenKeeps(env, x, r);
    case Spill(r, left) => SpillKeeps(env, x, r, left);
    case Finish(r, acknowledged, left) => FinishKeeps(env, x, r, acknowledged, left);
  }

  lemma {:induction false} DiskRunKeeps(env: Env, x: DiskState, labels: seq<DiskLabel>)
    requires TellsApart(env) && DiskInv(env, x)
    ensures DiskInv(env, DiskRun(env, x, labels))
    decreases |labels|
  {
    if labels != [] {
      DiskNextKeeps(env, x, labels[0]);
      DiskRunKeeps(env, DiskNext(env, x, labels[0]), labels[1..]);
    }
  }

  lemma DiskReachableInOrder(env: Env, x: DiskState)
    requires Faithful(env) && DiskReachable(env, x)
    ensures DiskInv(env, x)
  {
    var labels :| x == DiskRun(env, DISK_INITIAL, labels);
    FaithfulTellsApart(env);
    InitiallyInOrder(env);
    DiskRunKeeps(env, DISK_INITIAL, labels);
  }

  // ---------- the protocol's own runs ----------

  /** No promotion is under way and none was torn: the disk is the evidence store. */
  function Settled(s: State): DiskState {
    DiskState(s, s.evidence, map[], {})
  }

  lemma {:induction false} DiskRunConcat(env: Env, x: DiskState, a: seq<DiskLabel>, b: seq<DiskLabel>)
    ensures DiskRun(env, x, a + b) == DiskRun(env, DiskRun(env, x, a), b)
    decreases |a|
  {
    if a == [] {
      assert a + b == b;
    } else {
      assert (a + b)[0] == a[0] && (a + b)[1..] == a[1..] + b;
      DiskRunConcat(env, DiskNext(env, x, a[0]), a[1..], b);
    }
  }

  lemma DiskRunOne(env: Env, x: DiskState, l: DiskLabel)
    ensures DiskRun(env, x, [l]) == DiskNext(env, x, l)
  {
    assert [l][1..] == [];
  }

  lemma DiskRunThree(env: Env, x: DiskState, a: DiskLabel, b: DiskLabel, c: DiskLabel)
    ensures DiskRun(env, x, [a, b, c]) == DiskNext(env, DiskNext(env, DiskNext(env, x, a), b), c)
  {
    DiskRunConcat(env, x, [a], [b] + [c]);
    DiskRunConcat(env, DiskNext(env, x, a), [b], [c]);
    DiskRunOne(env, x, a);
    DiskRunOne(env, DiskNext(env, x, a), b);
    DiskRunOne(env, DiskNext(env, DiskNext(env, x, a), b), c);
    assert [a, b, c] == [a] + ([b] + [c]);
  }

  /** Opened, begun and finished without interruption, a promotion is the protocol's one step. */
  lemma PromotionEmbeds(env: Env, s: State, r: nat, key: string, acknowledged: bool)
    requires Target(env, s, r) == Some(key)
    ensures DiskRun(env, Settled(s), [Open(r), Spill(r, None), Finish(r, acknowledged, None)])
         == Settled(Next(env, s, Promote(r, if acknowledged then CopyDone else CopyDoneUnacknowledged)))
  {
    var stored := s.quarantine[s.requests[r].stage.payload.objectKey];
    var x := DiskState(s, s.evidence, map[r := Source(stored, Opened)], {});
    var y := DiskState(s, s.evidence - {key}, map[r := Source(stored, Writing)], {key});
    DiskRunThree(env, Settled(s), Open(r), Spill(r, None), Finish(r, acknowledged, None));
    assert DiskNext(env, Settled(s), Open(r)) == x;
    BeginsToWrite(env, s, r, key, stored);
    FinishesAlone(env, s, r, key, stored, acknowledged);
    CopiedIsPromoted(env, s, r, key, acknowledged);
  }

  lemma BeginsToWrite(env: Env, s: State, r: nat, key: string, stored: StoredObject)
    requires KeyOf(env, s, r) == Some(key)
    ensures DiskNext(env, DiskState(s, s.evidence, map[r := Source(stored, Opened)], {}), Spill(r, None))
         == DiskState(s, s.evidence - {key}, map[r := Source(stored, Writing)], {key})
  {
    var x := DiskState(s, s.evidence, map[r := Source(stored, Opened)], {});
    assert Spoil(env, x, key, Some(r)) == x.sources;
    assert x.sources[r := Source(stored, Writing)] == map[r := Source(stored, Writing)];
  }

  lemma FinishesAlone(env: Env, s: State, r: nat, key: string, stored: StoredObject, acknowledged: bool)
    requires KeyOf(env, s, r) == Some(key)
    ensures DiskNext(env, DiskState(s, s.evidence - {key}, map[r := Source(stored, Writing)], {key}),
                     Finish(r, acknowledged, None))
         == Settled(CopiedState(s, r, key, stored, acknowledged))
  {
    var sources := map[r := Source(stored, Writing)];
    var t := CopiedState(s, r, key, stored, acknowledged);
    assert FinishStep(env, DiskState(s, s.evidence - {key}, sources, {key}), r, acknowledged, None)
        == DiskState(t, (s.evidence - {key})[key := stored], sources - {r}, {key} - {key});
    assert sources - {r} == map[] && {key} - {key} == {};
    CopiedEvidence(s, r, key, stored, acknowledged);
  }

  lemma CopiedEvidence(s: State, r: nat, key: string, stored: StoredObject, acknowledged: bool)
    requires r in s.requests && s.requests[r].stage.FinalizeLoaded?
    ensures CopiedState(s, r, key, stored, acknowledged).evidence == (s.evidence - {key})[key := stored]
  {
    assert (s.evidence - {key})[key := stored] == s.evidence[key := stored];
  }

  lemma CopiedIsPromoted(env: Env, s: State, r: nat, key: string, acknowledged: bool)
    requires Target(env, s, r) == Some(key)
    ensures CopiedState(s, r, key, s.quarantine[s.requests[r].stage.payload.objectKey], acknowledged)
         == Next(env, s, Promote(r, if acknowledged then CopyDone else CopyDoneUnacknowledged))
  {}

  /** A promotion without a target fails before it writes, however it was meant to end. */
  lemma NoTargetNoCopy(env: Env, s: State, l: Label)
    requires l.Promote? ==> l.copy.CopyError? || Target(env, s, l.request).None?
    ensures Next(env, s, WithoutCopy(l)) == Next(env, s, l)
  {
    if l.Promote? {
      var r, failed := l.request, Promote(l.request, CopyError);
      TurnIsNext(env, s, r, l);
      TurnIsNext(env, s, r, failed);
      if r in s.requests && s.requests[r].stage.FinalizeLoaded? {
        RefusedIs(env, s, r, l.copy);
        RefusedIs(env, s, r, CopyError);
      } else {
        Idle(env, s, r, l);
        Idle(env, s, r, failed);
      }
    }
  }

  lemma RefusedIs(env: Env, s: State, r: nat, copy: Copy)
    requires r in s.requests && s.requests[r].stage.FinalizeLoaded? && (copy.CopyError? || Target(env, s, r).None?)
    ensures Turn(env, s, r, Promote(r, copy)) == Drop(s, r)
  {
    var q := s.requests[r];
    assert Turn(env, s, r, Promote(r, copy)) == PromoteStep(env, s, r, q, q.stage.payload, q.stage.work, copy);
  }

  lemma PlainEmbeds(env: Env, s: State, l: Label)
    requires NoCopy(l)
    ensures PlainStep(env, Settled(s), l) == Settled(Next(env, s, l))
  {
    StoresAfter(env, s, l);
    var y := PlainStep(env, Settled(s), l);
    assert y.sources == map[];
  }

  lemma StepEmbeds(env: Env, s: State, l: Label) returns (labels: seq<DiskLabel>)
    ensures DiskRun(env, Settled(s), labels) == Settled(Next(env, s, l))
  {
    if l.Promote? && !l.copy.CopyError? && Target(env, s, l.request).Some? {
      labels := [Open(l.request), Spill(l.request, None), Finish(l.request, l.copy.CopyDone?, None)];
      PromotionEmbeds(env, s, l.request, Target(env, s, l.request).value, l.copy.CopyDone?);
    } else {
      labels := [Plain(l)];
      DiskRunOne(env, Settled(s), Plain(l));
      PlainEmbeds(env, s, WithoutCopy(l));
      NoTargetNoCopy(env, s, l);
    }
  }

  lemma {:induction false} RunEmbeds(env: Env, s: State, labels: seq<Label>) returns (embedded: seq<DiskLabel>)
    ensures DiskRun(env, Settled(s), embedded) == Settled(Run(env, s, labels))
    decreases |labels|
  {
    if labels == [] {
      embedded := [];
    } else {
      var first := StepEmbeds(env, s, labels[0]);
      var rest := RunEmbeds(env, Next(env, s, labels[0]), labels[1..]);
      embedded := first + rest;
      DiskRunConcat(env, Settled(s), first, rest);
    }
  }

  /** Every run of the protocol is a run on the disk in which no promotion is interrupted. */
  lemma ProtocolRunsEmbed(env: Env, s: State)
    requires Reachable(env, s)
    ensures DiskReachable(env, Settled(s))
  {
    var labels :| s == Run(env, INITIAL, labels);
    var embedded := RunEmbeds(env, INITIAL, labels);
    assert Settled(INITIAL) == DISK_INITIAL;
  }

  // ---------- when the object of an uploaded document is whole ----------

  lemma WholeFacts(env: Env, x: DiskState, id: Uuid, key: string)
    requires DiskOk(x) && DocOk(env, x.s, id) && x.s.docs[id].status == Uploaded && x.s.docs[id].objectKey == key
    ensures id in x.s.origin && x.s.origin[id] in x.s.written
    ensures var upload := x.s.written[x.s.origin[id]];
      && Matches(env, upload, WorkOf(x.s.docs[id])) && (id, upload.bytes, Clean) in x.s.verdicts
      && (key in x.disk && x.disk[key] == upload <==> key !in x.torn)
  {}

  // ---------- workspaces ----------

  /**
    Nothing crosses workspaces: what is stored under a final key of some workspace, in any run, torn copies included,
    was uploaded under a quarantine key of that workspace, for a document of it.
   */
  lemma EvidenceStaysInWorkspace(env: Env, x: DiskState, key: string) returns (id: Uuid)
    requires Faithful(env) && DiskReachable(env, x) && key in x.s.evidence
    ensures id in x.s.docs && id in x.s.origin && x.s.origin[id] in x.s.written
    ensures x.s.evidence[key] == x.s.written[x.s.origin[id]]
    ensures var d := x.s.docs[id];
      && OK.FinalKey(d.workspaceId, d.identity, d.filename) == Some(key)
      && |Split(x.s.origin[id], '/')| > 1 && Split(x.s.origin[id], '/')[1] == Format(d.workspaceId)
  {
    DiskReachableInOrder(env, x);
    id :| Owned(env, x.s, key, id);
    OwnedInWorkspace(env, x.s, key, id);
  }

  lemma OwnedInWorkspace(env: Env, s: State, key: string, id: Uuid)
    requires Faithful(env) && Owned(env, s, key, id)
    ensures var d := s.docs[id];
      && OK.FinalKey(d.workspaceId, d.identity, d.filename) == Some(key)
      && |Split(s.origin[id], '/')| > 1 && Split(s.origin[id], '/')[1] == Format(d.workspaceId)
  {
    var d := s.docs[id];
    assert OK.New(d.workspaceId, OK.DocumentPrefix(d.identity.owner, d.identity.documentId), d.filename) == Some(key);
    OK.SameWorkspaceAsBuilt(s.origin[id], key, d.workspaceId);
  }

  /** The same for the atomic copies of the protocol. */
  lemma ProtocolStaysInWorkspace(env: Env, s: State, key: string) returns (id: Uuid)
    requires Faithful(env) && Reachable(env, s) && key in s.evidence
    ensures id in s.docs && id in s.origin && s.origin[id] in s.written && s.evidence[key] == s.written[s.origin[id]]
    ensures var d := s.docs[id];
      && OK.FinalKey(d.workspaceId, d.identity, d.filename) == Some(key)
      && |Split(s.origin[id], '/')| > 1 && Split(s.origin[id], '/')[1] == Format(d.workspaceId)
  {
    ProtocolRunsEmbed(env, s);
    id := EvidenceStaysInWorkspace(env, Settled(s), key);
  }

  // ---------- overlapping writers ----------

  /** The request has begun to write under this key. */
  ghost predicate WritesTo(env: Env, x: DiskState, r: nat, key: string) {
    CanWrite(env, x, r, key) && x.sources[r].phase.Writing?
  }

  lemma SpoiledFinish(env: Env, x: DiskState, r: nat, acknowledged: bool, left: Option<StoredObject>, key: string)
    requires CanWrite(env, x, r, key) && !x.sources[r].phase.Opened?
    ensures var y := DiskNext(env, x, Finish(r, acknowledged, left));
      var last := if x.sources[r].phase.Spoiled? then left else Some(x.sources[r].stored);
      && y.disk == (if last.Some? then x.disk[key := last.value] else x.disk - {key})
      && (key in y.torn <==> last != Some(x.sources[r].stored)) && r !in y.sources
  {}

  /** Of two writers of one key, the first to begin can leave anything, unless both bring the same. */
  lemma OverlapSpoils(env: Env, x: DiskState, a: nat, b: nat, key: string, between: Option<StoredObject>,
                      acknowledged: bool, left: Option<StoredObject>)
    requires a != b && WritesTo(env, x, a, key) && CanWrite(env, x, b, key)
    ensures var y := DiskNext(env, x, Spill(b, between));
      var z := DiskNext(env, y, Finish(a, acknowledged, left));
      && (x.sources[b].phase.Spoiled? || WritesTo(env, y, b, key))
      && z.disk == (if left.Some? then y.disk[key := left.value] else y.disk - {key})
      && (key in z.torn <==> left != Some(x.sources[a].stored))
  {
    var y := SpillStep(env, x, b, between);
    assert DiskNext(env, x, Spill(b, between)) == y && y.s == x.s;
    assert y.sources[a] == x.sources[a].(phase := Spoiled);
    SpoiledFinish(env, y, a, acknowledged, left, key);
  }

  /** So can a writer whose file was deleted by a request that found its own copy bad. */
  lemma DiscardSpoils(env: Env, x: DiskState, a: nat, k: nat, key: string)
    requires WritesTo(env, x, a, key) && Discards(env, x.s, k) == Some(key)
    ensures var y := DiskNext(env, x, Plain(CheckCopy(k, true)));
      && key !in y.disk && CanWrite(env, y, a, key) && y.sources[a] == x.sources[a].(phase := Spoiled)
  {
    var l := CheckCopy(k, true);
    var y := PlainStep(env, x, l);
    assert DiskNext(env, x, Plain(l)) == y && WithoutCopy(l) == l;
    assert Spoil(env, x, key, None)[a] == x.sources[a].(phase := Spoiled);
    TurnIsNext(env, x.s, k, l);
    OthersUnmoved(env, x.s, k, l, a);
  }

  lemma OthersUnmoved(env: Env, s: State, k: nat, l: Label, a: nat)
    requires RequestOf(l) == Some(k) && a != k && a in s.requests && k in s.requests
    ensures var t := Turn(env, s, k, l); a in t.requests && t.requests[a] == s.requests[a]
  {
    TurnIsCalm(env, s, k, s.requests[k], l);
  }
}
