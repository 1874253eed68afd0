/**
  When the object of an uploaded document on the disk is whole, and when it stays so, although promotions are not
  atomic.
 */
module PipelineTornCopies {
  import opened Wrappers
  import opened Uuids
  import opened Documents
  import opened Pipeline
  import opened PipelineDisk
  import opened PipelineFrames
  import opened PipelineInvariants
  import opened PipelineSteps
  import opened PipelineTheorems

  // ---------- who can still write under a document's final key ----------

  /** A request that loaded the document before it was uploaded has its source open, or can still open it. */
  ghost predicate Exposed(env: Env, x: DiskState, id: Uuid) {
    exists r :: Promoting(x.s, r, id) && (r in x.sources || Target(env, x.s, r).Some?)
  }

  ghost predicate UploadedAs(s: State, id: Uuid, key: string) {
    id in s.docs && s.docs[id].status == Uploaded && s.docs[id].objectKey == key
  }

  /** Nobody else's copy goes to that key. */
  lemma OnlyOwnRequestsWrite(env: Env, s: State, r: nat, id: Uuid, key: string)
    requires TellsApart(env) && Inv(env, s) && UploadedAs(s, id, key) && KeyOf(env, s, r) == Some(key)
    ensures Promoting(s, r, id)
  {
    assert RequestOk(env, s, s.requests[r]) && DocOk(env, s, id);
    FinalKeysDiffer(env, s, s.requests[r].stage.work.identity.documentId, id);
  }

  lemma NeverDiscarded(env: Env, s: State, r: nat, id: Uuid, key: string)
    requires TellsApart(env) && Inv(env, s) && UploadedAs(s, id, key)
    ensures Discards(env, s, r) != Some(key)
  {
    if Discards(env, s, r) == Some(key) {
      assert RequestOk(env, s, s.requests[r]) && DocOk(env, s, id);
      FinalKeysDiffer(env, s, s.requests[r].stage.work.identity.documentId, id);
    }
  }

  predicate SameObject(x: DiskState, y: DiskState, key: string) {
    key in x.disk && key in y.disk && y.disk[key] == x.disk[key]
  }

  lemma PlainKeepsDisk(env: Env, x: DiskState, l: Label, key: string)
    requires NoCopy(l) && key in x.disk && (l.CheckCopy? ==> Discards(env, x.s, l.request) != Some(key))
    ensures SameObject(x, PlainStep(env, x, l), key)
  {}

  lemma WriteKeepsDisk(env: Env, x: DiskState, l: DiskLabel, key: string)
    requires (l.Spill? || l.Finish?) && key in x.disk && !CanWrite(env, x, l.request, key)
    ensures SameObject(x, DiskNext(env, x, l), key)
  {}

  lemma DiskKept(env: Env, x: DiskState, l: DiskLabel, id: Uuid, key: string)
    requires TellsApart(env) && Inv(env, x.s) && UploadedAs(x.s, id, key) && !Exposed(env, x, id) && key in x.disk
    ensures SameObject(x, DiskNext(env, x, l), key)
  {
    if l.Plain? {
      PlainKeepsUploaded(env, x, WithoutCopy(l.l), id, key);
    } else if l.Open? {
      OpenKeepsDisk(env, x, l.request);
    } else {
      OtherCopiesOnly(env, x, l.request, id, key);
      WriteKeepsDisk(env, x, l, key);
    }
  }

  lemma OpenKeepsDisk(env: Env, x: DiskState, r: nat)
    ensures OpenStep(env, x, r).disk == x.disk && OpenStep(env, x, r).s == x.s
  {}

  lemma PlainKeepsUploaded(env: Env, x: DiskState, l: Label, id: Uuid, key: string)
    requires TellsApart(env) && Inv(env, x.s) && UploadedAs(x.s, id, key) && NoCopy(l) && key in x.disk
    ensures SameObject(x, PlainStep(env, x, l), key)
  {
    if l.CheckCopy? {
      NeverDiscarded(env, x.s, l.request, id, key);
    }
    PlainKeepsDisk(env, x, l, key);
  }

  lemma OtherCopiesOnly(env: Env, x: DiskState, r: nat, id: Uuid, key: string)
    requires TellsApart(env) && Inv(env, x.s) && UploadedAs(x.s, id, key) && !Exposed(env, x, id)
    ensures !CanWrite(env, x, r, key)
  {
    if KeyOf(env, x.s, r) == Some(key) {
      OnlyOwnRequestsWrite(env, x.s, r, id, key);
    }
  }

  // ---------- the condition is kept ----------

  /** Every request that would promote the document is held back: its source is closed and cannot be opened. */
  ghost predicate AllHeldBack(env: Env, x: DiskState, id: Uuid) {
    forall r :: Promoting(x.s, r, id) ==>
      r !in x.sources && Target(env, x.s, r).None? && x.s.requests[r].stage.payload.objectKey in x.s.written
  }

  lemma UnexposedHeldBack(env: Env, x: DiskState, id: Uuid)
    requires Inv(env, x.s) && id in x.s.docs && x.s.docs[id].status == Uploaded && !Exposed(env, x, id)
    ensures AllHeldBack(env, x, id)
  {
    forall r | Promoting(x.s, r, id)
      ensures r !in x.sources && Target(env, x.s, r).None? && x.s.requests[r].stage.payload.objectKey in x.s.written
    {
      PromotesTheUpload(env, x.s, r, id);
    }
  }

  /** What held the request back still does. */
  lemma StillHeldBack(env: Env, s: State, t: State, r: nat)
    requires r in s.requests && r in t.requests && t.requests[r] == s.requests[r] && s.requests[r].stage.FinalizeLoaded?
    requires NothingComesBack(s, t) && s.requests[r].stage.payload.objectKey in s.written && Target(env, s, r).None?
    ensures Target(env, t, r).None?
  {}

  lemma PlainStaysHeldBack(env: Env, x: DiskState, l: Label, r: nat, id: Uuid)
    requires id in x.s.docs && x.s.docs[id].status == Uploaded && AllHeldBack(env, x, id)
    requires Promoting(Next(env, x.s, l), r, id)
    ensures r !in x.sources && Target(env, Next(env, x.s, l), r).None?
  {
    NoNewPromotion(env, x.s, l, r, id);
    StoresAfter(env, x.s, l);
    assert Promoting(x.s, r, id);
    StillHeldBack(env, x.s, Next(env, x.s, l), r);
  }

  lemma PlainStaysUnexposed(env: Env, x: DiskState, l: Label, id: Uuid)
    requires id in x.s.docs && x.s.docs[id].status == Uploaded && AllHeldBack(env, x, id)
    ensures !Exposed(env, PlainStep(env, x, l), id)
  {
    var y := PlainStep(env, x, l);
    forall r | Promoting(y.s, r, id) ensures r !in y.sources && Target(env, y.s, r).None? {
      PlainStaysHeldBack(env, x, l, r, id);
    }
  }

  lemma FinishStaysUnexposed(
      env: Env, x: DiskState, r: nat, acknowledged: bool, left: Option<StoredObject>, id: Uuid)
    requires AllHeldBack(env, x, id)
    ensures !Exposed(env, FinishStep(env, x, r, acknowledged, left), id)
  {
    var y := FinishStep(env, x, r, acknowledged, left);
    var key := KeyOf(env, x.s, r);
    if r in x.sources && key.Some? && !x.sources[r].phase.Opened? {
      CopiedFrame(x.s, r, key.value, x.sources[r].stored, acknowledged);
      forall o | Promoting(y.s, o, id) ensures o !in y.sources && Target(env, y.s, o).None? {
        assert o != r && Promoting(x.s, o, id);
        HeldBackElsewhere(env, x.s, y.s, o);
      }
    }
  }

  lemma HeldBackElsewhere(env: Env, s: State, t: State, o: nat)
    requires o in s.requests && o in t.requests && t.requests[o] == s.requests[o] && t.quarantine == s.quarantine
    ensures Target(env, t, o) == Target(env, s, o)
  {}

  lemma OpenStaysUnexposed(env: Env, x: DiskState, r: nat, id: Uuid)
    requires AllHeldBack(env, x, id)
    ensures !Exposed(env, OpenStep(env, x, r), id)
  {
    assert Promoting(x.s, r, id) ==> Target(env, x.s, r).None?;
  }

  lemma SpillStaysUnexposed(env: Env, x: DiskState, r: nat, left: Option<StoredObject>, id: Uuid)
    requires AllHeldBack(env, x, id)
    ensures !Exposed(env, SpillStep(env, x, r, left), id)
  {}

  lemma StaysUnexposed(env: Env, x: DiskState, l: DiskLabel, id: Uuid)
    requires id in x.s.docs && x.s.docs[id].status == Uploaded && AllHeldBack(env, x, id)
    ensures !Exposed(env, DiskNext(env, x, l), id)
  {
    match l
    case Plain(plain) => PlainStaysUnexposed(env, x, WithoutCopy(plain), id);
    case Open(r) => OpenStaysUnexposed(env, x, r, id);
    case Spill(r, left) => SpillStaysUnexposed(env, x, r, left, id);
    case Finish(r, acknowledged, left) => FinishStaysUnexposed(env, x, r, acknowledged, left, id);
  }

  lemma StaysUploaded(env: Env, x: DiskState, l: DiskLabel, id: Uuid, key: string)
    requires TellsApart(env) && Inv(env, x.s) && UploadedAs(x.s, id, key)
    ensures UploadedAs(DiskNext(env, x, l).s, id, key)
  {
    if l.Plain? {
      NextStaysUploaded(env, x.s, WithoutCopy(l.l), id, key);
    } else if l.Finish? {
      FinishKeepsDocuments(env, x, l.request, l.acknowledged, l.left);
    } else if l.Open? {
      OpenKeepsDisk(env, x, l.request);
    } else {
      SpillKeepsState(env, x, l.request, l.left);
    }
  }

  lemma SpillKeepsState(env: Env, x: DiskState, r: nat, left: Option<StoredObject>)
    ensures SpillStep(env, x, r, left).s == x.s
  {}

  lemma FinishKeepsDocuments(env: Env, x: DiskState, r: nat, acknowledged: bool, left: Option<StoredObject>)
    ensures FinishStep(env, x, r, acknowledged, left).s.docs == x.s.docs
  {
    var key := KeyOf(env, x.s, r);
    if r in x.sources && key.Some? && !x.sources[r].phase.Opened? {
      CopiedFrame(x.s, r, key.value, x.sources[r].stored, acknowledged);
    }
  }

  lemma NextStaysUploaded(env: Env, s: State, l: Label, id: Uuid, key: string)
    requires TellsApart(env) && Inv(env, s) && UploadedAs(s, id, key)
    ensures UploadedAs(Next(env, s, l), id, key)
  {
    NextKeeps(env, s, l);
    assert DocOk(env, s, id);
    DocumentFate(env, s, Next(env, s, l), id);
  }

  // ---------- when it survives ----------

  /** Whatever happens from now on, torn copies included, the object under the key stays as it is. */
  ghost predicate Survives(env: Env, x: DiskState, key: string) {
    forall labels :: SameObject(x, DiskRun(env, x, labels), key)
  }

  lemma {:induction false} UnexposedSurvives(env: Env, x: DiskState, labels: seq<DiskLabel>, id: Uuid, key: string)
    requires TellsApart(env) && DiskInv(env, x) && UploadedAs(x.s, id, key) && !Exposed(env, x, id) && key in x.disk
    ensures SameObject(x, DiskRun(env, x, labels), key)
    decreases |labels|
  {
    if labels != [] {
      DiskKept(env, x, labels[0], id, key);
      UnexposedHeldBack(env, x, id);
      StaysUnexposed(env, x, labels[0], id);
      StaysUploaded(env, x, labels[0], id, key);
      DiskNextKeeps(env, x, labels[0]);
      UnexposedSurvives(env, DiskNext(env, x, labels[0]), labels[1..], id, key);
    }
  }

  lemma UnexposedAlwaysSurvives(env: Env, x: DiskState, id: Uuid, key: string)
    requires TellsApart(env) && DiskInv(env, x) && UploadedAs(x.s, id, key) && !Exposed(env, x, id) && key in x.disk
    ensures Survives(env, x, key)
  {
    forall labels ensures SameObject(x, DiskRun(env, x, labels), key) {
      UnexposedSurvives(env, x, labels, id, key);
    }
  }

  lemma WritesToKey(env: Env, s: State, r: nat, id: Uuid, key: string)
    requires RequestsOk(env, s) && DocsOk(env, s) && UploadedAs(s, id, key) && Promoting(s, r, id)
    ensures KeyOf(env, s, r) == Some(key)
  {
    assert RequestOk(env, s, s.requests[r]) && DocOk(env, s, id);
  }

  lemma SpillLoses(env: Env, x: DiskState, r: nat, key: string)
    requires r in x.sources && KeyOf(env, x.s, r) == Some(key)
    ensures key !in DiskRun(env, x, [Spill(r, None)]).disk && DiskRun(env, x, [Spill(r, None)]).s == x.s
  {
    assert [Spill(r, None)][1..] == [] && DiskNext(env, x, Spill(r, None)) == SpillStep(env, x, r, None);
  }

  lemma OpenThenSpillLoses(env: Env, x: DiskState, r: nat, key: string)
    requires Target(env, x.s, r).Some? && KeyOf(env, x.s, r) == Some(key)
    ensures var y := DiskRun(env, x, [Open(r), Spill(r, None)]); key !in y.disk && y.s == x.s
  {
    var y := DiskNext(env, x, Open(r));
    assert y == OpenStep(env, x, r) && y.s == x.s && r in y.sources;
    SpillLoses(env, y, r, key);
    assert [Open(r), Spill(r, None)][1..] == [Spill(r, None)];
  }

  lemma ExposedCanBeLost(env: Env, x: DiskState, id: Uuid, key: string)
    requires DiskInv(env, x) && UploadedAs(x.s, id, key) && Exposed(env, x, id)
    ensures !Survives(env, x, key)
  {
    var r :| Promoting(x.s, r, id) && (r in x.sources || Target(env, x.s, r).Some?);
    WritesToKey(env, x.s, r, id, key);
    WriterCanLose(env, x, r, key);
  }

  lemma WriterCanLose(env: Env, x: DiskState, r: nat, key: string)
    requires KeyOf(env, x.s, r) == Some(key) && (r in x.sources || Target(env, x.s, r).Some?)
    ensures !Survives(env, x, key)
  {
    if r in x.sources {
      SpillLoses(env, x, r, key);
      assert !SameObject(x, DiskRun(env, x, [Spill(r, None)]), key);
    } else {
      OpenThenSpillLoses(env, x, r, key);
      assert !SameObject(x, DiskRun(env, x, [Open(r), Spill(r, None)]), key);
    }
  }

  /**
    Exactly when the object of an uploaded document survives every later run in which promotions may be torn: it is
    there, and no request that loaded its work earlier has the source open or can still open it.
   */
  lemma SurvivesIffUnexposed(env: Env, x: DiskState, id: Uuid)
    requires Faithful(env) && DiskReachable(env, x) && id in x.s.docs && x.s.docs[id].status == Uploaded
    ensures Survives(env, x, x.s.docs[id].objectKey) <==> x.s.docs[id].objectKey in x.disk && !Exposed(env, x, id)
  {
    DiskReachableInOrder(env, x);
    FaithfulTellsApart(env);
    var key := x.s.docs[id].objectKey;
    if key !in x.disk {
      assert !SameObject(x, DiskRun(env, x, []), key);
    } else if Exposed(env, x, id) {
      ExposedCanBeLost(env, x, id, key);
    } else {
      UnexposedAlwaysSurvives(env, x, id, key);
    }
  }

  // ---------- torn, in terms of the run ----------

  /** What a step leaves under the key: the whole source of its request, or not. */
  predicate Tears(env: Env, x: DiskState, l: DiskLabel, key: string) {
    || (l.Spill? && CanWrite(env, x, l.request, key) && l.left != Some(x.sources[l.request].stored))
    || (l.Finish? && CanWrite(env, x, l.request, key) && x.sources[l.request].phase.Spoiled?
        && l.left != Some(x.sources[l.request].stored))
  }

  predicate Completes(env: Env, x: DiskState, l: DiskLabel, key: string) {
    || (l.Spill? && CanWrite(env, x, l.request, key) && l.left == Some(x.sources[l.request].stored))
    || (l.Finish? && CanWrite(env, x, l.request, key)
        && (x.sources[l.request].phase.Writing?
            || (x.sources[l.request].phase.Spoiled? && l.left == Some(x.sources[l.request].stored))))
  }

  predicate TearsAt(env: Env, labels: seq<DiskLabel>, i: nat, key: string) {
    i < |labels| && Tears(env, DiskRun(env, DISK_INITIAL, labels[..i]), labels[i], key)
  }

  predicate CompletesAt(env: Env, labels: seq<DiskLabel>, i: nat, key: string) {
    i < |labels| && Completes(env, DiskRun(env, DISK_INITIAL, labels[..i]), labels[i], key)
  }

  /** Some copy to the key was torn, and none was whole since. */
  ghost predicate TornBy(env: Env, labels: seq<DiskLabel>, key: string) {
    exists i: nat :: TearsAt(env, labels, i, key) && forall j: nat :: i < j ==> !CompletesAt(env, labels, j, key)
  }

  lemma {:induction false} DiskRunLast(env: Env, x: DiskState, labels: seq<DiskLabel>, l: DiskLabel)
    ensures DiskRun(env, x, labels + [l]) == DiskNext(env, DiskRun(env, x, labels), l)
    decreases |labels|
  {
    if labels == [] {
      assert labels + [l] == [l] && [l][1..] == [];
    } else {
      assert (labels + [l])[0] == labels[0] && (labels + [l])[1..] == labels[1..] + [l];
      DiskRunLast(env, DiskNext(env, x, labels[0]), labels[1..], l);
    }
  }

  lemma SameBefore(env: Env, labels: seq<DiskLabel>, l: DiskLabel, i: nat, key: string)
    requires i < |labels|
    ensures TearsAt(env, labels + [l], i, key) == TearsAt(env, labels, i, key)
    ensures CompletesAt(env, labels + [l], i, key) == CompletesAt(env, labels, i, key)
  {
    assert (labels + [l])[..i] == labels[..i] && (labels + [l])[i] == labels[i];
  }

  lemma TornStays(env: Env, labels: seq<DiskLabel>, l: DiskLabel, key: string)
    requires TornBy(env, labels, key) && !CompletesAt(env, labels + [l], |labels|, key)
    ensures TornBy(env, labels + [l], key)
  {
    var i: nat :| TearsAt(env, labels, i, key) && forall j: nat :: i < j ==> !CompletesAt(env, labels, j, key);
    SameBefore(env, labels, l, i, key);
    forall j: nat | i < j ensures !CompletesAt(env, labels + [l], j, key) {
      if j < |labels| {
        SameBefore(env, labels, l, j, key);
      }
    }
  }

  lemma TornBefore(env: Env, labels: seq<DiskLabel>, l: DiskLabel, key: string)
    requires TornBy(env, labels + [l], key) && !TearsAt(env, labels + [l], |labels|, key)
    ensures TornBy(env, labels, key) && !CompletesAt(env, labels + [l], |labels|, key)
  {
    var i: nat :| TearsAt(env, labels + [l], i, key) && forall j: nat :: i < j ==>
      !CompletesAt(env, labels + [l], j, key);
    assert i < |labels|;
    SameBefore(env, labels, l, i, key);
    forall j: nat | i < j ensures !CompletesAt(env, labels, j, key) {
      if j < |labels| {
        SameBefore(env, labels, l, j, key);
      }
    }
  }

  lemma TornNow(env: Env, labels: seq<DiskLabel>, l: DiskLabel, key: string)
    requires TearsAt(env, labels + [l], |labels|, key)
    ensures TornBy(env, labels + [l], key)
  {
    assert forall j: nat :: |labels| < j ==> !CompletesAt(env, labels + [l], j, key);
  }

  lemma TornLast(env: Env, labels: seq<DiskLabel>, l: DiskLabel, key: string)
    ensures var n := |labels|;
      TornBy(env, labels + [l], key) <==>
        TearsAt(env, labels + [l], n, key) || (TornBy(env, labels, key) && !CompletesAt(env, labels + [l], n, key))
  {
    if TearsAt(env, labels + [l], |labels|, key) {
      TornNow(env, labels, l, key);
    } else if TornBy(env, labels + [l], key) {
      TornBefore(env, labels, l, key);
    } else if TornBy(env, labels, key) && !CompletesAt(env, labels + [l], |labels|, key) {
      TornStays(env, labels, l, key);
    }
  }

  lemma TornStep(env: Env, x: DiskState, l: DiskLabel, key: string)
    ensures key in DiskNext(env, x, l).torn <==> Tears(env, x, l, key) || (key in x.torn && !Completes(env, x, l, key))
  {}

  /** The history says just that. */
  lemma {:induction false} TornIff(env: Env, labels: seq<DiskLabel>, key: string)
    ensures key in DiskRun(env, DISK_INITIAL, labels).torn <==> TornBy(env, labels, key)
    decreases |labels|
  {
    if labels != [] {
      var n := |labels| - 1;
      var front, l := labels[..n], labels[n];
      assert labels == front + [l];
      TornIff(env, front, key);
      TornLast(env, front, l, key);
      DiskRunLast(env, DISK_INITIAL, front, l);
      TornStep(env, DiskRun(env, DISK_INITIAL, front), l, key);
      assert (front + [l])[..n] == front;
    }
  }

  /**
    Over every run: the object of an uploaded document on the disk is the upload, and has the recorded type, length
    and SHA-256, exactly when no copy to its key was torn after the last whole one. A torn object that still
    matches would be a collision of the digest.
   */
  lemma WholeIffNotTorn(env: Env, labels: seq<DiskLabel>, id: Uuid)
    requires var s := DiskRun(env, DISK_INITIAL, labels).s; id in s.docs && s.docs[id].status == Uploaded
    requires Faithful(env)
    ensures var x := DiskRun(env, DISK_INITIAL, labels);
      && id in x.s.origin && x.s.origin[id] in x.s.written
      && var (d, upload) := (x.s.docs[id], x.s.written[x.s.origin[id]]);
      && (d.objectKey in x.disk && x.disk[d.objectKey] == upload <==> !TornBy(env, labels, d.objectKey))
      && Matches(env, upload, WorkOf(d)) && (id, upload.bytes, Clean) in x.s.verdicts
      && (TornBy(env, labels, d.objectKey) && d.objectKey in x.disk && Matches(env, x.disk[d.objectKey], WorkOf(d)) ==>
          x.disk[d.objectKey].bytes != upload.bytes && env.sha(x.disk[d.objectKey].bytes) == env.sha(upload.bytes))
  {
    var x := DiskRun(env, DISK_INITIAL, labels);
    DiskReachableInOrder(env, x);
    assert DocOk(env, x.s, id);
    WholeFacts(env, x, id, x.s.docs[id].objectKey);
    TornIff(env, labels, x.s.docs[id].objectKey);
  }

  /** The object under the key is the upload, and is whatever happens from now on. */
  ghost predicate StaysWhole(env: Env, x: DiskState, key: string, upload: StoredObject) {
    forall labels :: var y := DiskRun(env, x, labels); key in y.disk && y.disk[key] == upload
  }

  lemma StaysWholeIfSurvives(env: Env, x: DiskState, key: string, upload: StoredObject)
    ensures StaysWhole(env, x, key, upload) <==> key in x.disk && x.disk[key] == upload && Survives(env, x, key)
  {
    assert DiskRun(env, x, []) == x;
    if StaysWhole(env, x, key, upload) {
      forall labels ensures SameObject(x, DiskRun(env, x, labels), key) {
        assert var y := DiskRun(env, x, labels); key in y.disk && y.disk[key] == upload;
      }
    } else if Survives(env, x, key) {
      var labels :| var y := DiskRun(env, x, labels); !(key in y.disk && y.disk[key] == upload);
      assert SameObject(x, DiskRun(env, x, labels), key);
    }
  }

  /**
    Over every run and all its continuations: the object of an uploaded document is the upload for good exactly when
    no copy to its key was torn after the last whole one, and no request has its source open or can still open it.
   */
  lemma StaysWholeIff(env: Env, labels: seq<DiskLabel>, id: Uuid)
    requires var s := DiskRun(env, DISK_INITIAL, labels).s; id in s.docs && s.docs[id].status == Uploaded
    requires Faithful(env)
    ensures var x := DiskRun(env, DISK_INITIAL, labels);
      && id in x.s.origin && x.s.origin[id] in x.s.written
      && var (key, upload) := (x.s.docs[id].objectKey, x.s.written[x.s.origin[id]]);
         StaysWhole(env, x, key, upload) <==> !TornBy(env, labels, key) && !Exposed(env, x, id)
  {
    var x := DiskRun(env, DISK_INITIAL, labels);
    WholeIffNotTorn(env, labels, id);
    SurvivesIffUnexposed(env, x, id);
    StaysWholeIfSurvives(env, x, x.s.docs[id].objectKey, x.s.written[x.s.origin[id]]);
  }
}
