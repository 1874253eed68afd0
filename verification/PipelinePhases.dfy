/**
  What each step of a worker request does to the database and the stores, apart from the protocol's own
  note of how far the request has come.
 */
module PipelinePhases {
  import opened ByteStrings
  import opened Wrappers
  import opened Uuids
  import opened Documents
  import W = Worker
  import opened Pipeline

  /** The tables and stores that handlers read and write, with their history. */
  datatype World = World(
    policies: map<Uuid, PolicyRow>,
    docs: map<Uuid, DocumentData>,
    appended: seq<Event>,
    outbox: set<nat>,
    quarantine: map<string, StoredObject>,
    evidence: map<string, StoredObject>,
    verdicts: set<(Uuid, Bytes, ScanResult)>,
    scanRow: map<Uuid, nat>,
    finalRow: map<Uuid, nat>)

  function WorldOf(s: State): World {
    World(s.policies, s.docs, s.appended, s.outbox, s.quarantine, s.evidence, s.verdicts, s.scanRow, s.finalRow)
  }

  predicate At(s: State, r: nat, q: Request) {
    r in s.requests && s.requests[r] == q
  }

  // ---------- labels that do nothing ----------

  /** The label is the next step of a request at this stage. */
  predicate Fits(stage: Stage, l: Label) {
    match stage
    case ScanStarted(_) => l.Load?
    case ScanLoaded(_) => l.Fetch?
    case ScanFetched(_, _) => l.Scan?
    case ScanDecided(_, _) => l.ApplyScan?
    case FinalizeStarted(_) => l.Load?
    case FinalizeLoaded(_, _) => l.Promote?
    case FinalizeCopied(_, _, _, _) => l.CheckCopy?
    case FinalizeVerified(_, _, _) => l.ApplyFinalize?
    case FinalizeApplied(_) => l.DeleteSource?
    case Succeeded => false
  }

  lemma UnfitDoesNothing(env: Env, s: State, r: nat, q: Request, l: Label)
    requires !Fits(q.stage, l)
    ensures NextRequest(env, s, r, q, l) == s
  {}

  // ---------- one request on its own ----------

  /** What a label does to the request it names. */
  function Turn(env: Env, s: State, r: nat, l: Label): State {
    if r in s.requests then NextRequest(env, s, r, s.requests[r], l) else s
  }

  function Turns(env: Env, s: State, r: nat, labels: seq<Label>): State
    decreases |labels|
  {
    if labels == [] then s else Turns(env, Turn(env, s, r, labels[0]), r, labels[1..])
  }

  predicate AllOf(r: nat, labels: seq<Label>) {
    forall i :: 0 <= i < |labels| ==> RequestOf(labels[i]) == Some(r)
  }

  lemma TurnIsNext(env: Env, s: State, r: nat, l: Label)
    requires RequestOf(l) == Some(r)
    ensures Next(env, s, l) == Turn(env, s, r, l)
  {}

  /** A run that only moves one request. */
  lemma {:induction false} TurnsAreRun(env: Env, s: State, r: nat, labels: seq<Label>)
    requires AllOf(r, labels)
    ensures Run(env, s, labels) == Turns(env, s, r, labels)
    decreases |labels|
  {
    if labels != [] {
      TurnIsNext(env, s, r, labels[0]);
      TurnsAreRun(env, Turn(env, s, r, labels[0]), r, labels[1..]);
    }
  }

  lemma TurnsFirst(env: Env, s: State, r: nat, l: Label, rest: seq<Label>)
    ensures Turns(env, s, r, [l] + rest) == Turns(env, Turn(env, s, r, l), r, rest)
  {
    assert ([l] + rest)[1..] == rest;
  }

  /** A whole handler: load the work, then the rest. */
  lemma RunFromLoad(env: Env, s: State, r: nat, rest: seq<Label>)
    requires AllOf(r, rest)
    ensures Run(env, s, [Load(r)] + rest) == Turns(env, Turn(env, s, r, Load(r)), r, rest)
  {
    TurnsAreRun(env, s, r, [Load(r)] + rest);
    TurnsFirst(env, s, r, Load(r), rest);
  }

  lemma TurnsThree(env: Env, s: State, r: nat, labels: seq<Label>)
    requires |labels| == 3
    ensures Turns(env, s, r, labels) == Turn(env, Turn(env, Turn(env, s, r, labels[0]), r, labels[1]), r, labels[2])
  {
    var t := Turn(env, s, r, labels[0]);
    assert labels == [labels[0]] + ([labels[1]] + ([labels[2]] + []));
    TurnsFirst(env, s, r, labels[0], [labels[1]] + ([labels[2]] + []));
    TurnsFirst(env, t, r, labels[1], [labels[2]] + []);
    TurnsFirst(env, Turn(env, t, r, labels[1]), r, labels[2], []);
  }

  lemma Idle(env: Env, s: State, r: nat, l: Label)
    requires r in s.requests ==> !Fits(s.requests[r].stage, l)
    ensures Turn(env, s, r, l) == s
  {
    if r in s.requests {
      UnfitDoesNothing(env, s, r, s.requests[r], l);
    }
  }

  /** Labels for a request that is gone do nothing. */
  lemma GoneIsIdle(env: Env, s: State, r: nat, a: Label, b: Label)
    requires r !in s.requests
    ensures Turn(env, Turn(env, s, r, a), r, b) == s
  {}

  // ---------- bookkeeping ----------

  lemma Moved(s: State, r: nat, q: Request, stage: Stage)
    ensures At(GoTo(s, r, q, stage), r, q.(stage := stage)) && WorldOf(GoTo(s, r, q, stage)) == WorldOf(s)
  {}

  lemma Gone(s: State, r: nat)
    ensures r !in Drop(s, r).requests && WorldOf(Drop(s, r)) == WorldOf(s)
  {}

  /** Loading work moves the request on with it, or finishes it when there is none. */
  lemma LoadGoesTo(env: Env, s: State, r: nat, q: Request, p: W.HandlerPayload, work: Option<Work>)
    requires At(s, r, q)
    requires (q.stage == ScanStarted(p) && work == LoadWork(s, p, PendingUpload))
             || (q.stage == FinalizeStarted(p) && work == LoadWork(s, p, Finalizing))
    ensures Turn(env, s, r, Load(r))
         == GoTo(s, r, q, if work.None? then Succeeded
                          else if q.stage.ScanStarted? then ScanLoaded(work.value) else FinalizeLoaded(p, work.value))
  {}

  /** A copy that matches is verified; any other is dropped, and deleted if that works. */
  lemma CheckCopyGoesTo(env: Env, s: State, r: nat, q: Request, p: W.HandlerPayload, work: Work, finalKey: string,
                        copied: StoredObject, deleted: bool)
    requires At(s, r, q) && q.stage == FinalizeCopied(p, work, finalKey, copied)
    ensures var t := Turn(env, s, r, CheckCopy(r, deleted));
      if Matches(env, copied, work)
      then At(t, r, q.(stage := FinalizeVerified(p, work, finalKey))) && WorldOf(t) == WorldOf(s)
      else
        && r !in t.requests
        && WorldOf(t) == WorldOf(s).(evidence := if deleted then s.evidence - {finalKey} else s.evidence)
  {
    var t := CheckCopyStep(env, s, r, q, p, work, finalKey, copied, deleted);
    assert Turn(env, s, r, CheckCopy(r, deleted)) == t;
    if Matches(env, copied, work) {
      Moved(s, r, q, FinalizeVerified(p, work, finalKey));
    } else {
      Gone(if deleted then s.(evidence := s.evidence - {finalKey}) else s, r);
    }
  }

  /**
    A promotion that is refused or fails leaves the evidence alone; otherwise the object is there, acknowledged or
    not.
   */
  lemma PromoteGoesTo(env: Env, s: State, r: nat, q: Request, p: W.HandlerPayload, work: Work, copy: Copy)
    requires At(s, r, q) && q.stage == FinalizeLoaded(p, work)
    ensures var t := Turn(env, s, r, Promote(r, copy));
      var key := env.finalKey(work.workspaceId, work.identity, work.filename);
      if key.None? || !env.sameWorkspace(p.objectKey, key.value) || p.objectKey !in s.quarantine || copy.CopyError?
      then r !in t.requests && WorldOf(t) == WorldOf(s)
      else
        var stored := s.quarantine[p.objectKey];
        && WorldOf(t) == WorldOf(s).(evidence := s.evidence[key.value := stored])
        && if copy.CopyDone? then At(t, r, q.(stage := FinalizeCopied(p, work, key.value, stored)))
           else r !in t.requests
  {
    var t := PromoteStep(env, s, r, q, p, work, copy);
    assert Turn(env, s, r, Promote(r, copy)) == t;
    var key := env.finalKey(work.workspaceId, work.identity, work.filename);
    if key.None? || !env.sameWorkspace(p.objectKey, key.value) || p.objectKey !in s.quarantine || copy.CopyError? {
      Gone(s, r);
    } else {
      var stored := s.quarantine[p.objectKey];
      var u := s.(evidence := s.evidence[key.value := stored]);
      Moved(u, r, q, FinalizeCopied(p, work, key.value, stored));
      Gone(u, r);
    }
  }

  // ---------- composing runs ----------

  lemma {:induction false} RunConcat(env: Env, s: State, a: seq<Label>, b: seq<Label>)
    ensures Run(env, s, a + b) == Run(env, Run(env, s, a), b)
    decreases |a|
  {
    if a == [] {
      assert a + b == b;
    } else {
      assert (a + b)[0] == a[0] && (a + b)[1..] == a[1..] + b;
      RunConcat(env, Next(env, s, a[0]), a[1..], b);
    }
  }

  lemma RunFirst(env: Env, s: State, l: Label, rest: seq<Label>)
    ensures Run(env, s, [l] + rest) == Run(env, Next(env, s, l), rest)
  {
    assert ([l] + rest)[1..] == rest;
  }

  lemma RunTwo(env: Env, s: State, a: Label, b: Label)
    ensures Run(env, s, [a, b]) == Next(env, Next(env, s, a), b)
  {
    RunFirst(env, s, a, [b] + []);
    RunFirst(env, Next(env, s, a), b, []);
    assert [a, b] == [a] + ([b] + []);
  }

  lemma RunThree(env: Env, s: State, a: Label, b: Label, c: Label)
    ensures Run(env, s, [a, b, c]) == Next(env, Next(env, Next(env, s, a), b), c)
  {
    RunFirst(env, s, a, [b, c]);
    RunTwo(env, Next(env, s, a), b, c);
    assert [a, b, c] == [a] + [b, c];
  }

  // ---------- commands ----------

  function Appended(w: World, e: Event): World {
    var row := |w.appended|;
    var id := e.identity.documentId;
    w.(appended := w.appended + [e], outbox := w.outbox + {row},
       scanRow := if e.ScanRequested? then w.scanRow[id := row] else w.scanRow,
       finalRow := if e.ScanRequested? then w.finalRow else w.finalRow[id := row])
  }

  lemma AppendWorld(s: State, e: Event)
    ensures WorldOf(AppendEvent(s, Some(e))) == Appended(WorldOf(s), e)
  {}

  /** What the scan command writes. */
  lemma ScanCommandWorld(s: State, work: Work, result: ScanResult)
    requires work.identity.documentId in s.docs
    requires var d := s.docs[work.identity.documentId]; d.identity == work.identity && d.objectKey == work.objectKey
    ensures var (d, t) := ScanData(s.docs[work.identity.documentId], result);
      var w := WorldOf(s).(docs := s.docs[work.identity.documentId := d]);
      WorldOf(ScanCommand(s, work, result))
      == if !Changed(t) then WorldOf(s) else if t.event.None? then w else Appended(w, t.event.value)
  {
    var (d, t) := ScanData(s.docs[work.identity.documentId], result);
    var u := s.(docs := s.docs[work.identity.documentId := d]);
    if !Changed(t) {
      assert ScanCommand(s, work, result) == s;
    } else if t.event.None? {
      assert ScanCommand(s, work, result) == u;
    } else {
      assert ScanCommand(s, work, result) == AppendEvent(u, Some(t.event.value));
      AppendWorld(u, t.event.value);
    }
  }

  // ---------- returning ----------

  /** The handler has returned: with success, which acknowledges the message, or with an error, which does not. */
  predicate Returned(s: State, r: nat, ok: bool) {
    if ok then r in s.requests && s.requests[r].stage.Succeeded? else r !in s.requests
  }

  /** Once it has returned, its remaining labels do nothing. */
  lemma {:induction false} RestIsIdle(env: Env, s: State, r: nat, ok: bool, labels: seq<Label>)
    requires Returned(s, r, ok)
    ensures Turns(env, s, r, labels) == s
    decreases |labels|
  {
    if labels != [] {
      Idle(env, s, r, labels[0]);
      RestIsIdle(env, s, r, ok, labels[1..]);
    }
  }
}
