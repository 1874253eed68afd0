/** Policies and their documents: at most one current document each, and what the API accepts. */
module PipelinePolicies {
  import opened Wrappers
  import opened Uuids
  import opened Documents
  import OK = ObjectKey
  import opened Pipeline
  import opened PipelineFrames
  import opened PipelineInvariants
  import opened PipelinePhases
  import opened PipelineSteps
  import opened PipelineTheorems

  /** The document belongs to the policy and has not been archived. */
  ghost predicate CurrentFor(s: State, id: Uuid, policy: Uuid) {
    id in s.docs && s.docs[id].identity.owner == OK.Policy(policy) && !s.docs[id].archived
  }

  ghost predicate PoliciesOk(s: State) {
    && (forall id :: id in s.docs && s.docs[id].identity.owner.Policy? ==>
          && s.docs[id].identity.owner.id in s.policies
          && s.policies[s.docs[id].identity.owner.id].workspaceId == s.docs[id].workspaceId)
    && (forall a, b, policy :: CurrentFor(s, a, policy) && CurrentFor(s, b, policy) ==> a == b)
  }

  /** Policies stay, in their workspace. */
  ghost predicate PoliciesKept(s: State, t: State) {
    forall p :: p in s.policies ==> p in t.policies && t.policies[p].workspaceId == s.policies[p].workspaceId
  }

  lemma ApiPolicies(s: State, l: Label)
    requires RequestOf(l).None? && !IsQueueLabel(l) && !l.CreateDocument?
    ensures PoliciesKept(s, NextApi(s, l)) && NextApi(s, l).docs.Keys == s.docs.Keys
  {
    if l.ArchiveDocument? {
      assert NextApi(s, l) == ArchiveDocumentStep(s, l.document);
      ArchivedDocument(s, l.document);
    } else {
      PolicyOrUploadIsCalm(s, l);
      PolicyTable(s, l);
    }
  }

  lemma ArchivedDocument(s: State, id: Uuid)
    ensures var t := ArchiveDocumentStep(s, id); t.policies == s.policies && t.docs.Keys == s.docs.Keys
  {}

  lemma PolicyTable(s: State, l: Label)
    requires l.CreatePolicy? || l.ArchivePolicy? || l.Upload? || l.DiscardUpload?
    ensures PoliciesKept(s, NextApi(s, l))
  {
    if l.CreatePolicy? {
      assert NextApi(s, l) == CreatePolicyStep(s, l.policy, l.workspace);
      CreatedPolicy(s, l.policy, l.workspace);
    } else if l.ArchivePolicy? {
      assert NextApi(s, l) == ArchivePolicyStep(s, l.policy);
      ArchivedPolicy(s, l.policy);
    } else {
      assert NextApi(s, l).policies == s.policies;
    }
  }

  lemma CreatedPolicy(s: State, policy: Uuid, workspace: Uuid)
    ensures PoliciesKept(s, CreatePolicyStep(s, policy, workspace))
  {}

  lemma ArchivedPolicy(s: State, policy: Uuid)
    ensures PoliciesKept(s, ArchivePolicyStep(s, policy))
  {
    var t := ArchivePolicyStep(s, policy);
    if policy in s.policies {
      assert t == s || t == s.(policies := s.policies[policy := s.policies[policy].(archived := true)]);
    }
  }

  lemma WrittenKeys(s: State, stage: Stage, l: Label)
    ensures WrittenDocs(s, stage, l).Keys == s.docs.Keys
  {
    if stage.ScanDecided? {
      ScanCommandIsCalm(s, stage.work, stage.result);
    } else if stage.FinalizeVerified? {
      FinalizeCommandIsCalm(s, stage.work, stage.finalKey);
    }
  }

  lemma TurnPolicies(env: Env, s: State, r: nat, l: Label)
    requires RequestOf(l) == Some(r)
    ensures Next(env, s, l).policies == s.policies && Next(env, s, l).docs.Keys == s.docs.Keys
  {
    TurnIsNext(env, s, r, l);
    if r in s.requests {
      TurnIsCalm(env, s, r, s.requests[r], l);
      WrittenKeys(s, s.requests[r].stage, l);
    }
  }

  lemma QueuePolicies(env: Env, s: State, l: Label)
    requires IsQueueLabel(l)
    ensures Next(env, s, l).policies == s.policies && Next(env, s, l).docs == s.docs
  {
    QueueHasEffect(env, s, l);
  }

  /** Only the create command adds documents. */
  lemma PoliciesAfter(env: Env, s: State, l: Label)
    requires !l.CreateDocument?
    ensures PoliciesKept(s, Next(env, s, l)) && Next(env, s, l).docs.Keys == s.docs.Keys
  {
    var o := RequestOf(l);
    if o.Some? {
      TurnPolicies(env, s, o.value, l);
    } else if IsQueueLabel(l) {
      QueuePolicies(env, s, l);
    } else {
      assert Next(env, s, l) == NextApi(s, l);
      ApiPolicies(s, l);
    }
  }

  lemma KeptOk(s: State, t: State)
    requires PoliciesOk(s) && PoliciesKept(s, t) && t.docs.Keys == s.docs.Keys && DocsEvolve(s, t)
    requires s.docs.Keys <= s.origin.Keys
    ensures PoliciesOk(t)
  {
    forall a, b, policy | CurrentFor(t, a, policy) && CurrentFor(t, b, policy) ensures a == b {
      assert DataEvolves(s.docs[a], t.docs[a]) && DataEvolves(s.docs[b], t.docs[b]);
      assert CurrentFor(s, a, policy) && CurrentFor(s, b, policy);
    }
  }

  // ---------- creating ----------

  /** The policy is live in this workspace and has no current document there. */
  ghost predicate Accepts(s: State, policy: Uuid, workspace: Uuid) {
    && policy in s.policies && s.policies[policy].workspaceId == workspace && !s.policies[policy].archived
    && forall id :: CurrentFor(s, id, policy) ==> s.docs[id].workspaceId != workspace
  }

  /** When a document is created, exactly, and what then is in the tables. */
  lemma CreatesExactly(env: Env, s: State, l: Label)
    requires l.CreateDocument?
    ensures var t := Next(env, s, l);
      var (id, owner) := (l.identity.documentId, l.identity.owner);
      && t.policies == s.policies
      && (t != s <==>
          && id !in s.docs && l.payload.owner == owner && l.payload.contentLength >= 0
          && (owner.Policy? ==> Accepts(s, owner.id, l.workspace)))
      && (t != s ==>
            && t.docs == s.docs[id := DocumentData(l.identity, l.workspace, l.user, l.payload.filename,
                                                   l.payload.contentType, l.payload.contentLength, l.payload.objectKey,
                                                   l.payload.checksumSha256, l.payload.checksumCrc32c, PendingUpload,
                                                   false, l.at)]
            && t.appended == s.appended + [ScanRequested(l.identity, l.payload.objectKey)]
            && t.outbox == s.outbox + {|s.appended|})
  {
    var t := CreateDocumentStep(s, l.identity, l.workspace, l.user, l.payload, l.at);
    assert Next(env, s, l) == t;
    EligibleIff(s, l.identity.owner, l.workspace);
    var created := CreateData(l.identity, l.workspace, l.user, l.payload, l.at);
    if l.identity.documentId !in s.docs && Eligible(s, l.identity.owner, l.workspace) && created.Ok? {
      var d := created.value.0;
      var u := s.(docs := s.docs[l.identity.documentId := d], origin := s.origin[l.identity.documentId := d.objectKey]);
      assert t == AppendEvent(u, created.value.1.event);
      RowAppended(u, created.value.1.event.value);
      assert |t.appended| == |s.appended| + 1;
    }
  }

  lemma EligibleIff(s: State, owner: OK.Owner, workspace: Uuid)
    ensures Eligible(s, owner, workspace) <==> (owner.Policy? ==> Accepts(s, owner.id, workspace))
  {
    if owner.Policy? && HasCurrentDocument(s, owner.id, workspace) {
      var id :| id in s.docs && s.docs[id].identity.owner == OK.Policy(owner.id) && s.docs[id].workspaceId == workspace
                && !s.docs[id].archived;
      assert CurrentFor(s, id, owner.id);
    }
  }

  lemma CreationKeeps(env: Env, s: State, l: Label)
    requires PoliciesOk(s) && l.CreateDocument?
    ensures PoliciesOk(Next(env, s, l))
  {
    CreatesExactly(env, s, l);
    var t := Next(env, s, l);
    if t != s {
      forall a, b, policy | CurrentFor(t, a, policy) && CurrentFor(t, b, policy) ensures a == b {
        assert a != l.identity.documentId ==> CurrentFor(s, a, policy);
        assert b != l.identity.documentId ==> CurrentFor(s, b, policy);
      }
    }
  }

  // ---------- every run ----------

  lemma {:induction false} PolicyRunKeeps(env: Env, s: State, labels: seq<Label>)
    requires TellsApart(env) && Inv(env, s) && PoliciesOk(s)
    ensures PoliciesOk(Run(env, s, labels))
    decreases |labels|
  {
    if labels != [] {
      var t := Next(env, s, labels[0]);
      NextKeeps(env, s, labels[0]);
      if labels[0].CreateDocument? {
        CreationKeeps(env, s, labels[0]);
      } else {
        PoliciesAfter(env, s, labels[0]);
        KeptOk(s, t);
      }
      PolicyRunKeeps(env, t, labels[1..]);
    }
  }

  lemma ReachablePolicies(env: Env, s: State)
    requires Faithful(env) && Reachable(env, s)
    ensures PoliciesOk(s)
  {
    var labels :| s == Run(env, INITIAL, labels);
    FaithfulTellsApart(env);
    InitiallyInOrder(env);
    PolicyRunKeeps(env, INITIAL, labels);
  }

  /** In every reachable state a policy has at most one document that is not archived. */
  lemma OneCurrentDocument(env: Env, s: State, a: Uuid, b: Uuid, policy: Uuid)
    requires Faithful(env) && Reachable(env, s) && CurrentFor(s, a, policy) && CurrentFor(s, b, policy)
    ensures a == b
  {
    ReachablePolicies(env, s);
  }

  /** Hence a live policy takes a new document exactly when it has no current one, wherever. */
  lemma PolicyTakesDocumentIff(env: Env, s: State, l: Label, policy: Uuid)
    requires Faithful(env) && Reachable(env, s) && l.CreateDocument? && l.identity.owner == OK.Policy(policy)
    requires l.identity.documentId !in s.docs && l.payload.owner == l.identity.owner && l.payload.contentLength >= 0
    requires policy in s.policies && s.policies[policy] == PolicyRow(l.workspace, false)
    ensures l.identity.documentId in Next(env, s, l).docs <==> forall id :: !CurrentFor(s, id, policy)
  {
    ReachablePolicies(env, s);
    CreatesExactly(env, s, l);
  }

  // ---------- the other calls ----------

  /** A policy is created live in its workspace, once. */
  lemma CreatesPolicyExactly(env: Env, s: State, policy: Uuid, workspace: Uuid)
    ensures policy in s.policies ==> Next(env, s, CreatePolicy(policy, workspace)) == s
    ensures policy !in s.policies ==>
      Next(env, s, CreatePolicy(policy, workspace)) ==
      s.(policies := s.policies[policy := PolicyRow(workspace, false)])
  {
    var l := CreatePolicy(policy, workspace);
    assert Next(env, s, l) == NextApi(s, l) == CreatePolicyStep(s, policy, workspace);
  }

  /** An upload is staged under a fresh key. */
  lemma StagesExactly(env: Env, s: State, key: string, stored: StoredObject)
    ensures key in s.written ==> Next(env, s, Upload(key, stored)) == s
    ensures key !in s.written ==>
      Next(env, s, Upload(key, stored)) ==
      s.(quarantine := s.quarantine[key := stored], written := s.written[key := stored])
  {
    var l := Upload(key, stored);
    assert Next(env, s, l) == NextApi(s, l) == UploadStep(s, key, stored);
  }

  /** Discarding an upload removes it from the quarantine alone. */
  lemma DiscardsExactly(env: Env, s: State, key: string)
    ensures Next(env, s, DiscardUpload(key)) == s.(quarantine := s.quarantine - {key})
  {
    assert RequestOf(DiscardUpload(key)).None? && !IsQueueLabel(DiscardUpload(key));
  }

  lemma ListedOnce(env: Env, s: State, row: nat)
    requires row in s.outbox
    ensures Next(env, s, List(row)) == s.(listed := s.listed + multiset{row})
  {
    assert Next(env, s, List(row)) == ListStep(s, row);
  }

  lemma UnlistedOnce(env: Env, s: State, row: nat)
    requires row in s.listed
    ensures Next(env, s, Unlist(row)) == s.(listed := s.listed - multiset{row})
  {
    assert Next(env, s, Unlist(row)) == UnlistStep(s, row);
  }

  /** Reading a row and giving up on it leaves no trace. */
  lemma UnlistUndoesList(env: Env, s: State, row: nat)
    requires row in s.outbox
    ensures Next(env, Next(env, s, List(row)), Unlist(row)) == s
  {
    ListedOnce(env, s, row);
    UnlistedOnce(env, Next(env, s, List(row)), row);
    assert s.listed + multiset{row} - multiset{row} == s.listed;
  }

  /** A crash ends its request and nothing else. */
  lemma CrashEndsRequest(env: Env, s: State, r: nat)
    ensures Next(env, s, Crash(r)) == s.(requests := s.requests - {r})
  {
    assert Next(env, s, Crash(r)) == NextQueue(env, s, Crash(r)) == Drop(s, r);
  }

  // ---------- archiving ----------

  /** A policy is archived exactly when none of its documents is in progress. */
  lemma ArchivesPolicyIff(env: Env, s: State, policy: Uuid)
    requires Faithful(env) && Reachable(env, s) && policy in s.policies && !s.policies[policy].archived
    ensures var t := Next(env, s, ArchivePolicy(policy));
      && policy in t.policies && t.docs == s.docs
      && (t.policies[policy].archived <==> forall id :: CurrentFor(s, id, policy) ==> !InProgress(s.docs[id].status))
  {
    var row := s.policies[policy].(archived := true);
    assert Next(env, s, ArchivePolicy(policy)) == ArchivePolicyStep(s, policy);
    assert ArchivePolicyStep(s, policy) == if DocumentInProgress(s, policy, s.policies[policy].workspaceId) then s
      else s.(policies := s.policies[policy := row]);
    ReachablePolicies(env, s);
    InProgressIff(s, policy);
  }

  lemma InProgressIff(s: State, policy: Uuid)
    requires policy in s.policies && PoliciesOk(s)
    ensures DocumentInProgress(s, policy, s.policies[policy].workspaceId) <==>
      exists id :: CurrentFor(s, id, policy) && InProgress(s.docs[id].status)
  {
    if exists id :: CurrentFor(s, id, policy) && InProgress(s.docs[id].status) {
      var id :| CurrentFor(s, id, policy) && InProgress(s.docs[id].status);
      assert DocumentInProgress(s, policy, s.policies[policy].workspaceId);
    }
  }

  /** A document is archived exactly when it has a verdict or is uploaded; nothing else about it changes. */
  lemma ArchivesDocumentIff(env: Env, s: State, id: Uuid)
    requires id in s.docs
    ensures var t := Next(env, s, ArchiveDocument(id));
      && id in t.docs && t.docs == s.docs[id := s.docs[id].(archived := t.docs[id].archived)]
      && (t.docs[id].archived <==>
          s.docs[id].archived || s.docs[id].status in {Uploaded, ContainsVirus, FailedUpload})
  {
    assert Next(env, s, ArchiveDocument(id)) == ArchiveDocumentStep(s, id);
  }
}
