/** Agent evidence upload grants: the one-shot aggregate, and the token that carries the authority to use it. */
module UploadGrants {
  import opened Wrappers
  import opened Text
  import opened Json
  import opened Uuids
  import opened Clock
  import P = Paseto

  datatype Lifecycle = Pending | Completed(documentId: Uuid, completedAt: Time)

  datatype Grant = Grant(
    id: Uuid, submissionId: Uuid, workspaceId: Uuid, evidenceId: Uuid, issuedByUserId: Uuid,
    issuedViaAgentConnectionId: Uuid, issuedAt: Time, expiresAt: Time, lifecycle: Lifecycle)

  datatype Error = InvalidIssuance | InvalidRehydration | AuthorityMismatch | Expired | AlreadyCompleted
    | InvalidCompletion

  datatype Authority = Authority(
    uploadId: Uuid, workspaceId: Uuid, evidenceId: Uuid, submissionId: Uuid, issuedByUserId: Uuid,
    issuedViaAgentConnectionId: Uuid, expiresAt: Time)

  // ---------- the aggregate on data ----------

  function IssueData(g: Grant): Result<Grant, Error> {
    if g.expiresAt <= g.issuedAt then Err(InvalidIssuance) else Ok(g.(lifecycle := Pending))
  }

  function RehydrateData(g: Grant, completedAt: Option<Time>, documentId: Option<Uuid>): Result<Grant, Error> {
    match IssueData(g)
    case Err(_) => Err(InvalidRehydration)
    case Ok(fresh_) =>
      match (completedAt, documentId)
      case (None, None) => Ok(fresh_)
      case (Some(at), Some(document)) =>
        if g.issuedAt <= at < g.expiresAt then Ok(fresh_.(lifecycle := Completed(document, at)))
          else Err(InvalidRehydration)
      case _ => Err(InvalidRehydration)
  }

  function CompletedAt(g: Grant): Option<Time> {
    if g.lifecycle.Completed? then Some(g.lifecycle.completedAt) else None
  }

  function DocumentId(g: Grant): Option<Uuid> {
    if g.lifecycle.Completed? then Some(g.lifecycle.documentId) else None
  }

  function CompleteData(g: Grant, document: Uuid, at: Time): (Grant, Result<(), Error>) {
    if at >= g.expiresAt then (g, Err(Expired))
    else if g.lifecycle.Completed? then (g, Err(AlreadyCompleted))
    else if at < g.issuedAt then (g, Err(InvalidCompletion))
    else (g.(lifecycle := Completed(document, at)), Ok(()))
  }

  function MatchesAuthority(g: Grant, a: Authority): Result<(), Error> {
    if g.id == a.uploadId && g.workspaceId == a.workspaceId && g.evidenceId == a.evidenceId
      && g.submissionId == a.submissionId
       && g.issuedByUserId == a.issuedByUserId && g.issuedViaAgentConnectionId == a.issuedViaAgentConnectionId
       && g.expiresAt == a.expiresAt
    then Ok(()) else Err(AuthorityMismatch)
  }

  /** An authority fits a grant exactly when all seven of their common parts are equal. */
  lemma FitsExactly(g: Grant, a: Authority)
    ensures MatchesAuthority(g, a) == Ok(()) <==>
      a == Authority(g.id, g.workspaceId, g.evidenceId, g.submissionId, g.issuedByUserId, g.issuedViaAgentConnectionId,
                     g.expiresAt)
    ensures MatchesAuthority(g, a).Err? ==> MatchesAuthority(g, a) == Err(AuthorityMismatch)
  {}

  // ---------- every run ----------

  datatype Call = Call(document: Uuid, at: Time)

  function Run(g: Grant, calls: seq<Call>): Grant
    decreases |calls|
  {
    if calls == [] then g else Run(CompleteData(g, calls[0].document, calls[0].at).0, calls[1..])
  }

  /** How many of the calls succeed. */
  function Successes(g: Grant, calls: seq<Call>): nat
    decreases |calls|
  {
    if calls == [] then 0
    else
      var (next, r) := CompleteData(g, calls[0].document, calls[0].at);
      (if r.Ok? then 1 else 0) + Successes(next, calls[1..])
  }

  /** Completed inside the window of issue and expiry, or not at all. */
  predicate WellTimed(g: Grant) {
    g.issuedAt < g.expiresAt && (g.lifecycle.Completed? ==> g.issuedAt <= g.lifecycle.completedAt < g.expiresAt)
  }

  /** A grant completes at most once, only inside its window, and then never changes again. */
  lemma {:induction false} CompletesAtMostOnce(g: Grant, calls: seq<Call>)
    requires WellTimed(g)
    ensures var t := Run(g, calls);
      && WellTimed(t) && t == g.(lifecycle := t.lifecycle)
      && (g.lifecycle.Completed? ==> t == g && Successes(g, calls) == 0)
      && (g.lifecycle.Pending? ==> Successes(g, calls) == if t.lifecycle.Completed? then 1 else 0)
    decreases |calls|
  {
    if calls != [] {
      CompletesAtMostOnce(CompleteData(g, calls[0].document, calls[0].at).0, calls[1..]);
    }
  }

  /** Rehydrating the fields of any reachable grant gives that grant: no assumption about the clock is needed. */
  lemma SnapshotClosed(issued: Grant, calls: seq<Call>)
    requires IssueData(issued).Ok?
    ensures var g := Run(IssueData(issued).value, calls); RehydrateData(g, CompletedAt(g), DocumentId(g)) == Ok(g)
  {
    CompletesAtMostOnce(IssueData(issued).value, calls);
  }

  /** Rehydration accepts nothing else. */
  lemma RehydratedIsWellTimed(g: Grant, completedAt: Option<Time>, documentId: Option<Uuid>)
    requires RehydrateData(g, completedAt, documentId).Ok?
    ensures var r := RehydrateData(g, completedAt, documentId).value;
      WellTimed(r) && CompletedAt(r) == completedAt && DocumentId(r) == documentId
  {}

  // ---------- the token ----------

  const VERSION := 1

  const FIELDS := ["version", "upload_id", "workspace_id", "evidence_id", "submission_id", "issued_by_user_id",
                   "issued_via_agent_connection_id"]

  function ValuesOf(g: Grant): seq<Json> {
    [Num(VERSION), Str(Format(g.id)), Str(Format(g.workspaceId)), Str(Format(g.evidenceId)),
     Str(Format(g.submissionId)),
     Str(Format(g.issuedByUserId)), Str(Format(g.issuedViaAgentConnectionId))]
  }

  function ClaimsOf(g: Grant): P.Claims {
    Zip(FIELDS, ValuesOf(g))
  }

  function RegisteredOf(g: Grant): P.RegisteredClaims {
    P.RegisteredClaims(g.issuedByUserId, g.id, g.expiresAt)
  }

  function UuidField(claims: P.Claims, name: string): Option<Uuid> {
    AsUuid(Lookup(claims, name))
  }

  /** Read the claims and check them against the registered ones. */
  function AuthorityOf(token: P.VerifiedToken): Option<Authority> {
    var c := token.claims;
    if AsInt(Lookup(c, "version"), 0, 255) != Some(VERSION) then None
    else
      match (UuidField(c, "upload_id"), UuidField(c, "issued_by_user_id"))
      case (Some(uploadId), Some(issuedBy)) =>
        if uploadId != token.tokenId || issuedBy != token.subject then None
        else
          (match (UuidField(c, "workspace_id"), UuidField(c, "evidence_id"), UuidField(c, "submission_id"),
                  UuidField(c, "issued_via_agent_connection_id"))
           case (Some(workspace), Some(evidence), Some(submission), Some(via)) =>
             Some(Authority(uploadId, workspace, evidence, submission, issuedBy, via, token.expiresAt))
           case _ => None)
      case _ => None
  }

  /**
    What is read from a verified token: all of it, and only if the claims agree with the token about id and subject.
   */
  lemma ReadsExactly(token: P.VerifiedToken, a: Authority)
    ensures AuthorityOf(token) == Some(a) <==>
      && AsInt(Lookup(token.claims, "version"), 0, 255) == Some(1)
      && UuidField(token.claims, "upload_id") == Some(a.uploadId) && a.uploadId == token.tokenId
      && UuidField(token.claims, "issued_by_user_id") == Some(a.issuedByUserId) && a.issuedByUserId == token.subject
      && UuidField(token.claims, "workspace_id") == Some(a.workspaceId)
      && UuidField(token.claims, "evidence_id") == Some(a.evidenceId)
      && UuidField(token.claims, "submission_id") == Some(a.submissionId)
      && UuidField(token.claims, "issued_via_agent_connection_id") == Some(a.issuedViaAgentConnectionId)
      && a.expiresAt == token.expiresAt
  {}

  function AuthorityIn(g: Grant, expiresAt: Time): Authority {
    Authority(g.id, g.workspaceId, g.evidenceId, g.submissionId, g.issuedByUserId, g.issuedViaAgentConnectionId,
              expiresAt)
  }

  lemma FieldNamesDiffer()
    ensures forall i, j :: 0 <= i < j < |FIELDS| ==> FIELDS[i] != FIELDS[j]
  {
    assert |FIELDS[0]| == 7 && |FIELDS[1]| == 9 && |FIELDS[2]| == 12 && |FIELDS[3]| == 11 && |FIELDS[4]| == 13;
    assert |FIELDS[5]| == 17 && |FIELDS[6]| == 30;
  }

  lemma FieldReadsBack(g: Grant, i: nat, id: Uuid)
    requires 0 < i < |FIELDS| && ValuesOf(g)[i] == Str(Format(id))
    ensures UuidField(ClaimsOf(g), FIELDS[i]) == Some(id)
  {
    FieldNamesDiffer();
    ZipLookup(FIELDS, ValuesOf(g), i);
    ParseFormat(id);
  }

  lemma ClaimsReadBack(g: Grant)
    ensures var c := ClaimsOf(g);
      && AsInt(Lookup(c, FIELDS[0]), 0, 255) == Some(VERSION)
      && UuidField(c, FIELDS[1]) == Some(g.id) && UuidField(c, FIELDS[2]) == Some(g.workspaceId)
      && UuidField(c, FIELDS[3]) == Some(g.evidenceId) && UuidField(c, FIELDS[4]) == Some(g.submissionId)
      && UuidField(c, FIELDS[5]) == Some(g.issuedByUserId)
        && UuidField(c, FIELDS[6]) == Some(g.issuedViaAgentConnectionId)
  {
    FieldNamesDiffer();
    ZipLookup(FIELDS, ValuesOf(g), 0);
    FieldReadsBack(g, 1, g.id);
    FieldReadsBack(g, 2, g.workspaceId);
    FieldReadsBack(g, 3, g.evidenceId);
    FieldReadsBack(g, 4, g.submissionId);
    FieldReadsBack(g, 5, g.issuedByUserId);
    FieldReadsBack(g, 6, g.issuedViaAgentConnectionId);
  }

  lemma ClaimsGiveAuthority(g: Grant, keyId: string, expiresAt: Time)
    ensures AuthorityOf(P.VerifiedToken(g.issuedByUserId, g.id, keyId, expiresAt, ClaimsOf(g)))
      == Some(AuthorityIn(g, expiresAt))
  {
    ClaimsReadBack(g);
  }

  lemma ClaimsPackable(g: Grant, at: Time)
    requires at < g.expiresAt
    ensures P.Packable(RegisteredOf(g), Obj(ClaimsOf(g)), at)
  {
    forall i | 0 <= i < |P.REGISTERED| ensures P.REGISTERED[i] !in ClaimsOf(g) {
      ShortNameIsNoField(g, P.REGISTERED[i]);
    }
  }

  lemma {:induction false} ZipReadsBack(names: seq<string>, items: seq<Json>, depth: nat)
    requires |names| == |items| && forall i :: 0 <= i < |items| ==> ReadsBack(items[i], depth)
    ensures ReadsBack(Obj(Zip(names, items)), depth + 1)
    decreases |names|
  {
    if names != [] {
      ZipReadsBack(names[1..], items[1..], depth);
    }
  }

  /** The claims of a grant are a small number and strings: the JSON reader returns them as they were. */
  lemma GrantClaimsReadBack(g: Grant)
    ensures P.ClaimsReadBack(ClaimsOf(g))
  {
    ZipReadsBack(FIELDS, ValuesOf(g), P.READER_DEPTH - 1);
  }

  lemma ShortNameIsNoField(g: Grant, k: string)
    requires |k| == 3
    ensures k !in ClaimsOf(g)
  {
    assert forall i :: 0 <= i < |FIELDS| ==> |FIELDS[i]| > 3;
    if k in ClaimsOf(g) {
      ZipKeys(FIELDS, ValuesOf(g), k);
    }
  }

  /**
    What a token issued for a grant comes back as: the grant's own authority, except that its expiry was
    floored to whole seconds.
   */
  lemma TokenCarriesAuthority<K(!new)>(
      f: P.Foreign<K>, e: P.Encryptor<K>, d: P.Decryptor<K>, assertion: string, g: Grant, at: Time, nonce: nat,
        now: Time)
    requires P.Lawful(f) && P.Writable(at) && P.Writable(g.expiresAt) && at <= now < WholeSecond(g.expiresAt)
    requires e.issuer == d.issuer != "" && e.audience == d.audience != "" && !IsBlank(e.keyId)
    requires e.keyId in d.keys && d.keys[e.keyId] == e.secretKey
    ensures var issued := P.Encrypt(f, e, assertion, RegisteredOf(g), Obj(ClaimsOf(g)), at, nonce);
      && issued.Ok? && issued.value.expiresAt == WholeSecond(g.expiresAt)
      && var verified := P.Decrypt(f, d, assertion, issued.value.token, now);
      && verified.Ok? && AuthorityOf(verified.value) == Some(AuthorityIn(g, WholeSecond(g.expiresAt)))
  {
    ClaimsPackable(g, at);
    GrantClaimsReadBack(g);
    P.TokenUnderRing(f, e, d, assertion, RegisteredOf(g), Obj(ClaimsOf(g)), at, nonce, now);
    ClaimsGiveAuthority(g, e.keyId, WholeSecond(g.expiresAt));
  }

  /**
    The recovered authority fits the grant exactly when the grant expires on a whole second, fits no grant with
    another id, and always fits the grant that is stored with the expiry that issuing reported.
   */
  lemma TokenBindsGrant<K(!new)>(
      f: P.Foreign<K>, e: P.Encryptor<K>, d: P.Decryptor<K>, assertion: string, g: Grant, at: Time, nonce: nat,
        now: Time)
    requires P.Lawful(f) && P.Writable(at) && P.Writable(g.expiresAt) && at <= now < WholeSecond(g.expiresAt)
    requires e.issuer == d.issuer != "" && e.audience == d.audience != "" && !IsBlank(e.keyId)
    requires e.keyId in d.keys && d.keys[e.keyId] == e.secretKey
    ensures var issued := P.Encrypt(f, e, assertion, RegisteredOf(g), Obj(ClaimsOf(g)), at, nonce);
      && issued.Ok?
      && var verified := P.Decrypt(f, d, assertion, issued.value.token, now);
      && verified.Ok? && AuthorityOf(verified.value).Some?
      && var authority := AuthorityOf(verified.value).value;
      && (MatchesAuthority(g, authority).Ok? <==> g.expiresAt % SECOND == 0)
      && (forall other: Grant :: other.id != g.id ==> MatchesAuthority(other, authority) == Err(AuthorityMismatch))
      && MatchesAuthority(g.(expiresAt := issued.value.expiresAt), authority) == Ok(())
  {
    TokenCarriesAuthority(f, e, d, assertion, g, at, nonce, now);
    AuthorityFits(g);
  }

  lemma AuthorityFits(g: Grant)
    ensures var authority := AuthorityIn(g, WholeSecond(g.expiresAt));
      && (MatchesAuthority(g, authority).Ok? <==> g.expiresAt % SECOND == 0)
      && (forall other: Grant :: other.id != g.id ==> MatchesAuthority(other, authority) == Err(AuthorityMismatch))
      && MatchesAuthority(g.(expiresAt := WholeSecond(g.expiresAt)), authority) == Ok(())
  {}

  // ---------- the object ----------

  class AgentEvidenceUploadGrant {
    const id: Uuid
    const submissionId: Uuid
    const workspaceId: Uuid
    const evidenceId: Uuid
    const issuedByUserId: Uuid
    const issuedViaAgentConnectionId: Uuid
    const issuedAt: Time
    const expiresAt: Time
    var lifecycle: Lifecycle

    function Data(): Grant
      reads this
    {
      Grant(id, submissionId, workspaceId, evidenceId, issuedByUserId, issuedViaAgentConnectionId, issuedAt, expiresAt,
            lifecycle)
    }

    constructor From(g: Grant)
      ensures Data() == g
    {
      id, submissionId, workspaceId, evidenceId := g.id, g.submissionId, g.workspaceId, g.evidenceId;
      issuedByUserId, issuedViaAgentConnectionId := g.issuedByUserId, g.issuedViaAgentConnectionId;
      issuedAt, expiresAt, lifecycle := g.issuedAt, g.expiresAt, g.lifecycle;
    }

    static method Rehydrate(g: Grant, completedAt: Option<Time>, documentId: Option<Uuid>)
      returns (r: Result<AgentEvidenceUploadGrant, Error>)
      ensures match RehydrateData(g, completedAt, documentId)
              case Err(e) => r == Err(e)
              case Ok(h) => r.Ok? && fresh(r.value) && r.value.Data() == h
      ensures r.Ok? <==>
        && g.issuedAt < g.expiresAt && (completedAt.Some? <==> documentId.Some?)
        && (completedAt.Some? ==> g.issuedAt <= completedAt.value < g.expiresAt)
      ensures r.Ok? ==>
        r.value.Data() == g.(lifecycle := if completedAt.None? then Pending
                                          else Completed(documentId.value, completedAt.value))
    {
      if g.expiresAt <= g.issuedAt {
        return Err(InvalidRehydration);
      }
      var grant := new AgentEvidenceUploadGrant.From(g.(lifecycle := Pending));
      r := Ok(grant);
      match (completedAt, documentId)
      case (None, None) =>
      case (Some(at), Some(document)) =>
        if !(g.issuedAt <= at < g.expiresAt) {
          return Err(InvalidRehydration);
        }
        grant.lifecycle := Completed(document, at);
      case _ => r := Err(InvalidRehydration);
    }

    method EnsurePendingAt(now: Time) returns (r: Result<(), Error>)
      ensures r == if now >= expiresAt then Err(Expired) else if lifecycle.Completed? then Err(AlreadyCompleted)
        else Ok(())
    {
      if now >= expiresAt {
        return Err(Expired);
      }
      r := if lifecycle.Completed? then Err(AlreadyCompleted) else Ok(());
    }

    method Complete(document: Uuid, at: Time) returns (r: Result<(), Error>)
      modifies this
      ensures (Data(), r) == CompleteData(old(Data()), document, at)
      ensures r.Ok? <==> old(lifecycle).Pending? && issuedAt <= at < expiresAt
      ensures r == Err(Expired) <==> expiresAt <= at
      ensures r == Err(AlreadyCompleted) <==> at < expiresAt && old(lifecycle).Completed?
      ensures Data() == if r.Ok? then old(Data()).(lifecycle := Completed(document, at)) else old(Data())
    {
      r := EnsurePendingAt(at);
      if r.Err? {
        return;
      }
      if at < issuedAt {
        return Err(InvalidCompletion);
      }
      lifecycle := Completed(document, at);
    }
  }
}
