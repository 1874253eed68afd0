/** One OAuth authorization flow (sections 4.1.2 and 4.1.3 of RFC 6749): request, consent, code, single use. */
module OAuthFlow {
  import opened ByteStrings
  import opened Wrappers
  import opened Uuids
  import opened Clock

  datatype Code = Code(
    digest: Bytes, agentConnectionId: Uuid, workspaceId: Uuid, expiresAt: Time, consumedAt: Option<Time>,
    createdAt: Time)

  datatype Flow = Flow(
    id: Uuid, clientId: string, clientName: string, redirectUri: string, codeChallenge: string, state: string,
    resource: string, scopes: seq<string>, csrfDigest: Bytes, auth0Subject: Option<string>, userId: Option<Uuid>,
    expiresAt: Time, createdAt: Time,
    consumedAt: Option<Time>, code: Option<Code>)

  datatype Error = Unavailable | InvalidCreation | InvalidRehydration

  // ---------- transitions on data ----------

  /** `f` carries the request's fields; whatever it holds of a later stage is dropped. */
  function RequestData(f: Flow): Result<Flow, Error> {
    if f.expiresAt <= f.createdAt || f.clientId == "" || f.redirectUri == "" || f.codeChallenge == ""
      || f.resource == "" || f.scopes == []
    then Err(InvalidCreation)
    else Ok(f.(auth0Subject := None, userId := None, consumedAt := None, code := None))
  }

  function RehydrateCode(c: Code): Result<Code, Error> {
    if c.expiresAt <= c.createdAt || (c.consumedAt.Some? && !(c.createdAt <= c.consumedAt.value < c.expiresAt))
    then Err(InvalidRehydration) else Ok(c)
  }

  function RehydrateData(f: Flow): Result<Flow, Error> {
    match RequestData(f)
    case Err(_) => Err(InvalidRehydration)
    case Ok(requested) =>
      if f.code.Some? && RehydrateCode(f.code.value).Err? then Err(InvalidRehydration)
      else if f.auth0Subject.Some? != f.userId.Some?
              || (f.consumedAt.Some? && !(f.createdAt <= f.consumedAt.value < f.expiresAt))
              || (f.code.Some? && f.consumedAt.None?)
      then Err(InvalidRehydration)
      else Ok(requested.(auth0Subject := f.auth0Subject, userId := f.userId, consumedAt := f.consumedAt,
                         code := f.code))
  }

  predicate AvailableAt(f: Flow, now: Time) {
    f.consumedAt.None? && f.createdAt <= now < f.expiresAt
  }

  function AttachData(f: Flow, subject: string, user: Uuid, now: Time): (Flow, Result<(), Error>) {
    if !AvailableAt(f, now) || f.auth0Subject.Some? || subject == "" then (f, Err(Unavailable))
    else (f.(auth0Subject := Some(subject), userId := Some(user)), Ok(()))
  }

  function CancelData(f: Flow, now: Time): (Flow, Result<(), Error>) {
    if !AvailableAt(f, now) || f.auth0Subject.None? || f.userId.None? then (f, Err(Unavailable))
    else (f.(consumedAt := Some(now)), Ok(()))
  }

  function ApproveData(f: Flow, digest: Bytes, connection: Uuid, workspace: Uuid, now: Time,
        codeExpiresAt: Time): (Flow, Result<(), Error>) {
    if !AvailableAt(f, now) || f.auth0Subject.None? || f.userId.None? || codeExpiresAt <= now then (f, Err(Unavailable))
    else (f.(consumedAt := Some(now), code := Some(Code(digest, connection, workspace, codeExpiresAt, None, now))),
          Ok(()))
  }

  function ConsumeData(f: Flow, clientId: string, redirectUri: string, now: Time): (Flow, Result<(), Error>) {
    if f.code.None? then (f, Err(Unavailable))
    else
      var c := f.code.value;
      if f.clientId != clientId || f.redirectUri != redirectUri || c.consumedAt.Some? || now < c.createdAt
        || now >= c.expiresAt
      then (f, Err(Unavailable))
      else (f.(code := Some(c.(consumedAt := Some(now)))), Ok(()))
  }

  // ---------- runs ----------

  datatype Step =
    | Attach(subject: string, user: Uuid, at: Time)
    | Cancel(at: Time)
    | Approve(digest: Bytes, connection: Uuid, workspace: Uuid, at: Time, codeExpiresAt: Time)
    | Consume(clientId: string, redirectUri: string, at: Time)

  function Apply(f: Flow, step: Step): (Flow, Result<(), Error>) {
    match step
    case Attach(subject, user, at) => AttachData(f, subject, user, at)
    case Cancel(at) => CancelData(f, at)
    case Approve(digest, connection, workspace, at, codeExpiresAt) =>
      ApproveData(f, digest, connection, workspace, at, codeExpiresAt)
    case Consume(clientId, redirectUri, at) => ConsumeData(f, clientId, redirectUri, at)
  }

  function Run(f: Flow, steps: seq<Step>): Flow
    decreases |steps|
  {
    if steps == [] then f else Run(Apply(f, steps[0]).0, steps[1..])
  }

  datatype Kind = Attaching | Cancelling | Approving | Consuming

  function KindOf(step: Step): Kind {
    match step
    case Attach(_, _, _) => Attaching
    case Cancel(_) => Cancelling
    case Approve(_, _, _, _, _) => Approving
    case Consume(_, _, _) => Consuming
  }

  /** How many steps of one kind succeed. */
  function Successes(f: Flow, steps: seq<Step>, kind: Kind): nat
    decreases |steps|
  {
    if steps == [] then 0
    else
      var (next, r) := Apply(f, steps[0]);
      (if r.Ok? && KindOf(steps[0]) == kind then 1 else 0) + Successes(next, steps[1..], kind)
  }

  /** The state already shows one success of this kind. */
  predicate Done(f: Flow, kind: Kind) {
    match kind
    case Attaching => f.auth0Subject.Some?
    case Cancelling => f.consumedAt.Some? && f.code.None?
    case Approving => f.code.Some?
    case Consuming => f.code.Some? && f.code.value.consumedAt.Some?
  }

  // ---------- invariant ----------

  predicate InWindow(f: Flow) {
    && f.createdAt < f.expiresAt && f.clientId != "" && f.redirectUri != "" && f.codeChallenge != "" && f.resource != ""
      && f.scopes != []
    && f.auth0Subject.Some? == f.userId.Some?
    && (f.consumedAt.Some? ==> f.createdAt <= f.consumedAt.value < f.expiresAt && f.auth0Subject.Some?)
    && (f.code.Some? ==>
          && f.consumedAt == Some(f.code.value.createdAt) && f.code.value.createdAt < f.code.value.expiresAt
          && (f.code.value.consumedAt.Some? ==>
              f.code.value.createdAt <= f.code.value.consumedAt.value < f.code.value.expiresAt))
  }

  /** What any number of steps leave alone. */
  predicate Evolves(f: Flow, g: Flow) {
    && g == f.(auth0Subject := g.auth0Subject, userId := g.userId, consumedAt := g.consumedAt, code := g.code)
    && (f.auth0Subject.Some? ==> g.auth0Subject == f.auth0Subject && g.userId == f.userId)
    && (f.consumedAt.Some? ==> g.consumedAt == f.consumedAt && (f.code.None? ==> g == f))
    && (f.code.Some? ==> g.code.Some? && g.code.value == f.code.value.(consumedAt := g.code.value.consumedAt))
    && (f.code.Some? && f.code.value.consumedAt.Some? ==> g == f)
  }

  lemma StepKeeps(f: Flow, step: Step)
    requires InWindow(f)
    ensures InWindow(Apply(f, step).0) && Evolves(f, Apply(f, step).0)
  {}

  lemma {:induction false} RunKeeps(f: Flow, steps: seq<Step>)
    requires InWindow(f)
    ensures InWindow(Run(f, steps)) && Evolves(f, Run(f, steps))
    decreases |steps|
  {
    if steps != [] {
      StepKeeps(f, steps[0]);
      RunKeeps(Apply(f, steps[0]).0, steps[1..]);
    }
  }

  lemma StepCounts(f: Flow, step: Step, kind: Kind)
    requires InWindow(f)
    ensures var (next, r) := Apply(f, step);
      (if Done(next, kind) then 1 else 0)
      == (if Done(f, kind) then 1 else 0) + if r.Ok? && KindOf(step) == kind then 1 else 0
  {}

  /** In every run each kind of step succeeds at most once, and the final state tells whether it did. */
  lemma {:induction false} EachSucceedsAtMostOnce(f: Flow, steps: seq<Step>, kind: Kind)
    requires InWindow(f)
    ensures (if Done(f, kind) then 1 else 0) + Successes(f, steps, kind) == if Done(Run(f, steps), kind) then 1 else 0
    decreases |steps|
  {
    if steps != [] {
      StepKeeps(f, steps[0]);
      StepCounts(f, steps[0], kind);
      EachSucceedsAtMostOnce(Apply(f, steps[0]).0, steps[1..], kind);
    }
  }

  // ---------- single use ----------

  lemma RequestedInWindow(request: Flow)
    requires RequestData(request).Ok?
    ensures InWindow(RequestData(request).value) && forall kind :: !Done(RequestData(request).value, kind)
  {}

  /**
    When a code can be redeemed, in any state a request can reach: exactly with the client id and redirect URI of
    the original request, inside the code's own lifetime, once. By then a subject is attached, the flow was
    approved, and it was not cancelled.
   */
  lemma ConsumeSucceedsExactlyWhen(request: Flow, steps: seq<Step>, clientId: string, redirectUri: string, now: Time)
    requires RequestData(request).Ok?
    ensures var f := Run(RequestData(request).value, steps);
      && (ConsumeData(f, clientId, redirectUri, now).1.Ok? <==>
            && Done(f, Approving) && !Done(f, Consuming) && clientId == request.clientId
              && redirectUri == request.redirectUri
            && f.code.value.createdAt <= now < f.code.value.expiresAt)
      && (Done(f, Approving) ==> Done(f, Attaching) && !Done(f, Cancelling))
  {
    RequestedInWindow(request);
    RunKeeps(RequestData(request).value, steps);
  }

  /** At most one subject, one code and one redemption over the whole life of a flow; cancelling excludes a code. */
  lemma SingleUse(request: Flow, steps: seq<Step>)
    requires RequestData(request).Ok?
    ensures var f := RequestData(request).value;
      && Successes(f, steps, Attaching) <= 1 && Successes(f, steps, Cancelling) + Successes(f, steps, Approving) <= 1
      && Successes(f, steps, Consuming) <= Successes(f, steps, Approving) <= Successes(f, steps, Attaching)
  {
    var f := RequestData(request).value;
    RequestedInWindow(request);
    RunKeeps(f, steps);
    EachSucceedsAtMostOnce(f, steps, Attaching);
    EachSucceedsAtMostOnce(f, steps, Cancelling);
    EachSucceedsAtMostOnce(f, steps, Approving);
    EachSucceedsAtMostOnce(f, steps, Consuming);
  }

  /** Which snapshots are accepted; they are taken as they are. */
  lemma RehydratesExactly(f: Flow)
    ensures RehydrateData(f).Ok? <==>
      && f.createdAt < f.expiresAt && f.clientId != "" && f.redirectUri != "" && f.codeChallenge != ""
      && f.resource != "" && f.scopes != [] && (f.auth0Subject.Some? <==> f.userId.Some?)
      && (f.consumedAt.Some? ==> f.createdAt <= f.consumedAt.value < f.expiresAt)
      && (f.code.Some? ==>
            && f.consumedAt.Some? && f.code.value.createdAt < f.code.value.expiresAt
            && (f.code.value.consumedAt.Some? ==>
                f.code.value.createdAt <= f.code.value.consumedAt.value < f.code.value.expiresAt))
    ensures RehydrateData(f).Ok? ==> RehydrateData(f).value == f
  {}

  /** Rehydrating the fields of any reachable flow gives that flow, whatever the clock did. */
  lemma SnapshotClosed(request: Flow, steps: seq<Step>)
    requires RequestData(request).Ok?
    ensures RehydrateData(Run(RequestData(request).value, steps)) == Ok(Run(RequestData(request).value, steps))
  {
    RequestedInWindow(request);
    RunKeeps(RequestData(request).value, steps);
  }

  // ---------- the object ----------

  class OAuthAuthorizationFlow {
    const base: Flow
    var auth0Subject: Option<string>
    var userId: Option<Uuid>
    var consumedAt: Option<Time>
    var authorizationCode: Option<Code>

    function Data(): Flow
      reads this
    {
      base.(auth0Subject := auth0Subject, userId := userId, consumedAt := consumedAt, code := authorizationCode)
    }

    constructor From(f: Flow)
      ensures Data() == f
    {
      base, auth0Subject, userId, consumedAt, authorizationCode := f, f.auth0Subject, f.userId, f.consumedAt, f.code;
    }

    method AttachSubject(subject: string, user: Uuid, now: Time) returns (r: Result<(), Error>)
      modifies this
      ensures (Data(), r) == AttachData(old(Data()), subject, user, now)
      ensures r.Ok? <==>
        old(consumedAt.None? && auth0Subject.None?) && base.createdAt <= now < base.expiresAt && subject != ""
      ensures Data() == if r.Ok? then old(Data()).(auth0Subject := Some(subject), userId := Some(user)) else old(Data())
    {
      if !AvailableAt(Data(), now) || auth0Subject.Some? || subject == "" {
        return Err(Unavailable);
      }
      auth0Subject := Some(subject);
      userId := Some(user);
      r := Ok(());
    }

    method Cancel(now: Time) returns (r: Result<(), Error>)
      modifies this
      ensures (Data(), r) == CancelData(old(Data()), now)
      ensures r.Ok? <==>
        old(consumedAt.None?) && base.createdAt <= now < base.expiresAt && auth0Subject.Some? && userId.Some?
      ensures Data() == if r.Ok? then old(Data()).(consumedAt := Some(now)) else old(Data())
    {
      if !AvailableAt(Data(), now) || auth0Subject.None? || userId.None? {
        return Err(Unavailable);
      }
      consumedAt := Some(now);
      r := Ok(());
    }

    method ApproveAndIssueCode(digest: Bytes, connection: Uuid, workspace: Uuid, now: Time, codeExpiresAt: Time)
      returns (r: Result<(), Error>)
      modifies this
      ensures (Data(), r) == ApproveData(old(Data()), digest, connection, workspace, now, codeExpiresAt)
      ensures r.Ok? <==>
        && old(consumedAt.None?) && base.createdAt <= now < base.expiresAt && auth0Subject.Some? && userId.Some?
        && now < codeExpiresAt
      ensures r.Err? ==> Data() == old(Data())
      ensures r.Ok? ==>
        && Data() == old(Data()).(consumedAt := Some(now), code := authorizationCode) && authorizationCode.Some?
        && var code := authorizationCode.value;
        && code.digest == digest && code.agentConnectionId == connection && code.workspaceId == workspace
        && code.createdAt == now && code.expiresAt == codeExpiresAt && code.consumedAt.None?
    {
      if !AvailableAt(Data(), now) || auth0Subject.None? || userId.None? || codeExpiresAt <= now {
        return Err(Unavailable);
      }
      consumedAt := Some(now);
      authorizationCode := Some(Code(digest, connection, workspace, codeExpiresAt, None, now));
      r := Ok(());
    }

    method ConsumeCode(clientId: string, redirectUri: string, now: Time) returns (r: Result<(), Error>)
      modifies this
      ensures (Data(), r) == ConsumeData(old(Data()), clientId, redirectUri, now)
      ensures r.Ok? <==>
        && old(authorizationCode).Some? && clientId == base.clientId && redirectUri == base.redirectUri
        && var code := old(authorizationCode).value;
           code.consumedAt.None? && code.createdAt <= now < code.expiresAt
      ensures Data() == if r.Ok? then old(Data()).(code := Some(old(authorizationCode).value.(consumedAt := Some(now))))
                        else old(Data())
    {
      if authorizationCode.None? {
        return Err(Unavailable);
      }
      var code := authorizationCode.value;
      if base.clientId != clientId || base.redirectUri != redirectUri || code.consumedAt.Some? || now < code.createdAt
        || now >= code.expiresAt {
        return Err(Unavailable);
      }
      authorizationCode := Some(code.(consumedAt := Some(now)));
      r := Ok(());
    }
  }
}
