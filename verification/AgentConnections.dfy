/** Agent connections: requested, authorized by a continuation, activated, used, revoked. */
module AgentConnections {
  import opened ByteStrings
  import opened Wrappers
  import opened Text
  import opened Uuids
  import opened Clock

  datatype Status = Pending | Authorized | Active | Revoked

  datatype Connection = Connection(
    id: Uuid, userId: Uuid, workspaceId: Uuid, auth0Subject: string, auth0ClientId: string, clientDisplayName: string,
    resource: string, status: Status, permissions: seq<string>, pendingExpiresAt: Time, activatedAt: Option<Time>,
    lastUsedAt: Option<Time>, revokedAt: Option<Time>, createdAt: Time, transactionId: Uuid, continuationDigest: Bytes,
    nonceDigest: Bytes, consumedAt: Option<Time>)

  datatype Error = InvalidRequest | InvalidRehydration | InvalidTransition
  datatype Consumption = ConsumptionAuthorized | ConsumptionUnavailable
  datatype Activation = Activated | AlreadyActive | ActivationUnavailable
  datatype Use = Used | UseUnavailable
  datatype Revocation = NewlyRevoked | AlreadyRevoked

  // ---------- transitions on data ----------

  /** `c` carries the request's fields; whatever it holds of a later stage is dropped. */
  function RequestData(c: Connection): Result<Connection, Error> {
    if c.pendingExpiresAt <= c.createdAt || c.permissions == [] || IsBlank(c.auth0Subject) || IsBlank(c.auth0ClientId)
       || IsBlank(c.clientDisplayName) || IsBlank(c.resource)
    then Err(InvalidRequest)
    else Ok(c.(status := Pending, activatedAt := None, lastUsedAt := None, revokedAt := None, consumedAt := None))
  }

  predicate StatusFits(c: Connection) {
    match c.status
    case Pending => c.activatedAt.None? && c.revokedAt.None? && c.consumedAt.None?
    case Authorized => c.activatedAt.None? && c.revokedAt.None? && c.consumedAt.Some?
    case Active => c.activatedAt.Some? && c.revokedAt.None? && c.consumedAt.Some?
    case Revoked => c.revokedAt.Some?
  }

  predicate NotBefore(at: Option<Time>, created: Time) {
    at.Some? ==> created <= at.value
  }

  function RehydrateData(c: Connection): Result<Connection, Error> {
    match RequestData(c)
    case Err(_) => Err(InvalidRehydration)
    case Ok(requested) =>
      if !StatusFits(c) || !NotBefore(c.activatedAt, c.createdAt) || !NotBefore(c.lastUsedAt, c.createdAt)
         || !NotBefore(c.revokedAt, c.createdAt) || !NotBefore(c.consumedAt, c.createdAt)
      then Err(InvalidRehydration)
      else Ok(requested.(status := c.status, activatedAt := c.activatedAt, lastUsedAt := c.lastUsedAt,
                         revokedAt := c.revokedAt, consumedAt := c.consumedAt))
  }

  predicate Valid(c: Connection) {
    RehydrateData(c) == Ok(c)
  }

  function ConsumeData(c: Connection, continuation: Bytes, nonce: Bytes, now: Time): (Connection, Consumption) {
    if c.status != Pending || now >= c.pendingExpiresAt || c.continuationDigest != continuation
      || c.nonceDigest != nonce
    then (c, ConsumptionUnavailable)
    else (c.(status := Authorized, consumedAt := Some(now)), ConsumptionAuthorized)
  }

  function ActivateData(c: Connection, now: Time): (Connection, Activation) {
    if c.status == Active then (c, AlreadyActive)
    else if c.status == Authorized && now < c.pendingExpiresAt
      then (c.(status := Active, activatedAt := Some(now)), Activated)
    else (c, ActivationUnavailable)
  }

  function UseData(c: Connection, now: Time): (Connection, Use) {
    if c.status != Active then (c, UseUnavailable) else (c.(lastUsedAt := Some(now)), Used)
  }

  function RevokeData(c: Connection, now: Time): (Connection, Result<Revocation, Error>) {
    if c.status == Revoked then (c, Ok(AlreadyRevoked))
    else if now < c.createdAt then (c, Err(InvalidTransition))
    else (c.(status := Revoked, revokedAt := Some(now)), Ok(NewlyRevoked))
  }

  datatype Step =
    | ConsumeContinuation(continuation: Bytes, nonce: Bytes, at: Time)
    | Activate(at: Time)
    | UseAt(at: Time)
    | Revoke(at: Time)

  function Apply(c: Connection, step: Step): Connection {
    match step
    case ConsumeContinuation(continuation, nonce, at) => ConsumeData(c, continuation, nonce, at).0
    case Activate(at) => ActivateData(c, at).0
    case UseAt(at) => UseData(c, at).0
    case Revoke(at) => RevokeData(c, at).0
  }

  function Run(c: Connection, steps: seq<Step>): Connection
    decreases |steps|
  {
    if steps == [] then c else Run(Apply(c, steps[0]), steps[1..])
  }

  /** Which snapshots are accepted; they are taken as they are. */
  lemma RehydratesExactly(c: Connection)
    ensures RehydrateData(c).Ok? <==>
      && c.createdAt < c.pendingExpiresAt && c.permissions != [] && !IsBlank(c.auth0Subject)
      && !IsBlank(c.auth0ClientId) && !IsBlank(c.clientDisplayName) && !IsBlank(c.resource)
      && (c.status == Revoked <==> c.revokedAt.Some?)
      && (c.status == Pending ==> c.consumedAt.None? && c.activatedAt.None?)
      && (c.status == Authorized ==> c.consumedAt.Some? && c.activatedAt.None?)
      && (c.status == Active ==> c.consumedAt.Some? && c.activatedAt.Some?)
      && forall at :: at in {c.activatedAt, c.lastUsedAt, c.revokedAt, c.consumedAt} && at.Some? ==>
           c.createdAt <= at.value
    ensures RehydrateData(c).Ok? ==> RehydrateData(c).value == c
  {
    var ats := {c.activatedAt, c.lastUsedAt, c.revokedAt, c.consumedAt};
    assert c.activatedAt in ats && c.lastUsedAt in ats && c.revokedAt in ats && c.consumedAt in ats;
  }

  /** A request is granted on the same terms, whatever it holds of later stages, and starts pending. */
  lemma RequestsExactly(c: Connection)
    ensures RequestData(c).Ok? <==>
      && c.createdAt < c.pendingExpiresAt && c.permissions != [] && !IsBlank(c.auth0Subject)
      && !IsBlank(c.auth0ClientId) && !IsBlank(c.clientDisplayName) && !IsBlank(c.resource)
    ensures RequestData(c).Ok? ==>
      var d := RequestData(c).value;
      && d.status == Pending && d.activatedAt.None? && d.lastUsedAt.None? && d.revokedAt.None? && d.consumedAt.None?
      && d == c.(status := Pending, activatedAt := None, lastUsedAt := None, revokedAt := None, consumedAt := None)
  {}

  // ---------- snapshot closure ----------

  /** The step takes effect; a caller can see that from the connection and the arguments alone. */
  predicate TakesEffect(c: Connection, step: Step) {
    match step
    case ConsumeContinuation(continuation, nonce, at) =>
      c.status == Pending && at < c.pendingExpiresAt && c.continuationDigest == continuation && c.nonceDigest == nonce
    case Activate(at) => c.status == Authorized && at < c.pendingExpiresAt
    case UseAt(_) => c.status == Active
    case Revoke(at) => c.status != Revoked && c.createdAt <= at
  }

  /** A step keeps the snapshot loadable exactly when it does nothing or is stamped no earlier than creation. */
  lemma SnapshotClosedIff(c: Connection, step: Step)
    requires Valid(c)
    ensures Valid(Apply(c, step)) <==> !(TakesEffect(c, step) && step.at < c.createdAt)
  {}

  /** Only revocation checks the clock: a use stamped before creation succeeds and cannot be loaded again. */
  lemma BackwardUsePoisons(c: Connection, at: Time)
    requires Valid(c) && c.status == Active && at < c.createdAt
    ensures UseData(c, at).1 == Used && RehydrateData(UseData(c, at).0) == Err(InvalidRehydration)
  {}

  // ---------- runs ----------

  /** Every command loads the connection first, so one that cannot be loaded stays as it is. */
  function StoredRun(c: Connection, steps: seq<Step>): Connection
    decreases |steps|
  {
    if steps == [] then c else StoredRun(if Valid(c) then Apply(c, steps[0]) else c, steps[1..])
  }

  lemma {:induction false} InvalidStays(c: Connection, steps: seq<Step>)
    requires !Valid(c)
    ensures StoredRun(c, steps) == c
    decreases |steps|
  {
    if steps != [] {
      InvalidStays(c, steps[1..]);
    }
  }

  /** Step `i` takes effect and is stamped before creation. */
  predicate BackwardAt(c: Connection, steps: seq<Step>, i: nat) {
    i < |steps| && TakesEffect(Run(c, steps[..i]), steps[i]) && steps[i].at < c.createdAt
  }

  ghost predicate NeverBackward(c: Connection, steps: seq<Step>) {
    forall i: nat :: !BackwardAt(c, steps, i)
  }

  lemma CreatedOnce(c: Connection, step: Step)
    ensures Apply(c, step).createdAt == c.createdAt
  {}

  lemma BackwardShifts(c: Connection, step: Step, rest: seq<Step>, i: nat)
    ensures BackwardAt(c, [step] + rest, i + 1) <==> BackwardAt(Apply(c, step), rest, i)
  {
    CreatedOnce(c, step);
    if i < |rest| {
      var steps := [step] + rest;
      assert steps[..i + 1][0] == step && steps[..i + 1][1..] == rest[..i] && steps[i + 1] == rest[i];
    }
  }

  lemma NeverBackwardRest(c: Connection, step: Step, rest: seq<Step>)
    ensures NeverBackward(c, [step] + rest) <==>
      !(TakesEffect(c, step) && step.at < c.createdAt) && NeverBackward(Apply(c, step), rest)
  {
    var steps := [step] + rest;
    assert steps[..0] == [] && (BackwardAt(c, steps, 0) <==> TakesEffect(c, step) && step.at < c.createdAt);
    forall i: nat ensures BackwardAt(c, steps, i + 1) <==> BackwardAt(Apply(c, step), rest, i) {
      BackwardShifts(c, step, rest, i);
    }
    forall i: nat | BackwardAt(c, steps, i) ensures i == 0 || BackwardAt(Apply(c, step), rest, i - 1) {
      if i > 0 {
        BackwardShifts(c, step, rest, i - 1);
      }
    }
  }

  /**
    A stored connection can be loaded after any commands exactly when none that took effect was stamped before
    creation.
   */
  lemma {:induction false} StoredLoadableIff(c: Connection, steps: seq<Step>)
    requires Valid(c)
    ensures Valid(StoredRun(c, steps)) <==> NeverBackward(c, steps)
    decreases |steps|
  {
    if steps != [] {
      var d, rest := Apply(c, steps[0]), steps[1..];
      assert steps == [steps[0]] + rest;
      NeverBackwardRest(c, steps[0], rest);
      SnapshotClosedIff(c, steps[0]);
      if Valid(d) {
        StoredLoadableIff(d, rest);
      } else {
        InvalidStays(d, rest);
      }
    }
  }

  /** The same from the request on. */
  lemma RunsStayLoadableIff(c: Connection, steps: seq<Step>)
    requires RequestData(c).Ok?
    ensures Valid(StoredRun(RequestData(c).value, steps)) <==> NeverBackward(RequestData(c).value, steps)
  {
    RequestedIsEarned(c);
    StoredLoadableIff(RequestData(c).value, steps);
  }

  /** A clock that never shows a time before creation is enough. */
  lemma RunsStayLoadable(c: Connection, steps: seq<Step>)
    requires RequestData(c).Ok? && forall i :: 0 <= i < |steps| ==> c.createdAt <= steps[i].at
    ensures Valid(StoredRun(RequestData(c).value, steps))
  {
    RunsStayLoadableIff(c, steps);
  }

  // ---------- lifecycle ----------

  /** An active connection was authorized and activated before its request expired. */
  predicate Earned(c: Connection) {
    && (c.consumedAt.Some? ==> c.consumedAt.value < c.pendingExpiresAt)
    && (c.activatedAt.Some? ==> c.consumedAt.Some? && c.activatedAt.value < c.pendingExpiresAt)
    && (c.lastUsedAt.Some? ==> c.activatedAt.Some?)
    && StatusFits(c)
  }

  predicate Evolves(c: Connection, d: Connection) {
    && d == c.(status := d.status, activatedAt := d.activatedAt, lastUsedAt := d.lastUsedAt, revokedAt := d.revokedAt,
               consumedAt := d.consumedAt)
    && (c.consumedAt.Some? ==> d.consumedAt == c.consumedAt)
    && (c.activatedAt.Some? ==> d.activatedAt == c.activatedAt)
    && (c.status == Revoked ==> d == c)
  }

  lemma {:induction false} RunEarns(c: Connection, steps: seq<Step>)
    requires Earned(c)
    ensures Earned(Run(c, steps)) && Evolves(c, Run(c, steps))
    decreases |steps|
  {
    if steps != [] {
      StepEarns(c, steps[0]);
      RunEarns(Apply(c, steps[0]), steps[1..]);
    }
  }

  /** Over every run from the request on: consumed once, activated once, used only once active, and revoked for good. */
  lemma RunsEarnTheirStatus(c: Connection, before: seq<Step>, after: seq<Step>)
    requires RequestData(c).Ok?
    ensures var d := Run(RequestData(c).value, before); Earned(d) && Earned(Run(d, after)) && Evolves(d, Run(d, after))
  {
    RequestedIsEarned(c);
    RunEarns(RequestData(c).value, before);
    RunEarns(Run(RequestData(c).value, before), after);
  }

  lemma StepEarns(c: Connection, step: Step)
    requires Earned(c)
    ensures Earned(Apply(c, step)) && Evolves(c, Apply(c, step))
  {}

  lemma RequestedIsEarned(c: Connection)
    requires RequestData(c).Ok?
    ensures Earned(RequestData(c).value) && Valid(RequestData(c).value)
  {}

  // ---------- the object ----------

  class AgentConnection {
    const base: Connection
    var status: Status
    var activatedAt: Option<Time>
    var lastUsedAt: Option<Time>
    var revokedAt: Option<Time>
    var consumedAt: Option<Time>

    function Data(): Connection
      reads this
    {
      base.(status := status, activatedAt := activatedAt, lastUsedAt := lastUsedAt, revokedAt := revokedAt,
            consumedAt := consumedAt)
    }

    constructor From(c: Connection)
      ensures Data() == c
    {
      base, status, activatedAt, lastUsedAt := c, c.status, c.activatedAt, c.lastUsedAt;
      revokedAt, consumedAt := c.revokedAt, c.consumedAt;
    }

    method ConsumeContinuation(continuation: Bytes, nonce: Bytes, now: Time) returns (r: Consumption)
      modifies this
      ensures (Data(), r) == ConsumeData(old(Data()), continuation, nonce, now)
      ensures r == ConsumptionAuthorized <==>
        && old(status) == Pending && now < base.pendingExpiresAt && continuation == base.continuationDigest
        && nonce == base.nonceDigest
      ensures Data() == if r == ConsumptionAuthorized
                        then old(Data()).(status := Authorized, consumedAt := Some(now)) else old(Data())
    {
      if status != Pending || now >= base.pendingExpiresAt || base.continuationDigest != continuation
        || base.nonceDigest != nonce {
        return ConsumptionUnavailable;
      }
      status := Authorized;
      consumedAt := Some(now);
      r := ConsumptionAuthorized;
    }

    method Activate(now: Time) returns (r: Activation)
      modifies this
      ensures (Data(), r) == ActivateData(old(Data()), now)
      ensures r == Activated <==> old(status) == Authorized && now < base.pendingExpiresAt
      ensures r == AlreadyActive <==> old(status) == Active
      ensures Data() == if r == Activated then old(Data()).(status := Active, activatedAt := Some(now))
                        else old(Data())
    {
      if status == Active {
        return AlreadyActive;
      }
      if status != Authorized || now >= base.pendingExpiresAt {
        return ActivationUnavailable;
      }
      status := Active;
      activatedAt := Some(now);
      r := Activated;
    }

    method UseAt(now: Time) returns (r: Use)
      modifies this
      ensures (Data(), r) == UseData(old(Data()), now)
      ensures r == Used <==> old(status) == Active
      ensures Data() == if r == Used then old(Data()).(lastUsedAt := Some(now)) else old(Data())
    {
      if status != Active {
        return UseUnavailable;
      }
      lastUsedAt := Some(now);
      r := Used;
    }

    method Revoke(now: Time) returns (r: Result<Revocation, Error>)
      modifies this
      ensures (Data(), r) == RevokeData(old(Data()), now)
      ensures r == Ok(NewlyRevoked) <==> old(status) != Revoked && base.createdAt <= now
      ensures r == Ok(AlreadyRevoked) <==> old(status) == Revoked
      ensures Data() == if r == Ok(NewlyRevoked) then old(Data()).(status := Revoked, revokedAt := Some(now))
                        else old(Data())
    {
      if status == Revoked {
        return Ok(AlreadyRevoked);
      }
      if now < base.createdAt {
        return Err(InvalidTransition);
      }
      status := Revoked;
      revokedAt := Some(now);
      r := Ok(NewlyRevoked);
    }
  }
}
