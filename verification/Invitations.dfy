/** The workspace invitation aggregate: a generation-numbered invitation with its delivery record. */
module Invitations {
  import opened Numbers
  import opened Wrappers
  import opened Text
  import opened Uuids
  import opened Clock

  datatype Role = Owner | Admin
  datatype Failure = Retryable | Permanent | Exhausted
  datatype Status = Pending | Accepted | Revoked | Expired
  datatype DeliveryState = NotQueued | Queued | Delivered | FailedDelivery
  datatype Acceptance = Applied | Replay
  datatype Update = Recorded | Ignored
  datatype Error = InvalidSnapshot | Unavailable | AcceptedByAnotherUser | StaleGeneration

  datatype Invitation = Invitation(
    id: Uuid, workspaceId: Uuid, inviterUserId: Uuid, invitedEmail: string, role: Role, generation: int,
    createdAt: Time, expiresAt: Time, acceptedAt: Option<Time>, revokedAt: Option<Time>, acceptingUserId: Option<Uuid>,
    queuedGeneration: Option<int>, queuedAt: Option<Time>, deliveredGeneration: Option<int>, deliveredAt: Option<Time>,
    lastDeliveryFailure: Option<Failure>, deliveryFailedAt: Option<Time>)

  // ---------- snapshots ----------

  predicate TerminalValid(i: Invitation) {
    || (i.acceptedAt.Some? && i.revokedAt.None? && i.acceptingUserId.Some?)
    || (i.acceptedAt.None? && i.revokedAt.Some? && i.acceptingUserId.None?)
    || (i.acceptedAt.None? && i.revokedAt.None? && i.acceptingUserId.None?)
  }

  predicate DeliveryValid(i: Invitation) {
    && i.queuedGeneration.None? == i.queuedAt.None?
    && i.deliveredGeneration.None? == i.deliveredAt.None?
    && i.lastDeliveryFailure.None? == i.deliveryFailedAt.None?
    && (i.queuedGeneration.Some? ==> 0 < i.queuedGeneration.value <= i.generation)
    && (i.deliveredGeneration.Some? ==> 0 < i.deliveredGeneration.value <= i.generation)
  }

  function RehydrateData(i: Invitation): Result<Invitation, Error> {
    if i.role != Admin || i.generation <= 0 || IsBlank(i.invitedEmail) || i.expiresAt <= i.createdAt
       || !TerminalValid(i) || !DeliveryValid(i)
    then Err(InvalidSnapshot) else Ok(i)
  }

  predicate Valid(i: Invitation) {
    RehydrateData(i) == Ok(i)
  }

  // ---------- transitions on data ----------

  function CreateData(id: Uuid, workspaceId: Uuid, inviter: Uuid, email: string, createdAt: Time, expiresAt: Time)
    : Result<Invitation, Error>
  {
    RehydrateData(Invitation(id, workspaceId, inviter, email, Admin, 1, WholeSecond(createdAt), WholeSecond(expiresAt),
                             None, None, None, None, None, None, None, None, None))
  }

  function StatusAt(i: Invitation, now: Time): Status {
    if i.acceptedAt.Some? then Accepted
    else if i.revokedAt.Some? then Revoked
    else if now >= i.expiresAt then Expired
    else Pending
  }

  function StateOfDelivery(i: Invitation): DeliveryState {
    if i.lastDeliveryFailure.Some? then FailedDelivery
    else if i.deliveredGeneration == Some(i.generation) then Delivered
    else if i.queuedGeneration == Some(i.generation) then Queued
    else NotQueued
  }

  function AcceptData(i: Invitation, user: Uuid, at: Time): (Invitation, Result<Acceptance, Error>) {
    if i.acceptingUserId == Some(user) && i.acceptedAt.Some? then (i, Ok(Replay))
    else if i.acceptedAt.Some? then (i, Err(AcceptedByAnotherUser))
    else if StatusAt(i, at) != Pending then (i, Err(Unavailable))
    else (i.(acceptedAt := Some(at), acceptingUserId := Some(user)), Ok(Applied))
  }

  function QueueData(i: Invitation, generation: int, at: Time): (Invitation, Result<(), Error>) {
    if generation != i.generation then (i, Err(StaleGeneration))
    else if StatusAt(i, at) != Pending then (i, Err(Unavailable))
    else (i.(queuedGeneration := Some(generation), queuedAt := Some(at), lastDeliveryFailure := None,
             deliveryFailedAt := None), Ok(()))
  }

  function ResendData(i: Invitation, expected: int, sentAt: Time, expiresAt: Time): (Invitation, Result<(), Error>) {
    if expected != i.generation then (i, Err(StaleGeneration))
    else if StatusAt(i, sentAt) != Pending || expiresAt <= sentAt then (i, Err(Unavailable))
    else if i.generation >= I64_MAX then (i, Err(InvalidSnapshot))
    else (i.(generation := i.generation + 1, expiresAt := expiresAt, queuedGeneration := Some(i.generation + 1),
             queuedAt := Some(sentAt), lastDeliveryFailure := None, deliveryFailedAt := None), Ok(()))
  }

  function RevokeData(i: Invitation, expected: int, at: Time): (Invitation, Result<(), Error>) {
    if expected != i.generation then (i, Err(StaleGeneration))
    else if StatusAt(i, at) != Pending then (i, Err(Unavailable))
    else (i.(revokedAt := Some(at)), Ok(()))
  }

  function SuccessData(i: Invitation, generation: int, at: Time): (Invitation, Update) {
    if generation != i.generation || StatusAt(i, at) != Pending then (i, Ignored)
    else (i.(deliveredGeneration := Some(generation), deliveredAt := Some(at), lastDeliveryFailure := None,
             deliveryFailedAt := None),
          Recorded)
  }

  function FailureData(i: Invitation, generation: int, failure: Failure, at: Time): (Invitation, Update) {
    if generation != i.generation || StatusAt(i, at) != Pending then (i, Ignored)
    else (i.(lastDeliveryFailure := Some(failure), deliveryFailedAt := Some(at)), Recorded)
  }

  // ---------- all transitions together ----------

  datatype Step =
    | Accept(user: Uuid, at: Time)
    | Queue(generation: int, at: Time)
    | Resend(expected: int, at: Time, expiresAt: Time)
    | Revoke(expected: int, at: Time)
    | Succeed(generation: int, at: Time)
    | Fail(generation: int, failure: Failure, at: Time)

  function Apply(i: Invitation, step: Step): Invitation {
    match step
    case Accept(user, at) => AcceptData(i, user, at).0
    case Queue(generation, at) => QueueData(i, generation, at).0
    case Resend(expected, at, expiresAt) => ResendData(i, expected, at, expiresAt).0
    case Revoke(expected, at) => RevokeData(i, expected, at).0
    case Succeed(generation, at) => SuccessData(i, generation, at).0
    case Fail(generation, failure, at) => FailureData(i, generation, failure, at).0
  }

  predicate Closed(i: Invitation) {
    i.acceptedAt.Some? || i.revokedAt.Some?
  }

  /** An invitation before and after any number of transitions. */
  predicate Progresses(i: Invitation, j: Invitation) {
    && j.id == i.id && j.workspaceId == i.workspaceId && j.invitedEmail == i.invitedEmail && j.createdAt == i.createdAt
    && i.generation <= j.generation
    && (Closed(i) ==> j == i)
    && (j.generation == i.generation ==> j.expiresAt == i.expiresAt)
    && (i.deliveredGeneration.Some? ==>
        j.deliveredGeneration.Some? && i.deliveredGeneration.value <= j.deliveredGeneration.value)
  }

  lemma StepProgresses(i: Invitation, step: Step)
    requires i.deliveredGeneration.Some? ==> i.deliveredGeneration.value <= i.generation
    ensures Progresses(i, Apply(i, step))
  {}

  /** Closing is for good: nothing about an accepted or revoked invitation ever changes again. */
  lemma ClosedIsFrozen(i: Invitation, step: Step)
    requires Closed(i)
    ensures Apply(i, step) == i
  {}

  /** Steps that name another generation change nothing. */
  lemma OtherGenerationChangesNothing(i: Invitation, generation: int, failure: Failure, at: Time, expiresAt: Time)
    requires generation != i.generation
    ensures QueueData(i, generation, at) == (i, Err(StaleGeneration))
    ensures ResendData(i, generation, at, expiresAt) == (i, Err(StaleGeneration))
    ensures RevokeData(i, generation, at) == (i, Err(StaleGeneration))
    ensures SuccessData(i, generation, at) == (i, Ignored) && FailureData(i, generation, failure, at) == (i, Ignored)
  {}

  /** What is shown of the delivery follows the last step that went through. */
  lemma ShowsLastStep(i: Invitation, generation: int, failure: Failure, at: Time, expiresAt: Time)
    requires i.deliveredGeneration.Some? ==> i.deliveredGeneration.value <= i.generation
    ensures QueueData(i, generation, at).1.Ok? ==>
      StateOfDelivery(QueueData(i, generation, at).0)
        == if i.deliveredGeneration == Some(i.generation) then Delivered else Queued
    ensures ResendData(i, generation, at, expiresAt).1.Ok? ==>
      StateOfDelivery(ResendData(i, generation, at, expiresAt).0) == Queued
    ensures SuccessData(i, generation, at).1 == Recorded ==>
      StateOfDelivery(SuccessData(i, generation, at).0) == Delivered
    ensures FailureData(i, generation, failure, at).1 == Recorded ==>
      StateOfDelivery(FailureData(i, generation, failure, at).0) == FailedDelivery
    ensures i.queuedGeneration.None? && i.deliveredGeneration.None? && i.lastDeliveryFailure.None? ==>
      StateOfDelivery(i) == NotQueued
  {}

  // ---------- snapshot closure ----------

  /**
    A new invitation is one that rehydration accepts, exactly when it lasts into a later second and names an address.
   */
  lemma CreatedIsValid(id: Uuid, workspaceId: Uuid, inviter: Uuid, email: string, createdAt: Time, expiresAt: Time)
    ensures var r := CreateData(id, workspaceId, inviter, email, createdAt, expiresAt);
      && (r.Ok? <==> !IsBlank(email) && WholeSecond(createdAt) < WholeSecond(expiresAt))
      && (r.Ok? ==> Valid(r.value) && r.value.createdAt <= createdAt && r.value.expiresAt <= expiresAt)
      && (r.Ok? ==>
            && r.value.id == id && r.value.workspaceId == workspaceId && r.value.inviterUserId == inviter
            && r.value.invitedEmail == email && r.value.role == Admin && r.value.generation == 1 && !Closed(r.value)
            && createdAt - r.value.createdAt < SECOND && r.value.createdAt % SECOND == 0
            && expiresAt - r.value.expiresAt < SECOND && r.value.expiresAt % SECOND == 0
            && r.value.queuedGeneration.None? && r.value.deliveredGeneration.None?
            && r.value.lastDeliveryFailure.None?)
  {}

  /** A resend that goes through, with a new expiry that is not after creation. */
  predicate BackwardResend(i: Invitation, step: Step) {
    && step.Resend? && step.expected == i.generation && !Closed(i) && step.at < i.expiresAt && step.at < step.expiresAt
    && i.generation < I64_MAX && step.expiresAt <= i.createdAt
  }

  /** A transition keeps a valid snapshot valid exactly when it is not such a resend. */
  lemma SnapshotClosedIff(i: Invitation, step: Step)
    requires Valid(i)
    ensures Valid(Apply(i, step)) <==> !BackwardResend(i, step)
  {}

  /** A clock that never shows a time before creation is enough. */
  lemma SnapshotClosedInOrder(i: Invitation, step: Step)
    requires Valid(i) && (step.Resend? ==> i.createdAt <= step.at)
    ensures Valid(Apply(i, step))
  {
    SnapshotClosedIff(i, step);
  }

  /** With a clock that went back, `resend` succeeds and leaves an invitation that can no longer be loaded. */
  lemma BackwardResendPoisons(i: Invitation, sentAt: Time, expiresAt: Time)
    requires Valid(i) && !Closed(i) && i.generation < I64_MAX && sentAt < expiresAt <= i.createdAt
    ensures var (j, r) := ResendData(i, i.generation, sentAt, expiresAt);
      r.Ok? && RehydrateData(j) == Err(InvalidSnapshot)
  {}

  // ---------- the object ----------

  class WorkspaceInvitation {
    const id: Uuid
    const workspaceId: Uuid
    const inviterUserId: Uuid
    const invitedEmail: string
    const role: Role
    const createdAt: Time
    var generation: int
    var expiresAt: Time
    var acceptedAt: Option<Time>
    var revokedAt: Option<Time>
    var acceptingUserId: Option<Uuid>
    var queuedGeneration: Option<int>
    var queuedAt: Option<Time>
    var deliveredGeneration: Option<int>
    var deliveredAt: Option<Time>
    var lastDeliveryFailure: Option<Failure>
    var deliveryFailedAt: Option<Time>

    function Data(): Invitation
      reads this
    {
      Invitation(id, workspaceId, inviterUserId, invitedEmail, role, generation, createdAt, expiresAt,
                 acceptedAt, revokedAt, acceptingUserId, queuedGeneration, queuedAt,
                 deliveredGeneration, deliveredAt, lastDeliveryFailure, deliveryFailedAt)
    }

    constructor FromSnapshot(i: Invitation)
      ensures Data() == i
    {
      id, workspaceId, inviterUserId := i.id, i.workspaceId, i.inviterUserId;
      invitedEmail, role := i.invitedEmail, i.role;
      generation, createdAt, expiresAt := i.generation, i.createdAt, i.expiresAt;
      acceptedAt, revokedAt, acceptingUserId := i.acceptedAt, i.revokedAt, i.acceptingUserId;
      queuedGeneration, queuedAt := i.queuedGeneration, i.queuedAt;
      deliveredGeneration, deliveredAt := i.deliveredGeneration, i.deliveredAt;
      lastDeliveryFailure, deliveryFailedAt := i.lastDeliveryFailure, i.deliveryFailedAt;
    }

    static method Rehydrate(i: Invitation) returns (r: Result<WorkspaceInvitation, Error>)
      ensures match RehydrateData(i)
              case Err(e) => r == Err(e)
              case Ok(j) => r.Ok? && fresh(r.value) && r.value.Data() == j
      ensures r.Ok? ==> r.value.Data() == i
      ensures r.Ok? <==>
        && i.role == Admin && i.generation > 0 && !IsBlank(i.invitedEmail) && i.createdAt < i.expiresAt
        && !(i.acceptedAt.Some? && i.revokedAt.Some?) && i.acceptedAt.Some? == i.acceptingUserId.Some?
        && i.queuedGeneration.Some? == i.queuedAt.Some? && i.deliveredGeneration.Some? == i.deliveredAt.Some?
        && i.lastDeliveryFailure.Some? == i.deliveryFailedAt.Some?
        && (i.queuedGeneration.Some? ==> 1 <= i.queuedGeneration.value <= i.generation)
        && (i.deliveredGeneration.Some? ==> 1 <= i.deliveredGeneration.value <= i.generation)
    {
      if i.role != Admin || i.generation <= 0 || IsBlank(i.invitedEmail) || i.expiresAt <= i.createdAt
         || !TerminalValid(i) || !DeliveryValid(i) {
        return Err(InvalidSnapshot);
      }
      var invitation := new WorkspaceInvitation.FromSnapshot(i);
      r := Ok(invitation);
    }

    method Accept(user: Uuid, at: Time) returns (r: Result<Acceptance, Error>)
      modifies this
      ensures (Data(), r) == AcceptData(old(Data()), user, at)
      ensures r == Ok(Applied) <==> old(acceptedAt.None? && revokedAt.None? && at < expiresAt)
      ensures r == Ok(Replay) <==> old(acceptedAt.Some? && acceptingUserId == Some(user))
      ensures r == Err(AcceptedByAnotherUser) <==> old(acceptedAt.Some? && acceptingUserId != Some(user))
      ensures Data() == if r == Ok(Applied)
                        then old(Data()).(acceptedAt := Some(at), acceptingUserId := Some(user)) else old(Data())
    {
      if acceptingUserId == Some(user) && acceptedAt.Some? {
        return Ok(Replay);
      }
      if acceptedAt.Some? {
        return Err(AcceptedByAnotherUser);
      }
      if StatusAt(Data(), at) != Pending {
        return Err(Unavailable);
      }
      acceptedAt := Some(at);
      acceptingUserId := Some(user);
      r := Ok(Applied);
    }

    method QueueDelivery(expected: int, at: Time) returns (r: Result<(), Error>)
      modifies this
      ensures (Data(), r) == QueueData(old(Data()), expected, at)
      ensures r.Ok? <==> expected == generation && old(acceptedAt.None? && revokedAt.None? && at < expiresAt)
      ensures r == Err(StaleGeneration) <==> expected != generation
      ensures Data() == if r.Ok? then old(Data()).(queuedGeneration := Some(expected), queuedAt := Some(at),
                                                   lastDeliveryFailure := None, deliveryFailedAt := None)
                        else old(Data())
    {
      if expected != generation {
        return Err(StaleGeneration);
      }
      if StatusAt(Data(), at) != Pending {
        return Err(Unavailable);
      }
      queuedGeneration := Some(expected);
      queuedAt := Some(at);
      lastDeliveryFailure := None;
      deliveryFailedAt := None;
      r := Ok(());
    }

    method Resend(expected: int, sentAt: Time, newExpiry: Time) returns (r: Result<(), Error>)
      modifies this
      ensures (Data(), r) == ResendData(old(Data()), expected, sentAt, newExpiry)
      ensures r.Ok? <==> old(expected == generation && acceptedAt.None? && revokedAt.None? && sentAt < expiresAt)
                         && sentAt < newExpiry && expected < I64_MAX
      ensures r == Err(StaleGeneration) <==> expected != old(generation)
      ensures Data() == if r.Ok? then old(Data()).(generation := expected + 1, expiresAt := newExpiry,
                                                   queuedGeneration := Some(expected + 1), queuedAt := Some(sentAt),
                                                   lastDeliveryFailure := None, deliveryFailedAt := None)
                        else old(Data())
    {
      if expected != generation {
        return Err(StaleGeneration);
      }
      if StatusAt(Data(), sentAt) != Pending || newExpiry <= sentAt {
        return Err(Unavailable);
      }
      if generation >= I64_MAX {
        return Err(InvalidSnapshot);
      }
      generation := generation + 1;
      expiresAt := newExpiry;
      queuedGeneration := Some(generation);
      queuedAt := Some(sentAt);
      lastDeliveryFailure := None;
      deliveryFailedAt := None;
      r := Ok(());
    }

    method Revoke(expected: int, at: Time) returns (r: Result<(), Error>)
      modifies this
      ensures (Data(), r) == RevokeData(old(Data()), expected, at)
      ensures r.Ok? <==> old(expected == generation && acceptedAt.None? && revokedAt.None? && at < expiresAt)
      ensures r == Err(StaleGeneration) <==> expected != generation
      ensures Data() == if r.Ok? then old(Data()).(revokedAt := Some(at)) else old(Data())
    {
      if expected != generation {
        return Err(StaleGeneration);
      }
      if StatusAt(Data(), at) != Pending {
        return Err(Unavailable);
      }
      revokedAt := Some(at);
      r := Ok(());
    }

    method RecordDeliverySuccess(current: int, at: Time) returns (u: Update)
      modifies this
      ensures (Data(), u) == SuccessData(old(Data()), current, at)
      ensures u == Recorded <==> old(current == generation && acceptedAt.None? && revokedAt.None? && at < expiresAt)
      ensures Data() == if u == Recorded
                        then old(Data()).(deliveredGeneration := Some(current), deliveredAt := Some(at),
                                          lastDeliveryFailure := None, deliveryFailedAt := None)
                        else old(Data())
    {
      if current != generation || StatusAt(Data(), at) != Pending {
        return Ignored;
      }
      deliveredGeneration := Some(current);
      deliveredAt := Some(at);
      lastDeliveryFailure := None;
      deliveryFailedAt := None;
      u := Recorded;
    }

    method RecordDeliveryFailure(current: int, failure: Failure, at: Time) returns (u: Update)
      modifies this
      ensures (Data(), u) == FailureData(old(Data()), current, failure, at)
      ensures u == Recorded <==> old(current == generation && acceptedAt.None? && revokedAt.None? && at < expiresAt)
      ensures Data() == if u == Recorded
                        then old(Data()).(lastDeliveryFailure := Some(failure), deliveryFailedAt := Some(at))
                        else old(Data())
    {
      if current != generation || StatusAt(Data(), at) != Pending {
        return Ignored;
      }
      lastDeliveryFailure := Some(failure);
      deliveryFailedAt := Some(at);
      u := Recorded;
    }
  }
}
