/** Auditor sessions: created, touched, revoked; when their snapshots can be loaded again. */
module AuditorSessions {
  import opened Wrappers
  import opened Text
  import opened Uuids
  import opened Clock

  datatype Session = Session(
    id: Uuid, grantId: Uuid, workspaceId: Uuid, auditorEmail: string, auth0Subject: string, expiresAt: Time,
    revokedAt: Option<Time>, lastUsedAt: Time, createdAt: Time, updatedAt: Time)

  datatype Transition = Used | Revoked | AlreadyRevoked
  datatype Error = InvalidCreation | InvalidRehydration | Unavailable | InvalidTransition

  predicate ValidNormalizedEmail(value: string) {
    var parts := Split(value, '@');
    && |parts| == 2 && parts[0] != "" && parts[1] != ""
    && value == Trim(value) && forall i :: 0 <= i < |value| ==> !('A' <= value[i] <= 'Z')
  }

  /**
    Such an address has exactly one at sign, inside it, no white space at its ends and no capital letter of the ASCII
    alphabet.
   */
  lemma EmailExactly(value: string)
    ensures ValidNormalizedEmail(value) <==>
      && (exists i :: 0 < i < |value| - 1 && OnlyAt(value, i))
      && !IsWhitespace(value[0]) && !IsWhitespace(value[|value| - 1])
      && forall i :: 0 <= i < |value| ==> !('A' <= value[i] <= 'Z')
  {
    TwoPartsIff(value);
    if value != "" {
      TrimKeepsIff(value);
    }
  }

  lemma TwoPartsIff(value: string)
    ensures var parts := Split(value, '@');
      |parts| == 2 && parts[0] != "" && parts[1] != "" <==> exists i :: 0 < i < |value| - 1 && OnlyAt(value, i)
  {
    var parts := Split(value, '@');
    if |parts| == 2 && parts[0] != "" && parts[1] != "" {
      JoinSplit(value, '@');
      assert Join(parts[1..], '@') == parts[1] && value == parts[0] + ['@'] + parts[1];
      assert !Contains(parts[0], '@') && !Contains(parts[1], '@');
      assert OnlyAt(value, |parts[0]|);
    }
    if i :| 0 < i < |value| - 1 && OnlyAt(value, i) {
      assert value == value[..i] + ['@'] + value[i + 1..];
      SplitCons(value[..i], value[i + 1..], '@');
      SplitPlain(value[i + 1..], '@');
    }
  }

  predicate OnlyAt(value: string, i: int) {
    0 <= i < |value| && value[i] == '@' && forall j :: 0 <= j < |value| && j != i ==> value[j] != '@'
  }

  lemma TrimKeepsIff(value: string)
    requires value != ""
    ensures value == Trim(value) <==> !IsWhitespace(value[0]) && !IsWhitespace(value[|value| - 1])
  {
    var i, j := TrimIsInnerPart(value);
    if value == Trim(value) {
      assert i == 0 && j == |value|;
    } else if i > 0 {
      assert value[..i][0] == value[0];
    } else if j < |value| {
      assert value[j..][|value| - 1 - j] == value[|value| - 1];
    }
  }

  /** `s` carries the creation fields; the rest of it is replaced. */
  function CreateData(s: Session): Result<Session, Error> {
    if s.expiresAt <= s.createdAt || IsBlank(s.auth0Subject) || !ValidNormalizedEmail(s.auditorEmail)
      then Err(InvalidCreation)
    else Ok(s.(revokedAt := None, lastUsedAt := s.createdAt, updatedAt := s.createdAt))
  }

  function RehydrateData(s: Session): Result<Session, Error> {
    match CreateData(s)
    case Err(_) => Err(InvalidRehydration)
    case Ok(created) =>
      if s.lastUsedAt < s.createdAt || (s.revokedAt.Some? && s.revokedAt.value < s.createdAt)
        || s.updatedAt < s.createdAt
         || s.updatedAt < s.lastUsedAt || (s.revokedAt.Some? && s.updatedAt < s.revokedAt.value)
      then Err(InvalidRehydration)
      else Ok(created.(revokedAt := s.revokedAt, lastUsedAt := s.lastUsedAt, updatedAt := s.updatedAt))
  }

  predicate Valid(s: Session) {
    RehydrateData(s) == Ok(s)
  }

  function TouchData(s: Session, at: Time): (Session, Result<Transition, Error>) {
    if s.revokedAt.Some? || at >= s.expiresAt then (s, Err(Unavailable))
    else if at < s.createdAt || at < s.lastUsedAt then (s, Err(InvalidTransition))
    else (s.(lastUsedAt := at, updatedAt := at), Ok(Used))
  }

  function RevokeData(s: Session, at: Time): (Session, Result<Transition, Error>) {
    if s.revokedAt.Some? then (s, Ok(AlreadyRevoked))
    else if at < s.createdAt then (s, Err(InvalidTransition))
    else (s.(revokedAt := Some(at), updatedAt := at), Ok(Revoked))
  }

  datatype Step = Touch(at: Time) | Revoke(at: Time)

  function Apply(s: Session, step: Step): Session {
    match step
    case Touch(at) => TouchData(s, at).0
    case Revoke(at) => RevokeData(s, at).0
  }

  function Run(s: Session, steps: seq<Step>): Session
    decreases |steps|
  {
    if steps == [] then s else Run(Apply(s, steps[0]), steps[1..])
  }

  /** Which snapshots are accepted; they are taken as they are. */
  lemma RehydratesExactly(s: Session)
    ensures RehydrateData(s).Ok? <==>
      && s.createdAt < s.expiresAt && !IsBlank(s.auth0Subject) && ValidNormalizedEmail(s.auditorEmail)
      && s.createdAt <= s.lastUsedAt <= s.updatedAt
      && (s.revokedAt.Some? ==> s.createdAt <= s.revokedAt.value <= s.updatedAt)
    ensures RehydrateData(s).Ok? ==> RehydrateData(s).value == s
  {}

  /** A session starts unrevoked, last used when it was created. */
  lemma CreatesExactly(s: Session)
    ensures CreateData(s).Ok? <==>
      s.createdAt < s.expiresAt && !IsBlank(s.auth0Subject) && ValidNormalizedEmail(s.auditorEmail)
    ensures CreateData(s).Ok? ==>
      CreateData(s).value == s.(revokedAt := None, lastUsedAt := s.createdAt, updatedAt := s.createdAt)
  {}

  // ---------- snapshot closure ----------

  /** A step keeps the snapshot loadable exactly when it is not a first revocation stamped before the last use. */
  lemma SnapshotClosedIff(s: Session, step: Step)
    requires Valid(s)
    ensures Valid(Apply(s, step)) <==>
      !(step.Revoke? && s.revokedAt.None? && s.createdAt <= step.at < s.lastUsedAt)
  {}

  /** Used at some time and revoked at an earlier one: the call succeeds and the session can never be loaded again. */
  lemma BackwardRevokePoisons(s: Session, at: Time)
    requires Valid(s) && s.revokedAt.None? && s.createdAt <= at < s.lastUsedAt
    ensures RevokeData(s, at).1 == Ok(Revoked) && RehydrateData(RevokeData(s, at).0) == Err(InvalidRehydration)
  {}

  // ---------- runs ----------

  /** Step `i` is the revocation that counts: every earlier one was stamped before creation and refused. */
  predicate IsRevocation(s: Session, steps: seq<Step>, i: nat) {
    && i < |steps| && steps[i].Revoke? && s.createdAt <= steps[i].at
    && forall k :: 0 <= k < i && steps[k].Revoke? ==> steps[k].at < s.createdAt
  }

  /** It is stamped no earlier than the last use and than every touch before it that came before the expiry. */
  predicate NotBeforeUses(s: Session, steps: seq<Step>, i: nat) {
    && i < |steps| && s.lastUsedAt <= steps[i].at
    && forall j :: 0 <= j < i && steps[j].Touch? && steps[j].at < s.expiresAt ==> steps[j].at <= steps[i].at
  }

  ghost predicate RevokedInOrder(s: Session, steps: seq<Step>) {
    forall i: nat :: IsRevocation(s, steps, i) ==> NotBeforeUses(s, steps, i)
  }

  lemma RevocationShifts(s: Session, step: Step, t: Session, rest: seq<Step>, i: nat)
    requires Valid(s) && t == Apply(s, step) && t.revokedAt.None?
    ensures IsRevocation(s, [step] + rest, i + 1) <==> IsRevocation(t, rest, i)
    ensures i < |rest| && IsRevocation(t, rest, i) ==>
      (NotBeforeUses(s, [step] + rest, i + 1) <==> NotBeforeUses(t, rest, i))
  {
    var steps := [step] + rest;
    assert forall k :: 0 <= k < |rest| ==> steps[k + 1] == rest[k];
    if i < |rest| && IsRevocation(t, rest, i) {
      UsesShift(s, step, t, rest, i);
    }
  }

  lemma UsesShift(s: Session, step: Step, t: Session, rest: seq<Step>, i: nat)
    requires Valid(s) && t == Apply(s, step) && t.revokedAt.None? && i < |rest| && s.createdAt <= rest[i].at
    ensures NotBeforeUses(s, [step] + rest, i + 1) <==> NotBeforeUses(t, rest, i)
  {
    var steps := [step] + rest;
    assert forall k :: 0 <= k < |rest| ==> steps[k + 1] == rest[k];
    assert forall j :: 0 < j < |steps| ==> steps[j] == rest[j - 1];
    assert NotBeforeUses(s, steps, i + 1) ==> steps[0] == step;
  }

  lemma OrderShifts(s: Session, step: Step, t: Session, rest: seq<Step>)
    requires Valid(s) && s.revokedAt.None? && t == Apply(s, step) && t.revokedAt.None?
    ensures RevokedInOrder(s, [step] + rest) <==> RevokedInOrder(t, rest)
  {
    var steps := [step] + rest;
    assert !IsRevocation(s, steps, 0);
    forall i: nat ensures
      (IsRevocation(s, steps, i + 1) ==> NotBeforeUses(s, steps, i + 1)) <==>
        (IsRevocation(t, rest, i) ==> NotBeforeUses(t, rest, i))
    {
      RevocationShifts(s, step, t, rest, i);
    }
    if RevokedInOrder(t, rest) {
      forall i: nat | IsRevocation(s, steps, i) ensures NotBeforeUses(s, steps, i) {
        RevocationShifts(s, step, t, rest, i - 1);
      }
    }
  }

  /** The effective revocation settles it: nothing changes afterwards. */
  lemma RevokedFirst(s: Session, step: Step, rest: seq<Step>)
    requires Valid(s) && s.revokedAt.None? && step.Revoke? && s.createdAt <= step.at
    ensures Valid(Run(Apply(s, step), rest)) <==> RevokedInOrder(s, [step] + rest)
  {
    var steps := [step] + rest;
    RevokedForever(Apply(s, step), rest);
    SnapshotClosedIff(s, step);
    assert IsRevocation(s, steps, 0);
    assert NotBeforeUses(s, steps, 0) <==> s.lastUsedAt <= step.at;
    assert steps[0] == step;
    forall i: nat | IsRevocation(s, steps, i) ensures i == 0 {}
  }

  /** Over every run: loadable at the end exactly when the revocation, if any, is no earlier than the uses before it. */
  lemma {:induction false} RunLoadableIff(s: Session, steps: seq<Step>)
    requires Valid(s) && s.revokedAt.None?
    ensures Valid(Run(s, steps)) <==> RevokedInOrder(s, steps)
    decreases |steps|
  {
    if steps != [] {
      var t, rest := Apply(s, steps[0]), steps[1..];
      assert steps == [steps[0]] + rest;
      if steps[0].Revoke? && s.createdAt <= steps[0].at {
        RevokedFirst(s, steps[0], rest);
      } else {
        SnapshotClosedIff(s, steps[0]);
        OrderShifts(s, steps[0], t, rest);
        RunLoadableIff(t, rest);
      }
    }
  }

  lemma CreatedIsValid(s: Session)
    requires CreateData(s).Ok?
    ensures Valid(CreateData(s).value) && CreateData(s).value.revokedAt.None?
  {}

  /**
    From creation on, in terms of the calls alone: the stored session can be loaded exactly when the first
    revocation not before creation is no earlier than every touch before it that came before the expiry.
   */
  lemma RunsStayLoadableIff(s: Session, steps: seq<Step>)
    requires CreateData(s).Ok?
    ensures Valid(Run(CreateData(s).value, steps)) <==>
      forall i: nat, j: nat ::
        (IsRevocation(CreateData(s).value, steps, i) && j < i && steps[j].Touch? && steps[j].at < s.expiresAt)
        ==> steps[j].at <= steps[i].at
  {
    var created := CreateData(s).value;
    CreatedIsValid(s);
    RunLoadableIff(created, steps);
    assert created.lastUsedAt == s.createdAt && created.expiresAt == s.expiresAt;
  }

  /** A clock that never goes back is enough. */
  lemma RunsStayLoadable(s: Session, steps: seq<Step>)
    requires CreateData(s).Ok? && forall i, j :: 0 <= i < j < |steps| ==> steps[i].at <= steps[j].at
    ensures Valid(Run(CreateData(s).value, steps))
  {
    RunsStayLoadableIff(s, steps);
  }

  /** Revocation is final. */
  lemma {:induction false} RevokedForever(s: Session, steps: seq<Step>)
    requires s.revokedAt.Some?
    ensures Run(s, steps) == s
    decreases |steps|
  {
    if steps != [] {
      RevokedForever(s, steps[1..]);
    }
  }

  // ---------- the object ----------

  class AuditorSession {
    const base: Session
    var revokedAt: Option<Time>
    var lastUsedAt: Time
    var updatedAt: Time

    function Data(): Session
      reads this
    {
      base.(revokedAt := revokedAt, lastUsedAt := lastUsedAt, updatedAt := updatedAt)
    }

    constructor From(s: Session)
      ensures Data() == s
    {
      base, revokedAt, lastUsedAt, updatedAt := s, s.revokedAt, s.lastUsedAt, s.updatedAt;
    }

    method Touch(at: Time) returns (r: Result<Transition, Error>)
      modifies this
      ensures (Data(), r) == TouchData(old(Data()), at)
      ensures r == Ok(Used) <==>
        old(revokedAt).None? && at < base.expiresAt && base.createdAt <= at && old(lastUsedAt) <= at
      ensures r == Err(Unavailable) <==> old(revokedAt).Some? || at >= base.expiresAt
      ensures Data() == if r.Ok? then old(Data()).(lastUsedAt := at, updatedAt := at) else old(Data())
    {
      if revokedAt.Some? || at >= base.expiresAt {
        return Err(Unavailable);
      }
      if at < base.createdAt || at < lastUsedAt {
        return Err(InvalidTransition);
      }
      lastUsedAt := at;
      updatedAt := at;
      r := Ok(Used);
    }

    method Revoke(at: Time) returns (r: Result<Transition, Error>)
      modifies this
      ensures (Data(), r) == RevokeData(old(Data()), at)
      ensures r == Ok(Revoked) <==> old(revokedAt).None? && base.createdAt <= at
      ensures r == Ok(AlreadyRevoked) <==> old(revokedAt).Some?
      ensures Data() == if r == Ok(Revoked) then old(Data()).(revokedAt := Some(at), updatedAt := at) else old(Data())
    {
      if revokedAt.Some? {
        return Ok(AlreadyRevoked);
      }
      if at < base.createdAt {
        return Err(InvalidTransition);
      }
      revokedAt := Some(at);
      updatedAt := at;
      r := Ok(Revoked);
    }
  }
}
