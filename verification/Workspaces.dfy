/** A workspace and its members. */
module Workspaces {
  import opened Wrappers
  import opened Uuids
  import opened Clock

  datatype Role = Owner | Admin

  datatype Membership = Membership(userId: Uuid, workspaceId: Uuid, role: Role, createdAt: Time)

  datatype WorkspaceError = InvalidMemberships | AlreadyMember
  datatype MemberError = Unavailable | NotFound | LastOwner | SelfRemoval

  // ---------- the member list ----------

  /** The position of the user's first membership, or the length of the list. */
  function Find(m: seq<Membership>, user: Uuid): (i: nat)
    ensures i <= |m| && (i < |m| ==> m[i].userId == user)
    ensures forall j :: 0 <= j < i ==> m[j].userId != user
  {
    if m == [] || m[0].userId == user then 0 else 1 + Find(m[1..], user)
  }

  function RoleFor(m: seq<Membership>, user: Uuid): Option<Role> {
    var i := Find(m, user); if i < |m| then Some(m[i].role) else None
  }

  function Owners(m: seq<Membership>): nat {
    if m == [] then 0 else (if m[0].role == Owner then 1 else 0) + Owners(m[1..])
  }

  predicate Scoped(m: seq<Membership>, id: Uuid) {
    forall i :: 0 <= i < |m| ==> m[i].workspaceId == id
  }

  predicate UniqueUsers(m: seq<Membership>) {
    forall i, j :: 0 <= i < j < |m| ==> m[i].userId != m[j].userId
  }

  predicate HasOwner(m: seq<Membership>) {
    exists i :: 0 <= i < |m| && m[i].role == Owner
  }

  /** What rehydration accepts. */
  predicate Sound(m: seq<Membership>, id: Uuid) {
    Scoped(m, id) && UniqueUsers(m) && HasOwner(m)
  }

  function AddData(m: seq<Membership>, id: Uuid, user: Uuid, role: Role, at: Time)
    : (seq<Membership>, Result<(), WorkspaceError>)
  {
    if RoleFor(m, user).Some? then (m, Err(AlreadyMember)) else (m + [Membership(user, id, role, at)], Ok(()))
  }

  function RemoveData(m: seq<Membership>, actor: Uuid, target: Uuid): (seq<Membership>, Result<(), MemberError>) {
    if RoleFor(m, actor).None? then (m, Err(Unavailable))
    else
      var i := Find(m, target);
      if i == |m| then (m, Err(NotFound))
      else if m[i].role == Owner && Owners(m) == 1 then (m, Err(LastOwner))
      else if actor == target then (m, Err(SelfRemoval))
      else (m[..i] + m[i + 1..], Ok(()))
  }

  // ---------- what a removal does ----------

  lemma {:induction false} OwnersPositive(m: seq<Membership>)
    ensures Owners(m) > 0 <==> HasOwner(m)
  {
    if m != [] {
      OwnersPositive(m[1..]);
      if HasOwner(m[1..]) {
        var i :| 0 <= i < |m[1..]| && m[1..][i].role == Owner;
        assert m[i + 1].role == Owner;
      }
      if HasOwner(m) && m[0].role != Owner {
        var i :| 0 <= i < |m| && m[i].role == Owner;
        assert m[1..][i - 1].role == Owner;
      }
    }
  }

  lemma {:induction false} OwnersWithout(m: seq<Membership>, i: nat)
    requires i < |m|
    ensures Owners(m[..i] + m[i + 1..]) == Owners(m) - if m[i].role == Owner then 1 else 0
  {
    var r := m[..i] + m[i + 1..];
    if i == 0 {
      assert r == m[1..];
    } else {
      OwnersWithout(m[1..], i - 1);
      assert r[1..] == m[1..][..i - 1] + m[1..][i..];
    }
  }

  lemma WithoutOne(m: seq<Membership>, i: nat, x: Membership)
    requires UniqueUsers(m) && i < |m|
    ensures x in m[..i] + m[i + 1..] <==> x in m && x.userId != m[i].userId
  {
    var r := m[..i] + m[i + 1..];
    if x in m && x.userId != m[i].userId {
      var k :| 0 <= k < |m| && m[k] == x;
      assert k < i ==> r[k] == x;
      assert k > i ==> r[k - 1] == x;
    }
    if x in r {
      var k :| 0 <= k < |r| && r[k] == x;
      assert r[k] == if k < i then m[k] else m[k + 1];
    }
  }

  lemma NotAMember(m: seq<Membership>, user: Uuid)
    requires forall x :: x in m ==> x.userId != user
    ensures RoleFor(m, user).None?
  {}

  /** A successful removal drops exactly the target and keeps the actor. */
  lemma RemovalIsExact(m: seq<Membership>, id: Uuid, actor: Uuid, target: Uuid)
    requires Sound(m, id) && RemoveData(m, actor, target).1.Ok?
    ensures var r := RemoveData(m, actor, target).0;
      && (forall x :: x in r <==> x in m && x.userId != target)
      && RoleFor(r, target).None? && RoleFor(r, actor) == RoleFor(m, actor) && |r| == |m| - 1
  {
    var i := Find(m, target);
    var r := m[..i] + m[i + 1..];
    forall x ensures x in r <==> x in m && x.userId != target {
      WithoutOne(m, i, x);
    }
    NotAMember(r, target);
    RemovedUnique(m, i);
    SameRole(m, r, actor, m[Find(m, actor)]);
  }

  lemma RemovedUnique(m: seq<Membership>, i: nat)
    requires UniqueUsers(m) && i < |m|
    ensures UniqueUsers(m[..i] + m[i + 1..])
  {}

  /** With unique users a member's role is the role of any entry of theirs. */
  lemma SameRole(m: seq<Membership>, r: seq<Membership>, user: Uuid, x: Membership)
    requires UniqueUsers(r) && x in r && x.userId == user && RoleFor(m, user) == Some(x.role)
    ensures RoleFor(r, user) == RoleFor(m, user)
  {
    var k :| 0 <= k < |r| && r[k] == x;
    assert Find(r, user) == k;
  }

  /** Somebody else owns the workspace as well. */
  ghost predicate OtherOwner(m: seq<Membership>, user: Uuid) {
    exists x :: x in m && x.role == Owner && x.userId != user
  }

  lemma LastOwnerIff(m: seq<Membership>, i: nat)
    requires UniqueUsers(m) && i < |m| && m[i].role == Owner
    ensures Owners(m) == 1 <==> !OtherOwner(m, m[i].userId)
  {
    var r := m[..i] + m[i + 1..];
    OwnersWithout(m, i);
    OwnersPositive(r);
    if HasOwner(r) {
      var k :| 0 <= k < |r| && r[k].role == Owner;
      WithoutOne(m, i, r[k]);
    }
    if OtherOwner(m, m[i].userId) {
      var x :| x in m && x.role == Owner && x.userId != m[i].userId;
      WithoutOne(m, i, x);
      var k :| 0 <= k < |r| && r[k] == x;
    }
  }

  /** The role of a member is the one of their entry; there is no other. */
  lemma RoleForIff(m: seq<Membership>, user: Uuid)
    requires UniqueUsers(m)
    ensures RoleFor(m, user).None? <==> forall x :: x in m ==> x.userId != user
    ensures forall x :: x in m && x.userId == user ==> RoleFor(m, user) == Some(x.role)
  {
    forall x | x in m && x.userId == user ensures RoleFor(m, user) == Some(x.role) {
      SameRole(m, m, user, m[Find(m, user)]);
      var k :| 0 <= k < |m| && m[k] == x;
      assert Find(m, user) == k;
    }
  }

  /**
    When a removal goes through, and why it is refused: the actor must be a member, the target another one, and an owner
    may go only if another owner stays.
   */
  lemma RemovesExactly(m: seq<Membership>, id: Uuid, actor: Uuid, target: Uuid)
    requires Sound(m, id)
    ensures var members := set x | x in m :: x.userId;
      var last := exists x :: x in m && x.userId == target && x.role == Owner && !OtherOwner(m, target);
      RemoveData(m, actor, target).1 ==
        if actor !in members then Err(Unavailable)
        else if target !in members then Err(NotFound)
        else if last then Err(LastOwner)
        else if actor == target then Err(SelfRemoval)
        else Ok(())
  {
    RoleForIff(m, actor);
    var i := Find(m, target);
    if i < |m| {
      assert m[i] in m;
      if m[i].role == Owner {
        LastOwnerIff(m, i);
      }
      RoleForIff(m, target);
    }
  }

  lemma RemovalKeepsSound(m: seq<Membership>, id: Uuid, actor: Uuid, target: Uuid)
    requires Sound(m, id)
    ensures Sound(RemoveData(m, actor, target).0, id)
    ensures RemoveData(m, actor, target).1.Err? ==> RemoveData(m, actor, target).0 == m
  {
    if RemoveData(m, actor, target).1.Ok? {
      var i := Find(m, target);
      OwnersPositive(m);
      OwnersWithout(m, i);
      RemovedUnique(m, i);
      OwnersPositive(m[..i] + m[i + 1..]);
    }
  }

  lemma AdditionKeepsSound(m: seq<Membership>, id: Uuid, user: Uuid, role: Role, at: Time)
    requires Sound(m, id)
    ensures var (r, result) := AddData(m, id, user, role, at);
      && Sound(r, id) && RoleFor(r, user).Some? && m <= r
      && (result.Ok? ==> RoleFor(r, user) == Some(role)) && (result.Err? ==> r == m)
  {
    var (r, result) := AddData(m, id, user, role, at);
    if result.Ok? {
      var i :| 0 <= i < |m| && m[i].role == Owner;
      assert r[i].role == Owner && r[|m|] == Membership(user, id, role, at);
      assert Find(r, user) == |m|;
    }
  }

  // ---------- every run ----------

  datatype Step = Add(user: Uuid, role: Role, at: Time) | Remove(actor: Uuid, target: Uuid)

  function Apply(m: seq<Membership>, id: Uuid, step: Step): seq<Membership> {
    match step
    case Add(user, role, at) => AddData(m, id, user, role, at).0
    case Remove(actor, target) => RemoveData(m, actor, target).0
  }

  function Run(m: seq<Membership>, id: Uuid, steps: seq<Step>): seq<Membership>
    decreases |steps|
  {
    if steps == [] then m else Run(Apply(m, id, steps[0]), id, steps[1..])
  }

  /**
    Memberships stay scoped, unique and owned over every sequence of adds and removes; rehydration accepts each of
    them.
   */
  lemma {:induction false} RunsStaySound(m: seq<Membership>, id: Uuid, steps: seq<Step>)
    requires Sound(m, id)
    ensures Sound(Run(m, id, steps), id)
    decreases |steps|
  {
    if steps != [] {
      match steps[0] {
        case Add(user, role, at) => AdditionKeepsSound(m, id, user, role, at);
        case Remove(actor, target) => RemovalKeepsSound(m, id, actor, target);
      }
      RunsStaySound(Apply(m, id, steps[0]), id, steps[1..]);
    }
  }

  // ---------- the object ----------

  class Workspace {
    const id: Uuid
    var memberships: seq<Membership>

    constructor CreateOwned(workspace: Uuid, owner: Uuid, at: Time)
      ensures id == workspace && memberships == [Membership(owner, workspace, Owner, at)] && Sound(memberships, id)
    {
      id, memberships := workspace, [Membership(owner, workspace, Owner, at)];
      new;
      assert memberships[0].role == Owner;
    }

    constructor Of(workspace: Uuid, m: seq<Membership>)
      ensures id == workspace && memberships == m
    {
      id, memberships := workspace, m;
    }

    static method Rehydrate(workspace: Uuid, m: seq<Membership>) returns (r: Result<Workspace, WorkspaceError>)
      ensures r.Ok? <==> Sound(m, workspace)
      ensures r.Ok? ==> fresh(r.value) && r.value.id == workspace && r.value.memberships == m
      ensures r.Err? ==> r == Err(InvalidMemberships)
    {
      var scoped, unique, owned := true, true, false;
      var seen: set<Uuid> := {};
      for n := 0 to |m|
        invariant scoped <==> forall i :: 0 <= i < n ==> m[i].workspaceId == workspace
        invariant seen == set i | 0 <= i < n :: m[i].userId
        invariant unique <==> forall i, j :: 0 <= i < j < n ==> m[i].userId != m[j].userId
        invariant owned <==> exists i :: 0 <= i < n && m[i].role == Owner
      {
        scoped := scoped && m[n].workspaceId == workspace;
        unique := unique && m[n].userId !in seen;
        seen := seen + {m[n].userId};
        owned := owned || m[n].role == Owner;
      }
      if !scoped || !unique || !owned {
        return Err(InvalidMemberships);
      }
      var w := new Workspace.Of(workspace, m);
      r := Ok(w);
    }

    method AddMember(user: Uuid, role: Role, at: Time) returns (r: Result<(), WorkspaceError>)
      modifies this
      ensures (memberships, r) == AddData(old(memberships), id, user, role, at)
      ensures r.Ok? <==> forall x :: x in old(memberships) ==> x.userId != user
      ensures memberships == if r.Ok? then old(memberships) + [Membership(user, id, role, at)] else old(memberships)
    {
      if RoleFor(memberships, user).Some? {
        return Err(AlreadyMember);
      }
      memberships := memberships + [Membership(user, id, role, at)];
      r := Ok(());
    }

    method RemoveMember(actor: Uuid, target: Uuid) returns (r: Result<(), MemberError>)
      modifies this
      ensures (memberships, r) == RemoveData(old(memberships), actor, target)
    {
      if RoleFor(memberships, actor).None? {
        return Err(Unavailable);
      }
      var index := Find(memberships, target);
      if index == |memberships| {
        return Err(NotFound);
      }
      if memberships[index].role == Owner && Owners(memberships) == 1 {
        return Err(LastOwner);
      }
      if actor == target {
        return Err(SelfRemoval);
      }
      memberships := memberships[..index] + memberships[index + 1..];
      r := Ok(());
    }
  }
}
