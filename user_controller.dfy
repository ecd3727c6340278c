/** The account administration handlers over the user store: listings, one user, update, the
    soft-delete, restore and permanent-delete lifecycle, and the role statistics. */
module UserController {
  import opened Common
  import opened Listing
  import opened UserSchema

  type Directory = map<Id, User>

  predicate AllValid(d: Directory)
  {
    forall id :: id in d ==> ValidUser(d[id])
  }

  /** The unique index on `email`: it covers deleted accounts as well. */
  predicate UniqueEmails(d: Directory)
  {
    forall a, b :: a in d && b in d && a != b ==> d[a].email != d[b].email
  }

  /** Some account other than `id` already holds `email`. */
  predicate EmailTaken(d: Directory, id: Id, email: string)
  {
    exists k :: k in d && k != id && d[k].email == email
  }

  /** The non-deleted accounts whose role is the one asked for, when a non-empty role is asked for. */
  ghost function UserIds(d: Directory, role: Option<string>): (r: set<Id>)
    ensures forall id :: id in r <==> (id in d && Visible(d[id].isDeleted) &&
      (role.Some? && role.value != "" ==> RoleName(d[id].role) == role.value))
  {
    set id | id in d && Visible(d[id].isDeleted) && (role.Some? && role.value != "" ==> RoleName(d[id].role) == role.value)
  }

  /** `getUsers`: those accounts, newest first. */
  ghost function GetUsers(d: Directory, role: Option<string>): (r: seq<Id>)
    ensures forall i :: 0 <= i < |r| ==> r[i] in d
    ensures forall id :: id in r <==> (id in d && Visible(d[id].isDeleted) &&
      (role.Some? && role.value != "" ==> RoleName(d[id].role) == role.value))
    ensures Distinct(r) && SortedDesc(d, r, UserCreatedAt)
  {
    NewestFirst(d, UserIds(d, role), UserCreatedAt)
  }

  /** An unknown role matches nobody; it is not refused. */
  lemma UnknownRoleListsNobody(d: Directory, role: string)
    requires ParseRole(role).None? && role != ""
    ensures GetUsers(d, Some(role)) == []
  {
  }

  /** `getUser`: 404 for a missing or deleted account; the password is not part of the answer. */
  function GetUser(d: Directory, id: Id): (r: Reply<User>)
    ensures r.code == NotFound <==> id !in d || IsDeleted(d[id].isDeleted)
    ensures r.code == Ok <==> id in d && !IsDeleted(d[id].isDeleted)
    ensures r.code == Ok ==> r.data == Some(d[id].(password := None))
    ensures r.code != Ok ==> r.data == None
  {
    if id !in d || IsDeleted(d[id].isDeleted) then Reply(NotFound, None) else Reply(Ok, Some(Selected(d[id])))
  }

  /** `updateUser`: 404 for a missing or deleted account; then the validators and the unique
      index (a failure of either is the catch block's 500); otherwise the present fields are
      overwritten. */
  function UpdateUserOutcome(d: Directory, id: Id, patch: UserInput): (r: Outcome<User>)
    ensures r.code == NotFound <==> id !in d || IsDeleted(d[id].isDeleted)
    ensures r.code == ServerError <==> (id in d && !IsDeleted(d[id].isDeleted) &&
      (!InputValid(patch) || (patch.email.Some? && EmailTaken(d, id, Lower(patch.email.value)))))
    ensures r.code == Ok <==> (id in d && !IsDeleted(d[id].isDeleted) && InputValid(patch) &&
      !(patch.email.Some? && EmailTaken(d, id, Lower(patch.email.value))))
    ensures r.code == Ok ==> OnlyAt(d, r.store, id) && r.store[id] == ApplyUserPatch(d[id], patch)
    ensures r.code != Ok ==> r.store == d
  {
    if id !in d || IsDeleted(d[id].isDeleted) then Outcome(NotFound, d)
    else if !InputValid(patch) then Outcome(ServerError, d)
    else if patch.email.Some? && EmailTaken(d, id, Lower(patch.email.value)) then Outcome(ServerError, d)
    else Outcome(Ok, d[id := ApplyUserPatch(d[id], patch)])
  }

  /** An update keeps every account valid and every address held by one account only. */
  lemma UpdateKeepsInvariants(d: Directory, id: Id, patch: UserInput)
    requires AllValid(d) && UniqueEmails(d)
    ensures AllValid(UpdateUserOutcome(d, id, patch).store)
    ensures UniqueEmails(UpdateUserOutcome(d, id, patch).store)
  {
    if id in d && !IsDeleted(d[id].isDeleted) && InputValid(patch) &&
       !(patch.email.Some? && EmailTaken(d, id, Lower(patch.email.value))) {
      var u := ApplyUserPatch(d[id], patch);
      var e := d[id := u];
      assert UpdateUserOutcome(d, id, patch).store == e;
      PatchKeepsValid(d[id], patch);
      forall k | k in e
        ensures ValidUser(e[k])
      {
        if k != id {
          assert e[k] == d[k];
        }
      }
      forall a, b | a in e && b in e && a != b
        ensures e[a].email != e[b].email
      {
        if a == id || b == id {
          var other := if a == id then b else a;
          assert e[other] == d[other] && other != id;
          if patch.email.None? {
            assert u.email == d[id].email;
          }
        }
      }
    }
  }

  /** `deleteUser`: 404 for a missing or already deleted account; otherwise only the flag and the
      deletion date change. */
  function SoftDeleteOutcome(d: Directory, id: Id, now: Time): (r: Outcome<User>)
    ensures r.code == NotFound <==> id !in d || IsDeleted(d[id].isDeleted)
    ensures r.code == Ok <==> id in d && !IsDeleted(d[id].isDeleted)
    ensures r.code != Ok ==> r.store == d
    ensures r.code == Ok ==> OnlyAt(d, r.store, id)
    ensures r.code == Ok ==> r.store[id] == d[id].(isDeleted := Deleted, deletedAt := Some(now))
    ensures AllValid(d) ==> AllValid(r.store)
    ensures UniqueEmails(d) ==> UniqueEmails(r.store)
  {
    if id !in d || IsDeleted(d[id].isDeleted) then Outcome(NotFound, d)
    else Outcome(Ok, d[id := d[id].(isDeleted := Deleted, deletedAt := Some(now))])
  }

  /** `restoreUser`: 404 for a missing account, 400 for one that is not deleted. */
  function RestoreOutcome(d: Directory, id: Id): (r: Outcome<User>)
    ensures r.code == NotFound <==> id !in d
    ensures r.code == BadRequest <==> id in d && !IsDeleted(d[id].isDeleted)
    ensures r.code == Ok <==> id in d && IsDeleted(d[id].isDeleted)
    ensures r.code != Ok ==> r.store == d
    ensures r.code == Ok ==> OnlyAt(d, r.store, id)
    ensures r.code == Ok ==> r.store[id] == d[id].(isDeleted := NotDeleted, deletedAt := None)
    ensures AllValid(d) ==> AllValid(r.store)
    ensures UniqueEmails(d) ==> UniqueEmails(r.store)
  {
    if id !in d then Outcome(NotFound, d)
    else if !IsDeleted(d[id].isDeleted) then Outcome(BadRequest, d)
    else Outcome(Ok, d[id := d[id].(isDeleted := NotDeleted, deletedAt := None)])
  }

  /** `permanentlyDeleteUser`: removed whatever its flag; 404 exactly when absent. */
  function PurgeOutcome(d: Directory, id: Id): (r: Outcome<User>)
    ensures r.code == NotFound <==> id !in d
    ensures r.code == Ok <==> id in d
    ensures r.store.Keys == d.Keys - {id}
    ensures forall k :: k in r.store ==> r.store[k] == d[k]
    ensures AllValid(d) ==> AllValid(r.store)
    ensures UniqueEmails(d) ==> UniqueEmails(r.store)
  {
    if id !in d then Outcome(NotFound, d) else Outcome(Ok, d - {id})
  }

  /** `getDeletedUsers`: exactly the deleted accounts, most recently deleted first. */
  ghost function DeletedUsers(d: Directory): (r: seq<Id>)
    ensures forall i :: 0 <= i < |r| ==> r[i] in d
    ensures forall id :: id in r <==> id in d && IsDeleted(d[id].isDeleted)
    ensures Distinct(r) && SortedDesc(d, r, UserDeletedAt)
  {
    NewestFirst(d, (set id | id in d && IsDeleted(d[id].isDeleted)), UserDeletedAt)
  }

  /** Every account is in exactly one of the default listing and the deleted listing. */
  lemma ListingsPartition(d: Directory, id: Id)
    requires id in d
    ensures id in GetUsers(d, None) <==> id !in DeletedUsers(d)
  {
  }

  /** Deleting then restoring an account changes only its deletion fields, and the account is
      listed again. */
  lemma {:induction false} DeleteThenRestoreUser(d: Directory, id: Id, now: Time)
    requires SoftDeleteOutcome(d, id, now).code == Ok
    ensures var deleted := SoftDeleteOutcome(d, id, now).store;
      && id !in GetUsers(deleted, None)
      && GetUser(deleted, id).code == NotFound
      && RestoreOutcome(deleted, id).code == Ok
      && RestoreOutcome(deleted, id).store == d[id := d[id].(isDeleted := NotDeleted, deletedAt := None)]
      && id in GetUsers(RestoreOutcome(deleted, id).store, None)
  {
    var deleted := SoftDeleteOutcome(d, id, now).store;
    assert deleted == d[id := d[id].(isDeleted := Deleted, deletedAt := Some(now))];
    var restored := RestoreOutcome(deleted, id).store;
    assert restored == deleted[id := deleted[id].(isDeleted := NotDeleted, deletedAt := None)];
    assert restored == d[id := d[id].(isDeleted := NotDeleted, deletedAt := None)];
  }

  // ---------------------------------------------------------------- getUserStats

  /** The non-deleted accounts with one role. */
  ghost function RoleGroup(d: Directory, role: Role): (g: set<Id>)
    ensures forall id :: id in g <==> id in d && Visible(d[id].isDeleted) && d[id].role == role
  {
    set id | id in d && Visible(d[id].isDeleted) && d[id].role == role
  }

  /** One entry of `recentUsers`: the fields `select('name email createdAt')` keeps. */
  datatype RecentUser = RecentUser(id: Id, name: string, email: string, createdAt: Time)

  datatype UserStats = UserStats(
    totalUsers: nat,
    clientCount: nat,
    adminCount: nat,
    personnelCount: nat,
    recentUsers: seq<RecentUser>)

  function Min(a: int, b: int): int
  {
    if a <= b then a else b
  }

  /** The first `n` accounts of a newest-first listing are the `n` newest ones. */
  lemma {:induction false} PrefixIsNewest(d: Directory, ids: set<Id>, n: nat, id: Id, i: nat)
    requires ids <= d.Keys && n <= |ids| && i < n
    requires id in ids && id !in NewestFirst(d, ids, UserCreatedAt)[..n]
    ensures d[id].createdAt <= d[NewestFirst(d, ids, UserCreatedAt)[i]].createdAt
  {
    var all := NewestFirst(d, ids, UserCreatedAt);
    var j :| 0 <= j < |all| && all[j] == id;
    assert i < j;
  }

  /** The `recentUsers` query: the first five accounts of the newest-first listing of the
      non-deleted accounts, each reduced to its selected fields. */
  ghost function RecentUsers(d: Directory): (r: seq<RecentUser>)
    ensures |r| == Min(5, |UserIds(d, None)|)
    ensures forall i :: 0 <= i < |r| ==> r[i].id in UserIds(d, None)
    ensures forall i, j :: 0 <= i < j < |r| ==> r[i].id != r[j].id && r[i].createdAt >= r[j].createdAt
    ensures forall i, id :: (0 <= i < |r| && id in UserIds(d, None) &&
      (forall k :: 0 <= k < |r| ==> r[k].id != id)) ==> d[id].createdAt <= r[i].createdAt
    ensures forall i :: 0 <= i < |r| ==>
      r[i] == RecentUser(r[i].id, d[r[i].id].name, d[r[i].id].email, d[r[i].id].createdAt)
  {
    TopFacts(d);
    Project(d, Top(d))
  }

  /** The ids of the five newest non-deleted accounts, newest first. */
  ghost function Top(d: Directory): (top: seq<Id>)
    ensures forall i :: 0 <= i < |top| ==> top[i] in d
  {
    var visible := UserIds(d, None);
    NewestFirst(d, visible, UserCreatedAt)[..Min(5, |visible|)]
  }

  lemma TopFacts(d: Directory)
    ensures |Top(d)| == Min(5, |UserIds(d, None)|)
    ensures forall i :: 0 <= i < |Top(d)| ==> Top(d)[i] in UserIds(d, None)
    ensures forall i, j :: 0 <= i < j < |Top(d)| ==> Top(d)[i] != Top(d)[j] && d[Top(d)[i]].createdAt >= d[Top(d)[j]].createdAt
    ensures forall i, id :: (0 <= i < |Top(d)| && id in UserIds(d, None) && id !in Top(d)) ==>
      d[id].createdAt <= d[Top(d)[i]].createdAt
  {
    var visible := UserIds(d, None);
    var top := Top(d);
    forall i, id | 0 <= i < |top| && id in visible && id !in top
      ensures d[id].createdAt <= d[top[i]].createdAt
    {
      PrefixIsNewest(d, visible, |top|, id, i);
    }
  }

  /** Each listed account reduced to the selected fields. */
  function Project(d: Directory, ids: seq<Id>): (r: seq<RecentUser>)
    requires forall i :: 0 <= i < |ids| ==> ids[i] in d
    ensures |r| == |ids|
    ensures forall i :: 0 <= i < |ids| ==> r[i] == RecentUser(ids[i], d[ids[i]].name, d[ids[i]].email, d[ids[i]].createdAt)
  {
    seq(|ids|, i requires 0 <= i < |ids| => RecentUser(ids[i], d[ids[i]].name, d[ids[i]].email, d[ids[i]].createdAt))
  }

  /** `getUserStats`: the non-deleted accounts counted in all and by role, and the five newest. */
  ghost function UserStatsOf(d: Directory): (r: UserStats)
    ensures r.totalUsers == r.clientCount + r.adminCount + r.personnelCount
    ensures r.totalUsers == |UserIds(d, None)|
    ensures r.clientCount == |RoleGroup(d, Client)| && r.adminCount == |RoleGroup(d, Admin)|
    ensures r.personnelCount == |RoleGroup(d, Personnel)|
    ensures |r.recentUsers| <= 5 && |r.recentUsers| == Min(5, r.totalUsers)
    ensures r.recentUsers == RecentUsers(d)
  {
    RolesPartition(d);
    UserStats(|UserIds(d, None)|, |RoleGroup(d, Client)|, |RoleGroup(d, Admin)|, |RoleGroup(d, Personnel)|,
              RecentUsers(d))
  }

  /** The three role groups split the non-deleted accounts, since the role enum is closed. */
  lemma RolesPartition(d: Directory)
    ensures |UserIds(d, None)| == |RoleGroup(d, Client)| + |RoleGroup(d, Admin)| + |RoleGroup(d, Personnel)|
  {
    var c, a, p := RoleGroup(d, Client), RoleGroup(d, Admin), RoleGroup(d, Personnel);
    assert UserIds(d, None) == c + a + p;
    DisjointCard(c, a);
    DisjointCard(c + a, p);
  }

  /** The user collection; each method is one handler that writes to it. */
  class UserDirectory {
    var users: Directory

    ghost predicate Valid()
      reads this
    {
      AllValid(users) && UniqueEmails(users)
    }

    constructor ()
      ensures Valid() && users == map[]
    {
      users := map[];
    }

    method UpdateUser(id: Id, patch: UserInput) returns (code: HttpStatus)
      requires Valid()
      modifies this
      ensures Valid()
      ensures var o := UpdateUserOutcome(old(users), id, patch);
        code == o.code && users == o.store
    {
      if id !in users || IsDeleted(users[id].isDeleted) {
        return NotFound;
      }
      if !InputValid(patch) {
        return ServerError;
      }
      if patch.email.Some? && EmailTaken(users, id, Lower(patch.email.value)) {
        return ServerError;
      }
      UpdateKeepsInvariants(users, id, patch);
      ghost var before := users;
      users := users[id := ApplyUserPatch(users[id], patch)];
      code := Ok;
      assert users == UpdateUserOutcome(before, id, patch).store;
    }

    method DeleteUser(id: Id, now: Time) returns (code: HttpStatus)
      requires Valid()
      modifies this
      ensures Valid()
      ensures var o := SoftDeleteOutcome(old(users), id, now);
        code == o.code && users == o.store
    {
      if id !in users || IsDeleted(users[id].isDeleted) {
        return NotFound;
      }
      var user := users[id];
      user := user.(isDeleted := Deleted);
      user := user.(deletedAt := Some(now));
      users := users[id := user];
      code := Ok;
    }

    method RestoreUser(id: Id) returns (code: HttpStatus)
      requires Valid()
      modifies this
      ensures Valid()
      ensures var o := RestoreOutcome(old(users), id);
        code == o.code && users == o.store
    {
      if id !in users {
        return NotFound;
      }
      var user := users[id];
      if !IsDeleted(user.isDeleted) {
        return BadRequest;
      }
      user := user.(isDeleted := NotDeleted);
      user := user.(deletedAt := None);
      users := users[id := user];
      code := Ok;
    }

    method PermanentlyDeleteUser(id: Id) returns (code: HttpStatus)
      requires Valid()
      modifies this
      ensures Valid()
      ensures var o := PurgeOutcome(old(users), id);
        code == o.code && users == o.store
    {
      if id !in users {
        return NotFound;
      }
      users := users - {id};
      code := Ok;
    }
  }
}
