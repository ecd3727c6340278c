/** The users router, mounted at `/api/users`: `protect` and `authorize('admin')` are registered
    for the whole router, so they run before any route, matched or not. */
module UserRoutes {
  import opened Common
  import opened Router
  import UserController
  import BookingController

  /** The routes in declaration order; `/stats` and `/deleted` come before `/:id`. */
  const UserRouter := Table([Authenticated, Roles({Admin})], [
    Route(Get, [], [], GetUsers),
    Route(Get, [Lit("stats")], [], GetUserStats),
    Route(Get, [Lit("deleted")], [], GetDeletedUsers),
    Route(Get, [Param], [], GetUser),
    Route(Put, [Param], [], UpdateUser),
    Route(Delete, [Param], [], DeleteUser),
    Route(Put, [Param, Lit("restore")], [], RestoreUser),
    Route(Delete, [Param, Lit("permanent-delete")], [], PermanentlyDeleteUser)])

  /** Without a token every request is refused with 401, and a client or personnel caller is
      refused with 403, whatever the method and path. */
  lemma OnlyAdminsPass(verb: Verb, path: seq<string>, caller: Option<Caller>)
    ensures caller.None? ==> Dispatch(UserRouter, verb, path, caller) == Unauthenticated
    ensures caller.Some? && caller.value.role != Admin ==> Dispatch(UserRouter, verb, path, caller) == Refused
    ensures Dispatch(UserRouter, verb, path, caller).Run? ==> caller.Some? && caller.value.role == Admin
  {
    if caller.None? {
      assert !Admits(UserRouter.prelude[0], caller);
    } else if caller.value.role != Admin {
      assert Admits(UserRouter.prelude[0], caller) && !Admits(UserRouter.prelude[1], caller);
    }
  }

  /** For an administrator, `/stats` and `/deleted` are the statistics and the deleted list,
      not a user with that id. */
  lemma NamedPathsBeforeId(admin: Caller)
    requires admin.role == Admin
    ensures Dispatch(UserRouter, Get, ["stats"], Some(admin)) == Run(GetUserStats)
    ensures Dispatch(UserRouter, Get, ["deleted"], Some(admin)) == Run(GetDeletedUsers)
  {
    assert FirstMatching(UserRouter.routes, Get, ["stats"], 1);
    assert ["deleted"][0] != "stats";
    assert FirstMatching(UserRouter.routes, Get, ["deleted"], 2);
  }

  /** Neither the router nor `deleteUser` stops an administrator from deleting their own account. */
  lemma AdminMayDeleteSelf(d: UserController.Directory, admin: Caller, seg: string, now: Time)
    requires admin.role == Admin && seg != ""
    requires admin.id in d && !IsDeleted(d[admin.id].isDeleted)
    ensures Dispatch(UserRouter, Delete, [seg], Some(admin)) == Run(DeleteUser)
    ensures UserController.SoftDeleteOutcome(d, admin.id, now).code == Ok
  {
    assert forall j :: 0 <= j < 5 ==> !Matches(UserRouter.routes[j], Delete, [seg]);
    assert FirstMatching(UserRouter.routes, Delete, [seg], 5);
  }

  /** `permanentlyDeleteUser` removes the account and leaves its bookings in place; `getBooking` on
      one of them then answers 500, to an administrator as well, where it answered 200 before. */
  lemma PurgeOrphansBookings(d: UserController.Directory, s: BookingController.Store, admin: Caller,
                             owner: Id, id: Id)
    requires admin.role == Admin && owner in d
    requires id in s && s[id].user == owner && !IsDeleted(s[id].isDeleted)
    ensures BookingController.GetBooking(s, d.Keys, admin, id).code == Ok
    ensures var purged := UserController.PurgeOutcome(d, owner);
      purged.code == Ok &&
      BookingController.GetBooking(s, purged.store.Keys, admin, id).code == ServerError
  {
  }
}
