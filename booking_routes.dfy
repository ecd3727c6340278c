/** The bookings router, mounted at `/api/bookings`: every route behind `protect`, some behind
    `authorize`. Ownership is not checked here; the handlers check it. */
module BookingRoutes {
  import opened Common
  import opened Router
  import BookingController

  const AdminOnly := [Roles({Admin})]

  /** The routes in declaration order; `/admin...` and `/assigned/me` come before `/:id`. */
  const BookingRouter := Table([Authenticated], [
    Route(Get, [], [], GetMyBookings),
    Route(Post, [], [], CreateBooking),
    Route(Get, [Lit("admin")], AdminOnly, GetAllBookings),
    Route(Get, [Lit("admin"), Lit("deleted")], AdminOnly, GetDeletedBookings),
    Route(Get, [Lit("assigned"), Lit("me")], [Roles({Personnel})], GetAssignedToMe),
    Route(Get, [Lit("admin"), Lit("stats")], AdminOnly, GetBookingStats),
    Route(Get, [Param], [], GetBooking),
    Route(Delete, [Param], [], DeleteBooking),
    Route(Put, [Param, Lit("status")], AdminOnly, UpdateBookingStatus),
    Route(Put, [Param, Lit("assign")], AdminOnly, AssignBooking),
    Route(Put, [Param, Lit("restore")], AdminOnly, RestoreBooking),
    Route(Delete, [Param, Lit("permanent-delete")], AdminOnly, PermanentlyDeleteBooking)])

  /** The handlers only an administrator reaches. */
  const AdminHandlers := {GetAllBookings, GetDeletedBookings, GetBookingStats, UpdateBookingStatus,
                          AssignBooking, RestoreBooking, PermanentlyDeleteBooking}

  /** No request without a valid token reaches anything, not even an unknown path. */
  lemma EveryBookingRouteAuthenticated(verb: Verb, path: seq<string>)
    ensures Dispatch(BookingRouter, verb, path, None) == Unauthenticated
  {
    assert !Admits(BookingRouter.prelude[0], None);
  }

  /** Every route naming an administrator handler carries `authorize('admin')`. */
  lemma AdminRoutesGuarded(h: Handler)
    requires h in AdminHandlers
    ensures forall i :: 0 <= i < |BookingRouter.routes| && BookingRouter.routes[i].handler == h ==>
      Roles({Admin}) in BookingRouter.routes[i].gates
  {
    forall i | 0 <= i < |BookingRouter.routes| && BookingRouter.routes[i].handler == h
      ensures Roles({Admin}) in BookingRouter.routes[i].gates
    {
      assert i in {2, 3, 5, 8, 9, 10, 11};
      assert BookingRouter.routes[i].gates == AdminOnly;
    }
  }

  /** List-all, the deleted list, the stats, status update, assignment, restore and permanent
      delete run only for an administrator. */
  lemma AdminHandlersNeedAdmin(verb: Verb, path: seq<string>, caller: Option<Caller>, h: Handler)
    requires h in AdminHandlers
    requires Dispatch(BookingRouter, verb, path, caller) == Run(h)
    ensures caller.Some? && caller.value.role == Admin
  {
    AdminRoutesGuarded(h);
    GuardedHandler(BookingRouter, verb, path, caller, h, {Admin});
  }

  /** `/assigned/me` is for personnel only: an administrator is refused it. */
  lemma AssignedToMeIsPersonnelOnly(caller: Caller)
    ensures Dispatch(BookingRouter, Get, ["assigned", "me"], Some(caller)) ==
      (if caller.role == Personnel then Run(GetAssignedToMe) else Refused)
  {
    var path := ["assigned", "me"];
    assert path[0] != "admin";
    assert forall j :: 0 <= j < 4 ==> !Matches(BookingRouter.routes[j], Get, path);
    assert FirstMatching(BookingRouter.routes, Get, path, 4);
    assert PassesAll(BookingRouter.prelude, Some(caller));
    DecideAt(BookingRouter, Get, path, Some(caller), 4);
    OneRoleGate({Personnel}, Some(caller));
  }

  /** `cancelBooking` is imported but no route reaches it. */
  lemma CancelNeverRouted(verb: Verb, path: seq<string>, caller: Option<Caller>)
    ensures Dispatch(BookingRouter, verb, path, caller) != Run(CancelBooking)
  {
    UnroutedNeverRuns(BookingRouter, verb, path, caller, CancelBooking);
  }

  /** `GET /admin` is the administrator list, never `getBooking` with the id "admin". */
  lemma AdminPathIsNotAnId(caller: Caller)
    ensures Dispatch(BookingRouter, Get, ["admin"], Some(caller)) ==
      (if caller.role == Admin then Run(GetAllBookings) else Refused)
  {
    assert FirstMatching(BookingRouter.routes, Get, ["admin"], 2);
    assert PassesAll(BookingRouter.prelude, Some(caller));
    DecideAt(BookingRouter, Get, ["admin"], Some(caller), 2);
    OneRoleGate({Admin}, Some(caller));
  }

  /** `DELETE /:id` is the soft delete for every authenticated caller, whatever the role. */
  lemma DeleteIsSoftDelete(id: string, caller: Caller)
    requires id != ""
    ensures Dispatch(BookingRouter, Delete, [id], Some(caller)) == Run(DeleteBooking)
  {
    assert FirstMatching(BookingRouter.routes, Delete, [id], 7);
  }

  /** `GET /` carries no role restriction: every authenticated caller lists their own bookings. */
  lemma OwnListOpen(caller: Caller)
    ensures Dispatch(BookingRouter, Get, [], Some(caller)) == Run(GetMyBookings)
  {
    assert PassesAll(BookingRouter.prelude, Some(caller));
    assert FirstMatching(BookingRouter.routes, Get, [], 0);
    DecideAt(BookingRouter, Get, [], Some(caller), 0);
  }

  /** `POST /` carries no role restriction: every authenticated caller may create a booking. */
  lemma CreateOpen(caller: Caller)
    ensures Dispatch(BookingRouter, Post, [], Some(caller)) == Run(CreateBooking)
  {
    assert PassesAll(BookingRouter.prelude, Some(caller));
    assert FirstMatching(BookingRouter.routes, Post, [], 1);
    DecideAt(BookingRouter, Post, [], Some(caller), 1);
  }

  /** `GET /:id` carries no role restriction either; the handler checks the owner. */
  lemma GetOneOpen(id: string, caller: Caller)
    requires id != "" && id != "admin"
    ensures Dispatch(BookingRouter, Get, [id], Some(caller)) == Run(GetBooking)
  {
    assert PassesAll(BookingRouter.prelude, Some(caller));
    OneSegmentPath(id);
    DecideAt(BookingRouter, Get, [id], Some(caller), 6);
  }

  /** `GET /:id` for an id that is not a named path. */
  lemma OneSegmentPath(id: string)
    requires id != "" && id != "admin"
    ensures FirstMatching(BookingRouter.routes, Get, [id], 6)
  {
    assert !SegmentMatches(Lit("admin"), [id][0]);
    assert forall j :: 0 <= j < 6 ==> !Matches(BookingRouter.routes[j], Get, [id]);
  }

  /** The route layer lets any caller reach the soft delete; the handler then refuses a caller
      who is neither the owner nor an administrator. */
  lemma DeleteReachesOwnerCheck(s: BookingController.Store, caller: Caller, seg: string, id: Id, now: Time)
    requires seg != ""
    ensures Dispatch(BookingRouter, Delete, [seg], Some(caller)) == Run(DeleteBooking)
    ensures BookingController.SoftDeleteOutcome(s, caller, id, now).code == Ok ==>
      s[id].user == caller.id || caller.role == Admin
    ensures id in s && Visible(s[id].isDeleted) && s[id].user != caller.id && caller.role != Admin ==>
      BookingController.SoftDeleteOutcome(s, caller, id, now).code == Forbidden
  {
    DeleteIsSoftDelete(seg, caller);
  }
}
