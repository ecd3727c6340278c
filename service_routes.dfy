/** The services router, mounted at `/api/services`: the catalog reads are public, everything
    else sits behind `protect` and `authorize('admin')`. */
module ServiceRoutes {
  import opened Common
  import opened Router

  const AdminGates := [Authenticated, Roles({Admin})]

  /** The routes in declaration order; `/admin` and `/admin/deleted` come before `/:id`. */
  const ServiceRouter := Table([], [
    Route(Get, [], [], GetServices),
    Route(Post, [], AdminGates, CreateService),
    Route(Get, [Lit("admin")], AdminGates, GetAllServicesAdmin),
    Route(Get, [Lit("admin"), Lit("deleted")], AdminGates, GetDeletedServices),
    Route(Get, [Param], [], GetService),
    Route(Put, [Param], AdminGates, UpdateService),
    Route(Delete, [Param], AdminGates, DeleteService),
    Route(Put, [Param, Lit("restore")], AdminGates, RestoreService),
    Route(Delete, [Param, Lit("permanent-delete")], AdminGates, PermanentlyDeleteService)])

  const AdminHandlers := {CreateService, GetAllServicesAdmin, GetDeletedServices, UpdateService,
                          DeleteService, RestoreService, PermanentlyDeleteService}

  /** The catalog list and one service are served to anyone, with or without a token. */
  lemma CatalogReadsPublic(id: string, caller: Option<Caller>)
    requires id != "" && id != "admin"
    ensures Dispatch(ServiceRouter, Get, [], caller) == Run(GetServices)
    ensures Dispatch(ServiceRouter, Get, [id], caller) == Run(GetService)
  {
    assert FirstMatching(ServiceRouter.routes, Get, [], 0);
    assert !SegmentMatches(Lit("admin"), [id][0]);
    assert forall j :: 0 <= j < 4 ==> !Matches(ServiceRouter.routes[j], Get, [id]);
    assert FirstMatching(ServiceRouter.routes, Get, [id], 4);
  }

  /** Every route naming a handler other than the two reads carries `protect` then `authorize('admin')`. */
  lemma AdminRoutesGuarded(h: Handler)
    requires h in AdminHandlers
    ensures forall i :: 0 <= i < |ServiceRouter.routes| && ServiceRouter.routes[i].handler == h ==>
      Roles({Admin}) in ServiceRouter.routes[i].gates
  {
    forall i | 0 <= i < |ServiceRouter.routes| && ServiceRouter.routes[i].handler == h
      ensures Roles({Admin}) in ServiceRouter.routes[i].gates
    {
      assert i in {1, 2, 3, 5, 6, 7, 8};
      assert ServiceRouter.routes[i].gates[1] == Roles({Admin});
    }
  }

  /** Create, update, soft delete, the admin lists, restore and permanent delete run only for an
      administrator. */
  lemma MutationsNeedAdmin(verb: Verb, path: seq<string>, caller: Option<Caller>, h: Handler)
    requires h in AdminHandlers
    requires Dispatch(ServiceRouter, verb, path, caller) == Run(h)
    ensures caller.Some? && caller.value.role == Admin
  {
    AdminRoutesGuarded(h);
    GuardedHandler(ServiceRouter, verb, path, caller, h, {Admin});
  }

  /** `GET /admin` is the administrator list: without a token it is refused with 401, and a
      non-administrator is refused; it never reaches `getService`. */
  lemma AdminPathIsNotAnId(caller: Option<Caller>)
    ensures Dispatch(ServiceRouter, Get, ["admin"], caller) ==
      if caller.None? then Unauthenticated
      else if caller.value.role == Admin then Run(GetAllServicesAdmin)
      else Refused
  {
    var route := ServiceRouter.routes[2];
    assert FirstMatching(ServiceRouter.routes, Get, ["admin"], 2);
    if caller.None? {
      assert !Admits(route.gates[0], caller);
    } else if caller.value.role != Admin {
      assert Admits(route.gates[0], caller) && !Admits(route.gates[1], caller);
    } else {
      assert PassesAll(route.gates, caller);
    }
  }
}
