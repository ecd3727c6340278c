/** Express routing as the four route files use it: a router runs the middleware registered with
    `router.use` on every request, then the first route whose method and path match, and that
    route's own middleware before its handler. `protect` and `authorize(...)` are gates. */
module Router {
  import opened Common

  datatype Verb = Get | Post | Put | Delete

  /** One segment of a route path: a literal, or a `:param` that takes any non-empty segment. */
  datatype Segment = Lit(text: string) | Param

  /** `protect` admits a caller with a valid token; `authorize(roles)` a caller whose role is listed. */
  datatype Gate = Authenticated | Roles(roles: set<Role>)

  /** Every controller handler the route files name, and `cancelBooking`, which they import. */
  datatype Handler =
    | GetMyBookings | CreateBooking | GetAllBookings | GetDeletedBookings | GetAssignedToMe
    | GetBookingStats | GetBooking | CancelBooking | DeleteBooking | UpdateBookingStatus | AssignBooking
    | RestoreBooking | PermanentlyDeleteBooking
    | GetServices | CreateService | GetAllServicesAdmin | GetDeletedServices | GetService
    | UpdateService | DeleteService | RestoreService | PermanentlyDeleteService
    | GetUsers | GetUserStats | GetDeletedUsers | GetUser | UpdateUser | DeleteUser | RestoreUser
    | PermanentlyDeleteUser
    | CreatePaymentIntent | ConfirmPayment

  /** One `router.route(path).verb(gates..., handler)` entry. */
  datatype Route = Route(verb: Verb, pattern: seq<Segment>, gates: seq<Gate>, handler: Handler)

  /** `router.use(...)` middleware, then the routes in declaration order. */
  datatype Table = Table(prelude: seq<Gate>, routes: seq<Route>)

  /** What becomes of a request: 401 from `protect`, 403 from `authorize`, the handler runs,
      or no route matched (Express answers 404). */
  datatype Decision = Unauthenticated | Refused | Run(handler: Handler) | NoRoute

  /** The caller is the request's verified token owner, or None without a valid token. */
  predicate Admits(g: Gate, caller: Option<Caller>)
  {
    match g
    case Authenticated => caller.Some?
    case Roles(roles) => caller.Some? && caller.value.role in roles
  }

  predicate PassesAll(gates: seq<Gate>, caller: Option<Caller>)
  {
    forall k :: 0 <= k < |gates| ==> Admits(gates[k], caller)
  }

  /** The answer of the first gate that stops the request, if any. */
  function Denial(gates: seq<Gate>, caller: Option<Caller>): (r: Option<Decision>)
    ensures r.None? <==> PassesAll(gates, caller)
    ensures r.Some? ==> exists k :: (0 <= k < |gates| && !Admits(gates[k], caller) &&
      (forall m :: 0 <= m < k ==> Admits(gates[m], caller)) &&
      r.value == (if gates[k].Authenticated? then Unauthenticated else Refused))
    ensures r.Some? ==> r.value == Unauthenticated || r.value == Refused
  {
    if gates == [] then None
    else if !Admits(gates[0], caller) then Some(if gates[0].Authenticated? then Unauthenticated else Refused)
    else
      var rest := Denial(gates[1..], caller);
      if rest.Some? then
        var k :| 0 <= k < |gates[1..]| && !Admits(gates[1..][k], caller) &&
          (forall m :: 0 <= m < k ==> Admits(gates[1..][m], caller)) &&
          rest.value == (if gates[1..][k].Authenticated? then Unauthenticated else Refused);
        assert gates[k + 1] == gates[1..][k];
        rest
      else rest
  }

  predicate SegmentMatches(p: Segment, s: string)
  {
    match p
    case Lit(text) => s == text
    case Param => s != ""
  }

  /** A route path matches a request path of the same length segment by segment. */
  predicate PathMatches(pattern: seq<Segment>, path: seq<string>)
  {
    |pattern| == |path| && forall k :: 0 <= k < |path| ==> SegmentMatches(pattern[k], path[k])
  }

  predicate Matches(r: Route, verb: Verb, path: seq<string>)
  {
    r.verb == verb && PathMatches(r.pattern, path)
  }

  /** The index of the first route that matches, in declaration order. */
  function FirstMatch(routes: seq<Route>, verb: Verb, path: seq<string>): (r: Option<nat>)
    ensures r.Some? ==> r.value < |routes| && Matches(routes[r.value], verb, path)
    ensures r.Some? ==> forall j :: 0 <= j < r.value ==> !Matches(routes[j], verb, path)
    ensures r.None? <==> forall j :: 0 <= j < |routes| ==> !Matches(routes[j], verb, path)
  {
    if routes == [] then None
    else if Matches(routes[0], verb, path) then Some(0)
    else
      match FirstMatch(routes[1..], verb, path)
      case None => None
      case Some(i) => Some(i + 1)
  }

  /** Route `i` is the first of `routes` to match the request. */
  predicate FirstMatching(routes: seq<Route>, verb: Verb, path: seq<string>, i: int)
  {
    0 <= i < |routes| && Matches(routes[i], verb, path) && forall j :: 0 <= j < i ==> !Matches(routes[j], verb, path)
  }

  /** The decision for one request: the router's middleware, then the first matching route's
      gates, then its handler. */
  function Dispatch(t: Table, verb: Verb, path: seq<string>, caller: Option<Caller>): (d: Decision)
    ensures !PassesAll(t.prelude, caller) ==> d == Denial(t.prelude, caller).value
    ensures d == NoRoute <==> PassesAll(t.prelude, caller) && forall j :: 0 <= j < |t.routes| ==> !Matches(t.routes[j], verb, path)
    ensures forall i :: FirstMatching(t.routes, verb, path, i) && PassesAll(t.prelude, caller) ==>
      d == (if PassesAll(t.routes[i].gates, caller) then Run(t.routes[i].handler) else Denial(t.routes[i].gates, caller).value)
    ensures d.Run? ==> exists i :: (FirstMatching(t.routes, verb, path, i) && PassesAll(t.prelude, caller) &&
      PassesAll(t.routes[i].gates, caller) && d.handler == t.routes[i].handler)
  {
    match Denial(t.prelude, caller)
    case Some(denied) => denied
    case None =>
      match FirstMatch(t.routes, verb, path)
      case None => NoRoute
      case Some(i) =>
        assert FirstMatching(t.routes, verb, path, i);
        match Denial(t.routes[i].gates, caller)
        case Some(denied) => denied
        case None => Run(t.routes[i].handler)
  }

  /** The decision once the router's middleware has passed and route `i` is the first match. */
  lemma DecideAt(t: Table, verb: Verb, path: seq<string>, caller: Option<Caller>, i: nat)
    requires FirstMatching(t.routes, verb, path, i) && PassesAll(t.prelude, caller)
    ensures Dispatch(t, verb, path, caller) ==
      (if PassesAll(t.routes[i].gates, caller) then Run(t.routes[i].handler) else Denial(t.routes[i].gates, caller).value)
  {
  }

  /** A lone `authorize(roles)` admits exactly the listed roles and answers 403 to the others. */
  lemma OneRoleGate(roles: set<Role>, caller: Option<Caller>)
    ensures PassesAll([Roles(roles)], caller) <==> (caller.Some? && caller.value.role in roles)
    ensures !PassesAll([Roles(roles)], caller) ==> Denial([Roles(roles)], caller) == Some(Refused)
  {
    assert [Roles(roles)][0] == Roles(roles);
  }

  /** A handler runs only for a caller that passes the router's middleware and the gates of a
      route that names it. */
  lemma RunNeedsGates(t: Table, verb: Verb, path: seq<string>, caller: Option<Caller>, h: Handler)
    requires Dispatch(t, verb, path, caller) == Run(h)
    ensures PassesAll(t.prelude, caller)
    ensures exists i :: 0 <= i < |t.routes| && t.routes[i].handler == h && PassesAll(t.routes[i].gates, caller)
  {
  }

  /** A handler that no route names never runs. */
  lemma UnroutedNeverRuns(t: Table, verb: Verb, path: seq<string>, caller: Option<Caller>, h: Handler)
    requires forall i :: 0 <= i < |t.routes| ==> t.routes[i].handler != h
    ensures Dispatch(t, verb, path, caller) != Run(h)
  {
  }

  /** A handler named only by routes that require one of `roles` runs only for such a caller. */
  lemma {:induction false} GuardedHandler(t: Table, verb: Verb, path: seq<string>, caller: Option<Caller>,
                                         h: Handler, roles: set<Role>)
    requires forall i :: 0 <= i < |t.routes| && t.routes[i].handler == h ==> Roles(roles) in t.routes[i].gates
    requires Dispatch(t, verb, path, caller) == Run(h)
    ensures caller.Some? && caller.value.role in roles
  {
    RunNeedsGates(t, verb, path, caller, h);
    var i :| 0 <= i < |t.routes| && t.routes[i].handler == h && PassesAll(t.routes[i].gates, caller);
    var k :| 0 <= k < |t.routes[i].gates| && t.routes[i].gates[k] == Roles(roles);
    assert Admits(t.routes[i].gates[k], caller);
  }
}
