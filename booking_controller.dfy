/** The booking and payment lifecycle: the handlers of the bookings and payments routes over the
    booking store. Each handler that writes is a method of BookingStore; what it does is stated by a
    pure `...Outcome` function of the store before the call, and the read-only handlers are functions. */
module BookingController {
  import opened Common
  import opened Listing
  import opened BookingSchema
  import opened ServiceSchema

  type Store = map<Id, Booking>

  /** Every stored booking satisfies the schema. */
  predicate AllValid(s: Store)
  {
    forall id :: id in s ==> ValidBooking(s[id])
  }

  /** No operation recomputes the price snapshot of a booking it keeps. */
  predicate PricesKept(s: Store, s': Store)
  {
    forall id :: id in s && id in s' ==> s'[id].totalPrice == s[id].totalPrice
  }

  // ---------------------------------------------------------------- createBooking

  /** The body of `POST /bookings`; the required strings are empty when absent. */
  datatype CreateRequest = CreateRequest(
    serviceId: Id,
    date: string,
    time: string,
    address: string,
    notes: Option<string>,
    paymentMethod: Option<string>)

  /** `paymentMethod || 'cash'` followed by the enum check. */
  function RequestedMethod(raw: Option<string>): Option<PaymentMethod>
  {
    if raw == None || raw == Some("") then Some(Cash) else ParseMethod(raw.value)
  }

  /** The request passes the Booking schema's validation. */
  predicate RequestValid(req: CreateRequest)
  {
    && req.date != "" && req.time != "" && req.address != ""
    && (req.notes.Some? ==> |req.notes.value| <= NotesMaxLength)
    && RequestedMethod(req.paymentMethod).Some?
  }

  /** `b` is the booking created for `caller` from `req` against service `sv` at time `now`. */
  predicate CreatedFrom(b: Booking, caller: Caller, req: CreateRequest, sv: Service, now: Time)
  {
    && b.user == caller.id && b.service == req.serviceId
    && b.date == req.date && b.time == req.time && b.address == req.address && b.notes == req.notes
    && b.totalPrice == sv.price
    && b.status == Pending
    && b.paymentStatus == PaymentPending
    && Some(b.paymentMethod) == RequestedMethod(req.paymentMethod)
    && b.assignedTo == None && b.stripePaymentIntentId == None
    && b.createdAt == now && b.isDeleted == NotDeleted && b.deletedAt == None
  }

  /** `createBooking`: 404 exactly when no service has the id, whatever its flags; otherwise a new
      pending booking priced from the service, or a validation failure. */
  function CreateOutcome(s: Store, services: map<Id, Service>, caller: Caller, req: CreateRequest,
                         newId: Id, now: Time): (r: Outcome<Booking>)
    requires newId !in s
    ensures r.code == NotFound <==> req.serviceId !in services
    ensures r.code == Created <==> req.serviceId in services && RequestValid(req)
    ensures r.code == ServerError <==> req.serviceId in services && !RequestValid(req)
    ensures r.code != Created ==> r.store == s
    ensures r.code == Created ==> r.store.Keys == s.Keys + {newId}
    ensures r.code == Created ==> forall id :: id in s ==> r.store[id] == s[id]
    ensures r.code == Created ==> CreatedFrom(r.store[newId], caller, req, services[req.serviceId], now)
    ensures AllValid(s) ==> AllValid(r.store)
    ensures PricesKept(s, r.store)
  {
    if req.serviceId !in services then Outcome(NotFound, s)
    else if !RequestValid(req) then Outcome(ServerError, s)
    else
      var b := NewBooking(caller.id, req.serviceId, req.date, req.time, req.address, req.notes,
                          services[req.serviceId].price, RequestedMethod(req.paymentMethod).value,
                          PaymentPending, now);
      Outcome(Created, s[newId := b])
  }

  /** The handler looks the service up by id only: a soft-deleted or inactive service is booked
      like any other. */
  lemma CreateIgnoresServiceFlags(s: Store, services: map<Id, Service>, caller: Caller,
                                  req: CreateRequest, newId: Id, now: Time)
    requires newId !in s && req.serviceId in services && RequestValid(req)
    requires IsDeleted(services[req.serviceId].isDeleted) || !services[req.serviceId].isActive
    ensures CreateOutcome(s, services, caller, req, newId, now).code == Created
  {
  }

  // ---------------------------------------------------------------- payments

  /** The amount requested from the payment provider, in cents. */
  function IntentAmount(b: Booking): int
  {
    b.totalPrice * 100
  }

  /** `createPaymentIntent`: 404 for a missing booking, 403 unless the caller owns it (admins
      included); otherwise only the intent id is recorded. */
  function PaymentIntentOutcome(s: Store, caller: Caller, id: Id, intentId: string): (r: Outcome<Booking>)
    ensures r.code == NotFound <==> id !in s
    ensures r.code == Forbidden <==> id in s && s[id].user != caller.id
    ensures r.code == Ok <==> id in s && s[id].user == caller.id
    ensures r.code != Ok ==> r.store == s
    ensures r.code == Ok ==> OnlyAt(s, r.store, id)
    ensures r.code == Ok ==> r.store[id] == s[id].(stripePaymentIntentId := Some(intentId))
    ensures AllValid(s) ==> AllValid(r.store)
    ensures PricesKept(s, r.store)
  {
    if id !in s then Outcome(NotFound, s)
    else if s[id].user != caller.id then Outcome(Forbidden, s)
    else Outcome(Ok, s[id := s[id].(stripePaymentIntentId := Some(intentId))])
  }

  /** Creating an intent moves neither the booking status nor the payment status. */
  lemma PaymentIntentKeepsStatuses(s: Store, caller: Caller, id: Id, intentId: string)
    requires PaymentIntentOutcome(s, caller, id, intentId).code == Ok
    ensures var b := PaymentIntentOutcome(s, caller, id, intentId).store[id];
      b.status == s[id].status && b.paymentStatus == s[id].paymentStatus
  {
  }

  /** `confirmPayment`, given whether the provider reports the intent as succeeded. Neither the
      caller, the stored intent id nor the deleted flag is consulted. Success sets both statuses;
      anything else marks the payment failed, keeps the booking status and answers 400. */
  function ConfirmOutcome(s: Store, id: Id, succeeded: bool): (r: Outcome<Booking>)
    ensures r.code == NotFound <==> id !in s
    ensures r.code == Ok <==> id in s && succeeded
    ensures r.code == BadRequest <==> id in s && !succeeded
    ensures id !in s ==> r.store == s
    ensures id in s ==> OnlyAt(s, r.store, id)
    ensures id in s && succeeded ==>
      r.store[id] == s[id].(paymentStatus := PaymentCompleted, status := Confirmed)
    ensures id in s && !succeeded ==> r.store[id] == s[id].(paymentStatus := PaymentFailed)
    ensures AllValid(s) ==> AllValid(r.store)
    ensures PricesKept(s, r.store)
  {
    if id !in s then Outcome(NotFound, s)
    else if succeeded then Outcome(Ok, s[id := s[id].(paymentStatus := PaymentCompleted, status := Confirmed)])
    else Outcome(BadRequest, s[id := s[id].(paymentStatus := PaymentFailed)])
  }

  /** A later failed confirmation flips a completed payment to failed: confirmation is not
      at-most-once. */
  lemma {:induction false} ConfirmNotFinal(s: Store, id: Id)
    requires id in s
    ensures var once := ConfirmOutcome(s, id, true).store;
      once[id].paymentStatus == PaymentCompleted &&
      ConfirmOutcome(once, id, false).store[id].paymentStatus == PaymentFailed &&
      ConfirmOutcome(once, id, false).store[id].status == Confirmed
  {
    var once := ConfirmOutcome(s, id, true).store;
    assert id in once;
  }

  // ---------------------------------------------------------------- owner reads

  /** The default listing filter of a booking. */
  predicate Listed(b: Booking)
  {
    Visible(b.isDeleted)
  }

  /** `getMyBookings`: the caller's non-deleted bookings, newest first. */
  ghost function MyBookings(s: Store, caller: Caller): (r: seq<Id>)
    ensures forall i :: 0 <= i < |r| ==> r[i] in s
    ensures forall id :: id in r <==> id in s && s[id].user == caller.id && Listed(s[id])
    ensures Distinct(r) && SortedDesc(s, r, CreatedAt)
  {
    NewestFirst(s, (set id | id in s && s[id].user == caller.id && Listed(s[id])), CreatedAt)
  }

  /** `getBooking`: 404 for a missing or deleted booking; then the populated owner is read, so a
      booking whose account was permanently deleted (its id is not in `accounts`) throws and
      answers 500, to administrators too; then 403 unless owner or admin. */
  function GetBooking(s: Store, accounts: set<Id>, caller: Caller, id: Id): (r: Reply<Booking>)
    ensures r.code == NotFound <==> id !in s || IsDeleted(s[id].isDeleted)
    ensures r.code == ServerError <==> id in s && !IsDeleted(s[id].isDeleted) && s[id].user !in accounts
    ensures r.code == Forbidden <==>
      id in s && !IsDeleted(s[id].isDeleted) && s[id].user in accounts && !OwnerOrAdmin(caller, s[id].user)
    ensures r.code == Ok <==>
      id in s && !IsDeleted(s[id].isDeleted) && s[id].user in accounts && OwnerOrAdmin(caller, s[id].user)
    ensures r.data.Some? <==> r.code == Ok
    ensures r.code == Ok ==> r.data.value == s[id]
  {
    if id !in s || IsDeleted(s[id].isDeleted) then Reply(NotFound, None)
    else if s[id].user !in accounts then Reply(ServerError, None)
    else if !OwnerOrAdmin(caller, s[id].user) then Reply(Forbidden, None)
    else Reply(Ok, Some(s[id]))
  }

  /** `cancelBooking`: 404, then 403 unless owner or admin; otherwise `cancelled` from any status.
      The deleted flag is not looked at. */
  function CancelOutcome(s: Store, caller: Caller, id: Id): (r: Outcome<Booking>)
    ensures r.code == NotFound <==> id !in s
    ensures r.code == Forbidden <==> id in s && !OwnerOrAdmin(caller, s[id].user)
    ensures r.code == Ok <==> id in s && OwnerOrAdmin(caller, s[id].user)
    ensures r.code != Ok ==> r.store == s
    ensures r.code == Ok ==> OnlyAt(s, r.store, id) && r.store[id] == s[id].(status := Cancelled)
    ensures AllValid(s) ==> AllValid(r.store)
    ensures PricesKept(s, r.store)
  {
    if id !in s then Outcome(NotFound, s)
    else if !OwnerOrAdmin(caller, s[id].user) then Outcome(Forbidden, s)
    else Outcome(Ok, s[id := s[id].(status := Cancelled)])
  }

  /** Cancelling twice is cancelling once, whatever the status was (completed included). */
  lemma {:induction false} CancelIdempotent(s: Store, caller: Caller, id: Id)
    ensures var once := CancelOutcome(s, caller, id);
      CancelOutcome(once.store, caller, id) == once
  {
    var once := CancelOutcome(s, caller, id);
    if once.code == Ok {
      assert once.store[id := once.store[id].(status := Cancelled)] == once.store;
    }
  }

  // ---------------------------------------------------------------- admin reads and writes

  /** `getAllBookings`: the non-deleted bookings, restricted to one status when a non-empty
      status filter is given, newest first. */
  ghost function AllBookings(s: Store, statusFilter: Option<string>): (r: seq<Id>)
    ensures forall i :: 0 <= i < |r| ==> r[i] in s
    ensures forall id :: id in r <==> (id in s && Listed(s[id]) &&
      (statusFilter.Some? && statusFilter.value != "" ==> StatusName(s[id].status) == statusFilter.value))
    ensures Distinct(r) && SortedDesc(s, r, CreatedAt)
  {
    var ids := set id | id in s && Listed(s[id]) &&
      (statusFilter.Some? && statusFilter.value != "" ==> StatusName(s[id].status) == statusFilter.value);
    NewestFirst(s, ids, CreatedAt)
  }

  /** `updateBookingStatus`: the enum validator runs first (500 for an unknown status, even for a
      missing booking), then 404; otherwise any status may replace any other. */
  function StatusOutcome(s: Store, id: Id, raw: string): (r: Outcome<Booking>)
    ensures r.code == ServerError <==> ParseStatus(raw).None?
    ensures r.code == NotFound <==> ParseStatus(raw).Some? && id !in s
    ensures r.code == Ok <==> ParseStatus(raw).Some? && id in s
    ensures r.code != Ok ==> r.store == s
    ensures r.code == Ok ==> OnlyAt(s, r.store, id) && StatusName(r.store[id].status) == raw
    ensures r.code == Ok ==> r.store[id] == s[id].(status := r.store[id].status)
    ensures AllValid(s) ==> AllValid(r.store)
    ensures PricesKept(s, r.store)
  {
    match ParseStatus(raw)
    case None => Outcome(ServerError, s)
    case Some(st) =>
      if id !in s then Outcome(NotFound, s)
      else Outcome(Ok, s[id := s[id].(status := st)])
  }

  /** `getAssignedToMe`: the non-deleted bookings assigned to the caller, newest first. */
  ghost function AssignedToMe(s: Store, caller: Caller): (r: seq<Id>)
    ensures forall i :: 0 <= i < |r| ==> r[i] in s && s[r[i]].assignedTo == Some(caller.id)
    ensures forall id :: id in r <==> id in s && s[id].assignedTo == Some(caller.id) && Listed(s[id])
    ensures Distinct(r) && SortedDesc(s, r, CreatedAt)
  {
    NewestFirst(s, (set id | id in s && s[id].assignedTo == Some(caller.id) && Listed(s[id])), CreatedAt)
  }

  /** `assignBooking`: 404, otherwise the assignee is overwritten. Neither the assignee's role
      nor the deleted flag is checked. */
  function AssignOutcome(s: Store, id: Id, personnelId: Id): (r: Outcome<Booking>)
    ensures r.code == NotFound <==> id !in s
    ensures r.code == Ok <==> id in s
    ensures r.code != Ok ==> r.store == s
    ensures r.code == Ok ==> OnlyAt(s, r.store, id) && r.store[id] == s[id].(assignedTo := Some(personnelId))
    ensures AllValid(s) ==> AllValid(r.store)
    ensures PricesKept(s, r.store)
  {
    if id !in s then Outcome(NotFound, s)
    else Outcome(Ok, s[id := s[id].(assignedTo := Some(personnelId))])
  }

  // ---------------------------------------------------------------- stats

  /** The non-deleted bookings with a given status: one `$group` bucket. */
  ghost function StatusGroup(s: Store, st: BookingStatus): (g: set<Id>)
    ensures g <= s.Keys
    ensures forall id :: id in g <==> id in s && Listed(s[id]) && s[id].status == st
  {
    set id | id in s && Listed(s[id]) && s[id].status == st
  }

  /** The non-deleted bookings. */
  ghost function ListedIds(s: Store): (ids: set<Id>)
    ensures ids <= s.Keys
    ensures forall id :: id in ids <==> id in s && Listed(s[id])
  {
    set id | id in s && Listed(s[id])
  }

  function TotalPrice(b: Booking): int
  {
    b.totalPrice
  }

  datatype GroupTotals = GroupTotals(count: nat, totalRevenue: int)

  /** The `getBookingStats` payload: the buckets that occur, the count and the revenue. */
  datatype BookingStats = BookingStats(stats: map<BookingStatus, GroupTotals>, totalBookings: nat, totalRevenue: int)

  /** A bucket's count, 0 when the bucket does not occur. */
  function GroupCount(st: BookingStats, s: BookingStatus): nat
  {
    if s in st.stats then st.stats[s].count else 0
  }

  function GroupRevenue(st: BookingStats, s: BookingStatus): int
  {
    if s in st.stats then st.stats[s].totalRevenue else 0
  }

  /** `getBookingStats`: the buckets partition the non-deleted bookings, so their counts add up to
      `totalBookings` and their revenues to the price of all of them; `totalRevenue` is the
      completed bucket's revenue, 0 when there is no completed booking. */
  ghost function BookingStatsOf(s: Store): (r: BookingStats)
    ensures forall st :: st in r.stats <==> StatusGroup(s, st) != {}
    ensures forall st :: st in r.stats ==> r.stats[st].count == |StatusGroup(s, st)| > 0
    ensures forall st :: st in r.stats ==> r.stats[st].totalRevenue == SumOver(s, StatusGroup(s, st), TotalPrice)
    ensures r.totalBookings == |ListedIds(s)|
    ensures r.totalBookings == GroupCount(r, Pending) + GroupCount(r, Confirmed) + GroupCount(r, InProgress)
                               + GroupCount(r, Completed) + GroupCount(r, Cancelled)
    ensures SumOver(s, ListedIds(s), TotalPrice) ==
      GroupRevenue(r, Pending) + GroupRevenue(r, Confirmed) + GroupRevenue(r, InProgress)
      + GroupRevenue(r, Completed) + GroupRevenue(r, Cancelled)
    ensures r.totalRevenue == SumOver(s, StatusGroup(s, Completed), TotalPrice)
    ensures r.totalRevenue == GroupRevenue(r, Completed)
  {
    var stats := map st | st in AllStatuses && StatusGroup(s, st) != {} ::
      GroupTotals(|StatusGroup(s, st)|, SumOver(s, StatusGroup(s, st), TotalPrice));
    var r := BookingStats(stats, |ListedIds(s)|, SumOver(s, StatusGroup(s, Completed), TotalPrice));
    AllStatusesListed();
    GroupsPartition(s);
    r
  }

  /** The five status buckets cover the non-deleted bookings and are pairwise disjoint. */
  lemma BucketsCover(s: Store)
    ensures var p, c, i, d, x := StatusGroup(s, Pending), StatusGroup(s, Confirmed), StatusGroup(s, InProgress),
                                 StatusGroup(s, Completed), StatusGroup(s, Cancelled);
      && ListedIds(s) == p + c + i + d + x
      && p !! c && (p + c) !! i && (p + c + i) !! d && (p + c + i + d) !! x
  {
  }

  /** The five status buckets partition the non-deleted bookings, so counts and revenues add up. */
  lemma {:induction false} GroupsPartition(s: Store)
    ensures var p, c, i, d, x := StatusGroup(s, Pending), StatusGroup(s, Confirmed), StatusGroup(s, InProgress),
                                 StatusGroup(s, Completed), StatusGroup(s, Cancelled);
      && |ListedIds(s)| == |p| + |c| + |i| + |d| + |x|
      && SumOver(s, ListedIds(s), TotalPrice) ==
           SumOver(s, p, TotalPrice) + SumOver(s, c, TotalPrice) + SumOver(s, i, TotalPrice)
           + SumOver(s, d, TotalPrice) + SumOver(s, x, TotalPrice)
  {
    var p, c, i, d, x := StatusGroup(s, Pending), StatusGroup(s, Confirmed), StatusGroup(s, InProgress),
                         StatusGroup(s, Completed), StatusGroup(s, Cancelled);
    BucketsCover(s);
    DisjointCard(p, c);
    DisjointCard(p + c, i);
    DisjointCard(p + c + i, d);
    DisjointCard(p + c + i + d, x);
    SumOverUnion(s, p, c, TotalPrice);
    SumOverUnion(s, p + c, i, TotalPrice);
    SumOverUnion(s, p + c + i, d, TotalPrice);
    SumOverUnion(s, p + c + i + d, x, TotalPrice);
  }

  // ---------------------------------------------------------------- soft delete

  /** `deleteBooking` (`DELETE /bookings/:id`, the client's "cancel"): 404 for a missing or
      already deleted booking, then 403 unless owner or admin; otherwise only the flag and the
      deletion date change. */
  function SoftDeleteOutcome(s: Store, caller: Caller, id: Id, now: Time): (r: Outcome<Booking>)
    ensures r.code == NotFound <==> id !in s || IsDeleted(s[id].isDeleted)
    ensures r.code == Forbidden <==> id in s && !IsDeleted(s[id].isDeleted) && !OwnerOrAdmin(caller, s[id].user)
    ensures r.code == Ok <==> id in s && !IsDeleted(s[id].isDeleted) && OwnerOrAdmin(caller, s[id].user)
    ensures r.code != Ok ==> r.store == s
    ensures r.code == Ok ==> OnlyAt(s, r.store, id)
    ensures r.code == Ok ==> r.store[id] == s[id].(isDeleted := Deleted, deletedAt := Some(now))
    ensures AllValid(s) ==> AllValid(r.store)
    ensures PricesKept(s, r.store)
  {
    if id !in s || IsDeleted(s[id].isDeleted) then Outcome(NotFound, s)
    else if !OwnerOrAdmin(caller, s[id].user) then Outcome(Forbidden, s)
    else Outcome(Ok, s[id := s[id].(isDeleted := Deleted, deletedAt := Some(now))])
  }

  /** `restoreBooking`: 404 for a missing booking, 400 for one that is not deleted (flag false or
      absent); otherwise the flag is cleared and the deletion date nulled. */
  function RestoreOutcome(s: Store, id: Id): (r: Outcome<Booking>)
    ensures r.code == NotFound <==> id !in s
    ensures r.code == BadRequest <==> id in s && !IsDeleted(s[id].isDeleted)
    ensures r.code == Ok <==> id in s && IsDeleted(s[id].isDeleted)
    ensures r.code != Ok ==> r.store == s
    ensures r.code == Ok ==> OnlyAt(s, r.store, id)
    ensures r.code == Ok ==> r.store[id] == s[id].(isDeleted := NotDeleted, deletedAt := None)
    ensures AllValid(s) ==> AllValid(r.store)
    ensures PricesKept(s, r.store)
  {
    if id !in s then Outcome(NotFound, s)
    else if !IsDeleted(s[id].isDeleted) then Outcome(BadRequest, s)
    else Outcome(Ok, s[id := s[id].(isDeleted := NotDeleted, deletedAt := None)])
  }

  /** `permanentlyDeleteBooking`: the record is removed whatever its flag; 404 only when absent. */
  function PurgeOutcome(s: Store, id: Id): (r: Outcome<Booking>)
    ensures r.code == NotFound <==> id !in s
    ensures r.code == Ok <==> id in s
    ensures r.store.Keys == s.Keys - {id}
    ensures forall k :: k in r.store ==> r.store[k] == s[k]
    ensures AllValid(s) ==> AllValid(r.store)
    ensures PricesKept(s, r.store)
  {
    if id !in s then Outcome(NotFound, s) else Outcome(Ok, s - {id})
  }

  /** `getDeletedBookings`: exactly the deleted bookings, most recently deleted first. */
  ghost function DeletedBookings(s: Store): (r: seq<Id>)
    ensures forall i :: 0 <= i < |r| ==> r[i] in s
    ensures forall id :: id in r <==> id in s && IsDeleted(s[id].isDeleted)
    ensures Distinct(r) && SortedDesc(s, r, DeletedAt)
  {
    NewestFirst(s, (set id | id in s && IsDeleted(s[id].isDeleted)), DeletedAt)
  }

  /** The deleted listing and the unfiltered admin listing partition the store. */
  lemma ListingsPartition(s: Store, id: Id)
    requires id in s
    ensures (id in DeletedBookings(s)) != (id in AllBookings(s, None))
  {
  }

  /** Deleting then restoring gives back the booking with its status, payment status and price;
      a booking that was stored with `isDeleted: false` and no deletion date comes back exactly. */
  lemma {:induction false} DeleteThenRestore(s: Store, caller: Caller, id: Id, now: Time)
    requires SoftDeleteOutcome(s, caller, id, now).code == Ok
    ensures var deleted := SoftDeleteOutcome(s, caller, id, now).store;
      var restored := RestoreOutcome(deleted, id);
      && restored.code == Ok
      && restored.store == s[id := s[id].(isDeleted := NotDeleted, deletedAt := None)]
      && restored.store[id].status == s[id].status
      && restored.store[id].paymentStatus == s[id].paymentStatus
      && restored.store[id].totalPrice == s[id].totalPrice
      && (s[id].isDeleted == NotDeleted && s[id].deletedAt == None ==> restored.store == s)
  {
    var deleted := SoftDeleteOutcome(s, caller, id, now).store;
    var restored := RestoreOutcome(deleted, id);
    assert IsDeleted(deleted[id].isDeleted);
    assert restored.store == s[id := s[id].(isDeleted := NotDeleted, deletedAt := None)];
    if s[id].isDeleted == NotDeleted && s[id].deletedAt == None {
      assert s[id].(isDeleted := NotDeleted, deletedAt := None) == s[id];
    }
  }

  /** A soft-deleted booking leaves the owner's and the admin's default listings and enters the
      deleted listing. */
  lemma SoftDeleteHides(s: Store, caller: Caller, id: Id, now: Time)
    requires SoftDeleteOutcome(s, caller, id, now).code == Ok
    ensures var s' := SoftDeleteOutcome(s, caller, id, now).store;
      && id !in MyBookings(s', Caller(s[id].user, caller.role))
      && id !in AllBookings(s', None)
      && id in DeletedBookings(s')
  {
  }

  // ---------------------------------------------------------------- the store

  /** The booking collection; each method is one handler that writes to it. */
  class BookingStore {
    var bookings: Store

    ghost predicate Valid()
      reads this
    {
      AllValid(bookings)
    }

    constructor ()
      ensures Valid() && bookings == map[]
    {
      bookings := map[];
    }

    /** `newId` is the fresh id the database assigns; `now` the creation date. */
    method CreateBooking(services: map<Id, Service>, caller: Caller, req: CreateRequest, newId: Id, now: Time)
      returns (code: HttpStatus)
      requires Valid() && newId !in bookings
      modifies this
      ensures Valid()
      ensures var o := CreateOutcome(old(bookings), services, caller, req, newId, now);
        code == o.code && bookings == o.store
    {
      if req.serviceId !in services {
        return NotFound;
      }
      var service := services[req.serviceId];
      if !RequestValid(req) {
        return ServerError;
      }
      var paymentMethod := RequestedMethod(req.paymentMethod).value;
      bookings := bookings[newId := NewBooking(caller.id, req.serviceId, req.date, req.time, req.address,
                                               req.notes, service.price, paymentMethod, PaymentPending, now)];
      code := Created;
    }

    /** `intentId` is the id the payment provider returns; `amount` is what was asked of it. */
    method CreatePaymentIntent(caller: Caller, id: Id, intentId: string) returns (code: HttpStatus, amount: int)
      requires Valid()
      modifies this
      ensures Valid()
      ensures var o := PaymentIntentOutcome(old(bookings), caller, id, intentId);
        code == o.code && bookings == o.store
      ensures code == Ok ==> amount == IntentAmount(old(bookings)[id])
    {
      amount := 0;
      if id !in bookings {
        return NotFound, amount;
      }
      var booking := bookings[id];
      if booking.user != caller.id {
        return Forbidden, amount;
      }
      amount := IntentAmount(booking);
      bookings := bookings[id := booking.(stripePaymentIntentId := Some(intentId))];
      code := Ok;
    }

    /** `succeeded` is whether the provider reports the intent as `succeeded`. */
    method ConfirmPayment(id: Id, succeeded: bool) returns (code: HttpStatus)
      requires Valid()
      modifies this
      ensures Valid()
      ensures var o := ConfirmOutcome(old(bookings), id, succeeded);
        code == o.code && bookings == o.store
    {
      if id !in bookings {
        return NotFound;
      }
      var booking := bookings[id];
      if succeeded {
        booking := booking.(paymentStatus := PaymentCompleted);
        booking := booking.(status := Confirmed);
        bookings := bookings[id := booking];
        code := Ok;
      } else {
        booking := booking.(paymentStatus := PaymentFailed);
        bookings := bookings[id := booking];
        code := BadRequest;
      }
    }

    method CancelBooking(caller: Caller, id: Id) returns (code: HttpStatus)
      requires Valid()
      modifies this
      ensures Valid()
      ensures var o := CancelOutcome(old(bookings), caller, id);
        code == o.code && bookings == o.store
    {
      if id !in bookings {
        return NotFound;
      }
      var booking := bookings[id];
      if booking.user != caller.id && caller.role != Admin {
        return Forbidden;
      }
      bookings := bookings[id := booking.(status := Cancelled)];
      code := Ok;
    }

    method UpdateBookingStatus(id: Id, status: string) returns (code: HttpStatus)
      requires Valid()
      modifies this
      ensures Valid()
      ensures var o := StatusOutcome(old(bookings), id, status);
        code == o.code && bookings == o.store
    {
      var parsed := ParseStatus(status);
      if parsed.None? {
        return ServerError;
      }
      if id !in bookings {
        return NotFound;
      }
      bookings := bookings[id := bookings[id].(status := parsed.value)];
      code := Ok;
    }

    method AssignBooking(id: Id, personnelId: Id) returns (code: HttpStatus)
      requires Valid()
      modifies this
      ensures Valid()
      ensures var o := AssignOutcome(old(bookings), id, personnelId);
        code == o.code && bookings == o.store
    {
      if id !in bookings {
        return NotFound;
      }
      bookings := bookings[id := bookings[id].(assignedTo := Some(personnelId))];
      code := Ok;
    }

    method DeleteBooking(caller: Caller, id: Id, now: Time) returns (code: HttpStatus)
      requires Valid()
      modifies this
      ensures Valid()
      ensures var o := SoftDeleteOutcome(old(bookings), caller, id, now);
        code == o.code && bookings == o.store
    {
      if id !in bookings || IsDeleted(bookings[id].isDeleted) {
        return NotFound;
      }
      var booking := bookings[id];
      if booking.user != caller.id && caller.role != Admin {
        return Forbidden;
      }
      booking := booking.(isDeleted := Deleted);
      booking := booking.(deletedAt := Some(now));
      bookings := bookings[id := booking];
      code := Ok;
    }

    method RestoreBooking(id: Id) returns (code: HttpStatus)
      requires Valid()
      modifies this
      ensures Valid()
      ensures var o := RestoreOutcome(old(bookings), id);
        code == o.code && bookings == o.store
    {
      if id !in bookings {
        return NotFound;
      }
      var booking := bookings[id];
      if !IsDeleted(booking.isDeleted) {
        return BadRequest;
      }
      booking := booking.(isDeleted := NotDeleted);
      booking := booking.(deletedAt := None);
      bookings := bookings[id := booking];
      code := Ok;
    }

    method PermanentlyDeleteBooking(id: Id) returns (code: HttpStatus)
      requires Valid()
      modifies this
      ensures Valid()
      ensures var o := PurgeOutcome(old(bookings), id);
        code == o.code && bookings == o.store
    {
      if id !in bookings {
        return NotFound;
      }
      bookings := bookings - {id};
      code := Ok;
    }
  }
}
