# CleanPro booking platform — a Dafny model of its core

CleanPro is a cleaning-services booking platform. Its Express/Mongoose backend stores services, users and
bookings, all soft-deletable. The backend also takes payments and guards every route with `protect`
(a valid JWT) and `authorize(role)`. A Next.js frontend holds the order cart, the registration form, the
admin area guard and the admin payments dashboard.

This project models that core in Dafny. Each source file becomes one module:

- **Stores.** Each Mongo collection is a `map<Id, Record>`. The controllers that change a collection in
  place are classes (`BookingStore`, `ServiceCatalog`, `UserDirectory`) that reassign that map. Each
  method is proved equal to a pure `…Outcome` function of the old map. The function states:
  - the HTTP status in every case, as if-and-only-if conditions;
  - that only the addressed record changed (`OnlyAt`);
  - that the schema invariants are kept.
- **Listings.** A listing sorted by `-createdAt` or `-deletedAt` is specified by `Listing.NewestFirst`.
  It is proved complete, duplicate-free and non-increasing in the key.
- **Statistics.** MongoDB aggregations are sums over sets (`Listing.SumOver`), proved to partition by
  status or by role.
- **Routing.** The four routers are tables of routes that a small model of Express dispatch reads
  (`Router.Dispatch`): the router-level middleware, then the first route that matches in declaration
  order, then that route's gates.
- **Frontend.** The frontend logic is pure functions on the page state: cart, form, session and table rows.

Soft deletion follows the code's tri-state `isDeleted` (true, false, or missing). "Visible" means not
true. This is what the query `$or: [{isDeleted: false}, {isDeleted: {$exists: false}}]` selects.

## Model

| member | source | states |
|---|---|---|
| Common.ParseRole | backend/models/User.js:29-33 | a role string parses exactly when it names one of client, admin, personnel, and parsing inverts the name |
| Common.VisibleIffNotDeleted | backend/controllers/bookingController.js:133-135 | the listing filter (false or missing) selects exactly the records whose flag is not true |
| Common.TrimEnd | backend/models/Service.js:4-9 | the result is a prefix of the input that does not end in whitespace |
| Common.TrimEndDropsSpaces | backend/models/Service.js:4-9 | everything the right trim removes is whitespace |
| Common.Trim | backend/models/Service.js:4-9 | the trimmed string is no longer than the input and has no whitespace at either end |
| Common.TrimKeepsMiddle | backend/models/User.js:6-11 | the trimmed string is a contiguous slice of the input, and only whitespace lies on either side of it |
| Common.TrimmedFixed | backend/models/User.js:6-11 | a string already without edge whitespace is left unchanged |
| Common.TrimIdempotent | backend/models/User.js:6-11 | trimming twice is trimming once, so a re-saved document keeps its name |
| Listing.NewestExists | backend/controllers/bookingController.js:135 | every non-empty set of records has one with the largest sort key |
| Listing.NewestFirst | backend/controllers/bookingController.js:135 | the `-createdAt` order lists every selected id exactly once, with keys non-increasing |
| Listing.SumOverRemove | backend/controllers/bookingController.js:290-299 | a `$sum` over a set is one member's value plus the sum over the rest |
| Listing.SumOverUnion | backend/controllers/bookingController.js:290-299 | `$sum` over two disjoint groups adds up |
| Listing.DisjointCard | backend/controllers/userController.js:106-109 | counts of disjoint groups add up |
| BookingSchema.ParseStatus | backend/models/Booking.js:30-34 | a status string is accepted exactly when it is one of the five enum values, and parsing inverts the name |
| BookingSchema.ParseMethod | backend/models/Booking.js:43-47 | a payment method is accepted exactly when it is `cash` or `online` |
| BookingSchema.StatusNameRoundTrip | backend/models/Booking.js:30-34 | every status's stored name parses back to that status |
| BookingSchema.AllStatusesListed | backend/controllers/bookingController.js:290-299 | the five status buckets of the statistics cover every status |
| BookingController.CreateOutcome | backend/controllers/bookingController.js:5-39 | 404 iff the service id is unknown; 201 iff known and the request passes the schema; 500 otherwise. A created booking belongs to the caller, copies the service price, has payment status pending and method cash unless online was asked; no other booking changes; the schema invariants hold |
| BookingController.CreateIgnoresServiceFlags | backend/controllers/bookingController.js:9-15 | a soft-deleted or inactive service is still booked |
| BookingController.PaymentIntentOutcome | backend/controllers/bookingController.js:41-86 | 404 iff the booking is missing, 403 iff the caller is not its owner, 200 otherwise. On success only the intent id of that booking changes |
| BookingController.PaymentIntentKeepsStatuses | backend/controllers/bookingController.js:62-71 | creating an intent changes neither the booking status nor the payment status |
| BookingController.ConfirmOutcome | backend/controllers/bookingController.js:88-129 | 404 iff the booking is missing. A succeeded intent gives 200 with payment completed and status confirmed. Any other intent gives 400 with payment failed. Only that booking changes |
| BookingController.ConfirmNotFinal | backend/controllers/bookingController.js:114-122 | a failed confirmation after a successful one marks a confirmed booking's payment failed |
| BookingController.MyBookings | backend/controllers/bookingController.js:133-135 | exactly the caller's visible bookings, newest first, without duplicates |
| BookingController.GetBooking | backend/controllers/bookingController.js:152-169 | 404 iff missing or soft-deleted; 500 iff visible but its owner's account no longer exists, so the populated `user` is null; 403 iff visible, owned by an existing account, and the caller is neither that owner nor an admin; 200 iff none of these, and it returns the record |
| BookingController.CancelOutcome | backend/controllers/bookingController.js:185-202 | 404 iff missing; 403 iff the caller is neither owner nor admin; otherwise only that booking's status becomes cancelled, whatever it was |
| BookingController.CancelIdempotent | backend/controllers/bookingController.js:185-202 | cancelling twice has the same code and store as cancelling once |
| BookingController.AllBookings | backend/controllers/bookingController.js:218-228 | exactly the visible bookings whose status name equals a non-empty filter, newest first |
| BookingController.StatusOutcome | backend/controllers/bookingController.js:247-260 | 500 iff the status is not an enum value (the validator runs first); 404 iff valid and missing; otherwise only that booking's status changes, to the requested one |
| BookingController.AssignedToMe | backend/controllers/bookingController.js:276-280 | exactly the visible bookings assigned to the caller, newest first |
| BookingController.AssignOutcome | backend/controllers/bookingController.js:328-342 | 404 iff missing; otherwise only that booking's assignee changes, to the given id, without checking the assignee's role |
| BookingController.StatusGroup | backend/controllers/bookingController.js:290-299 | the visible bookings with one status |
| BookingController.ListedIds | backend/controllers/bookingController.js:290-299 | the visible bookings the statistics range over |
| BookingController.BookingStatsOf | backend/controllers/bookingController.js:290-312 | one bucket per status that has visible bookings, each holding its count and price sum. The bucket counts add up to the total. The revenue is the price sum over completed bookings only |
| BookingController.BucketsCover | backend/controllers/bookingController.js:290-299 | the five status groups are disjoint and their union is the visible set |
| BookingController.GroupsPartition | backend/controllers/bookingController.js:290-299 | counts and price sums of the status groups add up to those of all visible bookings |
| BookingController.SoftDeleteOutcome | backend/controllers/bookingController.js:353-371 | 404 iff missing or already deleted; 403 iff neither owner nor admin; otherwise only that booking is flagged deleted at the current time |
| BookingController.RestoreOutcome | backend/controllers/bookingController.js:389-407 | 404 iff missing; 400 iff not deleted; otherwise only that booking gets its flag and deletion time cleared |
| BookingController.PurgeOutcome | backend/controllers/bookingController.js:425-432 | 404 iff missing; the store loses exactly that id and nothing else changes |
| BookingController.DeletedBookings | backend/controllers/bookingController.js:450-454 | exactly the soft-deleted bookings, most recently deleted first |
| BookingController.ListingsPartition | backend/controllers/bookingController.js:450-454 | every booking is in exactly one of the admin list and the deleted list |
| BookingController.DeleteThenRestore | backend/controllers/bookingController.js:389-407 | restoring right after a soft delete succeeds and gives back the booking with status, payment and price intact |
| BookingController.SoftDeleteHides | backend/controllers/bookingController.js:353-371 | after a soft delete the booking leaves the owner's and the admin list and enters the deleted list |
| BookingController.BookingStore.constructor | backend/models/Booking.js:3-70 | an empty collection |
| BookingController.BookingStore.CreateBooking | backend/controllers/bookingController.js:17-27 | the stored bookings and the code are those of CreateOutcome |
| BookingController.BookingStore.CreatePaymentIntent | backend/controllers/bookingController.js:62 | as PaymentIntentOutcome, and the intent amount is the price times 100 |
| BookingController.BookingStore.ConfirmPayment | backend/controllers/bookingController.js:104-122 | as ConfirmOutcome |
| BookingController.BookingStore.CancelBooking | backend/controllers/bookingController.js:185-202 | as CancelOutcome |
| BookingController.BookingStore.UpdateBookingStatus | backend/controllers/bookingController.js:247-260 | as StatusOutcome |
| BookingController.BookingStore.AssignBooking | backend/controllers/bookingController.js:328-342 | as AssignOutcome |
| BookingController.BookingStore.DeleteBooking | backend/controllers/bookingController.js:353-371 | as SoftDeleteOutcome |
| BookingController.BookingStore.RestoreBooking | backend/controllers/bookingController.js:389-407 | as RestoreOutcome |
| BookingController.BookingStore.PermanentlyDeleteBooking | backend/controllers/bookingController.js:425-432 | as PurgeOutcome |
| ServiceSchema.ParseCategory | backend/models/Service.js:16-20 | a category is accepted exactly when it is maison, batiment, bureau or vehicule |
| ServiceSchema.BuildService | backend/models/Service.js:3-48 | creation succeeds iff the required fields are present and every field passes its validator. The result has the trimmed name, the given description and the named category; it is valid and not deleted, active unless told otherwise, with the default image when none is given |
| ServiceSchema.ApplyPatch | backend/controllers/serviceController.js:67-79 | field by field, a field present in the body replaces the stored one (the name trimmed, the category parsed from its enum name) and an absent one keeps it. It never touches the deletion or creation fields, an empty body changes nothing, and a validated update keeps a valid service valid |
| ServiceSchema.FullPatchRebuilds | backend/controllers/serviceController.js:76-79 | an update carrying every field gives exactly the service that creating it from that body gives, keeping only the creation time and deletion state |
| ServiceSchema.PatchIdempotent | backend/controllers/serviceController.js:76-79 | sending the same update twice leaves the service as sending it once |
| ServiceController.PublicServices | backend/controllers/serviceController.js:5-11 | exactly the active, visible services whose category matches a non-empty filter |
| ServiceController.AdminServices | backend/controllers/serviceController.js:123 | exactly the visible services, active or not |
| ServiceController.PublicWithinAdmin | backend/controllers/serviceController.js:5-11 | the public catalogue is the admin list restricted to active services |
| ServiceController.GetService | backend/controllers/serviceController.js:28-35 | 404 iff missing or soft-deleted, otherwise the record, even when inactive |
| ServiceController.CreateServiceOutcome | backend/controllers/serviceController.js:51 | 201 iff the body passes the schema (the built service is added, nothing else changes); 500 otherwise, with no change |
| ServiceController.CreateKeepsValid | backend/controllers/serviceController.js:51 | creating a service keeps every stored service valid |
| ServiceController.UpdateServiceOutcome | backend/controllers/serviceController.js:67-79 | 404 iff missing or deleted; 500 iff the body fails validation; otherwise only that service is patched, and validity is kept |
| ServiceController.SoftDeleteOutcome | backend/controllers/serviceController.js:95-106 | 404 iff missing or already deleted; otherwise only that service is flagged deleted at the current time |
| ServiceController.RestoreOutcome | backend/controllers/serviceController.js:141-159 | 404 iff missing; 400 iff not deleted; otherwise only that service's deletion is cleared |
| ServiceController.PurgeOutcome | backend/controllers/serviceController.js:177-184 | 404 iff missing; exactly that id is removed |
| ServiceController.DeletedServices | backend/controllers/serviceController.js:202-203 | exactly the soft-deleted services, most recently deleted first |
| ServiceController.DeleteThenRestoreService | backend/controllers/serviceController.js:141-159 | after a soft delete the service is hidden from both listings and from lookup; restoring it then succeeds and gives back the original record with its deletion cleared |
| ServiceController.ServiceCatalog.constructor | backend/models/Service.js:3-48 | an empty collection |
| ServiceController.ServiceCatalog.CreateService | backend/controllers/serviceController.js:51 | as CreateServiceOutcome |
| ServiceController.ServiceCatalog.UpdateService | backend/controllers/serviceController.js:67-79 | as UpdateServiceOutcome |
| ServiceController.ServiceCatalog.DeleteService | backend/controllers/serviceController.js:95-106 | as SoftDeleteOutcome |
| ServiceController.ServiceCatalog.RestoreService | backend/controllers/serviceController.js:141-159 | as RestoreOutcome |
| ServiceController.ServiceCatalog.PermanentlyDeleteService | backend/controllers/serviceController.js:177-184 | as PurgeOutcome |
| UserSchema.RunsTailShape | backend/models/User.js:17 | the tail of a local part or domain is word characters and single `.`/`-` separators, never ending in a separator |
| UserSchema.RunsShape | backend/models/User.js:17 | a matched local part or domain starts and ends with a word character, and every separator is followed by one |
| UserSchema.LabelsShape | backend/models/User.js:17 | the final labels start with a dot and are at least three characters |
| UserSchema.EmailSingleAt | backend/models/User.js:17 | a matching address contains exactly one `@` |
| UserSchema.NoDotRefused | backend/models/User.js:17 | an address with no dot after its `@` is refused |
| UserSchema.SeedAddressMatches | backend/seed.js:108 | the seeded administrator's address passes the pattern |
| UserSchema.SeedParts | backend/seed.js:108 | the pieces of the seeded address match their parts of the pattern |
| UserSchema.WordRunsOf | backend/models/User.js:17 | a non-empty run of word characters is a valid local part |
| UserSchema.WordTail | backend/models/User.js:17 | word characters alone form a valid tail |
| UserSchema.DoubleSeparatorRefused | backend/models/User.js:17 | the address `a..b` is refused; the general fact is RunsShape's |
| UserSchema.LowerChar | backend/models/User.js:16 | upper-case ASCII letters map to lower case, everything else is kept, and word characters stay word characters |
| UserSchema.Lower | backend/models/User.js:16 | lower-casing is per character and keeps the length |
| UserSchema.LowerIdempotent | backend/models/User.js:16 | lower-casing twice is lower-casing once |
| UserSchema.ParseProficiency | backend/models/User.js:43-47 | a proficiency is accepted exactly when it is one of the three enum values |
| UserSchema.BuildSkill | backend/models/User.js:38-48 | a skill is accepted iff its category and proficiency are enum values; the proficiency defaults to intermediaire |
| UserSchema.BuildSkills | backend/models/User.js:38-48 | a skill list is accepted iff every skill is, one for one |
| UserSchema.DefaultAvailability | backend/models/User.js:49-70 | the default availability is Monday to Friday, 08:00 to 18:00, available |
| UserSchema.Selected | backend/models/User.js:27 | a read never includes the password |
| UserSchema.BuildUser | backend/models/User.js:5-83 | creation succeeds iff the required fields are present and valid. The result is valid, with a lower-cased email, a trimmed name, and the phone, password and address as given. The role, skills list and availability are the ones the body names (the role and skills parsed by the schema's enums), and default to the client role, no skills and the default availability. The account is not deleted |
| UserSchema.ApplyUserPatch | backend/controllers/userController.js:49-61 | field by field, a field present in the body replaces the stored one and an absent one keeps it: the name trimmed, the email lower-cased, the password stored as given, the role and skills parsed by the schema's enums. It never touches the deletion or creation fields, and an empty body changes nothing |
| UserSchema.PatchKeepsValid | backend/controllers/userController.js:49-61 | an update that passes the validators keeps a valid account valid |
| UserSchema.FullUserPatchRebuilds | backend/controllers/userController.js:58-61 | an update carrying every field gives exactly the account that creating it from that body gives, keeping only the creation time and deletion state |
| UserController.UserIds | backend/controllers/userController.js:5-9 | the visible users whose role name equals a non-empty filter |
| UserController.GetUsers | backend/controllers/userController.js:5-9 | exactly those users, newest first, without duplicates |
| UserController.UnknownRoleListsNobody | backend/controllers/userController.js:5-9 | filtering by an unknown role lists nobody rather than failing |
| UserController.GetUser | backend/controllers/userController.js:26-37 | 404 iff missing or deleted, otherwise the account without its password |
| UserController.UpdateUserOutcome | backend/controllers/userController.js:49-61 | 404 iff missing or deleted; 500 iff the body fails validation or its email belongs to another account; 200 iff the account is visible, the body valid and its email free; then only that account is patched |
| UserController.UpdateKeepsInvariants | backend/controllers/userController.js:49-61 | an update keeps every account valid and all emails distinct |
| UserController.SoftDeleteOutcome | backend/controllers/userController.js:77-89 | 404 iff missing or already deleted; otherwise only that account is flagged deleted at the current time |
| UserController.RestoreOutcome | backend/controllers/userController.js:137-155 | 404 iff missing; 400 iff not deleted; otherwise only that account's deletion is cleared |
| UserController.PurgeOutcome | backend/controllers/userController.js:173-180 | 404 iff missing; exactly that id is removed, and emails stay distinct |
| UserController.DeletedUsers | backend/controllers/userController.js:198-200 | exactly the soft-deleted accounts, most recently deleted first |
| UserController.ListingsPartition | backend/controllers/userController.js:198-200 | every account is in exactly one of the user list and the deleted list |
| UserController.DeleteThenRestoreUser | backend/controllers/userController.js:137-155 | a soft-deleted account leaves the list and lookup; restoring it succeeds and brings it back |
| UserController.RoleGroup | backend/controllers/userController.js:106-109 | the visible accounts with one role |
| UserController.PrefixIsNewest | backend/controllers/userController.js:111-114 | a user left out of the first n of the newest-first order is no newer than any user kept |
| UserController.RecentUsers | backend/controllers/userController.js:111-114 | at most five visible users, distinct, newest first, none newer left out, each projected to id, name, email and creation time |
| UserController.Top | backend/controllers/userController.js:111-114 | the five newest ids are stored accounts |
| UserController.TopFacts | backend/controllers/userController.js:111-114 | the five newest are visible, distinct, newest first, and none newer is left out |
| UserController.Project | backend/controllers/userController.js:111-114 | the projection keeps order and takes only id, name, email and creation time |
| UserController.UserStatsOf | backend/controllers/userController.js:106-123 | the total is the number of visible users and equals the sum of the three role counts; the recent list is RecentUsers |
| UserController.RolesPartition | backend/controllers/userController.js:106-109 | the three role counts add up to the total |
| UserController.UserDirectory.constructor | backend/models/User.js:5-83 | an empty collection |
| UserController.UserDirectory.UpdateUser | backend/controllers/userController.js:49-61 | as UpdateUserOutcome, keeping valid accounts and distinct emails |
| UserController.UserDirectory.DeleteUser | backend/controllers/userController.js:77-89 | as SoftDeleteOutcome |
| UserController.UserDirectory.RestoreUser | backend/controllers/userController.js:137-155 | as RestoreOutcome |
| UserController.UserDirectory.PermanentlyDeleteUser | backend/controllers/userController.js:173-180 | as PurgeOutcome |
| Router.Denial | backend/routes/bookings.js:20 | a request is stopped iff some gate refuses it. The first refusing gate decides: 401 for `protect`, 403 for `authorize` |
| Router.FirstMatch | backend/routes/bookings.js:22-52 | the chosen route matches, no earlier route does, and there is none iff no route matches |
| Router.Dispatch | backend/routes/bookings.js:20-52 | router middleware first, then the first matching route's gates, then its handler; NoRoute iff nothing matches |
| Router.DecideAt | backend/routes/bookings.js:38-40 | once middleware passes and route i is the first match, the decision is route i's |
| Router.OneRoleGate | backend/routes/bookings.js:26-27 | a lone `authorize(roles)` admits exactly the listed roles and answers 403 to the rest |
| Router.RunNeedsGates | backend/routes/bookings.js:20-52 | a handler runs only if the caller passed the middleware and the gates of a route naming it |
| Router.UnroutedNeverRuns | backend/routes/bookings.js:7 | a handler no route names never runs |
| Router.GuardedHandler | backend/routes/bookings.js:26-52 | a handler named only behind `authorize(roles)` runs only for those roles |
| BookingRoutes.EveryBookingRouteAuthenticated | backend/routes/bookings.js:20 | without a token every request, routed or not, gets 401 |
| BookingRoutes.AdminRoutesGuarded | backend/routes/bookings.js:26-52 | every route naming an admin handler carries `authorize('admin')` |
| BookingRoutes.AdminHandlersNeedAdmin | backend/routes/bookings.js:26-52 | listing all, listing deleted, statistics, status update, assignment, restore and permanent delete run only for an administrator |
| BookingRoutes.AssignedToMeIsPersonnelOnly | backend/routes/bookings.js:32-33 | `/assigned/me` runs for personnel and answers 403 to everyone else, administrators included |
| BookingRoutes.CancelNeverRouted | backend/routes/bookings.js:7 | the cancel handler is unreachable |
| BookingRoutes.AdminPathIsNotAnId | backend/routes/bookings.js:26-27 | `GET /admin` is the admin list (403 for others), never a lookup of id "admin" |
| BookingRoutes.DeleteIsSoftDelete | backend/routes/bookings.js:38-40 | `DELETE /:id` reaches the soft delete for every authenticated caller |
| BookingRoutes.OwnListOpen | backend/routes/bookings.js:22-24 | every authenticated caller reaches their own list |
| BookingRoutes.CreateOpen | backend/routes/bookings.js:22-24 | every authenticated caller may create a booking |
| BookingRoutes.GetOneOpen | backend/routes/bookings.js:38-40 | `GET /:id` reaches the lookup for every caller; the owner check is in the handler |
| BookingRoutes.OneSegmentPath | backend/routes/bookings.js:38-40 | a one-segment id other than "admin" is first matched by `/:id` |
| BookingRoutes.DeleteReachesOwnerCheck | backend/routes/bookings.js:38-40 | any caller reaches the soft delete; the handler succeeds only for owner or admin and answers 403 otherwise |
| ServiceRoutes.CatalogReadsPublic | backend/routes/services.js:16-18 | reading the catalogue and one service needs no token |
| ServiceRoutes.AdminRoutesGuarded | backend/routes/services.js:20-35 | every mutation and admin listing route carries `protect` and `authorize('admin')` |
| ServiceRoutes.MutationsNeedAdmin | backend/routes/services.js:20-35 | create, update, delete, restore, purge and the admin lists run only for an administrator |
| ServiceRoutes.AdminPathIsNotAnId | backend/routes/services.js:20-21 | `GET /admin` answers 401 without a token, 403 for non-admins, and the admin list for admins |
| UserRoutes.OnlyAdminsPass | backend/routes/users.js:15-16 | every user route answers 401 without a token and 403 to non-admins, and only admins reach a handler |
| UserRoutes.NamedPathsBeforeId | backend/routes/users.js:21-25 | `/stats` and `/deleted` reach their handlers, not the id lookup |
| UserRoutes.AdminMayDeleteSelf | backend/routes/users.js:27-30 | an administrator can soft-delete their own account |
| UserRoutes.PurgeOrphansBookings | backend/controllers/bookingController.js:152-164 | a visible booking an administrator can read answers 500 once its owner's account is purged |
| PaymentRoutes.AuthenticatedOnly | backend/routes/payments.js:7-8 | both payment routes need a token and nothing else |
| PaymentRoutes.AnyCallerConfirmsAnyBooking | backend/routes/payments.js:8 | any authenticated caller can confirm any booking, which becomes paid and confirmed |
| PaymentRoutes.IntentOnlyForOwner | backend/routes/payments.js:7 | an intent for another caller's booking is refused with 403 by the handler |
| OrderCart.AddToCart | frontend/src/app/order/page.tsx:75-87 | a new service is appended with quantity 1; a present one gets its quantity raised by one, in place; ids stay unique |
| OrderCart.RemoveFromCart | frontend/src/app/order/page.tsx:89-92 | removal never grows the cart and leaves a cart without that id unchanged; what it keeps is stated by RemoveKeepsOthers and RemoveCutsOut |
| OrderCart.RemoveKeepsOthers | frontend/src/app/order/page.tsx:89-92 | after removal the cart holds exactly the other items |
| OrderCart.RemoveKeepsShape | frontend/src/app/order/page.tsx:89-92 | the removed id is gone and a well-formed cart stays well-formed |
| OrderCart.RemoveCutsOut | frontend/src/app/order/page.tsx:89-92 | removal cuts the one matching item out, keeping the order of the rest |
| OrderCart.UpdateQuantity | frontend/src/app/order/page.tsx:94-104 | a quantity of zero or less removes the item; a positive one replaces that item's quantity only |
| OrderCart.CalculateTotal | frontend/src/app/order/page.tsx:106-108 | an empty cart totals zero; the sum itself is stated by TotalAppend and SplitTotal |
| OrderCart.TotalNonNegative | frontend/src/app/order/page.tsx:106-108 | non-negative prices and quantities give a non-negative total |
| OrderCart.CalculateDuration | frontend/src/app/order/page.tsx:110-112 | an empty cart lasts zero hours, and non-negative inputs give a non-negative duration; the sum itself is stated by DurationAppend and DurationSplit |
| OrderCart.DurationAppend | frontend/src/app/order/page.tsx:110-112 | the duration of two carts joined is the sum of their durations |
| OrderCart.DurationSplit | frontend/src/app/order/page.tsx:110-112 | the duration is the hours before k, item k's hours and the hours after k |
| OrderCart.AddNewDuration | frontend/src/app/order/page.tsx:75-87 | adding a service not yet in the cart lengthens the order by its duration |
| OrderCart.RemoveDuration | frontend/src/app/order/page.tsx:89-92 | removing an item shortens the order by its duration times its quantity |
| OrderCart.TotalAppend | frontend/src/app/order/page.tsx:106-108 | the total of two carts joined is the sum of their totals |
| OrderCart.AddNewTotal | frontend/src/app/order/page.tsx:75-87 | adding a new service raises the total by its price |
| OrderCart.AddExistingTotal | frontend/src/app/order/page.tsx:75-87 | adding a present service also raises the total by its price |
| OrderCart.BumpTotal | frontend/src/app/order/page.tsx:75-87 | one more unit of item k raises the total by its price |
| OrderCart.OneMore | frontend/src/app/order/page.tsx:106-108 | one more unit adds one price to an item's amount |
| OrderCart.BumpReplacesOne | frontend/src/app/order/page.tsx:75-87 | adding a present service replaces just that item, with its quantity plus one |
| OrderCart.SetReplacesOne | frontend/src/app/order/page.tsx:94-104 | a positive quantity update replaces just that item |
| OrderCart.UpdateTotal | frontend/src/app/order/page.tsx:94-104 | a quantity update changes the total by the difference of that item's amounts |
| OrderCart.SplitTotal | frontend/src/app/order/page.tsx:106-108 | the total is the amount before k, item k's amount and the amount after k |
| OrderCart.ReplaceTotal | frontend/src/app/order/page.tsx:106-108 | replacing item k changes the total by the difference of the two amounts |
| OrderCart.RemoveTotal | frontend/src/app/order/page.tsx:89-92 | removing an item lowers the total by its amount |
| OrderCart.Submit | frontend/src/app/order/page.tsx:114-139 | an empty cart is refused first, then a missing date, time or address. Otherwise one booking request goes out per cart item, in cart order, carrying that service and the shared details |
| OrderCart.SubmitIgnoresQuantity | frontend/src/app/order/page.tsx:130-139 | carts differing only in quantities send the same requests |
| OrderCart.AfterCreated | frontend/src/app/order/page.tsx:143-155 | online payment goes to the first booking's payment page and keeps the cart; cash clears the cart and the form and goes to the bookings page |
| OrderCart.CashOrderClearsCart | frontend/src/app/order/page.tsx:143-155 | after a cash order, submitting again is refused as an empty cart |
| PaymentsDashboard.Filtered | frontend/src/app/admin/payments/page.tsx:48-51 | the filter keeps exactly the rows of the chosen method, each as many times as it occurs, and "all" keeps every row |
| PaymentsDashboard.TotalAmount | frontend/src/app/admin/payments/page.tsx:53-55 | no rows, no revenue; the sum itself is stated by TotalAmountAppend and TotalAmountStep |
| PaymentsDashboard.CountStatus | frontend/src/app/admin/payments/page.tsx:56-58 | a status count is at most the number of rows and is zero iff no row has that status |
| PaymentsDashboard.Page | frontend/src/app/admin/payments/page.tsx:48-58 | the table never shows more rows than were fetched; StatsIgnoreFilter states that the cards do not depend on the filter |
| PaymentsDashboard.StatsIgnoreFilter | frontend/src/app/admin/payments/page.tsx:53-58 | the statistic cards do not depend on the method filter |
| PaymentsDashboard.CountsBounded | frontend/src/app/admin/payments/page.tsx:56-58 | completed, pending and failed counts together are at most the number of rows |
| PaymentsDashboard.CountsCoverStoredStatuses | frontend/src/app/admin/payments/page.tsx:56-58 | when every row has a stored status, the three counts add up to the number of rows |
| PaymentsDashboard.TotalAmountAppend | frontend/src/app/admin/payments/page.tsx:53-55 | revenue over joined row lists adds up |
| PaymentsDashboard.TotalAmountStep | frontend/src/app/admin/payments/page.tsx:53-55 | a row adds its price to the revenue iff its payment is completed |
| PaymentsDashboard.NoCompletedNoRevenue | frontend/src/app/admin/payments/page.tsx:53-55 | without completed payments the revenue is zero |
| PaymentsDashboard.MethodBadgeOf | frontend/src/app/admin/payments/page.tsx:30-35 | the cash badge is shown iff the method is `cash` |
| PaymentsDashboard.StatusBadgeOf | frontend/src/app/admin/payments/page.tsx:37-46 | the paid badge iff completed, the failed badge iff failed |
| PaymentsDashboard.ShownMethod | frontend/src/app/admin/payments/page.tsx:182 | the cash badge iff the method is missing, empty (a falsy string in JavaScript) or `cash` |
| PaymentsDashboard.ShownStatus | frontend/src/app/admin/payments/page.tsx:183 | a row without a status shows the pending badge; the paid badge iff the status is `completed`, the failed badge iff `failed` |
| PaymentsDashboard.MissingMethodLeftOutOfCash | frontend/src/app/admin/payments/page.tsx:48-51 | a row whose method is missing or empty is shown as cash, yet the cash filter drops it |
| PaymentsDashboard.MissingStatusNotCounted | frontend/src/app/admin/payments/page.tsx:56-58 | a row without a status is shown as pending, yet not counted as pending |
| PaymentsDashboard.CountAppendOne | frontend/src/app/admin/payments/page.tsx:56-58 | one more row adds one to a count iff it has that status |
| PaymentsDashboard.FilteredBadgesAgree | frontend/src/app/admin/payments/page.tsx:48-51 | rows kept by the cash filter show the cash badge, rows kept by the online filter the online badge |
| PaymentsDashboard.StoredStatusBadge | frontend/src/app/admin/payments/page.tsx:37-46 | each stored payment status shows its own badge |
| AdminLayout.RedirectOf | frontend/src/app/admin/layout.tsx:22-30 | once loading ends, no user goes to the login page and a non-admin to the home page; otherwise the page stays |
| AdminLayout.ScreenOf | frontend/src/app/admin/layout.tsx:32-38 | a spinner iff loading; the admin panel iff loaded with an admin user |
| AdminLayout.GuardConsistent | frontend/src/app/admin/layout.tsx:22-38 | the layout renders nothing exactly when it redirects, and the panel is never shown while redirecting |
| AdminLayout.DashboardExact | frontend/src/app/admin/layout.tsx:54-55 | the dashboard entry is active only on `/admin` itself |
| AdminLayout.PrefixNotSegmentAware | frontend/src/app/admin/layout.tsx:54-55 | any path starting with another entry's href highlights that entry |
| AdminLayout.UsersLookalikeHighlighted | frontend/src/app/admin/layout.tsx:54-55 | `/admin/usersX` highlights the users entry |
| AdminLayout.NotBothPrefixes | frontend/src/app/admin/layout.tsx:54-55 | two strings that differ at a common position cannot both be prefixes of one path |
| AdminLayout.AtMostOneActive | frontend/src/app/admin/layout.tsx:10-15 | each entry is active on its own page, and no path activates two entries |
| RegisterForm.Submit | frontend/src/app/register/page.tsx:27-47 | a mismatch is reported iff the passwords differ, too short iff equal and shorter than 6; otherwise the form registers with the password |
| RegisterForm.MismatchReportedFirst | frontend/src/app/register/page.tsx:27-35 | a mismatch wins over a short password |
| RegisterForm.InitialFormRefused | frontend/src/app/register/page.tsx:13-21 | submitting the untouched form is refused as too short |
| RegisterForm.PayloadIsFormWithoutConfirmation | frontend/src/app/register/page.tsx:40-47 | the payload is the form without the confirmation, and choosing the administrator role passes straight through |
| RegisterForm.AsUserInput | frontend/src/app/register/page.tsx:40-47 | the payload becomes a user body with the same password and role name |
| RegisterForm.SentBodyMeetsPasswordAndRole | frontend/src/app/register/page.tsx:32-47 | a registered body meets the schema's password length and role enum |
| RegisterForm.EmailNotChecked | frontend/src/app/register/page.tsx:27-47 | the form lets through an email the schema's pattern refuses |

## Where the code and its design description differ

The model follows the code in each case:

- **Booking creation.** The design says `createBooking` rejects soft-deleted or inactive services. The
  code checks only that the service exists (`CreateIgnoresServiceFlags`).
- **Cancellation.** The design allows cancelling only a booking that is not completed. `cancelBooking`
  cancels from any status, and no route reaches it (`CancelNeverRouted`). The frontend's cancel call
  issues `DELETE /bookings/:id`, which is the soft delete.
- **Assignment.** The design says the assignee must be personnel. `assignBooking` stores any id.
- **Self-deletion of accounts.** The design lets users soft-delete their own account. Every user route is
  admin-only (`OnlyAdminsPass`). An administrator can delete their own account (`AdminMayDeleteSelf`).
- **Service categories and prices.** The design names the categories in English and requires positive
  prices. The schema's enum is maison, batiment, bureau, vehicule, and it has no positivity check.
- **Payment confirmation.** `confirmPayment` checks no owner, no link between intent and booking and no
  deletion flag (`AnyCallerConfirmsAnyBooking`). A later failed intent turns a completed payment into a
  failed one, while the status stays confirmed (`ConfirmNotFinal`).
- **Password on update.** `updateUser` uses `findByIdAndUpdate`, which skips the pre-save hashing hook, so
  a password sent in an update is stored as given (`ApplyUserPatch`).
- **Registration role.** The registration form offers the administrator role (`PayloadIsFormWithoutConfirmation`).
- **Order quantities.** The order page sends one booking per cart item whatever its quantity
  (`SubmitIgnoresQuantity`), although the displayed total multiplies by quantity.
- **Orphaned bookings.** `getBooking` dereferences the populated owner, so once an administrator purges the
  owner's account, reading that booking answers 500 even for an administrator (`PurgeOrphansBookings`).
- **Payments dashboard.** A missing payment method is displayed as cash but dropped by the cash filter. A
  missing payment status is displayed as pending but not counted as pending.
- **Admin navigation.** The active-entry test is a plain string prefix test, not segment-aware
  (`UsersLookalikeHighlighted`).

## Left out

- Stripe itself is not modelled. The intent id and whether the intent succeeded are inputs to
  `ConfirmOutcome` and `PaymentIntentOutcome`.
- BookingController.BookingStore.CreatePaymentIntent: the amount is `totalPrice * 100` on integers. The
  source's `Math.round` over a floating-point price is not modelled.
- OrderCart.CalculateTotal: prices are integers here. JavaScript numbers are floating point, and rounding
  in the sum is not modelled. Durations use `real`.
- PaymentsDashboard.TotalAmount: summed over integer prices, for the same reason.
- Password hashing (bcrypt, the pre-save hook) and JWT signing and verification are not modelled. A
  password is an opaque string. `protect` is a caller that is present or absent. `authorize` is a role
  test.
- Express details outside the route tables are not modelled: case-insensitive matching, trailing slashes,
  query strings and the 404 body.
- UserSchema.Lower maps ASCII letters only; JavaScript's Unicode lower-casing is not modelled.
- Common.Trim strips space, tab, line feed, vertical tab, form feed and carriage return only. The other
  characters JavaScript's `trim` strips (no-break space, the byte order mark, the Unicode space and line
  separators) are kept.
- String lengths count Dafny characters. JavaScript's `.length` counts UTF-16 code units.
- Database failures (connection errors, the generic 500 in every catch block) are not modelled. Only
  validation failures, which also land in those catch blocks, become 500.
- Mongoose `populate` projections of related documents are not modelled. The one projection that matters,
  `select('-password')`, is `UserSchema.Selected`.
- Mongoose casting of ids is not modelled; ids are opaque.
- Bodies that set `isDeleted`, `deletedAt` or `createdAt` directly are not modelled. This covers update
  bodies and the creation body `createService` hands to `Service.create` as it is. Inputs carry only the
  schema's editable fields, so ServiceSchema.BuildService always creates a service that is not deleted
  and stamped with the current time.
- Dates and times are kept as strings. Timestamps are integers supplied by the caller.
- BookingController.CreateOutcome: a booking `date` that Mongoose cannot cast to a `Date` (such as
  `"abc"`) is accepted here with 201. In the source the cast fails inside `Booking.create`, and the catch
  block answers 500. JavaScript's date parsing is not modelled; only an empty date is refused.
- `getServices` applies no sort, so its result is a set.
- Frontend side effects are not modelled: toasts, `router.push` (modelled as a target path), network
  calls and React state timing.
- The frontend's `isAdmin` from the authentication context is taken as an input.
- Browser form validation (`required`, `type=email`) is not modelled; only the page's own checks are.
- Concurrency between requests is not modelled. Each operation is atomic on the store.
- The seed script is not modelled, except for the administrator's address checked against the email
  pattern.
