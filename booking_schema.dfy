/** The Booking document: its enums, defaults, required fields and the notes bound. */
module BookingSchema {
  import opened Common

  /** `status`: default `pending`. */
  datatype BookingStatus = Pending | Confirmed | InProgress | Completed | Cancelled

  /** `paymentMethod`: default `cash`. */
  datatype PaymentMethod = Cash | Online

  /** `paymentStatus`: default `pending`. */
  datatype PaymentStatus = PaymentPending | PaymentCompleted | PaymentFailed

  const AllStatuses: set<BookingStatus> := {Pending, Confirmed, InProgress, Completed, Cancelled}

  function StatusName(s: BookingStatus): string
  {
    match s
    case Pending => "pending"
    case Confirmed => "confirmed"
    case InProgress => "in-progress"
    case Completed => "completed"
    case Cancelled => "cancelled"
  }

  /** The `status` enum check: exactly the five names are accepted. */
  function ParseStatus(x: string): (r: Option<BookingStatus>)
    ensures r.Some? ==> StatusName(r.value) == x
    ensures r.None? ==> forall s: BookingStatus :: StatusName(s) != x
  {
    if x == "pending" then Some(Pending)
    else if x == "confirmed" then Some(Confirmed)
    else if x == "in-progress" then Some(InProgress)
    else if x == "completed" then Some(Completed)
    else if x == "cancelled" then Some(Cancelled)
    else None
  }

  function MethodName(m: PaymentMethod): string
  {
    match m
    case Cash => "cash"
    case Online => "online"
  }

  /** The `paymentMethod` enum check. */
  function ParseMethod(x: string): (r: Option<PaymentMethod>)
    ensures r.Some? ==> MethodName(r.value) == x
    ensures r.None? ==> forall m: PaymentMethod :: MethodName(m) != x
  {
    if x == "cash" then Some(Cash)
    else if x == "online" then Some(Online)
    else None
  }

  function PaymentStatusName(p: PaymentStatus): string
  {
    match p
    case PaymentPending => "pending"
    case PaymentCompleted => "completed"
    case PaymentFailed => "failed"
  }

  /** The enum names are distinct, so every status round-trips through its name. */
  lemma StatusNameRoundTrip(s: BookingStatus)
    ensures ParseStatus(StatusName(s)) == Some(s)
    ensures s in AllStatuses
  {
  }

  /** AllStatuses is the whole enum. */
  lemma AllStatusesListed()
    ensures forall s: BookingStatus :: s in AllStatuses
  {
    forall s: BookingStatus
      ensures s in AllStatuses
    {
      StatusNameRoundTrip(s);
    }
  }

  const NotesMaxLength := 500

  /** A stored booking. `date` is kept as the submitted string. */
  datatype Booking = Booking(
    user: Id,
    service: Id,
    date: string,
    time: string,
    address: string,
    notes: Option<string>,
    status: BookingStatus,
    totalPrice: int,
    assignedTo: Option<Id>,
    paymentMethod: PaymentMethod,
    paymentStatus: PaymentStatus,
    stripePaymentIntentId: Option<string>,
    createdAt: Time,
    isDeleted: DeletedFlag,
    deletedAt: Option<Time>)

  /** The required string fields are non-empty and the notes, when present, fit the bound.
      The enums, `user`, `service` and `totalPrice` hold by the field types. */
  predicate ValidBooking(b: Booking)
  {
    && b.date != ""
    && b.time != ""
    && b.address != ""
    && (b.notes.Some? ==> |b.notes.value| <= NotesMaxLength)
  }

  /** A booking as `Booking.create` stores it: the given fields, and the defaults for the rest
      (`status` pending, no assignee, no intent, `isDeleted` false, `deletedAt` null). */
  function NewBooking(user: Id, service: Id, date: string, time: string, address: string,
                      notes: Option<string>, totalPrice: int, paymentMethod: PaymentMethod,
                      paymentStatus: PaymentStatus, now: Time): Booking
  {
    Booking(user, service, date, time, address, notes, Pending, totalPrice, None,
            paymentMethod, paymentStatus, None, now, NotDeleted, None)
  }

  /** `createdAt` as a sort key. */
  function CreatedAt(b: Booking): int
  {
    b.createdAt
  }

  /** `deletedAt` as a sort key; a null date sorts below every date. */
  function DeletedAt(b: Booking): int
  {
    match b.deletedAt
    case Some(t) => t
    case None => -1
  }
}
