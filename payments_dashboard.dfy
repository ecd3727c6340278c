/** The administrator's payments page: the method filter over the bookings list, the four
    summary figures, and the badges each row is shown with. */
module PaymentsDashboard {
  import opened Common
  import opened BookingSchema

  /** One booking as the page receives it: `paymentMethod` and `paymentStatus` may be absent. */
  datatype Row = Row(paymentMethod: Option<string>, paymentStatus: Option<string>, totalPrice: int)

  /** The filter buttons: `all`, `cash`, `online`. */
  datatype Filter = All | CashOnly | OnlineOnly

  function FilterName(f: Filter): string
  {
    match f
    case All => "all"
    case CashOnly => "cash"
    case OnlineOnly => "online"
  }

  /** A row is listed under `all`, or when its stored method equals the filter's name. */
  predicate Keeps(f: Filter, row: Row)
  {
    f == All || row.paymentMethod == Some(FilterName(f))
  }

  /** `filteredBookings`: the rows the filter keeps, in their order. */
  function Filtered(rows: seq<Row>, f: Filter): (r: seq<Row>)
    ensures |r| <= |rows|
    ensures f == All ==> r == rows
    ensures forall i :: 0 <= i < |r| ==> Keeps(f, r[i]) && r[i] in rows
    ensures forall i :: 0 <= i < |rows| && Keeps(f, rows[i]) ==> rows[i] in r
    ensures forall x :: multiset(r)[x] == (if Keeps(f, x) then multiset(rows)[x] else 0)
  {
    if rows == [] then []
    else
      assert rows == [rows[0]] + rows[1..];
      if Keeps(f, rows[0]) then [rows[0]] + Filtered(rows[1..], f)
      else Filtered(rows[1..], f)
  }

  // ---------------------------------------------------------------- stats

  predicate HasStatus(row: Row, status: string)
  {
    row.paymentStatus == Some(status)
  }

  /** `totalAmount`: the prices of the completed rows, folded from the left. */
  function TotalAmount(rows: seq<Row>): (r: int)
    ensures rows == [] ==> r == 0
  {
    if rows == [] then 0
    else
      var last := rows[|rows| - 1];
      TotalAmount(rows[..|rows| - 1]) + (if HasStatus(last, "completed") then last.totalPrice else 0)
  }

  /** How many rows carry exactly `status`; the page's `filter(...).length`. */
  function CountStatus(rows: seq<Row>, status: string): (r: nat)
    ensures r <= |rows|
    ensures r == 0 <==> (forall i :: 0 <= i < |rows| ==> !HasStatus(rows[i], status))
  {
    if rows == [] then 0
    else CountStatus(rows[1..], status) + (if HasStatus(rows[0], status) then 1 else 0)
  }

  datatype Stats = Stats(totalAmount: int, completedPayments: nat, pendingPayments: nat, failedPayments: nat)

  /** The summary cards, computed from every row the page loaded. */
  function StatsOf(rows: seq<Row>): Stats
  {
    Stats(TotalAmount(rows), CountStatus(rows, "completed"), CountStatus(rows, "pending"),
          CountStatus(rows, "failed"))
  }

  /** What the page shows: the summary figures and the filtered table. */
  datatype View = View(stats: Stats, table: seq<Row>)

  function Page(rows: seq<Row>, f: Filter): (v: View)
    ensures |v.table| <= |rows|
  {
    View(StatsOf(rows), Filtered(rows, f))
  }

  /** The summary cards do not move when the filter changes. */
  lemma StatsIgnoreFilter(rows: seq<Row>, f: Filter, g: Filter)
    ensures Page(rows, f).stats == Page(rows, g).stats
  {
  }

  /** A row carries at most one status, so the three counters never add up to more rows than
      were loaded. */
  lemma {:induction false} CountsBounded(rows: seq<Row>)
    ensures CountStatus(rows, "completed") + CountStatus(rows, "pending") + CountStatus(rows, "failed") <= |rows|
  {
    if rows != [] {
      CountsBounded(rows[1..]);
    }
  }

  /** When every row holds one of the three stored statuses, the counters add up to the number of
      rows exactly. */
  lemma {:induction false} CountsCoverStoredStatuses(rows: seq<Row>)
    requires forall i :: 0 <= i < |rows| ==> exists p: PaymentStatus :: HasStatus(rows[i], PaymentStatusName(p))
    ensures CountStatus(rows, "completed") + CountStatus(rows, "pending") + CountStatus(rows, "failed") == |rows|
  {
    if rows != [] {
      var p: PaymentStatus :| HasStatus(rows[0], PaymentStatusName(p));
      CountsCoverStoredStatuses(rows[1..]);
    }
  }

  /** The total splits over two runs of rows put together. */
  lemma {:induction false} TotalAmountAppend(a: seq<Row>, b: seq<Row>)
    ensures TotalAmount(a + b) == TotalAmount(a) + TotalAmount(b)
    decreases |b|
  {
    if b == [] {
      assert a + b == a;
    } else {
      var b' := b[..|b| - 1];
      assert (a + b)[..|a + b| - 1] == a + b';
      TotalAmountAppend(a, b');
    }
  }

  /** Only completed rows move the total: a row that is not completed adds nothing, a completed
      row adds its price. */
  lemma TotalAmountStep(rows: seq<Row>, row: Row)
    ensures TotalAmount(rows + [row]) == TotalAmount(rows) + (if HasStatus(row, "completed") then row.totalPrice else 0)
  {
    assert (rows + [row])[..|rows|] == rows;
  }

  /** With no completed row the revenue card shows 0. */
  lemma {:induction false} NoCompletedNoRevenue(rows: seq<Row>)
    requires forall i :: 0 <= i < |rows| ==> !HasStatus(rows[i], "completed")
    ensures TotalAmount(rows) == 0
  {
    if rows != [] {
      NoCompletedNoRevenue(rows[..|rows| - 1]);
    }
  }

  // ---------------------------------------------------------------- badges

  datatype MethodBadge = Especes | EnLigne

  datatype StatusBadge = Paye | Echoue | EnAttente

  /** `getPaymentMethodBadge`: `cash` is shown as cash, anything else as online. */
  function MethodBadgeOf(m: string): (b: MethodBadge)
    ensures b == Especes <==> m == "cash"
  {
    if m == "cash" then Especes else EnLigne
  }

  /** `getPaymentStatusBadge`: completed and failed have their own badge; anything else is shown
      as waiting. */
  function StatusBadgeOf(status: string): (b: StatusBadge)
    ensures b == Paye <==> status == "completed"
    ensures b == Echoue <==> status == "failed"
  {
    if status == "completed" then Paye
    else if status == "failed" then Echoue
    else EnAttente
  }

  /** JavaScript's `x || fallback` on an optional string: an absent or empty string is falsy. */
  function OrElse(x: Option<string>, fallback: string): string
  {
    if x.None? || x.value == "" then fallback else x.value
  }

  /** The badges a table row is drawn with: a missing or empty method reads as `cash`, a missing
      or empty status as `pending`. */
  function ShownMethod(row: Row): (b: MethodBadge)
    ensures row.paymentMethod.None? ==> b == Especes
    ensures b == Especes <==>
      (row.paymentMethod.None? || row.paymentMethod.value == "" || row.paymentMethod.value == "cash")
  {
    MethodBadgeOf(OrElse(row.paymentMethod, "cash"))
  }

  function ShownStatus(row: Row): (b: StatusBadge)
    ensures row.paymentStatus.None? ==> b == EnAttente
    ensures b == Paye <==> row.paymentStatus == Some("completed")
    ensures b == Echoue <==> row.paymentStatus == Some("failed")
  {
    StatusBadgeOf(OrElse(row.paymentStatus, "pending"))
  }

  /** A row without a method, or with an empty one, is drawn with the cash badge, yet the cash
      filter drops it. */
  lemma MissingMethodLeftOutOfCash(rows: seq<Row>, row: Row)
    requires row.paymentMethod.None? || row.paymentMethod == Some("")
    ensures ShownMethod(row) == Especes
    ensures row !in Filtered(rows, CashOnly)
    ensures row in rows ==> row in Filtered(rows, All)
  {
  }

  /** A row without a status is drawn as waiting, yet the waiting counter does not count it. */
  lemma MissingStatusNotCounted(rows: seq<Row>, row: Row)
    requires row.paymentStatus.None?
    ensures ShownStatus(row) == EnAttente
    ensures CountStatus(rows + [row], "pending") == CountStatus(rows, "pending")
  {
    CountAppendOne(rows, row, "pending");
  }

  lemma {:induction false} CountAppendOne(rows: seq<Row>, row: Row, status: string)
    ensures CountStatus(rows + [row], status) == CountStatus(rows, status) + (if HasStatus(row, status) then 1 else 0)
  {
    if rows != [] {
      assert (rows + [row])[1..] == rows[1..] + [row];
      CountAppendOne(rows[1..], row, status);
    }
  }

  /** Under the cash filter every row is drawn with the cash badge, under the online filter with
      the online badge. */
  lemma FilteredBadgesAgree(rows: seq<Row>)
    ensures forall i :: 0 <= i < |Filtered(rows, CashOnly)| ==> ShownMethod(Filtered(rows, CashOnly)[i]) == Especes
    ensures forall i :: 0 <= i < |Filtered(rows, OnlineOnly)| ==> ShownMethod(Filtered(rows, OnlineOnly)[i]) == EnLigne
  {
  }

  /** A stored payment status gets the badge of its own meaning. */
  lemma StoredStatusBadge(p: PaymentStatus, row: Row)
    requires row.paymentStatus == Some(PaymentStatusName(p))
    ensures ShownStatus(row) == (match p
      case PaymentCompleted => Paye
      case PaymentFailed => Echoue
      case PaymentPending => EnAttente)
  {
  }
}
