/** The order page's cart: adding, removing and re-counting services, the price and duration
    totals, and the submit step that turns the cart into one booking request per item. */
module OrderCart {
  import opened BookingSchema

  /** The fields of a catalog service the cart uses. Prices are whole numbers of dinars and
      durations are hours. */
  datatype CartService = CartService(id: string, name: string, price: int, duration: real)

  datatype CartItem = CartItem(service: CartService, quantity: int)

  type Cart = seq<CartItem>

  /** Some item of the cart is for service `id`. */
  predicate Holds(cart: Cart, id: string)
  {
    exists i :: 0 <= i < |cart| && cart[i].service.id == id
  }

  predicate UniqueIds(cart: Cart)
  {
    forall i, j :: 0 <= i < j < |cart| ==> cart[i].service.id != cart[j].service.id
  }

  /** The shape every cart operation keeps: one item per service, each counted at least once. */
  predicate WellFormed(cart: Cart)
  {
    UniqueIds(cart) && forall i :: 0 <= i < |cart| ==> cart[i].quantity >= 1
  }

  // ---------------------------------------------------------------- addToCart

  /** `addToCart`: a service not yet in the cart is appended with quantity 1; otherwise the items
      for that service count one more and nothing else changes. */
  function AddToCart(cart: Cart, s: CartService): (r: Cart)
    ensures !Holds(cart, s.id) ==> r == cart + [CartItem(s, 1)]
    ensures Holds(cart, s.id) ==> |r| == |cart| && forall i :: 0 <= i < |cart| ==>
      r[i].service == cart[i].service &&
      r[i].quantity == cart[i].quantity + (if cart[i].service.id == s.id then 1 else 0)
    ensures WellFormed(cart) ==> WellFormed(r)
  {
    if Holds(cart, s.id) then
      seq(|cart|, i requires 0 <= i < |cart| =>
        if cart[i].service.id == s.id then cart[i].(quantity := cart[i].quantity + 1) else cart[i])
    else cart + [CartItem(s, 1)]
  }

  // ---------------------------------------------------------------- removeFromCart

  /** `removeFromCart`: the items for `id` are dropped; the others stay, in their order. */
  function RemoveFromCart(cart: Cart, id: string): (r: Cart)
    ensures |r| <= |cart|
    ensures !Holds(cart, id) ==> r == cart
  {
    if cart == [] then []
    else if cart[0].service.id == id then RemoveFromCart(cart[1..], id)
    else [cart[0]] + RemoveFromCart(cart[1..], id)
  }

  /** The items left are exactly the items of the cart for another service. */
  lemma {:induction false} RemoveKeepsOthers(cart: Cart, id: string)
    ensures forall x :: x in RemoveFromCart(cart, id) <==> (x in cart && x.service.id != id)
  {
    if cart != [] {
      RemoveKeepsOthers(cart[1..], id);
      assert forall x :: x in cart <==> (x == cart[0] || x in cart[1..]);
    }
  }

  /** Removing keeps one item per service and no empty item, and leaves no item for `id`. */
  lemma {:induction false} RemoveKeepsShape(cart: Cart, id: string)
    ensures !Holds(RemoveFromCart(cart, id), id)
    ensures WellFormed(cart) ==> WellFormed(RemoveFromCart(cart, id))
  {
    var r := RemoveFromCart(cart, id);
    RemoveKeepsOthers(cart, id);
    forall i | 0 <= i < |r|
      ensures r[i].service.id != id
    {
      assert r[i] in r;
    }
    if cart != [] && WellFormed(cart) {
      RemoveKeepsShape(cart[1..], id);
      RemoveKeepsOthers(cart[1..], id);
      var rest := RemoveFromCart(cart[1..], id);
      assert WellFormed(cart[1..]);
      if cart[0].service.id != id {
        forall j | 0 <= j < |rest|
          ensures rest[j].service.id != cart[0].service.id
        {
          assert rest[j] in cart[1..];
        }
        assert r == [cart[0]] + rest;
      }
    }
  }

  /** In a cart with one item per service, removing a service cuts exactly its item out. */
  lemma {:induction false} RemoveCutsOut(cart: Cart, id: string, k: nat)
    requires UniqueIds(cart) && k < |cart| && cart[k].service.id == id
    ensures RemoveFromCart(cart, id) == cart[..k] + cart[k + 1..]
  {
    if k == 0 {
      assert !Holds(cart[1..], id);
    } else {
      RemoveCutsOut(cart[1..], id, k - 1);
      assert cart[1..][..k - 1] + cart[1..][k..] == cart[1..k] + cart[k + 1..];
      assert [cart[0]] + cart[1..k] == cart[..k];
    }
  }

  // ---------------------------------------------------------------- updateQuantity

  /** `updateQuantity`: a quantity of zero or less removes the service; any other quantity
      replaces the count of its items and nothing else. */
  function UpdateQuantity(cart: Cart, id: string, q: int): (r: Cart)
    ensures q <= 0 ==> r == RemoveFromCart(cart, id)
    ensures q > 0 ==> |r| == |cart| && forall i :: 0 <= i < |cart| ==>
      r[i].service == cart[i].service &&
      r[i].quantity == (if cart[i].service.id == id then q else cart[i].quantity)
    ensures WellFormed(cart) ==> WellFormed(r)
  {
    if q <= 0 then
      RemoveKeepsShape(cart, id);
      RemoveFromCart(cart, id)
    else
      seq(|cart|, i requires 0 <= i < |cart| =>
        if cart[i].service.id == id then cart[i].(quantity := q) else cart[i])
  }

  // ---------------------------------------------------------------- totals

  /** What one line of the cart costs: its price times its quantity. */
  function Amount(item: CartItem): int
  {
    item.service.price * item.quantity
  }

  /** `calculateTotal`: the sum of the line amounts, folded from the left as `reduce` does. */
  function CalculateTotal(cart: Cart): (r: int)
    ensures cart == [] ==> r == 0
  {
    if cart == [] then 0
    else
      var last := cart[|cart| - 1];
      CalculateTotal(cart[..|cart| - 1]) + Amount(last)
  }

  /** With no negative price and no negative count the total is never negative. */
  lemma {:induction false} TotalNonNegative(cart: Cart)
    requires forall i :: 0 <= i < |cart| ==> cart[i].service.price >= 0 && cart[i].quantity >= 0
    ensures CalculateTotal(cart) >= 0
  {
    if cart != [] {
      TotalNonNegative(cart[..|cart| - 1]);
    }
  }

  /** How long one line of the cart takes: its duration times its quantity, in hours. */
  function Hours(item: CartItem): real
  {
    item.service.duration * item.quantity as real
  }

  /** `calculateDuration`: the sum of the line durations, folded from the left as `reduce` does. */
  function CalculateDuration(cart: Cart): (r: real)
    ensures cart == [] ==> r == 0.0
    ensures (forall i :: 0 <= i < |cart| ==> cart[i].service.duration >= 0.0 && cart[i].quantity >= 0) ==> r >= 0.0
  {
    if cart == [] then 0.0
    else
      var last := cart[|cart| - 1];
      CalculateDuration(cart[..|cart| - 1]) + Hours(last)
  }

  /** The duration of two carts put together is the sum of their durations. */
  lemma {:induction false} DurationAppend(a: Cart, b: Cart)
    ensures CalculateDuration(a + b) == CalculateDuration(a) + CalculateDuration(b)
    decreases |b|
  {
    if b == [] {
      assert a + b == a;
    } else {
      var b' := b[..|b| - 1];
      assert (a + b)[..|a + b| - 1] == a + b';
      DurationAppend(a, b');
    }
  }

  /** The duration splits around any one item. */
  lemma DurationSplit(cart: Cart, k: nat)
    requires k < |cart|
    ensures CalculateDuration(cart) ==
      CalculateDuration(cart[..k]) + Hours(cart[k]) + CalculateDuration(cart[k + 1..])
  {
    assert cart == cart[..k + 1] + cart[k + 1..];
    DurationAppend(cart[..k + 1], cart[k + 1..]);
    assert cart[..k + 1][..k] == cart[..k];
  }

  /** Adding a service that is not in the cart lengthens the order by its duration. */
  lemma AddNewDuration(cart: Cart, s: CartService)
    requires !Holds(cart, s.id)
    ensures CalculateDuration(AddToCart(cart, s)) == CalculateDuration(cart) + s.duration
  {
    DurationAppend(cart, [CartItem(s, 1)]);
    assert [CartItem(s, 1)][..0] == [];
  }

  /** Removing a service shortens the order by exactly that item's hours. */
  lemma RemoveDuration(cart: Cart, k: nat)
    requires UniqueIds(cart) && k < |cart|
    ensures CalculateDuration(RemoveFromCart(cart, cart[k].service.id)) == CalculateDuration(cart) - Hours(cart[k])
  {
    RemoveCutsOut(cart, cart[k].service.id, k);
    DurationSplit(cart, k);
    DurationAppend(cart[..k], cart[k + 1..]);
  }

  /** The total of two carts put together is the sum of their totals. */
  lemma {:induction false} TotalAppend(a: Cart, b: Cart)
    ensures CalculateTotal(a + b) == CalculateTotal(a) + CalculateTotal(b)
    decreases |b|
  {
    if b == [] {
      assert a + b == a;
    } else {
      var b' := b[..|b| - 1];
      assert (a + b)[..|a + b| - 1] == a + b';
      TotalAppend(a, b');
    }
  }

  /** Adding a service that is not in the cart raises the total by its price. */
  lemma AddNewTotal(cart: Cart, s: CartService)
    requires !Holds(cart, s.id)
    ensures CalculateTotal(AddToCart(cart, s)) == CalculateTotal(cart) + s.price
  {
    TotalAppend(cart, [CartItem(s, 1)]);
    assert [CartItem(s, 1)][..0] == [];
  }

  /** Adding a service already in a cart with one item per service raises the total by the price
      stored with its item, which may differ from the price of the service added. */
  lemma AddExistingTotal(cart: Cart, s: CartService, k: nat)
    requires UniqueIds(cart) && k < |cart| && cart[k].service.id == s.id
    ensures CalculateTotal(AddToCart(cart, s)) == CalculateTotal(cart) + cart[k].service.price
  {
    BumpReplacesOne(cart, s, k);
    BumpTotal(cart, k);
  }

  /** Counting one item once more raises the total by that item's price. */
  lemma BumpTotal(cart: Cart, k: nat)
    requires k < |cart|
    ensures CalculateTotal(cart[..k] + [cart[k].(quantity := cart[k].quantity + 1)] + cart[k + 1..]) ==
      CalculateTotal(cart) + cart[k].service.price
  {
    var item := cart[k];
    var e := cart[..k] + [item.(quantity := item.quantity + 1)] + cart[k + 1..];
    SplitTotal(cart, k);
    SplitTotal(e, k);
    assert e[..k] == cart[..k] && e[k + 1..] == cart[k + 1..];
    OneMore(item);
  }

  /** One more unit adds the unit price to a line's amount. */
  lemma OneMore(item: CartItem)
    ensures Amount(item.(quantity := item.quantity + 1)) == Amount(item) + item.service.price
  {
  }

  /** With one item per service, adding a service already in the cart replaces its item only. */
  lemma BumpReplacesOne(cart: Cart, s: CartService, k: nat)
    requires UniqueIds(cart) && k < |cart| && cart[k].service.id == s.id
    ensures AddToCart(cart, s) == cart[..k] + [cart[k].(quantity := cart[k].quantity + 1)] + cart[k + 1..]
  {
    var r := AddToCart(cart, s);
    var e := cart[..k] + [cart[k].(quantity := cart[k].quantity + 1)] + cart[k + 1..];
    assert |r| == |e|;
    forall i | 0 <= i < |r|
      ensures r[i] == e[i]
    {
      if i < k {
        assert e[i] == cart[i];
      } else if i > k {
        assert e[i] == cart[i];
      }
    }
  }

  /** With one item per service, a positive quantity replaces the count of that service's item
      only. */
  lemma SetReplacesOne(cart: Cart, k: nat, q: int)
    requires UniqueIds(cart) && k < |cart| && q > 0
    ensures UpdateQuantity(cart, cart[k].service.id, q) == cart[..k] + [cart[k].(quantity := q)] + cart[k + 1..]
  {
    var r := UpdateQuantity(cart, cart[k].service.id, q);
    var e := cart[..k] + [cart[k].(quantity := q)] + cart[k + 1..];
    assert |r| == |e|;
    forall i | 0 <= i < |r|
      ensures r[i] == e[i]
    {
      if i < k {
        assert e[i] == cart[i];
      } else if i > k {
        assert e[i] == cart[i];
      }
    }
  }

  /** Setting a positive quantity moves the total by the change in that item's amount. */
  lemma UpdateTotal(cart: Cart, k: nat, q: int)
    requires UniqueIds(cart) && k < |cart| && q > 0
    ensures CalculateTotal(UpdateQuantity(cart, cart[k].service.id, q)) ==
      CalculateTotal(cart) - Amount(cart[k]) + Amount(cart[k].(quantity := q))
  {
    SetReplacesOne(cart, k, q);
    ReplaceTotal(cart, k, cart[k].(quantity := q));
  }

  /** The total splits around any one item. */
  lemma SplitTotal(cart: Cart, k: nat)
    requires k < |cart|
    ensures CalculateTotal(cart) == CalculateTotal(cart[..k]) + Amount(cart[k]) + CalculateTotal(cart[k + 1..])
  {
    assert cart == cart[..k + 1] + cart[k + 1..];
    TotalAppend(cart[..k + 1], cart[k + 1..]);
    assert cart[..k + 1][..k] == cart[..k];
  }

  /** Replacing one item changes the total by the difference of the two items' amounts. */
  lemma ReplaceTotal(cart: Cart, k: nat, item: CartItem)
    requires k < |cart|
    ensures CalculateTotal(cart[..k] + [item] + cart[k + 1..]) == CalculateTotal(cart) - Amount(cart[k]) + Amount(item)
  {
    var e := cart[..k] + [item] + cart[k + 1..];
    SplitTotal(cart, k);
    SplitTotal(e, k);
    assert e[..k] == cart[..k] && e[k + 1..] == cart[k + 1..];
  }

  /** Removing a service lowers the total by exactly what its item contributed. */
  lemma RemoveTotal(cart: Cart, k: nat)
    requires UniqueIds(cart) && k < |cart|
    ensures CalculateTotal(RemoveFromCart(cart, cart[k].service.id)) == CalculateTotal(cart) - Amount(cart[k])
  {
    RemoveCutsOut(cart, cart[k].service.id, k);
    SplitTotal(cart, k);
    TotalAppend(cart[..k], cart[k + 1..]);
  }

  // ---------------------------------------------------------------- handleSubmit

  /** The order form. */
  datatype OrderData = OrderData(date: string, time: string, address: string, notes: string,
                                 paymentMethod: PaymentMethod)

  /** The body of one `POST /bookings` request: no quantity is sent. */
  datatype BookingBody = BookingBody(serviceId: string, date: string, time: string, address: string,
                                     notes: string, paymentMethod: PaymentMethod)

  /** What submitting does: refuse an empty cart, refuse a blank date, time or address, or send
      the booking requests. */
  datatype SubmitResult = CartEmpty | FieldsMissing | Send(bodies: seq<BookingBody>)

  /** `handleSubmit`'s guards and fan-out. */
  function Submit(cart: Cart, data: OrderData): (r: SubmitResult)
    ensures r == CartEmpty <==> cart == []
    ensures r == FieldsMissing <==> cart != [] && (data.date == "" || data.time == "" || data.address == "")
    ensures r.Send? <==> cart != [] && data.date != "" && data.time != "" && data.address != ""
    ensures r.Send? ==> |r.bodies| == |cart| && forall i :: 0 <= i < |cart| ==>
      r.bodies[i].serviceId == cart[i].service.id &&
      r.bodies[i] == BookingBody(cart[i].service.id, data.date, data.time, data.address, data.notes, data.paymentMethod)
  {
    if cart == [] then CartEmpty
    else if data.date == "" || data.time == "" || data.address == "" then FieldsMissing
    else Send(seq(|cart|, i requires 0 <= i < |cart| =>
      BookingBody(cart[i].service.id, data.date, data.time, data.address, data.notes, data.paymentMethod)))
  }

  /** The requests sent do not depend on the quantities: two carts that list the same services in
      the same order send the same bookings, so a quantity above 1 books the service once. */
  lemma {:induction false} SubmitIgnoresQuantity(cart: Cart, cart': Cart, data: OrderData)
    requires |cart| == |cart'| && forall i :: 0 <= i < |cart| ==> cart[i].service == cart'[i].service
    ensures Submit(cart, data) == Submit(cart', data)
  {
    if Submit(cart, data).Send? {
      assert Submit(cart, data).bodies == Submit(cart', data).bodies;
    }
  }

  /** After the bookings are created: an online order keeps the cart and goes to the payment page
      of the first booking; a cash order empties the cart, resets the form and goes to the list. */
  datatype AfterOrder = AfterOrder(cart: Cart, data: OrderData, target: string)

  function AfterCreated(cart: Cart, data: OrderData, firstBookingId: string): (r: AfterOrder)
    ensures data.paymentMethod == Online ==> r.cart == cart && r.data == data && r.target == "/payment/" + firstBookingId
    ensures data.paymentMethod == Cash ==>
      r.cart == [] && r.target == "/booking" && r.data == OrderData("", "", "", "", Cash)
  {
    if data.paymentMethod == Online then AfterOrder(cart, data, "/payment/" + firstBookingId)
    else AfterOrder([], OrderData("", "", "", "", Cash), "/booking")
  }

  /** A cash order cannot be sent twice from the same page: the next submit finds an empty cart. */
  lemma CashOrderClearsCart(cart: Cart, data: OrderData, firstBookingId: string)
    requires data.paymentMethod == Cash
    ensures var after := AfterCreated(cart, data, firstBookingId); Submit(after.cart, after.data) == CartEmpty
  {
  }
}
