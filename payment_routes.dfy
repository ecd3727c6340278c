/** The payments router, mounted at `/api/payments`: two routes behind `protect` and no role check. */
module PaymentRoutes {
  import opened Common
  import opened Router
  import opened BookingSchema
  import BookingController

  const PaymentRouter := Table([], [
    Route(Post, [Lit("create-payment-intent")], [Authenticated], CreatePaymentIntent),
    Route(Post, [Lit("confirm-payment")], [Authenticated], ConfirmPayment)])

  /** Both routes need a token and nothing more: every role passes the route layer. */
  lemma AuthenticatedOnly(caller: Option<Caller>)
    ensures Dispatch(PaymentRouter, Post, ["create-payment-intent"], caller) ==
      (if caller.Some? then Run(CreatePaymentIntent) else Unauthenticated)
    ensures Dispatch(PaymentRouter, Post, ["confirm-payment"], caller) ==
      (if caller.Some? then Run(ConfirmPayment) else Unauthenticated)
  {
    assert FirstMatching(PaymentRouter.routes, Post, ["create-payment-intent"], 0);
    assert ["confirm-payment"][0] != "create-payment-intent";
    assert FirstMatching(PaymentRouter.routes, Post, ["confirm-payment"], 1);
    if caller.None? {
      assert !Admits(PaymentRouter.routes[0].gates[0], caller);
    }
  }

  /** Any authenticated caller, of any role, can confirm the payment of any booking, including
      one they do not own and one that is deleted: the route checks only the token and the
      handler checks neither owner nor flag. */
  lemma AnyCallerConfirmsAnyBooking(s: BookingController.Store, caller: Caller, id: Id)
    requires id in s
    ensures Dispatch(PaymentRouter, Post, ["confirm-payment"], Some(caller)) == Run(ConfirmPayment)
    ensures var o := BookingController.ConfirmOutcome(s, id, true);
      o.code == Ok && o.store[id].paymentStatus == PaymentCompleted && o.store[id].status == Confirmed &&
      o.store[id].user == s[id].user && o.store[id].isDeleted == s[id].isDeleted
  {
    AuthenticatedOnly(Some(caller));
  }

  /** Creating an intent, by contrast, is refused to everyone but the booking's owner, an
      administrator included. */
  lemma IntentOnlyForOwner(s: BookingController.Store, caller: Caller, id: Id, intentId: string)
    requires id in s && s[id].user != caller.id
    ensures Dispatch(PaymentRouter, Post, ["create-payment-intent"], Some(caller)) == Run(CreatePaymentIntent)
    ensures BookingController.PaymentIntentOutcome(s, caller, id, intentId).code == Forbidden
  {
    AuthenticatedOnly(Some(caller));
  }
}
