/** The client of public/js/script.js run against the server handlers of
    app.js: what a checkout started by `payNow` does to the booking
    collection, as written and as evidently intended. */
module PaymentFlow {
  import opened Optional
  import opened JsValues
  import opened Bookings
  import opened Checkout

  /** None of `effects` is a request to `/update-booking`. */
  predicate SendsNoUpdate(effects: seq<Effect>)
  {
    forall k :: 0 <= k < |effects| ==> !effects[k].PostUpdateBooking?
  }

  /** As written, the order request `payNow` sends carries only the amount,
      so the server turns away every one of them with 400 before it reaches
      the gateway; the client still opens the widget, with an undefined order id. */
  lemma PayNowOrderAlwaysRejected(price: Option<int>, store: seq<Booking>, newId: nat,
                                  gateway: OrderParams -> GatewayReply, now: nat, saved: bool)
    requires ValidPrice(price)
    ensures var sent := PayNow(price);
            && sent[0].PostCreateOrder?
            && var out := CreateOrderOutcome(store, newId, sent[0].order, gateway, now, saved);
               && out == Outcome(Response(400, Error(MISSING_FIELDS)), store)
               && OnOrderReply(price.value, ReplyOf(out.response))
                  == [OpenCheckout(OptionsFor(price.value, Undefined))]
  {
  }

  /** As written, no callback of the client ever asks the server to mark a
      booking paid, and the one request it does send changes no booking. */
  lemma ClientNeverMarksPaid(price: Option<int>, reply: Reply, paymentId: string, reason: string,
                             store: seq<Booking>, newId: nat,
                             gateway: OrderParams -> GatewayReply, now: nat, saved: bool)
    ensures SendsNoUpdate(PayNow(price) + OnOrderReply(if price.Some? then price.value else 0, reply)
                          + OnPaymentSuccess(paymentId) + OnPaymentFailed(reason))
    ensures PayNow(price)[0].PostCreateOrder? ==>
              CreateOrderOutcome(store, newId, PayNow(price)[0].order, gateway, now, saved).bookings == store
  {
    var all := PayNow(price) + OnOrderReply(if price.Some? then price.value else 0, reply)
               + OnPaymentSuccess(paymentId) + OnPaymentFailed(reason);
    assert all == [PayNow(price)[0], OnOrderReply(if price.Some? then price.value else 0, reply)[0],
                   OnPaymentSuccess(paymentId)[0], OnPaymentFailed(reason)[0]];
  }

  /** With the stay details sent along, a valid price and a gateway that
      gives an order lead to exactly one new unpaid booking, and the widget
      opens on that order for the amount in paise the gateway was asked for. */
  lemma StayOrderCreatesBooking(price: Option<int>, checkin: JsValue, checkout: JsValue, guests: JsValue,
                                store: seq<Booking>, newId: nat,
                                gateway: OrderParams -> GatewayReply, now: nat)
    requires ValidPrice(price) && Truthy(checkin) && Truthy(checkout) && Truthy(guests)
    requires UsableOrder(gateway(GatewayParams(price.value, now)))
    ensures var sent := PayNowWithStay(price, checkin, checkout, guests);
            var out := CreateOrderOutcome(store, newId, sent[0].order, gateway, now, true);
            var orderId := OrderIdOf(gateway(GatewayParams(price.value, now)));
            && out.response == Response(200, OrderCreated(orderId, newId))
            && out.bookings == store + [Booking(newId, price.value, checkin, checkout, guests, orderId, None, None)]
            && var shown := OnOrderReply(price.value, ReplyOf(out.response));
               && shown[0].OpenCheckout?
               && shown[0].options.orderId == Str(orderId)
               && shown[0].options.amount == GatewayParams(price.value, now).amount
               && shown[0].options.currency == GatewayParams(price.value, now).currency
  {
  }

  /** The whole intended flow: order, checkout, notification. When the
      gateway's order id is new to the collection, the booking created for it
      ends up paid with the payment id, and every other booking is as before. */
  lemma IntendedFlowReachesPaid(price: Option<int>, checkin: JsValue, checkout: JsValue, guests: JsValue,
                                store: seq<Booking>, newId: nat,
                                gateway: OrderParams -> GatewayReply, now: nat, paymentId: string)
    requires ValidPrice(price) && Truthy(checkin) && Truthy(checkout) && Truthy(guests)
    requires UsableOrder(gateway(GatewayParams(price.value, now)))
    requires forall j :: 0 <= j < |store| ==> store[j].orderId != OrderIdOf(gateway(GatewayParams(price.value, now)))
    requires paymentId != ""
    ensures var created := CreateOrderOutcome(store, newId, PayNowWithStay(price, checkin, checkout, guests)[0].order,
                                              gateway, now, true);
            var options := OnOrderReply(price.value, ReplyOf(created.response))[0].options;
            var notice := OnPaymentSuccessNotifying(options.orderId, paymentId)[1].update;
            var paid := UpdateBookingOutcome(created.bookings, notice, true);
            var orderId := OrderIdOf(gateway(GatewayParams(price.value, now)));
            && paid.response.status == 200
            && paid.bookings == store + [Booking(newId, price.value, checkin, checkout, guests, orderId,
                                                 Some(Str(paymentId)), Some(PAID))]
  {
    var orderId := OrderIdOf(gateway(GatewayParams(price.value, now)));
    StayOrderCreatesBooking(price, checkin, checkout, guests, store, newId, gateway, now);
    var created := CreateOrderOutcome(store, newId, PayNowWithStay(price, checkin, checkout, guests)[0].order,
                                      gateway, now, true);
    var key := Str(orderId);
    assert Matches(created.bookings[|store|], key);
    assert FindFirst(created.bookings, key) == Some(|store|);
  }

  /** Three concrete runs on an empty collection: a 500-rupee stay that is
      then paid, a negative amount, and an update for an unknown order id. */
  lemma ConcreteScenarios(gateway: OrderParams -> GatewayReply, now: nat)
    requires gateway(GatewayParams(500, now)) == Resolved(Some(GatewayOrder(Some("order_1"))))
    ensures var req := OrderRequest(Num(500), Str("2024-06-01"), Str("2024-06-03"), Num(2));
            var created := CreateOrderOutcome([], 0, req, gateway, now, true);
            var paid := UpdateBookingOutcome(created.bookings, UpdateRequest(Str("pay_test123"), Str("order_1")), true);
            && created.response == Response(200, OrderCreated("order_1", 0))
            && paid.bookings[0].status == Some(PAID)
            && paid.bookings[0].paymentId == Some(Str("pay_test123"))
    ensures var bad := OrderRequest(Num(-10), Str("2024-06-01"), Str("2024-06-03"), Num(2));
            CreateOrderOutcome([], 0, bad, gateway, now, true) == Outcome(Response(400, Error(MISSING_FIELDS)), [])
    ensures UpdateBookingOutcome([], UpdateRequest(Str("x"), Str("does-not-exist")), true).response.status == 404
  {
    var req := OrderRequest(Num(500), Str("2024-06-01"), Str("2024-06-03"), Num(2));
    var created := CreateOrderOutcome([], 0, req, gateway, now, true);
    assert Matches(created.bookings[0], Str("order_1"));
  }
}
