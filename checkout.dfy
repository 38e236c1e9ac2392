/** The browser side of a payment, `payNow` in public/js/script.js: read the
    price, ask the server for an order, open the gateway's checkout widget,
    and report the widget's outcome. Each step is a function from what the
    browser has to the effects it causes; the price as `parseInt` leaves it
    is an input (`None` for NaN). */
module Checkout {
  import opened Optional
  import opened JsValues
  import Bookings

  const KEY_ID := "rzp_test_exhA8WM645dgvm"
  const CURRENCY := "INR"
  const INVALID_PRICE := "Invalid price. Please try again."
  const GENERIC_FAILURE := "Something went wrong!"

  datatype Prefill = Prefill(name: string, email: string, contact: string)

  /** The options object handed to the checkout widget. The two callbacks are
      `OnPaymentSuccess` and `OnPaymentFailed` below. */
  datatype CheckoutOptions = CheckoutOptions(
    key: string,
    amount: int,
    currency: string,
    name: string,
    description: string,
    orderId: JsValue,
    prefill: Prefill,
    themeColor: string)

  /** What the browser does, in order. */
  datatype Effect =
    | Alert(message: string)
    | PostCreateOrder(order: Bookings.OrderRequest)
    | PostUpdateBooking(update: Bookings.UpdateRequest)
    | OpenCheckout(options: CheckoutOptions)

  /** The parsed JSON body of the order response, as far as the client reads
      it, or `Unreadable` when the request or the JSON parse failed. */
  datatype Reply = Unreadable | Json(orderId: JsValue)

  /** The `orderId` property of the JSON body the server sends. */
  function ReplyOf(response: Bookings.Response): (r: Reply)
    ensures r.Json?
    ensures response.body.OrderCreated? ==> r.orderId == Str(response.body.orderId)
    ensures !response.body.OrderCreated? ==> r.orderId == Undefined
  {
    match response.body
    case OrderCreated(orderId, _) => Json(Str(orderId))
    case _ => Json(Undefined)
  }

  predicate ValidPrice(price: Option<int>)
  {
    price.Some? && price.value > 0
  }

  /** `JSON.stringify({ amount })` */
  function AmountOnlyBody(amount: int): Bookings.OrderRequest
  {
    Bookings.OrderRequest(Num(amount), Undefined, Undefined, Undefined)
  }

  /** The first step of `payNow`: an invalid price is reported and nothing is
      sent; a valid one is posted to `/create-order` on its own. */
  function PayNow(price: Option<int>): (effects: seq<Effect>)
    ensures |effects| == 1
    ensures effects[0].PostCreateOrder? <==> ValidPrice(price)
    ensures !ValidPrice(price) ==> effects == [Alert(INVALID_PRICE)]
    ensures ValidPrice(price) ==>
              && effects[0].order.amount == Num(price.value)
              && effects[0].order.checkin == Undefined
              && effects[0].order.checkout == Undefined
              && effects[0].order.guests == Undefined
  {
    if price.None? || price.value <= 0 then [Alert(INVALID_PRICE)]
    else [PostCreateOrder(AmountOnlyBody(price.value))]
  }

  /** The widget options for a price in rupees and the order id read from the reply. */
  function OptionsFor(amount: int, orderId: JsValue): (o: CheckoutOptions)
    ensures o.amount == amount * 100 && o.currency == CURRENCY && o.orderId == orderId
    ensures o.key == KEY_ID
  {
    CheckoutOptions(KEY_ID, amount * 100, CURRENCY, "High Heaven", "Room Reservation", orderId,
                    Prefill("", "johndoe@example.com", "9999999999"), "#3399cc")
  }

  /** The second step: any readable reply opens the widget with the reply's
      `orderId`, whatever the response status was; an unreadable one ends in
      the one generic alert. */
  function OnOrderReply(amount: int, reply: Reply): (effects: seq<Effect>)
    ensures reply.Json? ==> effects == [OpenCheckout(OptionsFor(amount, reply.orderId))]
    ensures reply.Unreadable? ==> effects == [Alert(GENERIC_FAILURE)]
    ensures forall k :: 0 <= k < |effects| ==> !effects[k].PostUpdateBooking? && !effects[k].PostCreateOrder?
  {
    match reply
    case Json(orderId) => [OpenCheckout(OptionsFor(amount, orderId))]
    case Unreadable => [Alert(GENERIC_FAILURE)]
  }

  /** The widget's success callback: it reports the payment id and nothing else. */
  function OnPaymentSuccess(paymentId: string): (effects: seq<Effect>)
    ensures |effects| == 1 && effects[0].Alert?
    ensures var m := effects[0].message; |m| >= |paymentId| && m[|m| - |paymentId|..] == paymentId
    ensures forall k :: 0 <= k < |effects| ==> !effects[k].PostUpdateBooking?
  {
    [Alert("Payment successful! Payment ID: " + paymentId)]
  }

  /** The widget's `payment.failed` callback: it reports the reason; no request, no retry. */
  function OnPaymentFailed(reason: string): (effects: seq<Effect>)
    ensures |effects| == 1 && effects[0].Alert?
    ensures var m := effects[0].message; |m| >= |reason| && m[|m| - |reason|..] == reason
  {
    [Alert("Payment failed! Reason: " + reason)]
  }

  // ---------------------------------------------------------------------
  // The client as it evidently was meant to be
  // ---------------------------------------------------------------------

  /** The first step with the stay details the server requires sent along. */
  function PayNowWithStay(price: Option<int>, checkin: JsValue, checkout: JsValue, guests: JsValue)
    : (effects: seq<Effect>)
    ensures |effects| == 1
    ensures effects[0].PostCreateOrder? <==> ValidPrice(price)
    ensures !ValidPrice(price) ==> effects == [Alert(INVALID_PRICE)]
    ensures ValidPrice(price) ==>
              effects[0].order == Bookings.OrderRequest(Num(price.value), checkin, checkout, guests)
  {
    if price.None? || price.value <= 0 then [Alert(INVALID_PRICE)]
    else [PostCreateOrder(Bookings.OrderRequest(Num(price.value), checkin, checkout, guests))]
  }

  /** The success callback that also tells the server which order was paid. */
  function OnPaymentSuccessNotifying(orderId: JsValue, paymentId: string): (effects: seq<Effect>)
    ensures |effects| == 2 && effects[0] == OnPaymentSuccess(paymentId)[0]
    ensures effects[1] == PostUpdateBooking(Bookings.UpdateRequest(Str(paymentId), orderId))
  {
    OnPaymentSuccess(paymentId) + [PostUpdateBooking(Bookings.UpdateRequest(Str(paymentId), orderId))]
  }
}
