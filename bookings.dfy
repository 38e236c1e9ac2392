/** The booking/payment lifecycle on the server: the `/create-order` and
    `/update-booking` handlers of app.js over a collection of booking
    records. A booking is created with its status unset and becomes paid
    through a find-and-update keyed by the gateway's order id.

    The payment gateway is a function parameter (what it answers for an order
    request); whether the store accepts a write is a boolean parameter; the
    collection is a sequence, in insertion order, because a find-and-update
    changes the first record that matches; the store's natural order is
    taken to be insertion order. */
module Bookings {
  import opened Optional
  import opened JsValues

  const PAID := "paid"
  const CURRENCY := "INR"

  const MISSING_FIELDS := "Missing required fields"
  const GATEWAY_FAILED := "Failed to create Razorpay order"
  const CREATE_FAILED := "Something went wrong while creating the order or saving the booking."
  const INVALID_UPDATE := "Invalid data. Payment ID and Order ID are required."
  const NOT_FOUND := "Booking not found."
  const UPDATED := "Booking updated successfully"
  const UPDATE_FAILED := "Failed to update booking"

  /** One booking record. `id` is the store's own identifier; `paymentId`
      and `status` stay unset until the booking is paid. */
  datatype Booking = Booking(
    id: nat,
    amount: int,
    checkin: JsValue,
    checkout: JsValue,
    guests: JsValue,
    orderId: string,
    paymentId: Option<JsValue>,
    status: Option<string>)

  /** The body of a `/create-order` request. */
  datatype OrderRequest = OrderRequest(amount: JsValue, checkin: JsValue, checkout: JsValue, guests: JsValue)

  /** The body of an `/update-booking` request. */
  datatype UpdateRequest = UpdateRequest(paymentId: JsValue, orderId: JsValue)

  /** What the handler asks the gateway for: an amount in paise, a currency and a receipt. */
  datatype OrderParams = OrderParams(amount: int, currency: string, receipt: string)

  /** An order object as the gateway returns it; its `id` may be missing. */
  datatype GatewayOrder = GatewayOrder(id: Option<string>)

  /** The gateway call either throws or resolves to an order, which may be null. */
  datatype GatewayReply = Threw | Resolved(order: Option<GatewayOrder>)

  datatype Body =
    | OrderCreated(orderId: string, bookingId: nat)
    | BookingUpdated(message: string, booking: Booking)
    | Error(error: string)

  /** An HTTP status with its JSON body. */
  datatype Response = Response(status: int, body: Body)

  /** A handler's response together with the collection after it ran. */
  datatype Outcome = Outcome(response: Response, bookings: seq<Booking>)

  // ---------------------------------------------------------------------
  // Order creation
  // ---------------------------------------------------------------------

  /** The guard of `/create-order` as written: true when the request is
      answered with 400. JavaScript's `||` short-circuits, so `amount <= 0`
      is only evaluated on a number. */
  function RejectsOrder(req: OrderRequest): (r: bool)
    ensures r <==> !(req.amount.Num? && req.amount.n > 0
                     && Truthy(req.checkin) && Truthy(req.checkout) && Truthy(req.guests))
  {
    !Truthy(req.amount) || !IsNumber(req.amount) || req.amount.n <= 0
    || !Truthy(req.checkin) || !Truthy(req.checkout) || !Truthy(req.guests)
  }

  function DigitChar(d: nat): (c: char)
    requires d < 10
    ensures '0' <= c <= '9' && c as int - '0' as int == d
  {
    (('0' as int) + d) as char
  }

  /** The decimal digits of `n`, as a template literal prints a timestamp. */
  function Decimal(n: nat): (s: string)
    ensures |s| > 0
    ensures forall i :: 0 <= i < |s| ==> '0' <= s[i] <= '9'
  {
    if n < 10 then [DigitChar(n)] else Decimal(n / 10) + [DigitChar(n % 10)]
  }

  /** The number a string of decimal digits denotes. */
  function DecimalValue(s: string): nat
  {
    if s == [] then 0
    else
      var d := s[|s| - 1] as int - '0' as int;
      DecimalValue(s[..|s| - 1]) * 10 + (if 0 <= d then d else 0)
  }

  lemma {:induction false} DecimalRoundTrip(n: nat)
    ensures DecimalValue(Decimal(n)) == n
  {
    if n >= 10 {
      DecimalRoundTrip(n / 10);
      var s := Decimal(n / 10) + [DigitChar(n % 10)];
      assert s[..|s| - 1] == Decimal(n / 10);
    }
  }

  /** The receipt `receipt_<timestamp>` sent with every order. */
  function Receipt(now: nat): string
  {
    "receipt_" + Decimal(now)
  }

  /** Two orders get the same receipt exactly when they are placed at the same millisecond. */
  lemma ReceiptsCollideOnlyOnSameTimestamp(t1: nat, t2: nat)
    ensures Receipt(t1) == Receipt(t2) <==> t1 == t2
  {
    if Receipt(t1) == Receipt(t2) {
      var p := "receipt_";
      assert Decimal(t1) == Receipt(t1)[|p|..];
      assert Decimal(t2) == Receipt(t2)[|p|..];
      DecimalRoundTrip(t1);
      DecimalRoundTrip(t2);
    }
  }

  /** The order the handler asks the gateway for, for an amount in rupees. */
  function GatewayParams(amount: int, now: nat): (p: OrderParams)
    ensures p.currency == CURRENCY && p.receipt == Receipt(now)
    ensures p.amount == amount * 100
  {
    OrderParams(amount * 100, CURRENCY, Receipt(now))
  }

  /** `order && order.id`: the gateway gave an order with a non-empty id. */
  predicate UsableOrder(reply: GatewayReply)
  {
    reply.Resolved? && reply.order.Some? && reply.order.value.id.Some?
    && reply.order.value.id.value != ""
  }

  function OrderIdOf(reply: GatewayReply): string
    requires UsableOrder(reply)
  {
    reply.order.value.id.value
  }

  /** What `/create-order` answers and how it leaves the collection, for a
      request that passed the login check. `newId` is the identifier the
      store gives a new record; `saved` says whether the store accepted it. */
  function CreateOrderOutcome(store: seq<Booking>, newId: nat, req: OrderRequest,
                              gateway: OrderParams -> GatewayReply, now: nat, saved: bool): (out: Outcome)
    ensures out.response.status == 400 <==> RejectsOrder(req)
    ensures RejectsOrder(req) ==> out == Outcome(Response(400, Error(MISSING_FIELDS)), store)
    ensures out.response.status == 200 <==>
              !RejectsOrder(req) && UsableOrder(gateway(GatewayParams(req.amount.n, now))) && saved
    ensures out.response.status !in {200, 400} ==> out.response.status == 500
    ensures !RejectsOrder(req) && gateway(GatewayParams(req.amount.n, now)).Threw? ==>
              out.response.body == Error(CREATE_FAILED)
    ensures !RejectsOrder(req) && gateway(GatewayParams(req.amount.n, now)).Resolved?
            && !UsableOrder(gateway(GatewayParams(req.amount.n, now))) ==>
              out.response.body == Error(GATEWAY_FAILED)
    ensures !RejectsOrder(req) && UsableOrder(gateway(GatewayParams(req.amount.n, now))) && !saved ==>
              out.response.body == Error(CREATE_FAILED)
    ensures out.response.status != 200 ==> out.bookings == store
    ensures out.response.status == 200 ==>
              var orderId := OrderIdOf(gateway(GatewayParams(req.amount.n, now)));
              && out.response.body == OrderCreated(orderId, newId)
              && out.bookings == store + [Booking(newId, req.amount.n, req.checkin, req.checkout,
                                                  req.guests, orderId, None, None)]
  {
    if RejectsOrder(req) then
      Outcome(Response(400, Error(MISSING_FIELDS)), store)
    else
      var reply := gateway(GatewayParams(req.amount.n, now));
      if reply.Threw? then
        Outcome(Response(500, Error(CREATE_FAILED)), store)
      else if !UsableOrder(reply) then
        Outcome(Response(500, Error(GATEWAY_FAILED)), store)
      else if !saved then
        Outcome(Response(500, Error(CREATE_FAILED)), store)
      else
        var booking := Booking(newId, req.amount.n, req.checkin, req.checkout, req.guests,
                               OrderIdOf(reply), None, None);
        Outcome(Response(200, OrderCreated(booking.orderId, booking.id)), store + [booking])
  }

  /** A rejected request never reaches the gateway: its outcome is the same
      whatever the gateway would have answered, and whatever the store would do. */
  lemma RejectionPrecedesGateway(store: seq<Booking>, newId: nat, req: OrderRequest,
                                 g1: OrderParams -> GatewayReply, g2: OrderParams -> GatewayReply,
                                 now1: nat, now2: nat, saved1: bool, saved2: bool)
    requires RejectsOrder(req)
    ensures CreateOrderOutcome(store, newId, req, g1, now1, saved1)
         == CreateOrderOutcome(store, newId, req, g2, now2, saved2)
  {
  }

  // ---------------------------------------------------------------------
  // Booking update
  // ---------------------------------------------------------------------

  /** The filter `{ orderId: key }` selects a booking. */
  predicate Matches(b: Booking, key: JsValue)
  {
    key == Str(b.orderId)
  }

  /** `i` is the position of the first booking the filter selects. */
  ghost predicate IsFirstMatch(s: seq<Booking>, key: JsValue, i: int)
  {
    0 <= i < |s| && Matches(s[i], key) && forall j :: 0 <= j < i ==> !Matches(s[j], key)
  }

  /** The record a find-one query on `{ orderId: key }` finds, if any. */
  function FindFirst(s: seq<Booking>, key: JsValue): (r: Option<nat>)
    ensures r.Some? ==> IsFirstMatch(s, key, r.value)
    ensures r.None? ==> forall j :: 0 <= j < |s| ==> !Matches(s[j], key)
  {
    if s == [] then None
    else if Matches(s[0], key) then Some(0)
    else
      match FindFirst(s[1..], key)
      case None => None
      case Some(i) => Some(i + 1)
  }

  /** The update `{ paymentId, status: 'paid' }` applied to one record. */
  function MarkPaid(b: Booking, paymentId: JsValue): (r: Booking)
    ensures r.paymentId == Some(paymentId) && r.status == Some(PAID)
    ensures r.(paymentId := b.paymentId, status := b.status) == b
  {
    b.(paymentId := Some(paymentId), status := Some(PAID))
  }

  /** What `/update-booking` answers and how it leaves the collection.
      `storeOk` is false when the find-and-update throws. */
  function UpdateBookingOutcome(store: seq<Booking>, req: UpdateRequest, storeOk: bool): (out: Outcome)
    ensures !Truthy(req.paymentId) || !Truthy(req.orderId) ==>
              out == Outcome(Response(400, Error(INVALID_UPDATE)), store)
    ensures Truthy(req.paymentId) && Truthy(req.orderId) && !storeOk ==>
              out == Outcome(Response(500, Error(UPDATE_FAILED)), store)
    ensures out.response.status == 404 <==>
              Truthy(req.paymentId) && Truthy(req.orderId) && storeOk
              && forall j :: 0 <= j < |store| ==> !Matches(store[j], req.orderId)
    ensures out.response.status == 404 ==> out == Outcome(Response(404, Error(NOT_FOUND)), store)
    ensures out.response.status == 200 <==>
              Truthy(req.paymentId) && Truthy(req.orderId) && storeOk
              && exists j :: 0 <= j < |store| && Matches(store[j], req.orderId)
    ensures out.response.status != 200 ==> out.bookings == store
    ensures out.response.status == 200 ==>
              exists i :: IsFirstMatch(store, req.orderId, i)
                && out.bookings == store[i := MarkPaid(store[i], req.paymentId)]
                && out.response.body == BookingUpdated(UPDATED, out.bookings[i])
  {
    if !Truthy(req.paymentId) || !Truthy(req.orderId) then
      Outcome(Response(400, Error(INVALID_UPDATE)), store)
    else if !storeOk then
      Outcome(Response(500, Error(UPDATE_FAILED)), store)
    else
      match FindFirst(store, req.orderId)
      case None => Outcome(Response(404, Error(NOT_FOUND)), store)
      case Some(i) =>
        var updated := MarkPaid(store[i], req.paymentId);
        Outcome(Response(200, BookingUpdated(UPDATED, updated)), store[i := updated])
  }

  /** Marking a record paid does not change which record a filter finds first. */
  lemma {:induction false} FindFirstIgnoresPayment(s: seq<Booking>, i: nat, key: JsValue, paymentId: JsValue)
    requires i < |s|
    ensures FindFirst(s[i := MarkPaid(s[i], paymentId)], key) == FindFirst(s, key)
  {
    var t := s[i := MarkPaid(s[i], paymentId)];
    if i > 0 && !Matches(s[0], key) {
      assert t[1..] == s[1..][i - 1 := MarkPaid(s[1..][i - 1], paymentId)];
      FindFirstIgnoresPayment(s[1..], i - 1, key, paymentId);
    }
  }

  /** Repeating an identical update changes nothing more and gives the same answer. */
  lemma RepeatedUpdateIsIdempotent(store: seq<Booking>, req: UpdateRequest)
    ensures var first := UpdateBookingOutcome(store, req, true);
            UpdateBookingOutcome(first.bookings, req, true) == first
  {
    if Truthy(req.paymentId) && Truthy(req.orderId) {
      match FindFirst(store, req.orderId)
      case None =>
      case Some(i) =>
        var t := store[i := MarkPaid(store[i], req.paymentId)];
        FindFirstIgnoresPayment(store, i, req.orderId, req.paymentId);
        assert t[i := MarkPaid(t[i], req.paymentId)] == t;
    }
  }

  /** Nothing guards a paid booking: a later update with another payment id
      succeeds and replaces the payment id recorded first. */
  lemma SecondPaymentOverwritesFirst(store: seq<Booking>, key: JsValue, p1: JsValue, p2: JsValue)
    requires UpdateBookingOutcome(store, UpdateRequest(p1, key), true).response.status == 200
    requires Truthy(p2)
    ensures var first := UpdateBookingOutcome(store, UpdateRequest(p1, key), true);
            var second := UpdateBookingOutcome(first.bookings, UpdateRequest(p2, key), true);
            && second.response.status == 200
            && exists i :: IsFirstMatch(store, key, i)
                 && first.bookings[i].paymentId == Some(p1)
                 && second.bookings[i].paymentId == Some(p2)
                 && second.bookings[i].status == Some(PAID)
                 && second.bookings == store[i := MarkPaid(store[i], p2)]
  {
    var i := FindFirst(store, key).value;
    var first := UpdateBookingOutcome(store, UpdateRequest(p1, key), true);
    FindFirstIgnoresPayment(store, i, key, p1);
    assert first.bookings[i := MarkPaid(first.bookings[i], p2)] == store[i := MarkPaid(store[i], p2)];
    assert IsFirstMatch(store, key, i);
  }

  /** The handler does not keep order ids unique: when the gateway repeats an
      order id already in the collection, a second booking is appended, and
      paying that order marks the earlier booking in insertion order, never
      the new one. */
  lemma DuplicateOrderIdLeavesNewBookingUnpaid(store: seq<Booking>, newId: nat, req: OrderRequest,
                                               gateway: OrderParams -> GatewayReply, now: nat,
                                               paymentId: JsValue, j: nat)
    requires CreateOrderOutcome(store, newId, req, gateway, now, true).response.status == 200
    requires j < |store| && store[j].orderId == OrderIdOf(gateway(GatewayParams(req.amount.n, now)))
    requires Truthy(paymentId)
    ensures var created := CreateOrderOutcome(store, newId, req, gateway, now, true);
            var paid := UpdateBookingOutcome(created.bookings, UpdateRequest(paymentId, Str(store[j].orderId)), true);
            && paid.response.status == 200
            && paid.bookings[|store|] == created.bookings[|store|]
            && paid.bookings[|store|].status.None?
  {
    var created := CreateOrderOutcome(store, newId, req, gateway, now, true);
    var key := Str(store[j].orderId);
    assert created.bookings[j] == store[j];
    var i := FindFirst(created.bookings, key).value;
    assert i <= j;
  }

  // ---------------------------------------------------------------------
  // The lifecycle: no record -> created (status unset) -> paid
  // ---------------------------------------------------------------------

  /** Ids ascend in insertion order and stay below the next id to hand out. */
  ghost predicate IdsBelow(s: seq<Booking>, bound: nat)
  {
    && (forall i :: 0 <= i < |s| ==> s[i].id < bound)
    && (forall i, j :: 0 <= i < j < |s| ==> s[i].id < s[j].id)
  }

  /** `after` only moves bookings forward: existing records keep their identity
      and stay paid once paid, and any record added starts unpaid. */
  ghost predicate MovesForward(before: seq<Booking>, after: seq<Booking>)
  {
    && |before| <= |after|
    && (forall i :: 0 <= i < |before| ==>
          && after[i].id == before[i].id
          && after[i].orderId == before[i].orderId
          && (before[i].status == Some(PAID) ==> after[i].status == Some(PAID)))
    && (forall i :: |before| <= i < |after| ==> after[i].status.None? && after[i].paymentId.None?)
  }

  lemma CreateOrderMovesForward(store: seq<Booking>, newId: nat, req: OrderRequest,
                                gateway: OrderParams -> GatewayReply, now: nat, saved: bool)
    requires IdsBelow(store, newId)
    ensures var out := CreateOrderOutcome(store, newId, req, gateway, now, saved);
            && MovesForward(store, out.bookings)
            && |out.bookings| <= |store| + 1
            && IdsBelow(out.bookings, if out.response.status == 200 then newId + 1 else newId)
  {
  }

  lemma UpdateBookingMovesForward(store: seq<Booking>, req: UpdateRequest, storeOk: bool, bound: nat)
    requires IdsBelow(store, bound)
    ensures var out := UpdateBookingOutcome(store, req, storeOk);
            && MovesForward(store, out.bookings)
            && |out.bookings| == |store|
            && IdsBelow(out.bookings, bound)
  {
  }

  /** The booking collection behind the two handlers. `nextId` stands for the
      store's generator of record identifiers. */
  class BookingStore {
    var bookings: seq<Booking>
    var nextId: nat

    ghost predicate Valid()
      reads this
    {
      IdsBelow(bookings, nextId)
    }

    constructor ()
      ensures Valid() && bookings == [] && nextId == 0
    {
      bookings := [];
      nextId := 0;
    }

    /** POST /create-order */
    method CreateOrder(req: OrderRequest, gateway: OrderParams -> GatewayReply, now: nat, saved: bool)
      returns (response: Response)
      requires Valid()
      modifies this
      ensures Valid()
      ensures Outcome(response, bookings) == CreateOrderOutcome(old(bookings), old(nextId), req, gateway, now, saved)
      ensures nextId == if response.status == 200 then old(nextId) + 1 else old(nextId)
    {
      if RejectsOrder(req) {
        return Response(400, Error(MISSING_FIELDS));
      }
      var reply := gateway(GatewayParams(req.amount.n, now));
      if reply.Threw? {
        return Response(500, Error(CREATE_FAILED));
      }
      if !UsableOrder(reply) {
        return Response(500, Error(GATEWAY_FAILED));
      }
      if !saved {
        return Response(500, Error(CREATE_FAILED));
      }
      var booking := Booking(nextId, req.amount.n, req.checkin, req.checkout, req.guests,
                             OrderIdOf(reply), None, None);
      bookings := bookings + [booking];
      nextId := nextId + 1;
      response := Response(200, OrderCreated(booking.orderId, booking.id));
    }

    /** POST /update-booking */
    method UpdateBooking(req: UpdateRequest, storeOk: bool) returns (response: Response)
      requires Valid()
      modifies this
      ensures Valid()
      ensures Outcome(response, bookings) == UpdateBookingOutcome(old(bookings), req, storeOk)
      ensures nextId == old(nextId)
    {
      if !Truthy(req.paymentId) || !Truthy(req.orderId) {
        return Response(400, Error(INVALID_UPDATE));
      }
      if !storeOk {
        return Response(500, Error(UPDATE_FAILED));
      }
      var found := FindFirst(bookings, req.orderId);
      if found.None? {
        return Response(404, Error(NOT_FOUND));
      }
      var i := found.value;
      var updated := MarkPaid(bookings[i], req.paymentId);
      bookings := bookings[i := updated];
      response := Response(200, BookingUpdated(UPDATED, updated));
    }
  }
}
