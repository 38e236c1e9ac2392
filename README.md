# High Heaven booking payments in Dafny

This project models the booking/payment lifecycle of the High Heaven lodging
application and proves properties of that model. Two server handlers change
the booking collection. `POST /create-order` validates the stay request. It
asks the Razorpay gateway for an order in paise and stores one new booking
under the gateway's order id. `POST /update-booking` finds the first booking
with a given order id and marks it paid. The model also covers the catch-all
route and the error handler that end every request no route answers and
every error passed on with `next`, and the browser
function `payNow` that starts a checkout.

A booking goes through these states: no record, then created (status unset),
then paid (`status = "paid"`, `paymentId` set).

Files:
- `optional.dfy`: `Option`.
- `js_values.dfy`: the JavaScript values of a JSON body and their truthiness.
- `bookings.dfy`: the two handlers. Each has a specification function on
  values (`CreateOrderOutcome`, `UpdateBookingOutcome`) and a method of the
  class `BookingStore`, whose `bookings` field is the collection. Each method
  is proved to produce exactly its function's outcome. The lemmas about the
  lifecycle are also here.
- `error_handler.dfy`: the catch-all route and the error handler.
- `checkout.dfy`: `payNow` and its callbacks, as functions from what the
  browser has to the effects it causes. It also holds the corrected versions
  listed under Findings.
- `payment_flow.dfy`: the client run against the server handlers.

Inputs the program gets from outside are parameters of the model:
- the gateway's answer, as a function from order parameters to a reply;
- `Date.now()`, as `now`;
- whether `Booking.create` succeeds, as `saved`;
- whether `findOneAndUpdate` throws, as `storeOk`;
- the price after `parseInt`, as an `Option<int>`.

The store's record identifier is the counter `nextId` of `BookingStore`.

The lifecycle relies on there being one booking per order id, but app.js
does not check for it: `/create-order` appends without looking for the id.
Whether the booking schema does is not known. The model follows app.js, and
`DuplicateOrderIdLeavesNewBookingUnpaid` shows what happens when the gateway
repeats an id.

## Model

| member | source | states |
|---|---|---|
| `Bookings.RejectsOrder` | app.js:106-108 | The order request is rejected exactly when it lacks any of these: an amount that is a number greater than 0, and truthy `checkin`, `checkout` and `guests`. |
| `Bookings.GatewayParams` | app.js:111-115 | The gateway is asked for `amount * 100` paise in `"INR"`, with the receipt for the current time. |
| `Bookings.ReceiptsCollideOnlyOnSameTimestamp` | app.js:114 | Two receipts are equal exactly when the two timestamps are equal. |
| `Bookings.CreateOrderOutcome` | app.js:100-140 | A rejected request gives 400 "Missing required fields" and leaves the store unchanged. A gateway that throws gives 500 with the generic message. A missing order or order id gives 500 "Failed to create Razorpay order". A failed save gives 500 with the generic message. In all failure cases the store is unchanged. Otherwise the response is 200 with the order id and the new booking id. The collection is then the old one plus exactly one booking, which carries the request's amount, checkin, checkout and guests, the gateway's order id, and no payment id or status. |
| `Bookings.RejectionPrecedesGateway` | app.js:106-115 | A rejected request has the same outcome whatever the gateway, the clock or the store would do, so none of them is consulted. |
| `Bookings.FindFirst` | app.js:157-158 | The filter `{orderId}` finds the first booking whose order id equals the key, and finds nothing exactly when no booking matches. |
| `Bookings.MarkPaid` | app.js:159 | The update sets `paymentId` to the given value and `status` to `"paid"`. Every other field is unchanged. |
| `Bookings.UpdateBookingOutcome` | app.js:145-173 | A falsy `paymentId` or `orderId` gives 400 and the store is unchanged. A store exception gives 500 and the store is unchanged. No matching booking gives 404 "Booking not found." and the store is unchanged. Otherwise the response is 200, and only the first matching booking changes: it is marked paid. The response returns the updated record. |
| `Bookings.FindFirstIgnoresPayment` | app.js:157-161 | Marking a booking paid does not change which booking a filter finds first. |
| `Bookings.RepeatedUpdateIsIdempotent` | app.js:157-161 | Repeating an identical update gives the same response and the same collection. |
| `Bookings.SecondPaymentOverwritesFirst` | app.js:157-161 | There is no status guard. After a successful update, a second update with another truthy payment id also succeeds and replaces the payment id on the same booking. |
| `Bookings.DuplicateOrderIdLeavesNewBookingUnpaid` | app.js:124-161 | If the gateway repeats an order id already stored, a second booking is appended. Paying that order marks the earlier booking in insertion order, so the new one stays unpaid. |
| `Bookings.CreateOrderMovesForward` | app.js:124-132 | Order creation adds at most one booking, which is unpaid. Existing bookings keep their id and order id, and a paid booking stays paid. Record ids stay ascending and below the next id. |
| `Bookings.UpdateBookingMovesForward` | app.js:157-161 | An update keeps the collection's length, every id and order id, and every paid status. Record ids stay ascending. |
| `Bookings.BookingStore.CreateOrder` | app.js:100-140 | The handler's response and new collection are exactly `CreateOrderOutcome` of the old collection. The id counter advances only on success, and the id invariant is kept. |
| `Bookings.BookingStore.UpdateBooking` | app.js:145-173 | The handler's response and new collection are exactly `UpdateBookingOutcome` of the old collection. The id counter is unchanged, and the id invariant is kept. |
| `ErrorHandler.CatchAll` | app.js:213-215 | An unmatched request becomes an error with status 404 and message "Page Not Found!". |
| `ErrorHandler.RenderError` | app.js:217-221 | The page has the error's status code, or 500 when the code is undefined. It has the error's message, or "Something went wrong!" when the message is undefined. An empty message is kept. A code outside 100-999, which Node refuses when writing the response, is not captured (see Left out). |
| `ErrorHandler.ExpressErrorRendersAsBuilt` | app.js:217-220 | An error built with a status between 100 and 999 and a message is rendered with exactly that status and message. |
| `ErrorHandler.UnmatchedRouteRendersNotFound` | app.js:213-221 | Every unmatched route ends in a 404 "Page Not Found!" page. |
| `Checkout.PayNow` | public/js/script.js:21-39 | A missing (NaN) or non-positive price gives only the "Invalid price" alert, with no request. A positive price posts to `/create-order` a body holding the amount and nothing else. |
| `Checkout.ReplyOf` | public/js/script.js:40-41 | The client reads `orderId` from the response body. It is the order id on a successful creation and undefined on every error body. |
| `Checkout.OptionsFor` | public/js/script.js:42-60 | The widget gets the test key, `amount * 100` in `"INR"`, and the given order id. |
| `Checkout.OnOrderReply` | public/js/script.js:40-71 | Any readable reply opens the widget with the reply's `orderId`, whatever the response status. An unreadable reply or a failed request gives the one generic alert. Neither sends any request. |
| `Checkout.OnPaymentSuccess` | public/js/script.js:49-51 | On success the client shows one alert ending with the payment id. It never posts to `/update-booking`. |
| `Checkout.OnPaymentFailed` | public/js/script.js:63-65 | On failure the client shows one alert ending with the reason. There is no request and no retry. |
| `Checkout.PayNowWithStay` | public/js/script.js:33-39 | Corrected request: for a valid price the body carries the amount together with `checkin`, `checkout` and `guests`. |
| `Checkout.OnPaymentSuccessNotifying` | public/js/script.js:49-51 | Corrected success callback: after the alert it posts `{paymentId, orderId}` to `/update-booking`. |
| `PaymentFlow.PayNowOrderAlwaysRejected` | public/js/script.js:38 | For every valid price, the server answers the client's order request with 400, leaves the store unchanged, and never calls the gateway. The client still opens the widget, with an undefined order id. |
| `PaymentFlow.ClientNeverMarksPaid` | public/js/script.js:49-51 | No step of the client as written sends an update request, and the one request it does send changes no booking. |
| `PaymentFlow.StayOrderCreatesBooking` | public/js/script.js:33-48 | With the stay details sent and a gateway that gives an order, exactly one unpaid booking is created. The widget opens on that order, with the same paise amount and currency the gateway was asked for. |
| `PaymentFlow.IntendedFlowReachesPaid` | public/js/script.js:21-72 | Order, checkout and notification in sequence, for an order id new to the collection, leave the collection as before plus one booking. That booking is paid with the payment id. |
| `PaymentFlow.ConcreteScenarios` | app.js:100-173 | A 500-rupee stay followed by payment "pay_test123" ends paid with that payment id. A -10 amount gives 400 with the store unchanged. An unknown order id gives 404. |

## Left out

- Application setup (environment, database connection, sessions, Passport, flash, views, `app.listen`). This is configuration and I/O.
- `isLoggedIn` on `/create-order`: the model starts after the middleware has let the request through. middleware.js is not part of this model.
- `GET /orders` is a fetch-all and a template render. `validateListing` is unused and refers to an undefined schema. The listing, review and user routers are not part of this model.
- The `Booking` schema (models/booking.js) is not part of this model. No default status is assumed, and the value of a field is stored as the request gave it (no schema casting).
- `Bookings.FindFirst`: the store's natural order is taken to be insertion order; MongoDB does not guarantee it, so with two bookings for one order id the store may mark either.
- `Bookings.Matches`: an `orderId` in the update body matches a booking only when it is a string equal to the stored order id. Mongoose's casting of other values, and objects that it would read as query operators, are not modelled.
- `ErrorHandler.ExpressError`: utils/ExpressError.js is not part of this model. The model takes `new ExpressError(statusCode, message)` to store its two arguments as `statusCode` and `message`, the order in which the call sites at app.js:202 and app.js:214 pass them.
- `ErrorHandler.RenderError`: an error's `statusCode` is either undefined or an integer, and its `message` either undefined or a string. The defaults at app.js:218 replace only `undefined`, so an error with `statusCode: null` or a non-string message would be passed through as it is; the model cannot express that case. A `statusCode` outside 100-999 is refused by Node when the response is written, so no page is sent with that status; the model does not capture this and gives the page that status.
- Amounts are integers. Fractional amounts, `NaN`, `Infinity` and floating-point rounding of `amount * 100` are not modelled.
- `parseInt` on the `data-price` attribute is replaced by its result, an `Option<int>`.
- Logging (`console.log`, `console.error`), the DOM lookups, `fetch` and promise plumbing, `alert` as UI, and the Razorpay widget's own behaviour. The widget's callbacks are modelled as the functions it would call.
- The Bootstrap form-validation script at the top of public/js/script.js: it is UI event wiring.
- Concurrency between requests: each handler runs as one atomic step on the collection.
- The order already created at the gateway when `Booking.create` then fails is not tracked; the gateway's state is outside the model.

## Findings

| source | as written | input that shows it | evidently intended | confidence | as-written member | corrected member |
|---|---|---|---|---|---|---|
| public/js/script.js:38 | `payNow` posts `{ amount }` only. `/create-order` requires `checkin`, `checkout` and `guests` (app.js:106), so every order request from the client gets 400. The widget then opens with `order_id` undefined. | a `data-price` of 500 | the body also carries the stay's `checkin`, `checkout` and `guests` | high; not executed | `PaymentFlow.PayNowOrderAlwaysRejected` | `PaymentFlow.StayOrderCreatesBooking` (using `Checkout.PayNowWithStay`) |
| public/js/script.js:49-51 | the success callback only alerts and never calls `/update-booking`, so no booking reaches `paid` through the client | any successful payment, e.g. payment id "pay_test123" | the callback posts `{ paymentId, orderId }` to `/update-booking` | medium; not executed | `PaymentFlow.ClientNeverMarksPaid` | `PaymentFlow.IntendedFlowReachesPaid` (using `Checkout.OnPaymentSuccessNotifying`) |
