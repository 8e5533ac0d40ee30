# Payment reconciliation and cart logic of a restaurant ordering system

This project models, in Dafny, the three pieces of logic of the restaurant
ordering system that do more than render or store data:

- **The payment-gateway webhook** (`payment_notification`). It takes the
  transaction id out of the composite `order_id` (the second `-`-separated
  segment) and rejects a missing or unsplittable `order_id` with 400. It
  answers 404 for an unknown transaction or one without items. It maps the
  gateway's `transaction_status` onto the status stored in the database and
  overwrites the stored status. When the new status owes a "Success
  Transaction" or "Fail Transaction" e-mail, it sends that e-mail and logs
  it, unless the e-mail log already holds that (transaction id, payload)
  pair.
- **The operator override** (`paying`). It checks its path parameters in a
  fixed order: both present, then the status code, then the id's format,
  then the transaction's existence. It then sets the status from the
  numeric code 1..6 through a fixed table and applies the same e-mail
  decision and the same deduplication guard.
- **The cart page**. It raises or lowers a line's quantity, removing the
  line when its last unit goes. It computes the total. At checkout it
  builds the `products` payload and empties the cart once a redirect URL
  comes back.

Layout:

- `optional.dfy` (module `Optional`): the Option type, for JavaScript
  values that may be absent.
- `store.dfy` (module `Store`): the transaction, item and e-mail-log
  collections. They are modelled as values: a map from id to transaction, a
  map from transaction id to its items, and the log as a sequence of
  records. Sent e-mails go to a ghost outbox. This file also holds the
  deduplication guard both handlers use (`AfterSendOnce`, with the class
  method `Database.SendOnce` proved against it) and the invariant
  `SentAtMostOnce`.
- `payment_notification.dfy`: the webhook. `NotificationOutcome` is the
  handler as a function of the state before it. The method
  `PaymentNotification` updates a `Database` in place and is proved equal
  to it.
- `complete_payment.dfy`: the override. It includes `parseInt(status, 10)`
  as JavaScript defines it: skip leading white space, take one optional
  sign, read the leading decimal digits, and give `NaN` (None) when there
  are none. `PayingOutcome` is the function; `Paying` is the method.
- `cart_page.dfy`: the cart lines, `Total`, `Products`, `CheckoutRequest`
  and the `Cart` class with `Increment`, `Decrement` and `Checkout`.

Parameters stand in for the outside world:

- `sendOk` and `logOk` say whether the e-mail sender and the log write
  succeeded. The two run side by side, and a failure of either is only
  logged.
- `isValidId` stands for `mongoose.Types.ObjectId.isValid`.
- `reply` stands for what `createTransaction()` came back with.

Two facts about the code that the model keeps:

- The two handlers spell the fraud-challenge status differently. The
  webhook writes `"challengebyFDS"` with a lower-case b
  (backend/controllers/paymentNotificationController/paymentNotification.js:75).
  The override table writes `"challengeByFDS"`
  (backend/controllers/transactionController/completePaymentController.js:15).
  The model keeps both spellings as distinct strings, and `StatusTable`
  proves they differ.
- The override checks the status code
  (backend/controllers/transactionController/completePaymentController.js:35)
  before the id format (:43). So an unknown code with an ill-formed id is
  reported as "Invalid status!", not as "Invalid transaction ID format!".
  Each error response carries a `Reason` tag that stands for its message,
  and `CodeCheckedBeforeId` proves the order.

## Model

| member | source | states |
|---|---|---|
| `Store.Payload.Text` | backend/controllers/paymentNotificationController/paymentNotification.js:89-98 | The string each payload stands for: "Success Transaction" or "Fail Transaction". The two are distinct, so comparing payloads is comparing the logged strings. |
| `Store.ItemsOf` | backend/controllers/paymentNotificationController/paymentNotification.js:33 | `TransactionItems.find({ transaction_id })`: the items stored for the id, or the empty list when there are none (also `completePaymentController.js:63`). |
| `Store.Logged` | backend/controllers/paymentNotificationController/paymentNotification.js:106-109 | `EmailLogs.findOne({ transaction_id, payload })` finds a record: some log record has that id and that payload (also `completePaymentController.js:74-77`). |
| `Store.AfterSendOnce` | backend/controllers/paymentNotificationController/paymentNotification.js:106-140 | If the log holds (id, payload), nothing changes. Otherwise exactly one e-mail of that payload goes to the transaction's customer if sending succeeds, and exactly one (id, payload) record is appended if logging succeeds. The transactions and items are untouched either way, and after a successful log write the pair is logged. |
| `Store.SendOncePreservesAtMostOnce` | backend/controllers/paymentNotificationController/paymentNotification.js:106-140 | Suppose every sent e-mail is logged and no (id, payload) pair was e-mailed twice. The guard keeps that true as long as a send that succeeds is also logged. |
| `Store.SendWithoutLogResends` | backend/controllers/paymentNotificationController/paymentNotification.js:112-137 | The guard is best effort: if an e-mail is sent but its log write fails, the next delivery sends the same e-mail again and the at-most-once invariant is broken. |
| `Store.Database.SendOnce` | backend/controllers/transactionController/completePaymentController.js:73-99 | The in-place guard (log lookup, then send and log) leaves the stores exactly as `AfterSendOnce` says. |
| `PaymentNotification.Split` | backend/controllers/paymentNotificationController/paymentNotification.js:28 | `split("-")` gives at least one segment, no segment contains `-`, joining the segments with `-` gives back the input, and there are at least two segments exactly when the input contains `-`. |
| `PaymentNotification.SplitJoin` | backend/controllers/paymentNotificationController/paymentNotification.js:28 | Splitting undoes joining for `-`-free segments, so the segments are unique. |
| `PaymentNotification.WellFormedOrderId` | backend/controllers/paymentNotificationController/paymentNotification.js:20 | `order_id` passes the guard exactly when it is present and splits into at least two segments, so `split("-")[1]` exists. |
| `PaymentNotification.TransactionIdOf` | backend/controllers/paymentNotificationController/paymentNotification.js:28 | `order_id.split("-")[1]`, defined only for an `order_id` that contains `-`; the id it gives contains no `-`. |
| `PaymentNotification.TransactionIdIsSecondSegment` | backend/controllers/paymentNotificationController/paymentNotification.js:28 | The transaction id taken from `order_id` is exactly the text between the first `-` and the second `-` (or the end), whatever follows. |
| `PaymentNotification.ExampleOrderId` | backend/controllers/paymentNotificationController/paymentNotification.js:20-28 | `order-64a1f9-1699999999` is accepted and names transaction `64a1f9`. |
| `PaymentNotification.DatabaseStatus` | backend/controllers/paymentNotificationController/paymentNotification.js:54-80 | The status switch is total and always gives one of the six webhook statuses. settlement/capture give completed, cancel/refund give cancelled, expire gives expired, deny gives denied and challenge gives challengebyFDS. Every other string, and only those, gives pending. Each of these holds in both directions. |
| `PaymentNotification.PayloadFor` | backend/controllers/paymentNotificationController/paymentNotification.js:88-98 | The owed e-mail is "Success Transaction" exactly for completed, and "Fail Transaction" exactly for cancelled, expired or denied. No e-mail is owed for any other status. |
| `PaymentNotification.GatewayPayload` | backend/controllers/paymentNotificationController/paymentNotification.js:54-98 | In gateway terms: a success e-mail is owed exactly for settlement or capture, and a failure e-mail exactly for cancel, refund, expire or deny. |
| `PaymentNotification.NotificationOutcome` | backend/controllers/paymentNotificationController/paymentNotification.js:17-155 | The response is 400, 404 or 200, and `success` holds, and no error reason is given, exactly on 200. 400 comes exactly when `order_id` is missing or has no `-`, with reason `InvalidOrderId`. 404 comes exactly when the id is unknown (reason `TransactionNotFound`) or has no items (reason `ItemsNotFound`). Neither error changes any store. On 200 the stored status is the mapped status whatever it was before, no other transaction changes, the items are untouched, and the response carries the updated transaction and its items. |
| `PaymentNotification.NotificationEmail` | backend/controllers/paymentNotificationController/paymentNotification.js:105-140 | On 200, one e-mail (of the owed payload, to the customer, with the updated transaction and its items) is sent and one record is logged, each only if the payload is owed, not yet logged, and that leg succeeded. Otherwise outbox and log are unchanged. |
| `PaymentNotification.NotificationTouchesOnlyItsTransaction` | backend/controllers/paymentNotificationController/paymentNotification.js:82-86 | Every transaction other than the one named by `order_id` keeps its stored record. |
| `PaymentNotification.RedeliveryIsIdempotent` | backend/controllers/paymentNotificationController/paymentNotification.js:106-140 | Delivering the same notification again after the first delivery's log write succeeded changes nothing, sends nothing and gives the same response, whatever the e-mail legs do the second time. |
| `PaymentNotification.NotificationPreservesAtMostOnce` | backend/controllers/paymentNotificationController/paymentNotification.js:105-145 | The webhook keeps "every sent e-mail is logged and no (id, payload) pair is e-mailed twice" whenever a successful send is also logged. |
| `PaymentNotification.ExampleSettlement` | backend/controllers/paymentNotificationController/paymentNotification.js:28-140 | `settlement` for `order-64a1f9-1699999999` (a stored transaction with items and an empty log) answers 200, stores completed, sends exactly one success e-mail and logs exactly that (id, payload) record. |
| `PaymentNotification.PaymentNotification` | backend/controllers/paymentNotificationController/paymentNotification.js:12-163 | The in-place handler leaves the stores and gives the response exactly as `NotificationOutcome` says. |
| `CompletePayment.TrimStart` | backend/controllers/transactionController/completePaymentController.js:34 | What `parseInt` skips is a prefix of ECMAScript white space, and what remains does not start with white space. |
| `CompletePayment.LeadingDigits` | backend/controllers/transactionController/completePaymentController.js:34 | The digits `parseInt` reads are the longest all-digit prefix of its input. |
| `CompletePayment.ParseInt` | backend/controllers/transactionController/completePaymentController.js:34 | `parseInt(status, 10)` gives a number exactly when a digit follows the leading white space and the optional sign. It is negative only after a minus sign. |
| `CompletePayment.DigitsValueOfDecimal` | backend/controllers/transactionController/completePaymentController.js:34 | Reading the decimal numeral of n gives back n. |
| `CompletePayment.ParseIntOfNumeral` | backend/controllers/transactionController/completePaymentController.js:34 | A numeral after white space and leading zeros, followed by anything that is not a digit, parses to its number: "3", " 3", "03" and "3abc" all give 3. |
| `CompletePayment.Present` | backend/controllers/transactionController/completePaymentController.js:26 | A path parameter passes the first check (it is truthy) exactly when it is there and is not the empty string. |
| `CompletePayment.KnownCode` | backend/controllers/transactionController/completePaymentController.js:34-35 | `statusMapping[parseInt(status, 10)]` is defined exactly when `parseInt` gives a number from 1 to 6. |
| `CompletePayment.StatusTable` | backend/controllers/transactionController/completePaymentController.js:13-20 | `statusMapping` is defined for exactly 1..6. Its statuses are the webhook's six with challengebyFDS replaced by the differently spelt challengeByFDS. |
| `CompletePayment.PayloadForCode` | backend/controllers/transactionController/completePaymentController.js:65-71 | The override owes "Success Transaction" exactly for code 3 and "Fail Transaction" exactly for codes 4, 5 and 6. |
| `CompletePayment.CodePayloadAgreesWithWebhook` | backend/controllers/transactionController/completePaymentController.js:65-71 | For every code in the table, the numeric e-mail rule equals the webhook's status rule applied to `statusMapping[n]`. |
| `CompletePayment.PayingOutcome` | backend/controllers/transactionController/completePaymentController.js:22-107 | The response is 400, 404 or 200, and `success` holds, and no error reason is given, exactly on 200. A missing or empty parameter gives the `MissingParameter` 400. With both present, an unknown code gives the `InvalidStatus` 400, and a known code with an ill-formed id gives the `InvalidIdFormat` 400. A well-formed unknown id gives the `TransactionNotFound` 404. No error changes any store. On 200 the stored status is `statusMapping[n]`, with no zero-items check, no other transaction changes, and the response carries the updated transaction and its items. |
| `CompletePayment.CodeCheckedBeforeId` | backend/controllers/transactionController/completePaymentController.js:34-49 | With both parameters present, the answer is "Invalid status!" exactly when the code is unknown, whatever `isValidId` says. It is "Invalid transaction ID format!" exactly when the code is known and the id is ill-formed. So the code is checked before the id. |
| `CompletePayment.UnknownCodeWithBadId` | backend/controllers/transactionController/completePaymentController.js:34-49 | A numeral above 6 together with an id `isValidId` rejects gets the "Invalid status!" 400, not the "Invalid transaction ID format!" one. |
| `CompletePayment.PayingEmail` | backend/controllers/transactionController/completePaymentController.js:65-99 | On 200 the override sends and logs the e-mail the webhook's rule owes for the new status, and only when the log does not hold it yet; otherwise outbox and log are unchanged. |
| `CompletePayment.PayingPreservesAtMostOnce` | backend/controllers/transactionController/completePaymentController.js:73-99 | The override keeps "every sent e-mail is logged and no (id, payload) pair is e-mailed twice" whenever a successful send is also logged. |
| `CompletePayment.RepeatedOverrideIsIdempotent` | backend/controllers/transactionController/completePaymentController.js:73-99 | Repeating an override after its log write succeeded changes nothing, sends nothing and gives the same response. |
| `CompletePayment.Paying` | backend/controllers/transactionController/completePaymentController.js:22-116 | The in-place endpoint leaves the stores and gives the response exactly as `PayingOutcome` says. |
| `CartPage.Redirects` | frontend/src/pages/CartPage.jsx:82 | The reply counts as a success exactly when the call resolved to a response whose `redirect_url` is there and not empty. |
| `CartPage.Total` | frontend/src/pages/CartPage.jsx:51-53 | The total of an empty cart is 0, and it is never negative when no price or quantity is. |
| `CartPage.TotalAppend` | frontend/src/pages/CartPage.jsx:51-53 | The total is additive over concatenation of carts, so it is the sum of price × quantity over the lines. |
| `CartPage.TotalAfterReplace` | frontend/src/pages/CartPage.jsx:51-53 | Changing one line changes the total by exactly the difference of that line's price × quantity. |
| `CartPage.TotalAfterRemove` | frontend/src/pages/CartPage.jsx:51-53 | Removing one line lowers the total by exactly that line's price × quantity. |
| `CartPage.Products` | frontend/src/pages/CartPage.jsx:72-75 | The `products` payload has the cart's length and order, with `product_id` the line's `_id` and `qty` its quantity. |
| `CartPage.CheckoutRequest` | frontend/src/pages/CartPage.jsx:62-76 | No request is built exactly when the customer name, e-mail or table code is empty. Otherwise the request carries those three and the cart's products line by line. |
| `CartPage.Cart.Increment` | frontend/src/pages/CartPage.jsx:31-35 | Line i's quantity goes up by one. The length and every other line stay as they were, the total rises by that line's price, and all-quantities-at-least-one is kept. |
| `CartPage.Cart.Decrement` | frontend/src/pages/CartPage.jsx:37-45 | Above one, line i's quantity goes down by one and nothing else changes, and the total drops by its price. At one or below, line i is removed and the other lines keep their order, and the total drops by that line's amount. All-quantities-at-least-one is kept. |
| `CartPage.Cart.Checkout` | frontend/src/pages/CartPage.jsx:62-95 | The request sent is `CheckoutRequest` of the cart. The cart becomes empty only if a request was sent and the reply carries a non-empty `redirect_url`; otherwise it is unchanged. |

## Left out

- Exceptions from the document store are not modelled, so neither is the
  500 response they lead to. This covers `findById` on a string Mongoose
  cannot cast to an ObjectId (the webhook does not validate the extracted
  id). It also covers a failing `save()` and `.includes` on an `order_id`
  that is not a string. The model only takes `order_id` as a string or
  absent.
- Concurrency is not modelled. The parallel fetch, and the parallel send and
  log, run as sequential steps. In `paying` the e-mail legs are fire and
  forget; the model runs them before the response. The race between two
  concurrent deliveries of the same webhook, both passing the log lookup,
  is not modelled. The sequential failure case (sent but not logged,
  `Store.SendWithoutLogResends`) shows the guard is only best effort.
- `sendSuccessEmail`, `sendFailedEmail` and the Mongoose models are foreign
  code. An e-mail is modelled as a record appended to a ghost outbox, with
  its payload, recipient, transaction and items. Whether each leg succeeds
  is a parameter.
- `mongoose.Types.ObjectId.isValid` is a parameter (`isValidId`), not a
  definition.
- Console logging and the rest of the JSON body are not modelled; only the
  status code, the success flag, the returned transaction and items, and
  the error are. An error's `message` is modelled as a `Reason` tag, one
  per distinct message, not as its text (the webhook's 404 messages also
  embed the id).
- Ids are compared as plain strings. Mongoose casts an id to an ObjectId
  before it looks it up, so two spellings of the same ObjectId (hex digits
  in different case, or a 12-byte string and its hex form) find the same
  document. The model assumes each stored id has one spelling.
- Numbers: quantities, prices and totals are unbounded integers, not
  JavaScript doubles. `parseInt` of a numeral beyond 2^53 loses precision
  in JavaScript, which cannot turn it into 1..6. Strings are sequences of
  code points, not UTF-16 code units.
- `CartPage.Cart.Increment`, `CartPage.Cart.Decrement`: both require the
  index to name a line. The page only passes indices of lines it renders;
  any other index would make the code throw. `[...cart]` copies only the
  array, so `quantity += 1` also mutates the line object the previous
  state shares. That aliasing is not modelled: lines are values.
- `CartPage.Cart.Checkout`: `setTransactionDetails` and `createTransaction`
  live in a store that is not part of this model, so what
  `createTransaction()` came back with is a parameter. Toasts,
  `sessionStorage`, `window.open` and the `isLoading` button state are left
  out.
- `handleRemoveItem` calls `removeItemFromCart` from a cart store that is
  not part of this model. `formatCurrency` depends on locale formatting.
  The `useEffect` that restores customer details from `sessionStorage` and
  all rendering are left out.
- frontend/src/components/PaymentHistory.jsx is not part of this model: it
  is presentation, with store calls, formatting and a selection toggle.
