# Nextpay payment gateway — Dafny model

This project models the Nextpay gateway class of a PHP e-commerce platform (`Payments\Nextpay`).
The class covers two steps of one order's life:

- **Placement** (`placeOrder`, then `placeOnetimeOrder`). It checks the order's status and the
  user. It converts the order total to the gateway's unit: IRR totals are divided by 10, so rial
  becomes toman. It asks the gateway for a token. On code -1 it stores the returned transaction id
  as the order's `payment_id` and returns the hosted payment page URL. On any other code, or when
  the call raises, it deletes the order and returns the application's `/checkout/error` URL.
- **Callback** (`callback`). It checks the inbound `paymentId` parameter: it must be non-empty
  in PHP's `empty()` sense and equal to the stored `payment_id`. It short-cuts with `true` when
  the order is already `paid` or `subscribed`. Otherwise it asks the gateway to verify the payment
  for the converted amount. On code 0 it runs the order's finish hook, sets `status` to `paid` and
  sets `paid` to the converted amount, so the `paid` field holds the gateway-unit (toman) figure.
  Any other code returns `false`.

The project has four modules:

- `NextpayValues` (`nextpay_values.dfy`) holds the datatypes: the order record, the user, the
  configuration, the requests and replies of the two remote calls, and the outcome
  `Url | Threw | Bool`. It also holds the helpers: the amount conversion, the three URLs and
  PHP's `empty()`.
- `NextpayFlow` (`nextpay_flow.dfy`) states each operation as a function of the order's state
  before the call. The function gives the outcome, the order's state afterwards and the remote
  call attempted, with its arguments. `RunCallbacks` runs a series of callback requests one
  after the other.
- `NextpayProperties` (`nextpay_properties.dfy`) proves the promised properties about those
  functions. These cover the status and user guards, the id-match guard before verification,
  delete-on-failure versus store-on-success, and idempotence once an order is finished. Over
  any series of callbacks it also proves three things. The order is marked paid at most once.
  It is marked paid only by a verification of the stored transaction id. Every verification
  uses the id and amount of the original token request.
- `Payments` (`payments.dfy`) holds the classes `Order` and `Nextpay`. The gateway's methods
  change the order object in place, as the PHP code does: they set fields, call `Delete` and
  call `FinishProcessing`, and they reassign a local `amount`. Each method is proved to agree
  exactly with its `NextpayFlow` function.

The two remote calls are not executed. Each method takes the gateway's reply as a parameter.
It returns `attempted`, the request it calls the gateway with, or `None` when it does not call
the gateway. A failed call (`TokenFault`, `VerifyFault`) still counts as attempted, even when the
failure comes from creating the SOAP client before anything is sent. This makes
"no verification is attempted" and "the amount sent" statable.

A `subscription_processing` order passes `placeOrder`'s status guard, but `placeOnetimeOrder`
then raises "Order status must be payment_processing" (app/lib/Payments/Nextpay.php:66-68).
The model follows the code: such an order raises, the gateway is not called and the order is
untouched (`SubscriptionNeverPlaced`).

## Model

| member | source | states |
|---|---|---|
| `NextpayValues.GatewayAmount` | app/lib/Payments/Nextpay.php:71-75 | with currency IRR the amount sent is a tenth of the total (amount × 10 = total); with any other currency it is the total itself |
| `NextpayValues.PaymentUrl` | app/lib/Payments/Nextpay.php:96 | the hosted payment URL is the Nextpay payment base followed by exactly the transaction id, so the id can be read back from the URL's tail |
| `NextpayValues.CallbackUri` | app/lib/Payments/Nextpay.php:77 | the callback URI is APPURL, `/checkout/`, the order id and a dot, followed by exactly the digest of the order id concatenated with the salt |
| `NextpayValues.ErrorUrl` | app/lib/Payments/Nextpay.php:99 | the error URL is APPURL followed by `/checkout/error` |
| `NextpayProperties.PlaceOrderRejectsStatus` | app/lib/Payments/Nextpay.php:40-42 | an order whose status is neither payment_processing nor subscription_processing raises "invalid order status"; the order is unchanged and no token is requested |
| `NextpayProperties.PlaceOrderRejectsUser` | app/lib/Payments/Nextpay.php:44-47 | past the status guard, a user who is unavailable or inactive makes placement raise; the order is neither changed nor deleted and no token is requested |
| `NextpayProperties.SubscriptionNeverPlaced` | app/lib/Payments/Nextpay.php:66-68 | a subscription_processing order always makes placement raise, with "must be payment_processing" when the user is fine; it never gets a URL, a token request or a change |
| `NextpayProperties.PlaceOrderAttemptsToken` | app/lib/Payments/Nextpay.php:71-90 | a token is requested if and only if the order is payment_processing and the user is available and active; the request carries the API key, the order id, the converted amount and the signed callback URI; without a request the call raised and the order is unchanged |
| `NextpayProperties.PlaceOrderStoresTransId` | app/lib/Payments/Nextpay.php:92-96 | on code -1 the order's payment_id becomes the transaction id, nothing else changes (not deleted) and the result is the payment page URL for that id |
| `NextpayProperties.PlaceOrderDeletesOnFailure` | app/lib/Payments/Nextpay.php:97-104 | on any other code, or when the token call raises, the order is deleted, payment_id and every other field are unchanged, and the result is the error URL |
| `NextpayProperties.PlaceOrderStoresOrDeletes` | app/lib/Payments/Nextpay.php:79-104 | a placement that reaches the gateway either stores the id and returns the payment URL or deletes the order and returns the error URL, never both; the order ends deleted exactly when the gateway was asked and did not issue a token |
| `NextpayProperties.CallbackRejectsEmptyId` | app/lib/Payments/Nextpay.php:122-124 | an absent, empty or "0" paymentId raises before anything else; no verification, no change |
| `NextpayProperties.CallbackRejectsMismatch` | app/lib/Payments/Nextpay.php:133-135 | a non-empty paymentId that differs from the stored payment_id raises; no verification, no change |
| `NextpayProperties.CallbackVerifiesOnlyMatchingId` | app/lib/Payments/Nextpay.php:122-158 | verification is attempted if and only if paymentId is non-empty, equals the stored payment_id and the order is not paid or subscribed; it sends the API key, the order id, the converted total and the stored id |
| `NextpayProperties.CallbackIdempotentWhenFinalized` | app/lib/Payments/Nextpay.php:137-139 | on a paid or subscribed order a matching callback returns true with no verification and no change |
| `NextpayProperties.CallbackNeverChangesFinalized` | app/lib/Payments/Nextpay.php:122-139 | on a paid or subscribed order no callback, matching or not, changes the order, calls the gateway or returns false |
| `NextpayProperties.CallbackMarksPaid` | app/lib/Payments/Nextpay.php:160-169 | on code 0 the order is finished once, status becomes paid, paid becomes the converted amount, no other field changes, and the result is true |
| `NextpayProperties.CallbackLeavesUnverified` | app/lib/Payments/Nextpay.php:149-172 | on any other code the result is false, and when the verification call raises the callback raises; in both cases the order is unchanged |
| `NextpayProperties.CallbackChangesOnlyByPaying` | app/lib/Payments/Nextpay.php:116-173 | a callback either leaves the order unchanged or marks it paid with the converted amount, the latter only for the stored id and code 0; id, total and payment_id never change |
| `NextpayProperties.FinalizedIsStable` | app/lib/Payments/Nextpay.php:137-139 | once an order is paid or subscribed, any series of callbacks leaves it unchanged and sends no verification |
| `NextpayProperties.VerificationsUseStoredId` | app/lib/Payments/Nextpay.php:133-158 | every verification sent by any series of callbacks carries the stored payment_id, the order id and the converted total, and the series never changes those fields |
| `NextpayProperties.PaidOnlyThroughVerification` | app/lib/Payments/Nextpay.php:133-170 | after any series of callbacks the order is either unchanged or marked paid exactly once, and the latter only if one callback carried the stored payment_id and was verified with code 0 |
| `NextpayProperties.FinishedAtMostOnce` | app/lib/Payments/Nextpay.php:160-169 | however many callbacks arrive, the finish hook runs at most once |
| `NextpayProperties.PlacedTransactionIsVerified` | app/lib/Payments/Nextpay.php:94-157 | after a successful placement, every later verification uses the transaction id the gateway issued and the same order id and amount the token was requested for |
| `NextpayProperties.PlacedOrderCanBePaid` | app/lib/Payments/Nextpay.php:94-169 | after a successful placement with a non-empty transaction id, the callback with that id and code 0 returns true and marks the order paid with the converted total |
| `Payments.Order.Delete` | app/lib/Payments/Nextpay.php:98 | deleting an order marks it deleted and changes no other field |
| `Payments.Order.FinishProcessing` | app/lib/Payments/Nextpay.php:163 | the finish hook is counted once per call and changes no other field |
| `Payments.Nextpay.constructor` | app/lib/Payments/Nextpay.php:19-24 | the gateway keeps the API key from the integrations store and the currency from the site settings |
| `Payments.Nextpay.PlaceOrder` | app/lib/Payments/Nextpay.php:33-51 | with no order set it raises and attempts nothing; otherwise the outcome, the new state of the order and the attempted token request are exactly those of `NextpayFlow.PlaceOrder` on the old state |
| `Payments.Nextpay.PlaceOnetimeOrder` | app/lib/Payments/Nextpay.php:59-107 | with no order set it raises; otherwise it changes the order in place exactly as `NextpayFlow.PlaceOnetimeOrder` says, including the in-place amount conversion |
| `Payments.Nextpay.Callback` | app/lib/Payments/Nextpay.php:116-173 | an empty paymentId raises even with no order set; otherwise with no order it raises; with an order, outcome, new order state and attempted verification are exactly those of `NextpayFlow.Callback` |

## Left out

- The SOAP calls `TokenGenerator` and `PaymentVerification` and their WSDL endpoints are network I/O (app/lib/Payments/Nextpay.php:81-90, 149-158). Their replies are method parameters. The requests they would send are returned as `attempted`.
- `sha1`, `NP_SALT` and `APPURL` are application constants and a foreign hash. They are fields of `Environment`, and `sha1` is an uninterpreted function parameter. Only the shape of the callback URI is stated (`CallbackUri`).
- The `GeneralData` lookups in the constructor read an external key-value store. The API key and currency are constructor parameters.
- Order persistence (`update()`) is not modelled separately: the `Order` fields are the persisted state. `delete()` is reduced to a flag. `finishProcessing()` is reduced to a call counter, `finishCount`. `User::isAvailable` and `is_active` are reduced to two booleans.
- An exception raised by `update()` inside the placement `try` block would also lead to deletion. This is not modelled, because `update()` is part of the external order model.
- A gateway with no user set is modelled as holding an unavailable, inactive user, so placement raises `UserNotAvailable`. In the source, `getUser()` would then return null and line 45 would fail with a PHP error instead.
- `getOrder`, `getUser` and their setters belong to the parent gateway class. That class is not part of this model. The `order` and `user` fields of `Nextpay` stand for them.
- The translated exception messages are not modelled; the `Error` datatype records only which guard raised.
- Two concurrent callbacks on one order can race. The code has no locking, so the model treats a series of callbacks as strictly sequential.
- The settings form `app/views/fragments/settings/nextpay.fragment.php` is presentation only.
- PHP's loose comparison `!=` between the stored and inbound payment ids is modelled as exact string equality. The two differ only when both strings are numeric, for example "100" and "1e2".
- The absent `payment_id` of an order that was never placed is modelled as the empty string. `empty()` already rejects an empty inbound id, so both behave the same.
- The amount is a `real`, so `total / 10` is exact. PHP produces a float when the total is not a multiple of ten; floating-point rounding is not modelled.
- Only the `paymentId` request parameter is modelled, as an optional string. `empty()` on non-string values (arrays, integers) is not modelled.
