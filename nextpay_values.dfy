/** Values shared by the Nextpay gateway model: the order record, the user,
    the configuration, the two remote calls' requests and responses, the
    outcome of an operation, and the small pure helpers (amount conversion,
    URL building, PHP's empty()). */
module NextpayValues {

  datatype Option<+T> = None | Some(value: T)

  /** Why an operation raised an exception instead of returning. */
  datatype Error =
    | OrderNotSet                 // no order was set on the gateway
    | InvalidOrderStatus          // placement: status is not one of the two processing states
    | UserNotAvailable            // placement: the user is not available or not active
    | StatusNotPaymentProcessing  // one-time placement: status is not payment_processing
    | InvalidPaymentId            // callback: paymentId is missing or empty
    | PaymentInfoMismatch         // callback: paymentId differs from the stored payment_id
    | VerificationFault           // callback: the verification call itself raised

  /** What an operation hands back: a redirect URL, a raised exception, or a boolean. */
  datatype Outcome = Url(url: string) | Threw(error: Error) | Bool(b: bool)

  /** The current user, as far as placement looks at it. */
  datatype UserState = UserState(available: bool, active: bool)

  /** Application-wide constants: the base URL (APPURL), the secret salt
      (NP_SALT) and the hex digest function (sha1), which is left uninterpreted. */
  datatype Environment = Environment(appUrl: string, salt: string, sha1: string -> string)

  /** The Nextpay API key (from the integrations store), the site currency
      (from the site settings) and the environment. */
  datatype Config = Config(apiKey: string, currency: string, env: Environment)

  /** The persisted state of an order. `deleted` records a call to delete();
      `finishCount` counts the calls to finishProcessing(). */
  datatype OrderRecord = OrderRecord(
    id: string,
    status: string,
    total: real,
    paymentId: string,
    paid: real,
    deleted: bool,
    finishCount: nat)

  /** Arguments of the token-generation call and its possible replies. */
  datatype TokenRequest = TokenRequest(apiKey: string, orderId: string, amount: real, callbackUri: string)
  datatype TokenResponse = TokenResult(code: int, transId: string) | TokenFault

  /** Arguments of the payment-verification call and its possible replies. */
  datatype VerifyRequest = VerifyRequest(apiKey: string, orderId: string, amount: real, transId: string)
  datatype VerifyResponse = VerifyResult(code: int) | VerifyFault

  const PaymentProcessing: string := "payment_processing"
  const SubscriptionProcessing: string := "subscription_processing"
  const Paid: string := "paid"
  const Subscribed: string := "subscribed"

  /** The currency whose amounts the gateway expects in tenths (rial to toman). */
  const Rial: string := "IRR"

  /** Gateway result codes: a token was issued / a payment was verified. */
  const TokenIssued: int := -1
  const VerifySuccess: int := 0

  const PaymentPageBase: string := "https://api.nextpay.org/gateway/payment/"
  const ErrorPath: string := "/checkout/error"

  /** Statuses for which placement is attempted at all. */
  predicate Placeable(status: string) {
    status == PaymentProcessing || status == SubscriptionProcessing
  }

  /** Statuses for which payment processing has already finished. */
  predicate Finalized(status: string) {
    status == Paid || status == Subscribed
  }

  /** PHP's empty() on a request parameter that is either absent or a string:
      an absent parameter, the empty string and the string "0" are all empty. */
  predicate IsEmpty(p: Option<string>) {
    p.None? || p.value == "" || p.value == "0"
  }

  /** The amount the gateway is asked for: site totals in rial are sent in
      toman, every other currency unchanged. */
  function GatewayAmount(total: real, currency: string): (amount: real)
    ensures currency == Rial ==> amount * 10.0 == total
    ensures currency != Rial ==> amount == total
  {
    if currency == Rial then total / 10.0 else total
  }

  /** The callback address handed to the gateway: the order id signed with a
      digest of the id and the salt, so the callback needs no session. */
  function CallbackUri(env: Environment, orderId: string): (uri: string)
    ensures var signed := env.appUrl + "/checkout/" + orderId + ".";
            |uri| == |signed| + |env.sha1(orderId + env.salt)| &&
            uri[..|signed|] == signed &&
            uri[|signed|..] == env.sha1(orderId + env.salt)
  {
    env.appUrl + "/checkout/" + orderId + "." + env.sha1(orderId + env.salt)
  }

  /** The gateway's hosted payment page for a transaction. */
  function PaymentUrl(transId: string): (url: string)
    ensures |url| == |PaymentPageBase| + |transId|
    ensures url[..|PaymentPageBase|] == PaymentPageBase
    ensures url[|PaymentPageBase|..] == transId
  {
    PaymentPageBase + transId
  }

  /** The application's checkout error page. */
  function ErrorUrl(env: Environment): (url: string)
    ensures |url| == |env.appUrl| + |ErrorPath|
    ensures url[..|env.appUrl|] == env.appUrl
    ensures url[|env.appUrl|..] == ErrorPath
  {
    env.appUrl + ErrorPath
  }
}
