/** The gateway's operations as functions of the order's state before the
    call: what each returns, the order's state after it, and the remote call
    it attempts (with its arguments), if any. The methods of Payments.Nextpay
    are proved to agree with these; NextpayProperties proves what they promise. */
module NextpayFlow {
  import opened NextpayValues

  /** The effect of one operation on an order that is set on the gateway. */
  datatype Step<R> = Step(outcome: Outcome, order: OrderRecord, attempted: Option<R>)

  /** One-time placement: only payment_processing orders reach the gateway;
      a token (code -1) stores its transaction id on the order, any other
      code or a failed call deletes the order. */
  function PlaceOnetimeOrder(cfg: Config, o: OrderRecord, response: TokenResponse): (step: Step<TokenRequest>) {
    if o.status != PaymentProcessing then
      Step(Threw(StatusNotPaymentProcessing), o, None)
    else
      var request := TokenRequest(cfg.apiKey, o.id, GatewayAmount(o.total, cfg.currency), CallbackUri(cfg.env, o.id));
      match response
      case TokenResult(code, transId) =>
        if code == TokenIssued then
          Step(Url(PaymentUrl(transId)), o.(paymentId := transId), Some(request))
        else
          Step(Url(ErrorUrl(cfg.env)), o.(deleted := true), Some(request))
      case TokenFault =>
        Step(Url(ErrorUrl(cfg.env)), o.(deleted := true), Some(request))
  }

  /** Placement: the status and user guards, then one-time placement. */
  function PlaceOrder(cfg: Config, o: OrderRecord, user: UserState, response: TokenResponse): (step: Step<TokenRequest>) {
    if !Placeable(o.status) then
      Step(Threw(InvalidOrderStatus), o, None)
    else if !user.available || !user.active then
      Step(Threw(UserNotAvailable), o, None)
    else
      PlaceOnetimeOrder(cfg, o, response)
  }

  /** Callback: the paymentId guards, the already-finished short cut, then
      verification; code 0 finishes the order and marks it paid. */
  function Callback(cfg: Config, o: OrderRecord, paymentId: Option<string>, response: VerifyResponse): (step: Step<VerifyRequest>) {
    if IsEmpty(paymentId) then
      Step(Threw(InvalidPaymentId), o, None)
    else if o.paymentId != paymentId.value then
      Step(Threw(PaymentInfoMismatch), o, None)
    else if Finalized(o.status) then
      Step(Bool(true), o, None)
    else
      var amount := GatewayAmount(o.total, cfg.currency);
      var request := VerifyRequest(cfg.apiKey, o.id, amount, paymentId.value);
      match response
      case VerifyResult(code) =>
        if code == VerifySuccess then
          Step(Bool(true), o.(finishCount := o.finishCount + 1, status := Paid, paid := amount), Some(request))
        else
          Step(Bool(false), o, Some(request))
      case VerifyFault =>
        Step(Threw(VerificationFault), o, Some(request))
  }

  /** One inbound callback request: its paymentId parameter and the reply
      the verification call would give. */
  datatype CallbackCall = CallbackCall(paymentId: Option<string>, response: VerifyResponse)

  /** The order after a series of callback requests, handled one after the
      other, and every verification they sent, in order. */
  datatype Trace = Trace(order: OrderRecord, verifications: seq<VerifyRequest>)

  function RunCallbacks(cfg: Config, o: OrderRecord, calls: seq<CallbackCall>): (trace: Trace)
    decreases |calls|
  {
    if calls == [] then Trace(o, [])
    else
      var step := Callback(cfg, o, calls[0].paymentId, calls[0].response);
      var rest := RunCallbacks(cfg, step.order, calls[1..]);
      var sent := if step.attempted.Some? then [step.attempted.value] else [];
      Trace(rest.order, sent + rest.verifications)
  }
}
