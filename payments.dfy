/** The Nextpay gateway class and the order object it works on. The order is
    changed in place; each gateway method is proved to leave the order, return
    the outcome and attempt the remote call exactly as NextpayFlow describes. */
module Payments {
  import opened NextpayValues
  import NextpayFlow

  /** The fields of an order that the gateway reads and writes. */
  class Order {
    const id: string
    var status: string
    var total: real
    var paymentId: string
    var paid: real
    var deleted: bool
    var finishCount: nat

    /** The order's persisted state as a value. */
    function Record(): (r: OrderRecord)
      reads this
    {
      OrderRecord(id, status, total, paymentId, paid, deleted, finishCount)
    }

    constructor (id: string, status: string, total: real, paymentId: string, paid: real)
      ensures Record() == OrderRecord(id, status, total, paymentId, paid, false, 0)
    {
      this.id := id;
      this.status := status;
      this.total := total;
      this.paymentId := paymentId;
      this.paid := paid;
      deleted := false;
      finishCount := 0;
    }

    /** Removes the order from the store. */
    method Delete()
      modifies this
      ensures Record() == old(Record()).(deleted := true)
    {
      deleted := true;
    }

    /** The order subsystem's hook for an order whose payment has completed. */
    method FinishProcessing()
      modifies this
      ensures Record() == old(Record()).(finishCount := old(finishCount) + 1)
    {
      finishCount := finishCount + 1;
    }
  }

  /** The gateway. `order` and `user` stand for the order and user set on it
      before placement or callback. */
  class Nextpay {
    const config: Config
    var order: Order?
    var user: UserState

    /** Takes the API key from the integrations store and the currency from
        the site settings. */
    constructor (apiKey: string, currency: string, env: Environment)
      ensures config == Config(apiKey, currency, env)
      ensures order == null && user == UserState(false, false)
    {
      config := Config(apiKey, currency, env);
      order := null;
      user := UserState(false, false);
    }

    /** Places the current order and returns the URL to redirect the buyer to.
        `response` is the gateway's reply to the token request, if one is made. */
    method PlaceOrder(response: TokenResponse) returns (outcome: Outcome, attempted: Option<TokenRequest>)
      modifies order
      ensures old(order) == null ==> outcome == Threw(OrderNotSet) && attempted == None
      ensures order != null ==>
                var step := NextpayFlow.PlaceOrder(config, old(order.Record()), user, response);
                outcome == step.outcome && order.Record() == step.order && attempted == step.attempted
    {
      if order == null {
        return Threw(OrderNotSet), None;
      }
      if !(order.status == PaymentProcessing || order.status == SubscriptionProcessing) {
        return Threw(InvalidOrderStatus), None;
      }
      if !user.available || !user.active {
        return Threw(UserNotAvailable), None;
      }
      outcome, attempted := PlaceOnetimeOrder(response);
    }

    /** Requests a token for a payment_processing order; stores the
        transaction id on success, deletes the order otherwise. */
    method PlaceOnetimeOrder(response: TokenResponse) returns (outcome: Outcome, attempted: Option<TokenRequest>)
      modifies order
      ensures old(order) == null ==> outcome == Threw(OrderNotSet) && attempted == None
      ensures order != null ==>
                var step := NextpayFlow.PlaceOnetimeOrder(config, old(order.Record()), response);
                outcome == step.outcome && order.Record() == step.order && attempted == step.attempted
    {
      if order == null {
        return Threw(OrderNotSet), None;
      }
      if order.status != PaymentProcessing {
        return Threw(StatusNotPaymentProcessing), None;
      }
      var amount := order.total;
      if config.currency == Rial {
        amount := amount / 10.0;
      }
      var callbackUri := CallbackUri(config.env, order.id);
      attempted := Some(TokenRequest(config.apiKey, order.id, amount, callbackUri));
      match response {
        case TokenResult(code, transId) =>
          if code == TokenIssued {
            order.paymentId := transId;
            outcome := Url(PaymentUrl(transId));
          } else {
            order.Delete();
            outcome := Url(ErrorUrl(config.env));
          }
        case TokenFault =>
          order.Delete();
          outcome := Url(ErrorUrl(config.env));
      }
    }

    /** Handles the buyer's return from the payment page. `paymentId` is the
        request parameter; `response` is the gateway's reply to the
        verification request, if one is made. */
    method Callback(paymentId: Option<string>, response: VerifyResponse) returns (outcome: Outcome, attempted: Option<VerifyRequest>)
      modifies order
      ensures old(order) == null ==>
                outcome == (if IsEmpty(paymentId) then Threw(InvalidPaymentId) else Threw(OrderNotSet)) &&
                attempted == None
      ensures order != null ==>
                var step := NextpayFlow.Callback(config, old(order.Record()), paymentId, response);
                outcome == step.outcome && order.Record() == step.order && attempted == step.attempted
    {
      if paymentId.None? || paymentId.value == "" || paymentId.value == "0" {
        return Threw(InvalidPaymentId), None;
      }
      var id := paymentId.value;
      if order == null {
        return Threw(OrderNotSet), None;
      }
      if order.paymentId != id {
        return Threw(PaymentInfoMismatch), None;
      }
      if order.status == Paid || order.status == Subscribed {
        return Bool(true), None;
      }
      var amount := order.total;
      if config.currency == Rial {
        amount := amount / 10.0;
      }
      attempted := Some(VerifyRequest(config.apiKey, order.id, amount, id));
      match response {
        case VerifyResult(code) =>
          if code == VerifySuccess {
            order.FinishProcessing();
            order.status := Paid;
            order.paid := amount;
            outcome := Bool(true);
          } else {
            outcome := Bool(false);
          }
        case VerifyFault =>
          outcome := Threw(VerificationFault);
      }
    }
  }
}
