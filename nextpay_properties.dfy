/** What placement and the callback promise, proved about NextpayFlow. */
module NextpayProperties {
  import opened NextpayValues
  import opened NextpayFlow

  // ---------------------------------------------------------------- placement

  /** An order outside the two processing states is refused and left as it was. */
  lemma PlaceOrderRejectsStatus(cfg: Config, o: OrderRecord, user: UserState, response: TokenResponse)
    requires !Placeable(o.status)
    ensures PlaceOrder(cfg, o, user, response) == Step(Threw(InvalidOrderStatus), o, None)
  {
  }

  /** A user who is unavailable or inactive stops placement before the gateway is called. */
  lemma PlaceOrderRejectsUser(cfg: Config, o: OrderRecord, user: UserState, response: TokenResponse)
    requires Placeable(o.status)
    requires !user.available || !user.active
    ensures PlaceOrder(cfg, o, user, response) == Step(Threw(UserNotAvailable), o, None)
  {
  }

  /** A subscription order gets past the first guard but is never placed:
      it raises, the gateway is not called and the order is not touched. */
  lemma SubscriptionNeverPlaced(cfg: Config, o: OrderRecord, user: UserState, response: TokenResponse)
    requires o.status == SubscriptionProcessing
    ensures var p := PlaceOrder(cfg, o, user, response);
            p.outcome.Threw? && p.order == o && p.attempted == None
    ensures user.available && user.active ==>
              PlaceOrder(cfg, o, user, response).outcome == Threw(StatusNotPaymentProcessing)
  {
  }

  /** Placement reaches the gateway exactly when the order is payment_processing
      and the user is available and active; the amount it asks for is the
      total, converted from rial to toman when the site currency is IRR. */
  lemma PlaceOrderAttemptsToken(cfg: Config, o: OrderRecord, user: UserState, response: TokenResponse)
    ensures var p := PlaceOrder(cfg, o, user, response);
            p.attempted.Some? <==> (o.status == PaymentProcessing && user.available && user.active)
    ensures var p := PlaceOrder(cfg, o, user, response);
            p.attempted.Some? ==>
              p.attempted.value == TokenRequest(cfg.apiKey, o.id, GatewayAmount(o.total, cfg.currency), CallbackUri(cfg.env, o.id))
    ensures var p := PlaceOrder(cfg, o, user, response);
            p.attempted.None? ==> p.outcome.Threw? && p.order == o
  {
  }

  /** A token (code -1) stores its transaction id, deletes nothing and
      redirects to the hosted payment page for that transaction. */
  lemma PlaceOrderStoresTransId(cfg: Config, o: OrderRecord, user: UserState, transId: string)
    requires o.status == PaymentProcessing && user.available && user.active
    ensures var p := PlaceOrder(cfg, o, user, TokenResult(TokenIssued, transId));
            p.order == o.(paymentId := transId) &&
            p.outcome == Url(PaymentUrl(transId))
  {
  }

  /** Any other code, or a failed call, deletes the order, leaves its
      payment_id alone and redirects to the error page. */
  lemma PlaceOrderDeletesOnFailure(cfg: Config, o: OrderRecord, user: UserState, response: TokenResponse)
    requires o.status == PaymentProcessing && user.available && user.active
    requires response.TokenFault? || response.code != TokenIssued
    ensures var p := PlaceOrder(cfg, o, user, response);
            p.order == o.(deleted := true) &&
            p.outcome == Url(ErrorUrl(cfg.env))
  {
  }

  /** Whatever the gateway replies, a placement that reaches it either stores
      the transaction id or deletes the order, never both, and changes
      nothing else. */
  lemma PlaceOrderStoresOrDeletes(cfg: Config, o: OrderRecord, user: UserState, response: TokenResponse)
    requires !o.deleted
    ensures var p := PlaceOrder(cfg, o, user, response);
            p.attempted.Some? ==>
              (!p.order.deleted && response.TokenResult? && p.order == o.(paymentId := response.transId)
                 && p.outcome == Url(PaymentUrl(response.transId))) ||
              (p.order.deleted && p.order == o.(deleted := true) && p.outcome == Url(ErrorUrl(cfg.env)))
    ensures var p := PlaceOrder(cfg, o, user, response);
            p.order.deleted <==> (p.attempted.Some? && (response.TokenFault? || response.code != TokenIssued))
  {
  }

  // ----------------------------------------------------------------- callback

  /** A missing or empty paymentId raises before anything else is looked at. */
  lemma CallbackRejectsEmptyId(cfg: Config, o: OrderRecord, paymentId: Option<string>, response: VerifyResponse)
    requires IsEmpty(paymentId)
    ensures Callback(cfg, o, paymentId, response) == Step(Threw(InvalidPaymentId), o, None)
  {
  }

  /** A paymentId other than the stored one raises; nothing is verified or changed. */
  lemma CallbackRejectsMismatch(cfg: Config, o: OrderRecord, paymentId: string, response: VerifyResponse)
    requires !IsEmpty(Some(paymentId)) && paymentId != o.paymentId
    ensures Callback(cfg, o, Some(paymentId), response) == Step(Threw(PaymentInfoMismatch), o, None)
  {
  }

  /** Verification is attempted exactly when the paymentId is non-empty, equals
      the stored payment_id and the order is not already finished; it then
      sends the stored transaction id and the converted total. */
  lemma CallbackVerifiesOnlyMatchingId(cfg: Config, o: OrderRecord, paymentId: Option<string>, response: VerifyResponse)
    ensures var c := Callback(cfg, o, paymentId, response);
            c.attempted.Some? <==> (!IsEmpty(paymentId) && paymentId.value == o.paymentId && !Finalized(o.status))
    ensures var c := Callback(cfg, o, paymentId, response);
            c.attempted.Some? ==>
              c.attempted.value == VerifyRequest(cfg.apiKey, o.id, GatewayAmount(o.total, cfg.currency), o.paymentId)
  {
  }

  /** An order that is already paid or subscribed: a matching callback
      succeeds at once, without verification and without any change. */
  lemma CallbackIdempotentWhenFinalized(cfg: Config, o: OrderRecord, response: VerifyResponse)
    requires Finalized(o.status) && !IsEmpty(Some(o.paymentId))
    ensures Callback(cfg, o, Some(o.paymentId), response) == Step(Bool(true), o, None)
  {
  }

  /** On an order that is already finished no callback changes anything or
      calls the gateway, whatever its paymentId. */
  lemma CallbackNeverChangesFinalized(cfg: Config, o: OrderRecord, paymentId: Option<string>, response: VerifyResponse)
    requires Finalized(o.status)
    ensures var c := Callback(cfg, o, paymentId, response);
            c.order == o && c.attempted == None && c.outcome != Bool(false)
  {
  }

  /** Code 0 finishes the order, marks it paid with the converted amount and
      returns true; no other field changes. */
  lemma CallbackMarksPaid(cfg: Config, o: OrderRecord, response: VerifyResponse)
    requires !IsEmpty(Some(o.paymentId)) && !Finalized(o.status)
    requires response == VerifyResult(VerifySuccess)
    ensures Callback(cfg, o, Some(o.paymentId), response).outcome == Bool(true)
    ensures Callback(cfg, o, Some(o.paymentId), response).order ==
              o.(status := Paid, paid := GatewayAmount(o.total, cfg.currency), finishCount := o.finishCount + 1)
  {
  }

  /** Any other code returns false; a failed verification call raises;
      either way the order is unchanged. */
  lemma CallbackLeavesUnverified(cfg: Config, o: OrderRecord, response: VerifyResponse)
    requires !IsEmpty(Some(o.paymentId)) && !Finalized(o.status)
    requires response != VerifyResult(VerifySuccess)
    ensures var c := Callback(cfg, o, Some(o.paymentId), response);
            c.order == o &&
            c.outcome == (if response.VerifyFault? then Threw(VerificationFault) else Bool(false))
  {
  }

  /** A callback changes an order only by marking it paid, and never touches
      its id, total or payment_id. */
  lemma CallbackChangesOnlyByPaying(cfg: Config, o: OrderRecord, paymentId: Option<string>, response: VerifyResponse)
    ensures var c := Callback(cfg, o, paymentId, response);
            c.order == o ||
            (c.order == o.(status := Paid, paid := GatewayAmount(o.total, cfg.currency), finishCount := o.finishCount + 1)
               && paymentId == Some(o.paymentId) && response == VerifyResult(VerifySuccess) && c.outcome == Bool(true))
  {
  }

  // -------------------------------------------------- series of callbacks

  /** Once an order is paid or subscribed, no series of callbacks changes it
      or sends a single verification. */
  lemma {:induction false} FinalizedIsStable(cfg: Config, o: OrderRecord, calls: seq<CallbackCall>)
    requires Finalized(o.status)
    ensures RunCallbacks(cfg, o, calls) == Trace(o, [])
  {
    if calls != [] {
      CallbackNeverChangesFinalized(cfg, o, calls[0].paymentId, calls[0].response);
      FinalizedIsStable(cfg, o, calls[1..]);
    }
  }

  /** Every verification a series of callbacks sends carries the stored
      transaction id, the order's id and its converted total; the series never
      changes the order's id, total or payment_id. */
  lemma {:induction false} VerificationsUseStoredId(cfg: Config, o: OrderRecord, calls: seq<CallbackCall>)
    decreases |calls|
    ensures var r := RunCallbacks(cfg, o, calls);
            r.order.id == o.id && r.order.total == o.total && r.order.paymentId == o.paymentId
    ensures forall v :: v in RunCallbacks(cfg, o, calls).verifications ==>
              v == VerifyRequest(cfg.apiKey, o.id, GatewayAmount(o.total, cfg.currency), o.paymentId)
  {
    if calls != [] {
      var step := Callback(cfg, o, calls[0].paymentId, calls[0].response);
      CallbackVerifiesOnlyMatchingId(cfg, o, calls[0].paymentId, calls[0].response);
      CallbackChangesOnlyByPaying(cfg, o, calls[0].paymentId, calls[0].response);
      VerificationsUseStoredId(cfg, step.order, calls[1..]);
    }
  }

  /** A series of callbacks leaves the order as it was, or marks it paid
      exactly once; the latter only when one of them carried the stored
      payment_id and the gateway verified it with code 0. */
  lemma {:induction false} PaidOnlyThroughVerification(cfg: Config, o: OrderRecord, calls: seq<CallbackCall>)
    ensures var r := RunCallbacks(cfg, o, calls).order;
            r == o ||
            (r == o.(status := Paid, paid := GatewayAmount(o.total, cfg.currency), finishCount := o.finishCount + 1)
               && exists i :: 0 <= i < |calls| &&
                    calls[i] == CallbackCall(Some(o.paymentId), VerifyResult(VerifySuccess)))
  {
    if calls != [] {
      var step := Callback(cfg, o, calls[0].paymentId, calls[0].response);
      CallbackChangesOnlyByPaying(cfg, o, calls[0].paymentId, calls[0].response);
      if step.order == o {
        PaidOnlyThroughVerification(cfg, o, calls[1..]);
        var r := RunCallbacks(cfg, o, calls[1..]).order;
        if r != o {
          var j :| 0 <= j < |calls[1..]| &&
                   calls[1..][j] == CallbackCall(Some(o.paymentId), VerifyResult(VerifySuccess));
          assert calls[j + 1] == calls[1..][j];
        }
      } else {
        FinalizedIsStable(cfg, step.order, calls[1..]);
        assert calls[0] == CallbackCall(Some(o.paymentId), VerifyResult(VerifySuccess));
      }
    }
  }

  /** However many callbacks arrive, finishProcessing runs at most once. */
  lemma FinishedAtMostOnce(cfg: Config, o: OrderRecord, calls: seq<CallbackCall>)
    ensures RunCallbacks(cfg, o, calls).order.finishCount <= o.finishCount + 1
  {
    PaidOnlyThroughVerification(cfg, o, calls);
  }

  // ----------------------------------------------- placement, then callbacks

  /** After a successful placement, every verification any later series of
      callbacks sends uses the transaction id the gateway issued and the very
      order id and amount the token was requested for. */
  lemma PlacedTransactionIsVerified(cfg: Config, o: OrderRecord, user: UserState, transId: string, calls: seq<CallbackCall>)
    requires o.status == PaymentProcessing && user.available && user.active
    ensures var p := PlaceOrder(cfg, o, user, TokenResult(TokenIssued, transId));
            p.attempted.Some? &&
            forall v :: v in RunCallbacks(cfg, p.order, calls).verifications ==>
              v.transId == transId && v.orderId == p.attempted.value.orderId && v.amount == p.attempted.value.amount
  {
    var p := PlaceOrder(cfg, o, user, TokenResult(TokenIssued, transId));
    VerificationsUseStoredId(cfg, p.order, calls);
  }

  /** After a successful placement with a non-empty transaction id, the
      callback carrying that id and verified with code 0 marks the order paid. */
  lemma PlacedOrderCanBePaid(cfg: Config, o: OrderRecord, user: UserState, transId: string)
    requires o.status == PaymentProcessing && user.available && user.active
    requires !IsEmpty(Some(transId))
    ensures var p := PlaceOrder(cfg, o, user, TokenResult(TokenIssued, transId));
            var c := Callback(cfg, p.order, Some(transId), VerifyResult(VerifySuccess));
            c.outcome == Bool(true) && c.order.status == Paid &&
            c.order.paid == GatewayAmount(o.total, cfg.currency) && c.order.paymentId == transId
  {
  }
}
