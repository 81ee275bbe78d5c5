/**
 * The original, monolithic `processPayment` and `refundPayment`, written
 * as the if-chains of the first version, and the proof that the refactored
 * processor computes the same outcomes and effects.
 */
module LegacyPayment {
  import opened Common
  import opened PaymentModel
  import PaymentProcessor

  /** The first version has no configuration: its rate is fixed. */
  const LegacyConversionRate: real := 1.2

  /** The validation if-chain: `None` when the request may proceed, else the error thrown. */
  function LegacyValidationError(methodName: string, md: Metadata): (r: Option<PaymentError>)
    ensures r.None? <==>
      || (methodName == "credit_card" && Present(md, "cardNumber") && Present(md, "expiry"))
      || (methodName == "paypal" && Present(md, "paypalAccount"))
    ensures r.Some? ==> r.value in {UnsupportedMethod, InvalidCardMetadata, InvalidPayPalMetadata}
  {
    if methodName == "credit_card" then
      if !Present(md, "cardNumber") || !Present(md, "expiry") then Some(InvalidCardMetadata) else None
    else if methodName == "paypal" then
      if !Present(md, "paypalAccount") then Some(InvalidPayPalMetadata) else None
    else Some(UnsupportedMethod)
  }

  /** The refactored validator accepts the same requests and throws the same errors. */
  lemma ValidationAgrees(methodName: string, md: Metadata)
    ensures LegacyValidationError(methodName, md).None? <==>
            PaymentProcessor.Validate(methodName, md).Success?
    ensures LegacyValidationError(methodName, md).Some? ==>
            PaymentProcessor.Validate(methodName, md) == Failure(LegacyValidationError(methodName, md).value)
  {
  }

  /** The fraud branch of the first version, with its two helper checks. */
  function LegacyFraudCheck(level: int, userId: string, amount: real): (risk: seq<Event>)
    ensures risk != [] <==> level > 0
    ensures |risk| <= 1
    ensures forall e <- risk ::
      && e.RiskAssessed?
      && e.userId == userId
      && e.amount == amount
      && InBand(amount, e.tier)
      && (e.kind == Light <==> amount < 100.0)
  {
    if level > 0 then
      if amount < 100.0 then
        [RiskAssessed(Light, if amount < 10.0 then VeryLowRisk else LowRisk, userId, amount)]
      else
        [RiskAssessed(Heavy, if amount < 1000.0 then MediumRisk else HighRisk, userId, amount)]
    else []
  }

  /** The discount if-chain: an absent, empty or unknown code leaves the amount as it is. */
  function LegacyDiscount(amount: real, code: Option<string>): (r: real)
    ensures code.None? ==> r == amount
    ensures code.Some? && code.value !in {"SUMMER20", "WELCOME10"} ==> r == amount
    ensures code == Some("SUMMER20") ==> 5.0 * r == 4.0 * amount
    ensures code == Some("WELCOME10") ==> r + 10.0 == amount
  {
    if code.Some? && code.value != "" then
      if code.value == "SUMMER20" then amount * 0.8
      else if code.value == "WELCOME10" then amount - 10.0
      else amount
    else amount
  }

  /**
   * The first version's steps after its validation chain: fraud branch,
   * discount chain, conversion, record, dispatch by method name, and the
   * email and analytics once the client accepts.
   */
  function LegacyCharge(req: PaymentRequest, now: Instant, post: Gateway): (o: Run<Transaction>)
    // the rate 1.2 is applied to every currency but USD, after the discount
    ensures o.result.Success? ==>
      o.result.value.finalAmount ==
        if req.currency == "USD" then LegacyDiscount(req.amount, req.discountCode)
        else LegacyDiscount(req.amount, req.discountCode) * LegacyConversionRate
    // the gateway error is rethrown as it was thrown, before email and analytics
    ensures o.result.Failure? ==> o.result.error.GatewayFailure? && !Notified(o.trace)
    ensures o.result.Failure? ==>
      && |o.trace| > 0
      && o.trace[|o.trace| - 1].Posted?
      && post(o.trace[|o.trace| - 1].endpoint, o.trace[|o.trace| - 1].body) == Some(o.result.error.cause)
    // the effects follow the pipeline order; a risk event exactly when one is asked for
    ensures InStageOrder(o.trace)
    ensures (|o.trace| > 0 && o.trace[0].RiskAssessed?) <==> req.fraudLevel > 0
    ensures |o.trace| > 0 && o.trace[0].RiskAssessed? ==>
      o.trace[0] == LegacyFraudCheck(req.fraudLevel, req.userId, req.amount)[0]
    // a known method posts its record to `/payments/credit` or `/payments/paypal`;
    // success exactly when the client accepts, with email and analytics after it;
    // otherwise the client's error, that post being the last effect
    ensures req.paymentMethod == "credit_card" || req.paymentMethod == "paypal" ==>
      var endpoint := if req.paymentMethod == "credit_card" then "/payments/credit" else "/payments/paypal";
      var discounted := LegacyDiscount(req.amount, req.discountCode);
      var finalAmount := if req.currency == "USD" then discounted else discounted * LegacyConversionRate;
      var tx := Transaction(
        req.userId, req.amount, finalAmount, req.currency, req.paymentMethod,
        req.metadata, req.discountCode, req.fraudLevel, now);
      && Posted(endpoint, TransactionBody(tx)) in o.trace
      && (o.result.Success? <==> post(endpoint, TransactionBody(tx)).None?)
      && (o.result.Success? ==>
            && o.result.value == tx
            && EmailSent(req.userId, finalAmount, req.currency) in o.trace
            && AnalyticsLogged(req.userId, finalAmount, req.currency, req.paymentMethod) in o.trace)
      && (o.result.Failure? ==>
            && o.trace[|o.trace| - 1] == Posted(endpoint, TransactionBody(tx))
            && post(endpoint, TransactionBody(tx)) == Some(o.result.error.cause))
  {
    var risk := LegacyFraudCheck(req.fraudLevel, req.userId, req.amount);
    var discounted := LegacyDiscount(req.amount, req.discountCode);
    var finalAmount := if req.currency != "USD" then discounted * LegacyConversionRate else discounted;
    var tx := Transaction(
      req.userId, req.amount, finalAmount, req.currency, req.paymentMethod,
      req.metadata, req.discountCode, req.fraudLevel, now);
    var body := TransactionBody(tx);
    var endpoint :=
      if req.paymentMethod == "credit_card" then Some("/payments/credit")
      else if req.paymentMethod == "paypal" then Some("/payments/paypal")
      else None;
    var posted := if endpoint.Some? then [Posted(endpoint.value, body)] else [];
    var thrown := if endpoint.Some? then post(endpoint.value, body) else None;
    match thrown
    case Some(err) => Run(Failure(GatewayFailure(err)), risk + posted)
    case None =>
      Run(Success(tx), risk + posted + [
        EmailSent(req.userId, finalAmount, req.currency),
        AnalyticsLogged(req.userId, finalAmount, req.currency, req.paymentMethod)])
  }

  /** The first version's `processPayment`: the validation chain, then the charge. */
  function LegacyProcessPayment(req: PaymentRequest, now: Instant, post: Gateway): (o: Run<Transaction>)
    ensures LegacyValidationError(req.paymentMethod, req.metadata).Some? ==>
      o == Run(Failure(LegacyValidationError(req.paymentMethod, req.metadata).value), [])
    ensures LegacyValidationError(req.paymentMethod, req.metadata).None? ==>
      && (req.paymentMethod == "credit_card" || req.paymentMethod == "paypal")
      && o == LegacyCharge(req, now, post)
  {
    match LegacyValidationError(req.paymentMethod, req.metadata)
    case Some(e) => Run(Failure(e), [])
    case None => LegacyCharge(req, now, post)
  }

  /** The first version's `refundPayment`. */
  function LegacyRefundPayment(req: RefundRequest, now: Instant, post: Gateway): (o: Run<Refund>)
    ensures |o.trace| == 1 && o.trace[0].Posted? && o.trace[0].endpoint == RefundEndpoint
    ensures o.trace[0].body.RefundBody?
    ensures var refund := o.trace[0].body.refund;
      && 20.0 * refund.netAmount == 19.0 * req.amount
      && refund.transactionId == req.transactionId
      && refund.userId == req.userId
      && refund.reason == req.reason
      && refund.amount == req.amount
      && refund.currency == req.currency
      && refund.metadata == req.metadata
      && refund.date == now
    ensures o.result.Success? <==> post(RefundEndpoint, o.trace[0].body).None?
    ensures o.result.Success? ==> o.result.value == o.trace[0].body.refund
    ensures o.result.Failure? ==>
      o.result.error.GatewayFailure? && Some(o.result.error.cause) == post(RefundEndpoint, o.trace[0].body)
  {
    var refundFee := req.amount * 0.05;
    var refund := Refund(
      req.transactionId, req.userId, req.reason, req.amount, req.currency, req.metadata, now,
      req.amount - refundFee);
    var body := RefundBody(refund);
    match post(RefundEndpoint, body)
    case Some(err) => Run(Failure(GatewayFailure(err)), [Posted(RefundEndpoint, body)])
    case None => Run(Success(refund), [Posted(RefundEndpoint, body)])
  }

  /** Both fraud branches emit the same risk events. */
  lemma FraudCheckAgrees(level: int, userId: string, amount: real)
    ensures LegacyFraudCheck(level, userId, amount) == PaymentProcessor.RunFraudCheck(level, userId, amount)
  {
  }

  /** The discount table gives what the if-chain gives, for every amount and code. */
  lemma DiscountAgrees(amount: real, code: Option<string>)
    ensures LegacyDiscount(amount, code) == PaymentProcessor.ApplyDiscount(amount, code)
  {
  }

  /**
   * After validation the two versions charge alike: for a processor at the
   * default rate and a method named as the request names it, the same
   * risk event, record, post, outcome and notifications.
   */
  lemma ChargeAgrees(cfg: Config, req: PaymentRequest, m: Method, now: Instant, post: Gateway)
    requires PaymentProcessor.ConversionRate(cfg) == LegacyConversionRate
    requires MethodName(m) == req.paymentMethod
    ensures LegacyCharge(req, now, post) == PaymentProcessor.ChargeValidated(cfg, req, m, now, post)
  {
    FraudCheckAgrees(req.fraudLevel, req.userId, req.amount);
    DiscountAgrees(req.amount, req.discountCode);
    var discounted := LegacyDiscount(req.amount, req.discountCode);
    var finalAmount := PaymentProcessor.ConvertCurrency(cfg, discounted, req.currency);
    assert finalAmount == if req.currency != "USD" then discounted * LegacyConversionRate else discounted;
    var tx := PaymentProcessor.CreateTransaction(req, finalAmount, now);
    assert tx == Transaction(
      req.userId, req.amount, finalAmount, req.currency, req.paymentMethod,
      req.metadata, req.discountCode, req.fraudLevel, now);
    assert Endpoint(m) ==
      if req.paymentMethod == "credit_card" then "/payments/credit" else "/payments/paypal";
  }

  /**
   * The refactoring preserves `processPayment`: for a processor at the
   * default rate, both versions return the same outcome (the same
   * transaction or the same error) with the same effects, including the
   * same endpoint and body of the post.
   */
  lemma RefactoringPreservesPayment(cfg: Config, req: PaymentRequest, now: Instant, post: Gateway)
    requires PaymentProcessor.ConversionRate(cfg) == LegacyConversionRate
    ensures LegacyProcessPayment(req, now, post) == PaymentProcessor.ProcessPayment(cfg, req, now, post)
  {
    ValidationAgrees(req.paymentMethod, req.metadata);
    match PaymentProcessor.Validate(req.paymentMethod, req.metadata)
    case Failure(_) =>
    case Success(m) =>
      ChargeAgrees(cfg, req, m, now, post);
  }

  /** The refactoring preserves `refundPayment`: the same record, post and outcome. */
  lemma RefactoringPreservesRefund(req: RefundRequest, now: Instant, post: Gateway)
    ensures LegacyRefundPayment(req, now, post) == PaymentProcessor.RefundPayment(req, now, post)
  {
  }
}
