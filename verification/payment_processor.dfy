/**
 * The refactored `PaymentProcessor`: a pipeline of small steps (validate,
 * fraud check, discount, conversion, transaction record, dispatch,
 * notification) and the refund path. Every step is a pure function; its
 * effects are returned as a trace of events.
 */
module PaymentProcessor {
  import opened Common
  import opened PaymentModel

  /*
   * Configuration
   */

  /** The rate of the processor: the configured rate when it is set and non-zero, else the default 1.2. */
  function ConversionRate(cfg: Config): (rate: real)
    ensures rate != 0.0
    ensures cfg.conversionRate.Some? && cfg.conversionRate.value != 0.0 ==> rate == cfg.conversionRate.value
    ensures cfg.conversionRate.None? || cfg.conversionRate == Some(0.0) ==> rate == DefaultConversionRate
  {
    match cfg.conversionRate
    case Some(configured) => if configured != 0.0 then configured else DefaultConversionRate
    case None => DefaultConversionRate
  }

  /*
   * Validation
   */

  /** The validator table: the metadata rule of each method. */
  predicate MetadataValid(m: Method, md: Metadata)
  {
    match m
    case CreditCard => Present(md, "cardNumber") && Present(md, "expiry")
    case PayPal => Present(md, "paypalAccount")
  }

  /** The error each method's validator throws. */
  function MetadataError(m: Method): PaymentError
  {
    match m
    case CreditCard => InvalidCardMetadata
    case PayPal => InvalidPayPalMetadata
  }

  /** Checks the method and its metadata; on success yields the recognised method. */
  function Validate(methodName: string, md: Metadata): (r: Result<Method, PaymentError>)
    ensures r.Success? ==> MethodName(r.value) == methodName
    ensures methodName == "credit_card" ==>
      (r.Success? <==> Present(md, "cardNumber") && Present(md, "expiry"))
    ensures methodName == "credit_card" && r.Failure? ==> r.error == InvalidCardMetadata
    ensures methodName == "paypal" ==> (r.Success? <==> Present(md, "paypalAccount"))
    ensures methodName == "paypal" && r.Failure? ==> r.error == InvalidPayPalMetadata
    ensures methodName != "credit_card" && methodName != "paypal" ==> r == Failure(UnsupportedMethod)
  {
    match ParseMethod(methodName)
    case None => Failure(UnsupportedMethod)
    case Some(m) => if MetadataValid(m, md) then Success(m) else Failure(MetadataError(m))
  }

  /*
   * Fraud checking
   */

  /** The light check, for small payments. */
  function LightFraudCheck(userId: string, amount: real): (e: Event)
    ensures e.RiskAssessed? && e == RiskAssessed(Light, e.tier, userId, amount)
    ensures IsLightTier(e.tier)
    ensures e.tier == VeryLowRisk <==> amount < 10.0
  {
    RiskAssessed(Light, if amount < 10.0 then VeryLowRisk else LowRisk, userId, amount)
  }

  /** The heavy check, for large payments. */
  function HeavyFraudCheck(userId: string, amount: real): (e: Event)
    ensures e.RiskAssessed? && e == RiskAssessed(Heavy, e.tier, userId, amount)
    ensures !IsLightTier(e.tier)
    ensures e.tier == MediumRisk <==> amount < 1000.0
  {
    RiskAssessed(Heavy, if amount < 1000.0 then MediumRisk else HighRisk, userId, amount)
  }

  /**
   * The fraud step: nothing when the level is not positive, otherwise one
   * risk event whose tier is the band of the amount. It never fails.
   */
  function RunFraudCheck(level: int, userId: string, amount: real): (risk: seq<Event>)
    ensures risk == [] <==> level <= 0
    ensures |risk| <= 1
    ensures forall e <- risk ::
      && e.RiskAssessed?
      && e.userId == userId
      && e.amount == amount
      && InBand(amount, e.tier)
      && (e.kind == Light <==> amount < 100.0)
  {
    if level <= 0 then []
    else if amount < 100.0 then [LightFraudCheck(userId, amount)]
    else [HeavyFraudCheck(userId, amount)]
  }

  /** The tier a positive-level check reports is exactly the band the amount lies in. */
  lemma FraudTierIsBand(level: int, userId: string, amount: real, tier: RiskTier)
    requires level > 0
    ensures RunFraudCheck(level, userId, amount)[0].tier == tier <==> InBand(amount, tier)
  {
  }

  /*
   * Discounts and conversion
   */

  /** Recognises the codes of the discount table; every other code is unknown. */
  function ParseDiscountCode(code: string): (r: Option<DiscountCode>)
    ensures r == Some(Summer20) <==> code == "SUMMER20"
    ensures r == Some(Welcome10) <==> code == "WELCOME10"
  {
    if code == "SUMMER20" then Some(Summer20)
    else if code == "WELCOME10" then Some(Welcome10)
    else None
  }

  /** The discount table: `SUMMER20` takes 20% off, `WELCOME10` takes a flat 10 off. */
  function DiscountRule(d: DiscountCode, amount: real): (r: real)
    ensures d == Summer20 ==> 5.0 * r == 4.0 * amount
    ensures d == Welcome10 ==> amount - r == 10.0
  {
    match d
    case Summer20 => amount * 0.8
    case Welcome10 => amount - 10.0
  }

  /**
   * Applies the discount of the code, if any. An absent or empty code and
   * an unknown code leave the amount unchanged.
   */
  function ApplyDiscount(amount: real, code: Option<string>): (r: real)
    ensures r != amount ==> code == Some("SUMMER20") || code == Some("WELCOME10")
    ensures code == Some("SUMMER20") ==> 5.0 * r == 4.0 * amount
    ensures code == Some("WELCOME10") ==> amount - r == 10.0
    ensures r <= amount || (amount < 0.0 && code == Some("SUMMER20"))
  {
    match code
    case None => amount
    case Some(c) =>
      if c == "" then amount
      else match ParseDiscountCode(c)
        case Some(d) => DiscountRule(d, amount)
        case None => amount
  }

  /** Converts to the processor's currency: `USD` is kept, every other currency is multiplied by the one rate. */
  function ConvertCurrency(cfg: Config, amount: real, currency: string): (r: real)
    ensures currency == "USD" ==> r == amount
    ensures currency != "USD" ==> r / ConversionRate(cfg) == amount
  {
    if currency == "USD" then amount else amount * ConversionRate(cfg)
  }

  /*
   * Transaction record and dispatch
   */

  /**
   * Assembles the transaction record: the request's fields as given, the
   * request amount as original amount, and the clock reading as timestamp.
   */
  function CreateTransaction(req: PaymentRequest, finalAmount: real, now: Instant): (tx: Transaction)
    ensures tx.userId == req.userId && tx.currency == req.currency
    ensures tx.paymentMethod == req.paymentMethod && tx.metadata == req.metadata
    ensures tx.discountCode == req.discountCode && tx.fraudChecked == req.fraudLevel
    ensures tx.originalAmount == req.amount && tx.finalAmount == finalAmount
    ensures tx.timestamp == now
  {
    Transaction(
      req.userId, req.amount, finalAmount, req.currency, req.paymentMethod,
      req.metadata, req.discountCode, req.fraudLevel, now)
  }

  /** Posts the transaction to the endpoint of its method; a gateway error is passed on unchanged. */
  function SendToApi(post: Gateway, m: Method, tx: Transaction): (r: Run<()>)
    ensures r.trace == [Posted(Endpoint(m), TransactionBody(tx))]
    ensures r.result.Success? <==> post(Endpoint(m), TransactionBody(tx)).None?
    ensures r.result.Failure? ==>
      r.result.error.GatewayFailure? && post(Endpoint(m), TransactionBody(tx)) == Some(r.result.error.cause)
  {
    var body := TransactionBody(tx);
    match post(Endpoint(m), body)
    case Some(err) => Run(Failure(GatewayFailure(err)), [Posted(Endpoint(m), body)])
    case None => Run(Success(()), [Posted(Endpoint(m), body)])
  }

  /*
   * The pipeline
   */

  /**
   * The steps of `processPayment` after the method and metadata were
   * accepted: fraud check, discount, conversion, record, dispatch, and on
   * acceptance by the client the email and analytics.
   */
  function ChargeValidated(cfg: Config, req: PaymentRequest, m: Method, now: Instant, post: Gateway): (o: Run<Transaction>)
    ensures InStageOrder(o.trace)
    ensures o.result.Failure? ==> o.result.error.GatewayFailure? && !Notified(o.trace)
    ensures (|o.trace| > 0 && o.trace[0].RiskAssessed?) <==> req.fraudLevel > 0
    ensures |o.trace| > 0 && o.trace[0].RiskAssessed? ==>
      && o.trace[0].userId == req.userId
      && o.trace[0].amount == req.amount
      && InBand(req.amount, o.trace[0].tier)
      && (o.trace[0].kind == Light <==> req.amount < 100.0)
    ensures
      var finalAmount := ConvertCurrency(cfg, ApplyDiscount(req.amount, req.discountCode), req.currency);
      var body := TransactionBody(CreateTransaction(req, finalAmount, now));
      && Posted(Endpoint(m), body) in o.trace
      && (o.result.Success? <==> post(Endpoint(m), body).None?)
      && (o.result.Success? ==>
            && o.result.value == body.transaction
            && EmailSent(req.userId, finalAmount, req.currency) in o.trace
            && AnalyticsLogged(req.userId, finalAmount, req.currency, req.paymentMethod) in o.trace)
      && (o.result.Failure? ==>
            && o.trace[|o.trace| - 1] == Posted(Endpoint(m), body)
            && post(Endpoint(m), body) == Some(o.result.error.cause))
  {
    var risk := RunFraudCheck(req.fraudLevel, req.userId, req.amount);
    var discounted := ApplyDiscount(req.amount, req.discountCode);
    var finalAmount := ConvertCurrency(cfg, discounted, req.currency);
    var tx := CreateTransaction(req, finalAmount, now);
    var sent := SendToApi(post, m, tx);
    match sent.result
    case Failure(e) => Run(Failure(e), risk + sent.trace)
    case Success(_) =>
      Run(Success(tx), risk + sent.trace + [
        EmailSent(req.userId, finalAmount, req.currency),
        AnalyticsLogged(req.userId, finalAmount, req.currency, req.paymentMethod)])
  }

  /** `processPayment`: validate, check fraud, discount, convert, record, dispatch, notify. */
  function ProcessPayment(cfg: Config, req: PaymentRequest, now: Instant, post: Gateway): (o: Run<Transaction>)
    // a rejected request has no effect at all
    ensures Validate(req.paymentMethod, req.metadata).Failure? ==>
      o.result == Failure(Validate(req.paymentMethod, req.metadata).error) && o.trace == []
    // after validation, the only possible error is the gateway's
    ensures Validate(req.paymentMethod, req.metadata).Success? && o.result.Failure? ==>
      o.result.error.GatewayFailure?
    // the effects follow the pipeline order, each step at most once
    ensures InStageOrder(o.trace)
    // a risk event exactly when a valid request asks for a fraud check
    ensures (|o.trace| > 0 && o.trace[0].RiskAssessed?) <==>
      Validate(req.paymentMethod, req.metadata).Success? && req.fraudLevel > 0
    ensures |o.trace| > 0 && o.trace[0].RiskAssessed? ==>
      && o.trace[0].userId == req.userId
      && o.trace[0].amount == req.amount
      && InBand(req.amount, o.trace[0].tier)
      && (o.trace[0].kind == Light <==> req.amount < 100.0)
    // a valid request posts the record built from it to its method's endpoint;
    // the call succeeds exactly when the client accepts that post, and
    // otherwise fails with the client's error, that post being the last effect
    ensures Validate(req.paymentMethod, req.metadata).Success? ==>
      var endpoint := Endpoint(Validate(req.paymentMethod, req.metadata).value);
      var finalAmount := ConvertCurrency(cfg, ApplyDiscount(req.amount, req.discountCode), req.currency);
      var body := TransactionBody(CreateTransaction(req, finalAmount, now));
      && Posted(endpoint, body) in o.trace
      && (o.result.Success? <==> post(endpoint, body).None?)
      && (o.result.Success? ==> o.result.value == body.transaction)
      && (o.result.Failure? ==>
            && o.trace[|o.trace| - 1] == Posted(endpoint, body)
            && post(endpoint, body) == Some(o.result.error.cause))
    // the returned transaction was posted to its method's endpoint, then email and analytics followed
    ensures o.result.Success? ==>
      var m := Validate(req.paymentMethod, req.metadata);
      var tx := o.result.value;
      && m.Success?
      && Posted(Endpoint(m.value), TransactionBody(tx)) in o.trace
      && post(Endpoint(m.value), TransactionBody(tx)).None?
      && EmailSent(req.userId, tx.finalAmount, req.currency) in o.trace
      && AnalyticsLogged(req.userId, tx.finalAmount, req.currency, req.paymentMethod) in o.trace
    // a gateway error is the error of the last (failed) post, and nothing is notified
    ensures o.result.Failure? ==> !Notified(o.trace)
    ensures o.result.Failure? && o.result.error.GatewayFailure? ==>
      && |o.trace| > 0
      && o.trace[|o.trace| - 1].Posted?
      && post(o.trace[|o.trace| - 1].endpoint, o.trace[|o.trace| - 1].body) == Some(o.result.error.cause)
  {
    match Validate(req.paymentMethod, req.metadata)
    case Failure(e) => Run(Failure(e), [])
    case Success(m) => ChargeValidated(cfg, req, m, now, post)
  }

  /**
   * The transaction of a successful payment echoes the request; its final
   * amount is the discounted amount converted, discount first.
   */
  lemma TransactionEchoesRequest(cfg: Config, req: PaymentRequest, now: Instant, post: Gateway)
    requires ProcessPayment(cfg, req, now, post).result.Success?
    ensures var tx := ProcessPayment(cfg, req, now, post).result.value;
      && tx.originalAmount == req.amount
      && tx.finalAmount == ConvertCurrency(cfg, ApplyDiscount(req.amount, req.discountCode), req.currency)
      && tx.userId == req.userId
      && tx.currency == req.currency
      && tx.paymentMethod == req.paymentMethod
      && tx.metadata == req.metadata
      && tx.discountCode == req.discountCode
      && tx.fraudChecked == req.fraudLevel
      && tx.timestamp == now
  {
  }

  /** Exactly one post is made for a successful payment, and it carries the returned transaction. */
  lemma SuccessPostsOnce(cfg: Config, req: PaymentRequest, now: Instant, post: Gateway, i: int)
    requires ProcessPayment(cfg, req, now, post).result.Success?
    requires 0 <= i < |ProcessPayment(cfg, req, now, post).trace|
    requires ProcessPayment(cfg, req, now, post).trace[i].Posted?
    ensures var o := ProcessPayment(cfg, req, now, post);
      o.trace[i] == Posted(Endpoint(ParseMethod(req.paymentMethod).value), TransactionBody(o.result.value))
  {
    var o := ProcessPayment(cfg, req, now, post);
    var m := Validate(req.paymentMethod, req.metadata).value;
    var expected := Posted(Endpoint(m), TransactionBody(o.result.value));
    var j :| 0 <= j < |o.trace| && o.trace[j] == expected;
    StageOccursOnce(o.trace, i, j);
  }

  /**
   * Two calls with the same request and gateway behaviour, at different
   * instants, return transactions that differ in the timestamp only.
   */
  lemma SameRequestSameTransaction(cfg: Config, req: PaymentRequest, t1: Instant, t2: Instant, post: Gateway)
    requires ProcessPayment(cfg, req, t1, post).result.Success?
    requires ProcessPayment(cfg, req, t2, post).result.Success?
    ensures ProcessPayment(cfg, req, t1, post).result.value.(timestamp := t2) ==
            ProcessPayment(cfg, req, t2, post).result.value
  {
  }

  /*
   * Refunds
   */

  const RefundFeeRate: real := 0.05

  /**
   * `refundPayment`: builds the refund record, keeping 95% of the amount,
   * and posts it to the refund endpoint; a gateway error is passed on.
   */
  function RefundPayment(req: RefundRequest, now: Instant, post: Gateway): (o: Run<Refund>)
    ensures |o.trace| == 1 && o.trace[0].Posted? && o.trace[0].endpoint == RefundEndpoint
    ensures o.trace[0].body.RefundBody?
    ensures var refund := o.trace[0].body.refund;
      && 20.0 * refund.netAmount == 19.0 * req.amount
      && refund.transactionId == req.transactionId
      && refund.userId == req.userId
      && refund.reason == req.reason
      && refund.amount == req.amount
      && refund.currency == req.currency
      && refund.metadata == req.metadata
      && refund.date == now
    ensures o.result.Success? <==> post(RefundEndpoint, o.trace[0].body).None?
    ensures o.result.Success? ==> o.result.value == o.trace[0].body.refund
    ensures o.result.Failure? ==>
      o.result.error.GatewayFailure? && Some(o.result.error.cause) == post(RefundEndpoint, o.trace[0].body)
  {
    var refund := Refund(
      req.transactionId, req.userId, req.reason, req.amount, req.currency, req.metadata, now,
      req.amount - req.amount * RefundFeeRate);
    var body := RefundBody(refund);
    match post(RefundEndpoint, body)
    case Some(err) => Run(Failure(GatewayFailure(err)), [Posted(RefundEndpoint, body)])
    case None => Run(Success(refund), [Posted(RefundEndpoint, body)])
  }

  /** The refunded net amount of a non-negative amount lies between zero and the amount. */
  lemma RefundNetBounded(req: RefundRequest, now: Instant, post: Gateway)
    requires 0.0 <= req.amount
    ensures var net := RefundPayment(req, now, post).trace[0].body.refund.netAmount;
      0.0 <= net <= req.amount
  {
  }
}
