/**
 * The data of the payment processor: requests, the transaction and refund
 * records, the configuration, the errors it throws and the effects it has on
 * the outside world, recorded as a trace of events.
 */
module PaymentModel {
  import opened Common

  /** Method-specific metadata: field name to field value. */
  type Metadata = map<string, string>

  /** A metadata field counts as given when it is present and non-empty (JavaScript truthiness of a string). */
  predicate Present(md: Metadata, field: string)
  {
    field in md && md[field] != ""
  }

  /** The closed set of supported payment methods. */
  datatype Method = CreditCard | PayPal

  /** The name a caller uses for each method. */
  function MethodName(m: Method): string
  {
    match m
    case CreditCard => "credit_card"
    case PayPal => "paypal"
  }

  /** Recognises a method name; every other string is unsupported. */
  function ParseMethod(name: string): (r: Option<Method>)
    ensures r.None? ==> forall m: Method :: MethodName(m) != name
    ensures r.Some? ==> MethodName(r.value) == name
  {
    if name == "credit_card" then Some(CreditCard)
    else if name == "paypal" then Some(PayPal)
    else None
  }

  /** Naming a method and parsing the name back gives the method again. */
  lemma ParseMethodName(m: Method)
    ensures ParseMethod(MethodName(m)) == Some(m)
  {
  }

  /** The gateway endpoint for each method: the routing table is total over the method set. */
  function Endpoint(m: Method): string
  {
    match m
    case CreditCard => "/payments/credit"
    case PayPal => "/payments/paypal"
  }

  const RefundEndpoint: string := "/payments/refund"

  /** Distinct methods go to distinct endpoints, and no payment goes to the refund endpoint. */
  lemma EndpointsDistinct(m1: Method, m2: Method)
    ensures Endpoint(m1) == Endpoint(m2) <==> m1 == m2
    ensures Endpoint(m1) != RefundEndpoint
  {
  }

  /** The two fraud checks: light for small payments, heavy for large ones. */
  datatype CheckKind = Light | Heavy

  /** The risk tiers the fraud checks report. */
  datatype RiskTier = VeryLowRisk | LowRisk | MediumRisk | HighRisk

  /**
   * Reference definition of the amount band of each tier, stated
   * independently of how the fraud check chooses a tier.
   */
  predicate InBand(amount: real, tier: RiskTier)
  {
    match tier
    case VeryLowRisk => amount < 10.0
    case LowRisk => 10.0 <= amount < 100.0
    case MediumRisk => 100.0 <= amount < 1000.0
    case HighRisk => 1000.0 <= amount
  }

  /** The tiers a light check can report. */
  predicate IsLightTier(tier: RiskTier)
  {
    tier == VeryLowRisk || tier == LowRisk
  }

  /** The bands partition the amounts: every amount lies in exactly one band. */
  lemma BandsPartition(amount: real, t1: RiskTier, t2: RiskTier)
    ensures exists t: RiskTier :: InBand(amount, t)
    ensures InBand(amount, t1) && InBand(amount, t2) ==> t1 == t2
  {
    if amount < 10.0 {
      assert InBand(amount, VeryLowRisk);
    } else if amount < 100.0 {
      assert InBand(amount, LowRisk);
    } else if amount < 1000.0 {
      assert InBand(amount, MediumRisk);
    } else {
      assert InBand(amount, HighRisk);
    }
  }

  /** The identifiers of the known discount codes. */
  datatype DiscountCode = Summer20 | Welcome10

  /** The transaction record returned by a successful payment. */
  datatype Transaction = Transaction(
    userId: string,
    originalAmount: real,
    finalAmount: real,
    currency: string,
    paymentMethod: string,
    metadata: Metadata,
    discountCode: Option<string>,
    fraudChecked: int,
    timestamp: Instant)

  /** The refund record. */
  datatype Refund = Refund(
    transactionId: string,
    userId: string,
    reason: string,
    amount: real,
    currency: string,
    metadata: Metadata,
    date: Instant,
    netAmount: real)

  /** What is posted to the gateway. */
  datatype Body = TransactionBody(transaction: Transaction) | RefundBody(refund: Refund)

  /** The error an `apiClient.post` call throws. */
  datatype ApiError = ApiError(reason: string)

  /**
   * The injected API client: given an endpoint and a body it either returns
   * normally (`None`) or throws (`Some(error)`).
   */
  type Gateway = (string, Body) -> Option<ApiError>

  /** The errors the processor throws. */
  datatype PaymentError =
    | UnsupportedMethod
    | InvalidCardMetadata
    | InvalidPayPalMetadata
    | GatewayFailure(cause: ApiError)

  /** The message of each validation error; a gateway error is passed through as thrown. */
  function Message(e: PaymentError): string
  {
    match e
    case UnsupportedMethod => "Unsupported payment method"
    case InvalidCardMetadata => "Invalid card metadata"
    case InvalidPayPalMetadata => "Invalid PayPal metadata"
    case GatewayFailure(cause) => cause.reason
  }

  /** The observable effects of the processor, in the order they happen. */
  datatype Event =
    | RiskAssessed(kind: CheckKind, tier: RiskTier, userId: string, amount: real)
    | Posted(endpoint: string, body: Body)
    | EmailSent(userId: string, amount: real, currency: string)
    | AnalyticsLogged(userId: string, amount: real, currency: string, paymentMethod: string)

  /** The result of a call together with the effects it had, in order. */
  datatype Run<T> = Run(result: Result<T, PaymentError>, trace: seq<Event>)

  /** The pipeline stage each event belongs to. */
  function Stage(e: Event): nat
  {
    match e
    case RiskAssessed(_, _, _, _) => 0
    case Posted(_, _) => 1
    case EmailSent(_, _, _) => 2
    case AnalyticsLogged(_, _, _, _) => 3
  }

  /**
   * A trace follows the pipeline order: fraud check, then post, then email,
   * then analytics, with each stage contributing at most one event.
   */
  predicate InStageOrder(trace: seq<Event>)
  {
    forall i, j :: 0 <= i < j < |trace| ==> Stage(trace[i]) < Stage(trace[j])
  }

  /** In a trace in stage order, two events of the same stage are the same event. */
  lemma StageOccursOnce(trace: seq<Event>, i: int, j: int)
    requires InStageOrder(trace)
    requires 0 <= i < |trace| && 0 <= j < |trace|
    requires Stage(trace[i]) == Stage(trace[j])
    ensures i == j
  {
  }

  /** True when the trace holds an email or analytics event. */
  predicate Notified(trace: seq<Event>)
  {
    exists i :: 0 <= i < |trace| && Stage(trace[i]) >= 2
  }

  /** The payment request, as passed to `processPayment`. */
  datatype PaymentRequest = PaymentRequest(
    amount: real,
    currency: string,
    userId: string,
    paymentMethod: string,
    metadata: Metadata,
    discountCode: Option<string>,
    fraudLevel: int)

  /** The refund request, as passed to `refundPayment`. */
  datatype RefundRequest = RefundRequest(
    transactionId: string,
    userId: string,
    reason: string,
    amount: real,
    currency: string,
    metadata: Metadata)

  /** The constructor configuration; only the conversion rate is configurable. */
  datatype Config = Config(conversionRate: Option<real>)

  const DefaultConversionRate: real := 1.2
}
