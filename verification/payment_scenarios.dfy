/**
 * The behaviour the payment test suite checks, stated for the refactored
 * processor with its default configuration.
 */
module PaymentScenarios {
  import opened Common
  import opened PaymentModel
  import opened PaymentProcessor

  /** A processor built without a configuration. */
  const Default: Config := Config(None)

  /** An API client whose every post returns normally. */
  const AcceptAll: Gateway := (endpoint, body) => None

  const Now: Instant := Instant(0)

  const Card: Metadata := map["cardNumber" := "123", "expiry" := "12/25"]

  function Request(amount: real, currency: string, methodName: string, md: Metadata,
                   code: Option<string>, level: int): PaymentRequest
  {
    PaymentRequest(amount, currency, "1", methodName, md, code, level)
  }

  /** Each validation failure of the suite throws its message and has no effect. */
  lemma ValidationScenarios()
    ensures var o := ProcessPayment(Default, Request(100.0, "USD", "credit_card", map["expiry" := "12/25"], None, 0), Now, AcceptAll);
      o.result.Failure? && Message(o.result.error) == "Invalid card metadata" && o.trace == []
    ensures var o := ProcessPayment(Default, Request(50.0, "USD", "paypal", map["cardNumber" := "123"], None, 0), Now, AcceptAll);
      o.result.Failure? && Message(o.result.error) == "Invalid PayPal metadata" && o.trace == []
    ensures var o := ProcessPayment(Default, Request(50.0, "USD", "crypto", map[], None, 0), Now, AcceptAll);
      o.result.Failure? && Message(o.result.error) == "Unsupported payment method" && o.trace == []
  {
    assert !Present(map["expiry" := "12/25"], "cardNumber");
    assert !Present(map["cardNumber" := "123"], "paypalAccount");
  }

  /** SUMMER20 takes 100 to 80 and WELCOME10 takes 50 to 40. */
  lemma DiscountScenarios()
    ensures ProcessPayment(Default, Request(100.0, "USD", "credit_card", Card, Some("SUMMER20"), 0), Now, AcceptAll)
      .result.value.finalAmount == 80.0
    ensures ProcessPayment(Default, Request(50.0, "USD", "paypal", map["paypalAccount" := "test"], Some("WELCOME10"), 0), Now, AcceptAll)
      .result.value.finalAmount == 40.0
  {
  }

  /** A payment in EUR is multiplied by the default rate: 100 becomes 120. */
  lemma ConversionScenario()
    ensures ProcessPayment(Default, Request(100.0, "EUR", "credit_card", Card, None, 0), Now, AcceptAll)
      .result.value.finalAmount == 100.0 * ConversionRate(Default) == 120.0
  {
  }

  /** With a positive level, 50 gets the light check and 150 the heavy one. */
  lemma FraudScenarios()
    ensures ProcessPayment(Default, Request(50.0, "USD", "credit_card", Card, None, 1), Now, AcceptAll).trace[0].kind == Light
    ensures ProcessPayment(Default, Request(150.0, "USD", "credit_card", Card, None, 1), Now, AcceptAll).trace[0].kind == Heavy
  {
  }

  /** Card payments go to `/payments/credit`, PayPal payments to `/payments/paypal`, with the returned record as body. */
  lemma ApiScenarios()
    ensures var o := ProcessPayment(Default, Request(100.0, "USD", "credit_card", Card, None, 0), Now, AcceptAll);
      o.result.Success? && Posted("/payments/credit", TransactionBody(o.result.value)) in o.trace
    ensures var o := ProcessPayment(Default, Request(100.0, "USD", "paypal", map["paypalAccount" := "acc"], None, 0), Now, AcceptAll);
      o.result.Success? && Posted("/payments/paypal", TransactionBody(o.result.value)) in o.trace
  {
  }

  /** A refund of 100 nets 95 and one of 50 nets 47.5, each posted to `/payments/refund`. */
  lemma RefundScenarios()
    ensures var o := RefundPayment(RefundRequest("tx123", "1", "reason", 100.0, "USD", map[]), Now, AcceptAll);
      o.result.Success? && o.result.value.netAmount == 95.0 && o.trace == [Posted("/payments/refund", RefundBody(o.result.value))]
    ensures var o := RefundPayment(RefundRequest("tx1", "1", "test", 50.0, "USD", map[]), Now, AcceptAll);
      o.result.Success? && o.result.value.netAmount == 47.5 && o.trace == [Posted(RefundEndpoint, RefundBody(o.result.value))]
  {
  }

  /** The end-to-end card payment: 100 USD with SUMMER20 and no fraud check. */
  lemma EndToEndScenario()
    ensures var o := ProcessPayment(Default, Request(100.0, "USD", "credit_card", Card, Some("SUMMER20"), 0), Now, AcceptAll);
      && o.result.Success?
      && o.result.value.originalAmount == 100.0
      && o.result.value.finalAmount == 80.0
      && o.result.value.currency == "USD"
      && o.trace[0] == Posted("/payments/credit", TransactionBody(o.result.value))
  {
  }
}
