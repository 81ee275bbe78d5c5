# Payment processor model

A Dafny model of a small JavaScript payment processor and the helpers that sit beside it.

- **`PaymentProcessor` (refactored).** `processPayment` runs a fixed pipeline:
  1. validate the method-specific metadata (`credit_card` or `paypal`);
  2. classify fraud risk by amount, which never aborts;
  3. apply a discount code (`SUMMER20`, `WELCOME10`);
  4. convert the currency with one rate;
  5. build the transaction record;
  6. post it to the method's endpoint on the injected API client;
  7. send the confirmation email and log analytics.

  `refundPayment` builds a refund record that keeps 95% of the amount. It posts the record to `/payments/refund`.
- **The original `PaymentProcessor`.** This is the monolithic first version of the same class. The model proves that the refactoring changed none of its outcomes or effects, for integer fraud levels, method names and discount codes matched exactly as strings, and a processor at the default rate 1.2.
- **`borrowBook`.** It lends a title by removing its first copy from the list and returns a message. The earlier version is kept in a comment in the source and is modelled too.
- **Utilities.** The model covers `sum`, `createUser`, `filterAdults`, `findInArray` and the empty-input guard of `parseJSON`.

The model is functional:
- Each call returns a `Run`: the result (a value or the error thrown) and a trace of the events it caused, in order.
- The events are a risk assessment, a post to the gateway, the confirmation email and the analytics entry.
- The API client is a parameter `post: (endpoint, body) -> Option<ApiError>`. `None` means the post returned normally.
- The clock is a parameter (`Instant`).
- Amounts are `real`.

Modules:
- `Common`: option, result and clock-reading types.
- `PaymentModel`: requests, records, events and errors.
- `PaymentProcessor`: the refactored class.
- `LegacyPayment`: the original class and the refactoring proofs.
- `PaymentScenarios`: the behaviour the test suite checks.
- `Library`: `borrowBook`.
- `Utils`: the utility helpers.

Facts about the code that the model keeps:
- **Metadata.** The transaction stores the caller's metadata object itself, not a copy (week1/day4/processpaymentRefactored.js:135). Dafny values are immutable, so sharing and copying cannot be told apart in the model.
- **Discount table.** The two codes `SUMMER20` and `WELCOME10` are fixed in the constructor (week1/day4/processpaymentRefactored.js:11-14). Only the conversion rate can be configured.
- **Conversion rate.** The rate is `config.conversionRate || 1.2` (week1/day4/processpaymentRefactored.js:7). Any non-zero configured rate is used, negative rates included. A rate of 0 or an unset rate gives 1.2.
- **Refund errors.** `refundPayment` does not catch an error from the post (week1/day4/processpaymentRefactored.js:182), so that error reaches the caller.

## Model

| member | source | states |
|---|---|---|
| `PaymentModel.ParseMethod` | week1/day4/processpaymentRefactored.js:71-75 | only `credit_card` and `paypal` are recognised, each naming its method; every other string is unsupported |
| `PaymentModel.ParseMethodName` | week1/day4/processpaymentRefactored.js:58-69 | each supported method's name is recognised as that method (round trip) |
| `PaymentModel.EndpointsDistinct` | week1/day4/processpaymentRefactored.js:144-151 | the endpoint table is total over methods, sends distinct methods to distinct endpoints and never to the refund endpoint |
| `PaymentModel.BandsPartition` | week1/day4/processpaymentRefactored.js:82-102 | the four risk bands (<10, [10,100), [100,1000), >=1000) cover every amount and do not overlap |
| `PaymentModel.StageOccursOnce` | week1/day4/processpaymentRefactored.js:46-51 | in a trace in pipeline order, an event of each stage occurs at most once |
| `PaymentProcessor.ConversionRate` | week1/day4/processpaymentRefactored.js:5-8 | the rate is never zero; it is the configured rate when set and non-zero, otherwise 1.2 |
| `PaymentProcessor.Validate` | week1/day4/processpaymentRefactored.js:57-76 | `credit_card` passes iff `cardNumber` and `expiry` are present and non-empty, else "Invalid card metadata"; `paypal` passes iff `paypalAccount` is, else "Invalid PayPal metadata"; anything else is "Unsupported payment method" |
| `PaymentProcessor.LightFraudCheck` | week1/day4/processpaymentRefactored.js:87-94 | a light-check event for the user and amount, very low risk iff the amount is below 10, otherwise low |
| `PaymentProcessor.HeavyFraudCheck` | week1/day4/processpaymentRefactored.js:96-103 | a heavy-check event for the user and amount, medium risk iff the amount is below 1000, otherwise high |
| `PaymentProcessor.RunFraudCheck` | week1/day4/processpaymentRefactored.js:79-85 | no event iff the level is at most 0; otherwise one event, light iff the amount is below 100, with the tier of the amount's band; it cannot fail |
| `PaymentProcessor.FraudTierIsBand` | week1/day4/processpaymentRefactored.js:79-103 | with a positive level, the reported tier is a given tier iff the amount lies in that tier's band |
| `PaymentProcessor.ParseDiscountCode` | week1/day4/processpaymentRefactored.js:109 | a code selects the `SUMMER20` rule iff it is exactly "SUMMER20", and the `WELCOME10` rule iff it is exactly "WELCOME10" |
| `PaymentProcessor.DiscountRule` | week1/day4/processpaymentRefactored.js:11-14 | `SUMMER20` leaves four fifths of the amount; `WELCOME10` leaves the amount less 10 |
| `PaymentProcessor.ApplyDiscount` | week1/day4/processpaymentRefactored.js:107-110 | only `SUMMER20` and `WELCOME10` change the amount (absent, empty and unknown codes do not); `SUMMER20` takes 20% off, `WELCOME10` takes 10 off; the result never exceeds the amount except for `SUMMER20` on a negative amount |
| `PaymentProcessor.ConvertCurrency` | week1/day4/processpaymentRefactored.js:112-115 | `USD` is unchanged; any other currency is the amount scaled by the rate, which dividing by the rate undoes |
| `PaymentProcessor.CreateTransaction` | week1/day4/processpaymentRefactored.js:119-140 | the record carries the request's user, currency, method, metadata, code and level, the original amount, the given final amount and the clock reading |
| `PaymentProcessor.SendToApi` | week1/day4/processpaymentRefactored.js:144-151 | exactly one post, to the method's endpoint with the transaction as body; it fails exactly when the client throws, with that error |
| `PaymentProcessor.ChargeValidated` | week1/day4/processpaymentRefactored.js:25-53 | after validation: the effects follow the pipeline order; a risk event for the user and amount, light iff the amount is below 100 and in the amount's band, exactly when the level is positive; the record built from the discounted, converted amount is posted to the method's endpoint; success iff the client accepts that post, returning the record, with email and analytics after it; otherwise the client's error, that post being the last effect and nothing notified |
| `PaymentProcessor.ProcessPayment` | week1/day4/processpaymentRefactored.js:21-54 | a rejected request returns the validation error with no effect at all; the effects follow the pipeline order; a risk event exactly when a valid request has a positive level, light iff the amount is below 100; a valid request posts the record built from it to its method's endpoint, succeeds iff the client accepts that post (returning that record, with email and analytics after it) and otherwise fails with the client's error, that post being the last effect and nothing notified |
| `PaymentProcessor.TransactionEchoesRequest` | week1/day4/processpaymentRefactored.js:119-140 | the record echoes user, currency, method, metadata, code, level and the clock; `originalAmount` is the amount; `finalAmount` is the discounted amount, then converted |
| `PaymentProcessor.SuccessPostsOnce` | week1/day4/processpaymentRefactored.js:46-47 | every post in a successful trace is the single post of the returned transaction to its method's endpoint |
| `PaymentProcessor.SameRequestSameTransaction` | week1/day4/processpaymentRefactored.js:29-44 | two successful calls with the same request at different instants give records differing only in the timestamp |
| `PaymentProcessor.RefundPayment` | week1/day4/processpaymentRefactored.js:167-185 | exactly one post, to `/payments/refund`, with a refund record echoing the request and clock whose net amount is 95% of the amount; success iff the client accepts, returning the posted record; otherwise the client's error |
| `PaymentProcessor.RefundNetBounded` | week1/day4/processpaymentRefactored.js:180 | a non-negative amount nets between zero and the amount |
| `LegacyPayment.LegacyValidationError` | week1/day4/processpayment.js:18-28 | the if-chain lets a request through iff it is a card request with both card fields or a PayPal request with the account; otherwise it throws one of the three validation errors |
| `LegacyPayment.ValidationAgrees` | week1/day4/processpayment.js:18-28 | the refactored validator accepts exactly the same requests and throws exactly the same error |
| `LegacyPayment.LegacyFraudCheck` | week1/day4/processpayment.js:31-40 | at most one risk event, present iff the level is positive, for the given user and amount, light iff the amount is below 100, in the tier of the amount's band |
| `LegacyPayment.FraudCheckAgrees` | week1/day4/processpayment.js:100-119 | the original fraud helpers emit the same events as the refactored ones |
| `LegacyPayment.LegacyDiscount` | week1/day4/processpayment.js:43-52 | an absent or unknown code leaves the amount unchanged; `SUMMER20` takes 20% off and `WELCOME10` takes 10 off |
| `LegacyPayment.DiscountAgrees` | week1/day4/processpayment.js:42-52 | the if-chain and the refactored discount table give the same amount for every amount and code |
| `LegacyPayment.LegacyCharge` | week1/day4/processpayment.js:30-97 | the effects follow the pipeline order; the first version's risk event exactly when the level is positive; the fixed rate 1.2 applies to every non-`USD` currency after the discount; a card or PayPal request posts the record echoing it to `/payments/credit` or `/payments/paypal`, succeeds iff the client accepts (returning the record, with email and analytics after it), and otherwise rethrows the client's error unchanged, that post being the last effect and nothing notified |
| `LegacyPayment.LegacyProcessPayment` | week1/day4/processpayment.js:7-98 | a rejected request throws its validation error with no effect; an accepted one is a card or PayPal request and is charged as above |
| `LegacyPayment.LegacyRefundPayment` | week1/day4/processpayment.js:133-155 | exactly one post, to `/payments/refund`, of a record echoing the request and clock and netting 95% of the amount; success iff the client accepts, returning the posted record; otherwise the client's error |
| `LegacyPayment.ChargeAgrees` | week1/day4/processpayment.js:30-97 | at the default rate, the first version's steps after validation and the refactored ones give the same result and the same effects |
| `LegacyPayment.RefactoringPreservesPayment` | week1/day4/processpayment.js:18-97 | at the default rate, the refactored and original `processPayment` give the same result (transaction or error) and the same effects, endpoint and post body included |
| `LegacyPayment.RefactoringPreservesRefund` | week1/day4/processpayment.js:133-155 | the refactored and original `refundPayment` give the same record, post and outcome |
| `PaymentScenarios.ValidationScenarios` | week1/day4/processpayment.test.js:18-50 | the three validation failures of the suite throw their messages and cause no effect |
| `PaymentScenarios.DiscountScenarios` | week1/day4/processpayment.test.js:53-79 | SUMMER20 takes 100 to 80; WELCOME10 takes 50 to 40 |
| `PaymentScenarios.ConversionScenario` | week1/day4/processpayment.test.js:82-94 | 100 EUR becomes 100 times the default rate, that is 120 |
| `PaymentScenarios.FraudScenarios` | week1/day4/processpayment.test.js:97-130 | with level 1, 50 gets the light check and 150 the heavy check |
| `PaymentScenarios.ApiScenarios` | week1/day4/processpayment.test.js:133-159 | card payments are posted to `/payments/credit`, PayPal payments to `/payments/paypal`, each with the returned record |
| `PaymentScenarios.RefundScenarios` | week1/day4/processpayment.test.js:162-182 | a refund of 100 nets 95 and one of 50 nets 47.5; each is the single post, to `/payments/refund`, of the returned record |
| `PaymentScenarios.EndToEndScenario` | week1/day4/processpayment.test.js:53-65 | 100 USD by card with SUMMER20 and no fraud check gives original 100, final 80, currency USD, posted to `/payments/credit` |
| `Library.MessagesDistinct` | week1/day2/borrowBook.js:15-20 | the success and not-available messages never coincide, whatever the titles |
| `Library.FirstIndexOf` | week1/day2/borrowBook.js:19 | -1 iff the title is absent; otherwise a position holding the title with no copy before it |
| `Library.RemoveAt` | week1/day2/borrowBook.js:19 | taking out one position shortens the list by one, keeps the elements before it in place, shifts those after it down by one, and removes exactly that element from its multiset |
| `Library.BorrowBook` | week1/day2/borrowBook.js:14-21 | an absent title gives "Sorry, '<title>' is not available." and an unchanged list; a present title gives "You have borrowed '<title>'." and the list without its first copy, one shorter, with the title's count down by one |
| `Library.BorrowBookEarlier` | week1/day2/borrowBook.js:1-10 | the earlier version gives the not-available message and the same list for a missing title; otherwise the success message and the list without the title's first copy |
| `Library.BorrowVersionsAgree` | week1/day2/borrowBook.js:1-21 | both versions give the same message and the same list for every title and list |
| `Library.BorrowKeepsLaterCopies` | week1/day2/borrowBook.js:19 | books after the first copy shift down by one in order, so a later copy of the title stays available |
| `Library.BorrowAvailableScenario` | week1/day2/borrowBook.test.js:4-14 | borrowing "King Richard the Third" from the three-book list gives the success message and the other two books |
| `Library.BorrowUnavailableScenario` | week1/day2/borrowBook.test.js:16-22 | asking for "The Great Gatsby" gives the not-available message and the same list |
| `Utils.Sum` | week1/day3/utils.js:3 | subtracting either argument from the sum gives the other |
| `Utils.SumScenarios` | week1/day3/utils.test.js:17-19 | sum(2,2) is 4, sum(1,1) is not 3, sum(2,3) exceeds 4 |
| `Utils.CreateUser` | week1/day3/utils.js:5-9 | the user has the given name and age and the supplied clock reading |
| `Utils.FilterAdults` | week1/day3/utils.js:11 | every kept user is 18 or over; each adult is kept as often as in the input; the result is a subsequence of the input, so order is kept |
| `Utils.FilterAdultsIdempotent` | week1/day3/utils.js:11 | filtering an already filtered list returns it unchanged |
| `Utils.FindInArray` | week1/day3/utils.js:13 | true iff the value occurs in the array |
| `Utils.CheckJsonInput` | week1/day3/utils.js:15-18 | a missing or empty text fails with "No JSON string provided"; any other text is passed on unchanged |

## Left out

- Console output is not modelled: log lines, the email text and the analytics printout. The email and the analytics entry appear only as trace events. So do the risk classification and the post. The original's console-only lines ("Performing … fraud check", "Unknown discount code", "Payment sent to API", "Failed to send payment", "Refund processed") leave no event.
- Timestamps are not formatted. The clock is an input, and the ISO string of `toISOString()` is represented by the reading itself.
- Floating-point rounding is not modelled. Amounts are exact reals, so `100 * 0.8 = 80` holds exactly.
- `approximateDivision` is not modelled, because it is floating-point division.
- The `JSON.parse` call in `parseJSON` is not modelled, because it is a library call. Only the guard before it is.
- The API client's return value is not modelled. It is discarded by `processPayment` and `refundPayment`. Only whether `post` throws, and with what error, is modelled.
- The second copy of the class at week1/day4/processpaymentRefactored.js:189-376 is not modelled. It repeats lines 1-188 verbatim.
- The console calls at week1/day4/processpayment.js:102, 112 and 124 lack the backticks of a template literal, so that file does not parse as written. The model assumes the intended template literals; they only affect console text.
- Method names and discount codes are closed datatypes, recognised by exact string match. The refactored lookups `validators[method]` and `endpoints[method]` (week1/day4/processpaymentRefactored.js:71-75 and 150) and `this.discounts[code]` would also find inherited keys such as `toString` or `constructor`. With such a method name the refactored version calls the inherited function instead of throwing "Unsupported payment method", as the original does (week1/day4/processpayment.js:26-27). The model, and so the refactoring proof, leaves those names out.
- `PaymentProcessor.Validate`: a metadata field counts as given when it is a present non-empty string. JavaScript truthiness on non-string values is not modelled.
- `PaymentProcessor.RunFraudCheck`: the level is an integer. An omitted level (`undefined`) is not modelled. With it, `undefined <= 0` is false, so the refactored version would run the check; the original's `undefined > 0` is also false, so it would skip the check.
- `PaymentProcessor.ConversionRate`: a configured `NaN` rate, which `||` would also replace by 1.2, does not exist among reals.
- `Utils.Sum`: works on unbounded integers, not on JavaScript's double-precision numbers.
- The test file's import of `./payment-refactored` is not modelled, because that file is not part of this model. The refactored class is taken as the one under test.
- `Utils.FindInArray`: compares by value equality. The source's `indexOf` uses strict equality (`===`), so it never finds `NaN` and compares objects by identity; neither is modelled.
- `Library.BorrowBook`: returns the shortened list with the message. The source splices the caller's array in place and returns only the message.
- The intentionally failing tests and the matcher demonstrations in week1/day3/utils.test.js state no behaviour and are not modelled.
