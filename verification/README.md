# Interview credits: ledger and payment settlement

This project models the credit ledger of an AI mock-interview web application and the routes that change it:

- An interview costs 10 credits. `POST /api/interview/start` debits them in one Firestore transaction.
- Credits are bought through two payment providers:
  - **Razorpay.** An order route stores an `orders` document. Razorpay later confirms the payment to a signed webhook, which credits the order's owner and marks the order `completed`, or marks it `failed`. A separate route checks the client-side payment confirmation.
  - **Stripe Checkout.** A session route validates the requested pack against a fixed price table. The Stripe webhook credits the user named in the session's metadata.
- When an interview ends, `createFeedback` writes a feedback document holding the transcript statistics: counts by role, engagement level and mean answer length.

Firestore is modelled as a class `Docs.Db`. It has three map fields: `users`, `orders` and `feedback`. Each route that writes becomes a method whose `modifies` clause names exactly the collections that route touches. Each such method is proved equal to a pure function of the old state, and the properties are proved about those functions. Each `runTransaction` is one atomic step.

The following are parameters of the functions and methods:

- the HMAC-SHA256 hex digest, `hmac(key, message)`;
- Stripe's `webhooks.constructEvent`;
- `JSON.parse`;
- the gateway's `orders.create` and Stripe's `checkout.sessions.create`;
- whether the Firestore write of a new order succeeds;
- whether the Razorpay webhook's update of a captured order succeeds;
- the signed-in caller;
- environment variables;
- the AI assessment.

An exception that escapes a route handler becomes `Error(500)`.

The JavaScript conversions the routes depend on are modelled exactly over unbounded integers:

- `parseInt(s, 10)`: leading white space, a sign, the longest run of digits;
- `parseInt(s)` with no radix, as the Razorpay webhook calls it: the same, except that a `0x` or `0X` after the sign switches to hexadecimal digits;
- `s.length`, counted in UTF-16 code units: a character beyond the Basic Multilingual Plane counts twice;
- `String(n)`;
- `Number(v)` of a JSON value: trimming, empty string as 0, `0x`/`0o`/`0b` literals, decimal literals with fraction and exponent, `Infinity`.

The behaviours below follow the code. A design that reads more strongly would expect otherwise:

- The Razorpay webhook never looks at the order's status. A re-delivered `payment.captured` credits the owner again (`RazorpayWebhook.RedeliveryCreditsTwice`). A `payment.failed` overwrites any status, including `completed`, and leaves the credit in place (`RazorpayWebhook.FailureAfterCaptureKeepsCredit`).
- In the Razorpay webhook the credit transaction commits before the separate update of the order. If that update throws, the answer is 500 with the credit kept, and a redelivery credits again (`RazorpayWebhook.FailedUpdateThenRetryCreditsTwice`). An entity without `payment_id` is one way the update fails: Firestore refuses an `undefined` field value.
- The Razorpay webhook reads `notes.credits` with a radix-less `parseInt`, so "0x10" is 16 there (`RazorpayWebhook.HexNotesCreditSixteen`), while the Stripe webhook's `parseInt(…, 10)` reads it as 0 (`Js.HexReadings`).
- Neither the order route nor the Razorpay webhook refuses a negative credit count: both reject only a falsy value. An order placed with `credits: -5` is settled as a debit, and an owner who held nothing ends at -5 (`RazorpayWebhook.NegativeNotesDebitOwner`, `Flows.NegativeOrderDebitsOwner`). The Stripe webhook credits only a positive count, so its balances stay non-negative (`StripeWebhook.WebhookKeepsNonNegative`).
- The Stripe path writes no order record. Its webhook has no duplicate check either (`StripeWebhook.RedeliveryCreditsTwice`).
- The Stripe checkout route answers an unauthenticated caller with 400, not 401.
- In the interview-start route the 500 branch, a failed debit, is unreachable in the atomic model. A caller whose document does not exist reads as 0 credits and is already refused with 402 (`InterviewStart.Start`: the response is always 200, 401 or 402).

## Model

| member | source | states |
|---|---|---|
| Ledger.GetUserCredits | lib/actions/general.action.ts:181-184 | a missing user or a user without a `credits` field has 0 credits, otherwise the stored value |
| Ledger.Debit | lib/actions/general.action.ts:186-200 | commits iff the user exists and holds at least `amount`; if it does not commit, nothing changes; if it does, only that user changes and the new balance is exactly the old less `amount`, never negative |
| Ledger.DebitKeepsNonNegative | lib/actions/general.action.ts:192-194 | a debit of any amount keeps every balance non-negative |
| Ledger.Credit | app/api/stripe/webhook/route.ts:23-28 | for an existing user, only that user changes, and its balance (an absent one read as 0) rises by exactly the credits |
| Ledger.CreditUser | app/api/razorpay/webhook.ts:47-52 | the credit transaction over the database: the new `users` are those of `Credit` |
| Ledger.DeductUserCredits | lib/actions/general.action.ts:186-200 | the transaction over the database: its result and new `users` are those of `Debit` |
| InterviewStart.Start | app/api/interview/start/route.ts:5-19 | no caller gives 401; a balance below 10 gives 402; success iff signed in with at least 10 credits; any refusal leaves the users unchanged; on success only the caller changes, exactly 10 lower and never negative; the answer is always 200, 401 or 402 |
| InterviewStart.StartInterview | app/api/interview/start/route.ts:5-19 | the handler over the database answers and writes exactly what `Start` says |
| InterviewStart.FiveCreditsAreRefused | app/api/interview/start/route.ts:10-13 | a user holding 5 credits gets 402 and keeps 5 credits |
| Feedback.Answers | lib/actions/general.action.ts:83 | keeps exactly the `user` messages of the transcript, each as many times as it occurs there, and nothing else |
| Feedback.Questions | lib/actions/general.action.ts:84 | keeps exactly the `system` and `assistant` messages of the transcript, each as many times as it occurs there, and nothing else |
| Feedback.CountsFitTranscript | lib/actions/general.action.ts:83-84 | the answered and asked counts together never exceed the transcript's length |
| Feedback.Lengths | lib/actions/general.action.ts:86 | one entry per answer, each the length of that answer's content in UTF-16 code units |
| Feedback.Sum | lib/actions/general.action.ts:87 | the total of the lengths, which no single entry exceeds |
| Feedback.RoundedMean | lib/actions/general.action.ts:87 | `Math.round(sum / n)` for a non-negative mean: the integer r with 2nr <= 2·sum + n < 2n(r+1), that is, the nearest integer with halves rounded up |
| Feedback.ResponseLength | lib/actions/general.action.ts:86-87 | 0 when there are no answers, else the rounded mean of the answer lengths in the sense above |
| Feedback.RoundedMeanWithin | lib/actions/general.action.ts:87 | a rounded mean of values within [lo, hi] lies within [lo, hi] |
| Feedback.ResponseLengthWithin | lib/actions/general.action.ts:86-87 | the response length lies between the shortest and the longest answer, in UTF-16 code units |
| Feedback.EngagementLevel | lib/actions/general.action.ts:85 | `High` iff length >= 10, `Medium` iff 5 <= length < 10, `Low` iff length < 5 |
| Feedback.EngagementMonotone | lib/actions/general.action.ts:85 | a longer transcript never has a lower engagement level |
| Feedback.DefaultFeedback | lib/actions/general.action.ts:14-36 | the short-transcript record: type and level default to 'Unknown', total score 0, five categories all scored 0, no strengths, the fixed improvement hint and final assessment texts, both counts 0, engagement `Low`, response length 0 |
| Feedback.AssessedFeedback | lib/actions/general.action.ts:83-104 | carries the call's interview and user ids; scores, strengths, areas for improvement and final assessment come from the assessment, counts by role from the transcript (their sum at most its length), engagement and response length as defined above |
| Feedback.FeedbackRef | lib/actions/general.action.ts:106-112 | a truthy `feedbackId` is the document id, otherwise the generated id |
| Feedback.CreateFeedback | lib/actions/general.action.ts:9-121 | succeeds iff the transcript is short or the assessment is available; on failure nothing is written; on success the record is written under, and the answer returns, the `feedbackId` if one is given; the short-transcript record is the default one |
| RazorpayWebhook.OrderCredits | app/api/razorpay/webhook.ts:38 | absent or empty `notes.credits` read as 0; any other text is read by the radix-less `parseInt` |
| RazorpayWebhook.Payable | app/api/razorpay/webhook.ts:39-43 | an order passes the guard only with an owner and non-zero credits, so only with non-empty `notes.credits` |
| RazorpayWebhook.Capture | app/api/razorpay/webhook.ts:27-60 | credits the owner iff the order exists, has an owner, its `notes.credits` parses (radix-less) to non-zero credits, and the owner exists; otherwise 500 with nothing changed; when it credits, only the owner's balance changes, rising by exactly the parsed credits; then success iff the order update succeeds, the order becoming `completed` with the payment id; a failed update gives 500 with the credit kept and the order unchanged |
| RazorpayWebhook.MarkFailed | app/api/razorpay/webhook.ts:62-69 | a known order becomes `failed` whatever its status; an unknown one gives 500; no balance changes |
| RazorpayWebhook.Dispatch | app/api/razorpay/webhook.ts:26-79 | `payment.captured` with an entity is exactly `Capture`, `payment.failed` with an entity exactly `MarkFailed`, either without an entity 500 with no change; any other event changes nothing and is acknowledged; only `payment.captured` changes balances; no error changes the orders, and an error changes balances only when the order update failed |
| RazorpayWebhook.Webhook | app/api/razorpay/webhook.ts:5-80 | a missing or empty signature gives 400 with no change; a missing secret 500; a signature other than the body's digest under the secret gives 400 with no change; a matching signature gives 500 for an unparseable body and otherwise exactly `Dispatch` of the event; any success implies the signature matched; balances change only for `payment.captured`, and with an error only when the order update failed |
| RazorpayWebhook.SettleCaptured | app/api/razorpay/webhook.ts:29-60 | the credit transaction and then the order update over the database, equal to `Capture` with the same outcome of the update |
| RazorpayWebhook.SettleFailed | app/api/razorpay/webhook.ts:62-69 | the order update over the database, equal to `MarkFailed` |
| RazorpayWebhook.HandleWebhook | app/api/razorpay/webhook.ts:5-80 | the handler over the database answers and writes exactly what `Webhook` says |
| RazorpayWebhook.CaptureIgnoresStatus | app/api/razorpay/webhook.ts:27-60 | the outcome of a capture does not depend on the order's prior status |
| RazorpayWebhook.RedeliveryCreditsTwice | app/api/razorpay/webhook.ts:27-60 | two deliveries of the same captured payment raise the balance by twice the order's credits |
| RazorpayWebhook.FailedUpdateThenRetryCreditsTwice | app/api/razorpay/webhook.ts:47-59 | an order update failing after the credit gives 500, and the retried event credits the owner a second time |
| RazorpayWebhook.HexNotesCreditSixteen | app/api/razorpay/webhook.ts:38 | a payable order whose `notes.credits` is "0x10" credits 16 |
| RazorpayWebhook.NegativeNotesDebitOwner | app/api/razorpay/webhook.ts:38-51 | an order whose `notes.credits` is `String(n)` for a negative `n` is settled with 200, and takes an owner who held nothing to `n`, so balances no longer stay non-negative |
| RazorpayWebhook.FailureAfterCaptureKeepsCredit | app/api/razorpay/webhook.ts:62-69 | `payment.failed` after a capture marks the order failed and keeps the credit |
| RazorpayVerify.Complete | app/api/razorpay/verify.ts:7 | all three fields are present and non-empty |
| RazorpayVerify.SignedMessage | app/api/razorpay/verify.ts:12 | the message is the order id, one bar, then the payment id |
| RazorpayVerify.SplitAtBar | app/api/razorpay/verify.ts:12 | splits a message at its first bar into a bar-free head and the rest, `None` iff there is no bar |
| RazorpayVerify.SplitSignedMessage | app/api/razorpay/verify.ts:12 | splitting the signed message of a bar-free order id gives back the order id and payment id |
| RazorpayVerify.SignedMessageInjective | app/api/razorpay/verify.ts:12 | distinct (order id, payment id) pairs have distinct signed messages |
| RazorpayVerify.Verify | app/api/razorpay/verify.ts:4-26 | a missing field gives 400; verified iff all three fields are present and the signature equals the digest of `orderId|paymentId` under the key secret; a mismatch gives 400; an unreadable body or a missing secret gives 500 |
| StripeCheckout.PackPrice | app/api/stripe/create-checkout-session/route.ts:5-10 | the pack table is exactly 10→19, 100→99, 300→199, 1000→599, and no other credit count has a price |
| StripeCheckout.PackOf | app/api/stripe/create-checkout-session/route.ts:17-24 | accepted iff `Number(credits)` is an integer that is a pack key; only a number or a string is ever accepted |
| StripeCheckout.SessionFor | app/api/stripe/create-checkout-session/route.ts:26-48 | one line item in rupees, quantity 1, unit amount the pack price × 100; the metadata holds the caller and the `credits` as sent |
| StripeCheckout.CreateSession | app/api/stripe/create-checkout-session/route.ts:12-52 | an unauthenticated caller or an invalid pack gives 400 and no session; success iff a session is created, answering with its URL; every error is 400 or 500 |
| StripeCheckout.PackSession | app/api/stripe/create-checkout-session/route.ts:45-48 | the corrected session: same line item, and metadata credits that `parseInt` reads back as the pack |
| StripeCheckout.SessionForNumber | app/api/stripe/create-checkout-session/route.ts:35-47 | for credits sent as a JSON number the session built is exactly the corrected one |
| StripeCheckout.ChargedAsTen | app/api/stripe/create-checkout-session/route.ts:17-47 | any credits whose `Number` is 10 pass as the 10-credit pack, are charged 1900 paise, and reach the metadata as sent |
| StripeCheckout.ExponentCreditsDecimal | app/api/stripe/create-checkout-session/route.ts:17 | "1000e-2" read as a decimal literal is 10 |
| StripeCheckout.ExponentCreditsNumber | app/api/stripe/create-checkout-session/route.ts:17 | `Number("1000e-2")` is 10 |
| StripeCheckout.ExponentCreditsParsed | app/api/stripe/webhook/route.ts:20 | `parseInt("1000e-2", 10)` is 1000 |
| StripeCheckout.ExponentCreditsMisread | app/api/stripe/create-checkout-session/route.ts:17-47 | "1000e-2" is accepted as the 10-credit pack, charged 1900 paise, with metadata that `parseInt` reads as 1000 |
| StripeWebhook.SessionCredits | app/api/stripe/webhook/route.ts:20 | absent metadata and absent or empty credits read as 0; any other text is read by `parseInt(…, 10)` |
| StripeWebhook.Credits | app/api/stripe/webhook/route.ts:17-21 | a completed session with a truthy user id and positive parsed credits; such an event always carries non-empty credits in its metadata |
| StripeWebhook.Webhook | app/api/stripe/webhook/route.ts:5-33 | failed event construction gives 400 and no change; every constructed event is acknowledged; balances change iff the event is a completed session with a truthy user id, positive parsed credits and an existing user, and then only that user's balance rises by exactly those credits |
| StripeWebhook.HandleWebhook | app/api/stripe/webhook/route.ts:5-33 | the handler over the database answers and writes exactly what `Webhook` says |
| StripeWebhook.RedeliveryCreditsTwice | app/api/stripe/webhook/route.ts:17-29 | two deliveries of the same completed session add twice its credits to the user |
| StripeWebhook.CreditNeverLowers | app/api/stripe/webhook/route.ts:17-29 | no user disappears and no balance drops |
| StripeWebhook.WebhookKeepsNonNegative | app/api/stripe/webhook/route.ts:17-29 | non-negative balances stay non-negative |
| RazorpayOrder.Filled | app/api/razorpay/order/route.ts:19 | both `credits` and `amount` are non-zero |
| RazorpayOrder.GatewayRequest | app/api/razorpay/order/route.ts:45-51 | the gateway amount is `amount` × 100 paise in INR, and `notes.credits` reads back under the webhook's radix-less `parseInt` as the requested credits |
| RazorpayOrder.NewOrder | app/api/razorpay/order/route.ts:56-63 | the stored order has the caller, the requested amount and credits, status `created` and no payment, and the webhook will credit exactly the requested credits for it |
| RazorpayOrder.Place | app/api/razorpay/order/route.ts:44-78 | success iff the gateway creates an order and the write succeeds, storing the new order under the gateway's id; otherwise 500 and nothing stored |
| RazorpayOrder.CreateOrder | app/api/razorpay/order/route.ts:6-86 | an unparseable body or a zero `credits` or `amount` gives 400; no caller gives 401; missing credentials give 500; in none of these cases is anything created; success iff everything passes, storing the order under the gateway id; errors store nothing |
| RazorpayOrder.CreateOrderLegacy | app/api/razorpay/order.ts:6-45 | an unparseable body gives 500; zero `credits` or `amount` gives 400; no caller gives 401; success iff the gateway and the write succeed, storing the order under the gateway id; errors store nothing |
| RazorpayOrder.PlaceOrder | app/api/razorpay/order/route.ts:44-78 | the gateway call and the write over the database, equal to `Place` |
| RazorpayOrder.HandleCreateOrder | app/api/razorpay/order/route.ts:6-86 | the handler over the database answers and writes exactly what `CreateOrder` says |
| RazorpayOrder.HandleCreateOrderLegacy | app/api/razorpay/order.ts:6-45 | the handler over the database answers and writes exactly what `CreateOrderLegacy` says |
| RazorpayOrder.AnyPairIsAccepted | app/api/razorpay/order/route.ts:16-22 | as written, 1000 credits for 1 rupee is accepted and stored, leaving an order that is not priced by the pack table |
| RazorpayOrder.CreatePricedOrder | app/api/razorpay/order/route.ts:16-22 | corrected: a request whose amount is not its pack's price gives 400 and stores nothing; a priced request (or an unreadable body) gets exactly the route's answer and write |
| RazorpayOrder.CreatePricedOrderKeepsPriced | app/api/razorpay/order/route.ts:56-63 | the corrected route keeps every stored order priced by the pack table |
| Flows.OrderThenCaptureCreditsRequested | app/api/razorpay/webhook.ts:32-59 | an order placed by a signed-in caller and then captured credits exactly the requested credits and completes the order |
| Flows.PricedCaptureCreditsPack | app/api/razorpay/webhook.ts:38-51 | with priced orders, every capture credits a pack whose price is the order's amount |
| Flows.CheckoutThenWebhookCreditsPack | app/api/stripe/webhook/route.ts:19-27 | a pack bought with its credits sent as a number is credited exactly that pack |
| Flows.PackSessionThenWebhookCreditsPack | app/api/stripe/webhook/route.ts:19-27 | with the corrected session, every accepted request is credited exactly the priced pack |
| Flows.ExponentCheckoutCreditsThousand | app/api/stripe/webhook/route.ts:19-27 | as written, the session for "1000e-2" is charged as the 10-credit pack and credits 1000 |
| Flows.BuyThenStart | app/api/interview/start/route.ts:10-18 | a new user buying the 100-credit pack holds 100 credits, then starts an interview and holds 90 |
| Flows.ThousandCreditsForOneRupee | app/api/razorpay/webhook.ts:38-51 | as written, a captured 1-rupee order grants 1000 credits |
| Flows.NegativeOrderDebitsOwner | app/api/razorpay/order/route.ts:19-62 | the order route places an order with any negative credit count and a non-zero amount, and its capture leaves an owner who held nothing at that negative balance |
| Js.ParseInt | app/api/stripe/webhook/route.ts:20 | `parseInt(s, 10)` is a number iff a digit follows the leading white space and sign; it is negative only after a minus sign |
| Js.ParseIntAuto | app/api/razorpay/webhook.ts:38 | `parseInt(s)`: without a `0x`/`0X` prefix after the sign the same as `parseInt(s, 10)`; with one, a number iff a hexadecimal digit follows the prefix; negative only after a minus sign |
| Js.ParseIntOfZeroText | app/api/razorpay/webhook.ts:38 | the fallback "0" reads as 0 with or without a radix |
| Js.ParseIntOfString | app/api/stripe/webhook/route.ts:20 | `parseInt(String(n), 10) === n` for every integer n |
| Js.ParseIntAutoOfString | app/api/razorpay/webhook.ts:38 | `parseInt(String(n)) === n` for every integer n |
| Js.HexReadings | app/api/razorpay/webhook.ts:38 | `parseInt("0x10")` is 16 while `parseInt("0x10", 10)` is 0 |
| Js.StringToNumber | app/api/stripe/create-checkout-session/route.ts:17 | `Number` of an empty or all-white-space string is 0 |
| Js.ToNumber | app/api/stripe/create-checkout-session/route.ts:17 | an absent field or a fractional number is never an integer; an integer is itself; `null` and `false` are 0; a string is read as a numeric literal |
| Js.Utf16Length | lib/actions/general.action.ts:86 | the UTF-16 length lies between the number of characters and twice that |
| Js.Utf16LengthOfBmp | lib/actions/general.action.ts:86 | a string within the Basic Multilingual Plane has one code unit per character |
| Js.Utf16LengthOfAstral | lib/actions/general.action.ts:86 | a character beyond the Basic Multilingual Plane has length 2 |
| Js.ParseIntStopsAtNonDigit | app/api/stripe/webhook/route.ts:20 | `parseInt` of digits followed by a non-digit reads only the digits |
| Js.StringToNumberOfString | app/api/stripe/create-checkout-session/route.ts:17 | `Number(String(n)) === n` for every integer n |
| Js.LeadingDigits | app/api/razorpay/webhook.ts:38 | the length of the longest all-digit prefix |
| Js.TrimStartSuffix | app/api/razorpay/webhook.ts:38 | trimming leading white space keeps a suffix of the input |
| Js.TrimEndPrefix | app/api/stripe/create-checkout-session/route.ts:17 | trimming trailing white space keeps a prefix of the input |
| Js.NatToDigitsValue | app/api/razorpay/order/route.ts:50 | the decimal digits of n have the value n |
| Js.IntToString | app/api/razorpay/order/route.ts:50 | `String(n)` is non-empty and starts with a minus sign or a digit |

## Left out

- Floating point: JavaScript numbers are modelled as exact integers. Outside the integers, the model only records whether a number is NaN, an integer or something else. Precision loss, `-0` and numbers too large for their text to be plain decimal (from 1e21 up) are not modelled.
- JSON request bodies: the order routes take `credits` and `amount` as integers. A body that parses to `null`, and string or fractional values of those fields, are not modelled. The checkout route's `credits` may be any JSON scalar; arrays and objects are not modelled.
- Firestore failures: only the write of a new order and the Razorpay webhook's update of a captured order may fail. Other reads and writes always succeed, and `doc()` of an invalid id is not modelled. In `createFeedback`, a failing write (answered with `success: false`) is not modelled.
- RazorpayWebhook.Capture: the payment entity always carries a `payment_id`. An entity without one makes the order update throw after the credit, and is represented only as a failing update (`updated` false).
- The order routes' credentials: order.ts passes possibly missing credentials to the gateway client unchecked. Their absence shows only as a failing `create`.
- Concurrency: transaction retries and interleavings of concurrent requests are not modelled. Each handler is one sequential step, and each transaction is atomic. The race between `getUserCredits` and `deductUserCredits` in the interview-start route is therefore not visible.
- Timestamps, receipts and logging: `createdAt`, `completedAt`, `failedAt`, the receipt string and console output are not modelled. So are the fixed session fields (payment method types, mode, return URLs).
- Other fields: user documents have only `credits`; the gateway's order object keeps only its id.
- The AI assessment is an input. The prompt text is not modelled, and neither is the interview-generation route.
- The Firestore query helpers `getInterviewById`, `getFeedbackByInterviewId`, `getLatestInterviews` and `getInterviewsByUserId` are not part of this model.
- HMAC-SHA256 and Stripe's event construction are uninterpreted parameters. Nothing about their cryptographic strength is assumed.

## Findings

| source | as written | input that shows it | evidently intended | confidence | as-written member | corrected member |
|---|---|---|---|---|---|---|
| app/api/razorpay/order/route.ts:16-22 | any non-zero `credits` and `amount` pair is accepted, sent to the gateway and stored; the webhook then credits `credits` for a payment of `amount` | `{credits: 1000, amount: 1}` from any signed-in user | the amount must be the price of the requested pack, as the checkout route's table sets it | medium, not executed | RazorpayOrder.AnyPairIsAccepted | RazorpayOrder.CreatePricedOrder |
| app/api/stripe/create-checkout-session/route.ts:17-47 | the pack is chosen by `Number(credits)`, but the session metadata carries `credits` as sent, and the webhook reads it with `parseInt` | `{credits: "1000e-2"}` is charged as the 10-credit pack (19 rupees) and credits 1000 | the metadata carries the validated pack number | high, not executed | StripeCheckout.ExponentCreditsMisread | StripeCheckout.PackSession |
