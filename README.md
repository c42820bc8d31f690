# Gym-subscription checkout broker: a Dafny model

This project models the request-handling core of a small Express service that
brokers gym-subscription payments through the ArifPay gateway (`index.js`):

- **Create checkout** (`POST /api/create-subscription-checkout`). The handler
  checks that `userId`, `gymId`, `planId`, `amount`, `phone` and `email` are all
  truthy. If one is not, it answers 400 `"Missing required fields"`. Otherwise
  it builds the checkout-session payload and sends it to the gateway. The payload
  holds one line item, four callback URLs, a nonce, a 30-minute expiry, one
  beneficiary, `["TELEBIRR"]` and `"EN"`. The gateway outcome becomes a 200
  success envelope or a 500 error envelope.
- **Check status** (`POST /api/payment/status`). A falsy `sessionId` is answered
  400 `"sessionId is required"`. Otherwise the handler reads
  `https://gateway.arifpay.org/api/checkout/session/<sessionId>` and passes the
  gateway's document through, or answers 500 with details.

Everything is pure. The clock reading (`now`, epoch milliseconds) and the
environment (`Config`: the four callback bases, beneficiary account and bank)
are parameters. Each gateway call is a function parameter from the request it
would send to its outcome. "No gateway call is made" is stated as: the answer is
the same for every such function.

Modules, one file each:

- `Wrappers`: `Option`.
- `Js`: JSON values and JavaScript truthiness.
- `Decimal`: rendering of naturals as template literals do, and reading them back.
- `Text`: split, join, cut at first occurrence.
- `Query`: composing `base?k=v&...` and a literal reader of a URL's query.
- `Envelopes`: gateway outcomes, the `details` rule, and HTTP responses.
- `Checkout`: the create-checkout handler.
- `SessionStatus`: the status handler.

Notes on the source's behaviour that the model keeps:

- An empty or absent `sessionId` is answered 400 by the status handler itself, before any gateway call (index.js:110-112).
- The line item's image is always the fixed placeholder URL (index.js:51).
- `details` is the upstream response body only when that body is truthy; otherwise it is `err.message` (index.js:98, 125).
- A nonce determines the instant it was made at, but not its ids (`Checkout.NonceAmbiguousInIds`).

## Model

| member | source | states |
|---|---|---|
| `Decimal.Render` | index.js:62 | the rendering of `Date.now()` (and of `durationDays`, line 50) is a non-empty string of decimal digits with no leading zero |
| `Decimal.ParseRender` | index.js:62 | reading a rendered number back gives the number: the rendering loses nothing |
| `Decimal.RenderInjective` | index.js:62 | two numbers have the same rendering if and only if they are equal |
| `Envelopes.FailureDetails` | index.js:98 | `details` is the upstream body exactly when a response body exists and is truthy, and the error message otherwise |
| `Checkout.PlanCheckout` | index.js:38-74 | the handler rejects exactly when one of the six required fields is falsy (so `amount = 0` and `""` reject), answering 400 "Missing required fields"; otherwise the one payload it sends is the one built from the request |
| `Checkout.SubscriptionItem` | index.js:46-52 | the line item's name is `<gymName> - <planName>`, its description `<planName> subscription for <durationDays> days at <gymName>`, its image the fixed placeholder, its price the request's amount, and its quantity the given quantity when truthy and 1 otherwise (never 0) |
| `Checkout.BuildPayload` | index.js:46-74 | exactly one item, the subscription item, and one beneficiary; the nonce is `<userId>_<planId>_<ms>` and names the instant; the success, cancel and error URLs are the composed callback URLs; item price and beneficiary amount both equal `amount`; quantity is the given quantity when truthy and 1 otherwise, never 0; beneficiary account and bank come from the configuration; expiry is 1,800,000 ms after the instant; methods `["TELEBIRR"]`, language `"EN"`; notify URL is the configured base unchanged; phone and email passed through |
| `Checkout.CheckoutResponse` | index.js:86-99 | a gateway reply gives 200 with `success = true` and message "Checkout session created successfully", each of sessionId, paymentUrl, cancelUrl being the gateway `data` field when present and absent otherwise; a failure gives 500 with error "Failed to create subscription checkout" and the `details` rule |
| `Checkout.CreateCheckout` | index.js:22-101 | the whole create handler: the status is 400 exactly when a required field is falsy, and then the answer is 400 "Missing required fields"; for a valid request the answer is the shaping of the gateway's answer to the built payload; the status is always 200, 400 or 500 |
| `Checkout.MissingFieldsSkipGateway` | index.js:39-43 | for a request missing a required field the answer is 400 "Missing required fields" and is the same whatever the gateway would answer: no call takes place |
| `Checkout.NonceRecoversInstant` | index.js:62 | the number after the last `_` of a nonce is the instant it was made at, whatever the ids contain |
| `Checkout.NonceInjectiveInInstant` | index.js:62 | nonces made at different instants never collide, for the same or for different userId and planId |
| `Checkout.NonceAmbiguousInIds` | index.js:62 | ids holding `_` can produce the same nonce at the same instant (`a_b`,`c` and `a`,`b_c`) |
| `Checkout.SuccessUrlQuery` | index.js:59 | the success URL is the success base followed by `?userId=…&gymId=…&planId=…` and nothing else, unencoded |
| `Checkout.CancelUrlQuery` | index.js:56 | the cancel URL is the cancel base followed by `?userId=…&subscriptionId=<planId>` and nothing else, unencoded |
| `Checkout.ErrorUrlQuery` | index.js:57 | the error URL is the error base followed by `?userId=…` and nothing else |
| `Checkout.CallbackUrlsCarryContext` | index.js:56-59 | with bases free of `?` and ids free of `&`, reading each callback URL's query gives back exactly userId, gymId, planId (success), userId, subscriptionId = planId (cancel), userId (error); the notify URL is the base unchanged |
| `Checkout.AmpersandInIdInjectsParameter` | index.js:59 | because nothing is encoded, a userId `u&gymId=x` makes the success URL carry userId `u` and a second, earlier gymId `x` |
| `Checkout.PayloadIgnoresUserName` | index.js:24-74 | the `userName` the client sends has no effect on the payload |
| `Checkout.ExampleCheckoutSucceeds` | index.js:22-92 | a typical request (u1, g1, p1, Iron Gym, Monthly, 30 days, 500) with a gateway returning session s1 yields 200 with s1, its payment URL and its cancel URL, and the success message |
| `Checkout.ExampleCheckoutRejected` | index.js:94-99 | the same typical request with a gateway that fails with a truthy body yields 500 "Failed to create subscription checkout" with that body as details |
| `SessionStatus.StatusUrl` | index.js:116 | the status URL is the fixed prefix `https://gateway.arifpay.org/api/checkout/session/` followed by the sessionId verbatim |
| `SessionStatus.PlanStatus` | index.js:110-118 | the handler rejects exactly when sessionId is falsy, answering 400 "sessionId is required"; otherwise the URL string it passes to the HTTP client is exactly the prefix followed by sessionId |
| `SessionStatus.StatusResponse` | index.js:119-126 | a gateway reply is 200 with the gateway's document unchanged; a failure is 500 "Failed to check payment status" with the `details` rule |
| `SessionStatus.CheckStatus` | index.js:106-129 | the whole status handler: the status is 400 exactly when sessionId is falsy, and then the answer is 400 "sessionId is required"; otherwise the answer is the shaping of the gateway's answer for the status URL string of that sessionId; the status is always 200, 400 or 500 |
| `SessionStatus.MissingSessionIdSkipsGateway` | index.js:110-112 | a falsy sessionId yields 400 and the same answer whatever the gateway would answer: no call takes place |
| `SessionStatus.StatusUrlInjective` | index.js:116 | distinct sessionIds give distinct status URL strings (what the HTTP client makes of a string is not modelled) |

## Left out

- Express bootstrap, JSON and CORS middleware, and the listening port (index.js:1-10, 156-160): server plumbing with no behaviour to state.
- The HTML pages of the success, cancel and error redirects and the notify webhook's constant `{received: true}` acknowledgment (index.js:132-154): fixed display strings and a constant reply.
- Environment loading: the callback bases, account and bank are an immutable `Config` value. An unset variable, which the source renders as `"undefined"` inside a URL, is not modelled.
- The API-key header and the gateway endpoint of the create call (index.js:13-16, 77-81): the outbound call is a function parameter, without its headers, its address or its asynchrony.
- Logging through `console.log` and `console.error`: a side effect only.
- `toISOString` on the expiry (index.js:64): calendar formatting. The expiry is kept in epoch milliseconds.
- The two separate `Date.now()` readings (index.js:62, 64) are one instant `now` in the model. In the source they can differ by a millisecond or more.
- Request fields are typed. Identifiers, phone and email are optional strings; amount and quantity are optional integers. Non-string identifiers, fractional, `NaN` or string amounts, and the value `false` are not modelled.
- Display fields: `gymName` and `planName` are plain strings and `durationDays` is a natural rendered in decimal. JavaScript's rendering of an absent value as `"undefined"` is not modelled.
- A gateway reply whose body is `null` makes the source throw a `TypeError` inside the `try` and answer 500 with that error's message. The model's replies always carry an object body.
- Non-string `sessionId`, `paymentUrl` or `cancelUrl` values inside the gateway's `data` are not modelled.
- `Decimal.Render`: plain decimal only; JavaScript's exponent form for numbers of 10^21 and above is not modelled.
- `Checkout.CallbackUrlsCarryContext`: it is stated for bases without `?` and ids without `&`. The reader it uses is literal. It does not percent-decode, treat `+` or `#`, or turn repeated keys into arrays, as Express's query parser does.
- The HTTP client's parsing of the status URL string (index.js:115-118) is not modelled: a `#` in a sessionId starts a fragment that is not sent, a `?` starts a query, and `../` segments leave the `/api/checkout/session/` path, so distinct sessionIds can reach the same resource.
