# Checkout-to-draft-order relay: a Dafny model

This project models the request shaping and request gating of a small relay
between a storefront and its platform's admin API. The relay receives
checkout webhooks and manual requests, checks a webhook signature where the
handler has one, answers the caller, and turns the checkout or cart into the
body of a `draft_order` creation request. The repository holds five
near-duplicate handlers. Each one is modelled on its own because they differ
in small, observable ways:

- `api/helpers/draftOrder.js`, `createDraftOrderFromCheckout`: module `CheckoutMapping`, function `DraftOrderFromCheckout`.
- `api/checkout.js`, `getRawBody`, `verifyWebhook` and `handler`: modules `RawBody`, `Signatures` (`VerifyRaw`) and `CheckoutWebhook`.
- `api/draft-orders.js`, `handler`: modules `CustomItems` and `ManualDraftOrders`.
- `api/create-draft-order.js`, `handler`: module `CartDraftOrder`.
- `server.js`, `verifyWebhook` (`Signatures.VerifySerialized`), the webhook
  route, `createDraftOrderWithProperties`, the manual route and the
  add-custom-item route: modules `CheckoutMapping`
  (`BuildLineItem`, `DraftOrderWithProperties`), `CustomItems` and `ServerRoutes`.

## How the model is built

- **JavaScript values.** Fields the handlers pass through or test for
  truthiness have type `JsValues.Value`: undefined, null, booleans, numbers,
  strings, arrays and objects. `Truthy`, `Or` (`||`), `Coalesce` (`??`) and
  `Member` (a property read) give the JavaScript rules the defaults depend on.
  So `quantity || 1` turns 0, `""`, null and undefined into 1. And
  `taxable ?? true` replaces null, while `taxable !== undefined ? taxable : true`
  keeps it.
- **Records.** Inbound records (`Checkout`, `CheckoutLine`, `CustomItem`,
  `CartItem`) and outbound ones (`LineItem`, `DraftOrderPayload`) are
  datatypes. A key that a handler leaves out is `None`. A line item that a
  handler builds is either `Catalog` (variant, quantity, properties) or
  `Custom` (title, price, quantity, taxable, properties), so no item the
  handlers build has both shapes. Line items the handlers only forward are
  `PassThrough(item)`, holding the JavaScript value as it came, whatever keys
  it has. These are the caller's `lineItems` on the manual endpoints and the
  fetched order's `line_items` on the add-custom-item route.
- **Handlers.** Each handler is a function from its inputs to a `Run`. A run
  lists the handler's effects in order: reading the body, parsing it, each
  response, and each downstream call (create, complete, fetch, update). It
  also records whether an exception escaped the handler. The answer of each
  downstream call is an input value: `Success(order, data)`,
  `HttpError(status, data)` or `NetworkError`.
- **Foreign primitives.** The keyed hash is HMAC with SHA-256 (RFC 2104),
  with its digest in base64 (section 4 of RFC 4648). It is passed in as a
  function inside `Signatures.Crypto`, together with the UTF-8 encoding that
  `Buffer.from` applies. `JSON.parse` and `JSON.stringify` are passed in as
  functions too.
- **Loops.** The loops of the source are methods, each proved equal to the
  function the handlers use:
  - `RawBody.GetRawBody`: the `for await` chunk loop.
  - `CustomItems.MergeLineItems`: the `forEach`/`push` merge of the manual endpoints.
  - `CheckoutMapping.BuildLineItem`: the property `push` loop of server.js.

## Where the code departs from its intended behaviour

The model follows the code in every case below.

- A webhook signature is meant to be computed over the raw request bytes
  and compared in constant time, as `api/checkout.js` does. `server.js` hashes
  `JSON.stringify(req.body)` and compares with `===`.
  `Signatures.SerializedVersusRaw` shows when this still accepts a genuine
  delivery, and when it rejects one.
- Verification is meant to be skipped when no secret is configured. `server.js`
  does that. `api/checkout.js` does not: `createHmac` throws on an unset secret.
  So no request is acknowledged there (`CheckoutWebhook.NoBypassWithoutSecret`).
- In `api/checkout.js`, `Buffer.from` throws when the header is missing, and
  `timingSafeEqual` throws when the header's encoding differs in length from
  the digest's. Either way the outcome is an escaped exception, not a 401.
- Only `api/create-draft-order.js` validates its input, with a 400 for a
  missing or empty cart. The manual endpoints post an empty or missing
  `lineItems` as it is.
- After the webhook of `server.js` has acknowledged, its catch block calls
  `res.status(500).json(...)`. `res.status` only records the code, but the
  headers are already sent, so the chained `.json` call throws. The
  model records an escaped exception and exactly one response
  (`ServerRoutes.WebhookFailureAfterAck`).
- `api/create-draft-order.js` runs the CORS middleware first. That middleware
  answers an `OPTIONS` preflight itself with 204 and never hands control back,
  so OPTIONS is the one non-POST method that does not get a 405.

## Model

| member | source | states |
|---|---|---|
| `CheckoutMapping.ProjectedProperties` | api/helpers/draftOrder.js:9 | absent properties give `[]`; otherwise the same length and order, each entry reduced to `{name, value}` with every other key dropped |
| `CheckoutMapping.CatalogLinesShape` | api/helpers/draftOrder.js:5-11 | the mapped line items have the checkout's length and order; the i-th is a catalog item with the i-th variant, quantity and projected properties |
| `CheckoutMapping.CheckoutPayloadLines` | api/helpers/draftOrder.js:13-15 | the helper's body has exactly the checkout's line items, mapped in order; an empty checkout gives an empty list and no local error |
| `CheckoutMapping.CheckoutPayloadFields` | api/helpers/draftOrder.js:16-22 | customer is `{id}` only when a customer is truthy and left out otherwise; email and both addresses are verbatim; note embeds the token; tags are `custom-properties,checkout-conversion`; `use_customer_default_address` is true |
| `CheckoutMapping.BuildLineItem` | server.js:90-109 | the push loop that builds each line item's properties yields the same line item as the projection: variant, quantity, and one `{name, value}` per input property in order |
| `CheckoutMapping.PropertiesPayloadFields` | server.js:112-124 | the server's body keeps the line items in order with projected properties; it always has a `customer` object, whose id is undefined without a customer; tags are `custom-properties,metaobject-variant`; addresses and email are verbatim |
| `CheckoutMapping.MappersAgreeOnLines` | server.js:87-124 | the two webhook mappers build identical line items; their customer fields agree when a customer is given, and differ (left out versus `{id: undefined}`) when none is |
| `CustomItems.DefaultQuantity` | api/draft-orders.js:18 | the quantity is always truthy: a truthy quantity is kept and any falsy one becomes 1 |
| `CustomItems.QuantityDefaults` | server.js:191 | undefined and 0 become 1, every other number is kept, and the result is 1 exactly when the input is falsy or already 1 |
| `CustomItems.TaxableDefaults` | api/draft-orders.js:19 | both rules turn an undefined `taxable` into true and keep an explicit false; they disagree exactly on null, which `??` replaces and `!== undefined` keeps |
| `CustomItems.CustomLinesRulesAgree` | server.js:192 | without a null `taxable`, the server's rule and the `??` rule build identical custom lines |
| `CustomItems.MergeLineItems` | api/draft-orders.js:11-23 | the copy-then-push loop yields exactly the merged list: `lineItems` (or nothing), then one custom line per custom item |
| `CustomItems.MergedLineItemsShape` | server.js:183-196 | the merged length is the sum of both lengths; `lineItems` is an unchanged prefix; the j-th custom item gives the next entry, with title and price copied, quantity and taxable defaulted, properties or `[]`, and no variant |
| `CustomItems.AppendCustomItemShape` | server.js:246-255 | adding a custom item keeps every existing line item unchanged and grows the list by exactly one defaulted custom line |
| `CustomItems.AppendIsSingleMerge` | server.js:246-255 | appending one item is the server's manual merge applied to that single custom item |
| `RawBody.GetRawBody` | api/checkout.js:12-18 | the chunk loop returns the concatenation of the received chunks, and its length is the sum of their lengths |
| `RawBody.ConcatAppend` | api/checkout.js:14-17 | concatenating two runs of chunks gives the two concatenations joined |
| `RawBody.ConcatLength` | api/checkout.js:17 | the body is exactly as long as all chunks together |
| `RawBody.ConcatChunkAt` | api/checkout.js:14-17 | arrival order is kept: the body is what arrived before chunk i, then chunk i, then what arrived after it |
| `RawBody.ConcatPrefix` | api/checkout.js:14-17 | the bytes of the chunks that have arrived so far are a prefix of the whole body |
| `Signatures.VerifyRawVerdicts` | api/checkout.js:20-28 | the raw check accepts exactly when a secret and a header exist and the header encodes to the digest of the raw bytes; it throws when either is missing or their encodings differ in length; a mismatch means the encodings differ |
| `Signatures.VerifyRawAcceptsGenuine` | api/checkout.js:21-27 | a delivery signed with the configured secret over its exact bytes is accepted |
| `Signatures.SerializedVersusRaw` | server.js:11-19 | the check over `JSON.stringify(req.body)` accepts only what the raw check accepts when the re-serialisation reproduces the signed bytes, and rejects a genuinely signed delivery whenever the digest of the re-serialised body differs |
| `CheckoutWebhook.RejectsOtherMethods` | api/checkout.js:31-33 | a non-POST is answered 405 before the body is read, and nothing goes downstream |
| `CheckoutWebhook.ForwardsOnlyVerified` | api/checkout.js:35-49 | a draft order is requested exactly when a POST's raw bytes verify and parse, and then exactly once, with the mapped checkout |
| `CheckoutWebhook.UnauthorizedOnMismatch` | api/checkout.js:38-40 | 401 is sent exactly on a mismatching signature; then the body is never parsed and nothing goes downstream |
| `CheckoutWebhook.NoBypassWithoutSecret` | api/checkout.js:35-40 | with no secret the check still runs and throws, so nothing is acknowledged or forwarded |
| `CheckoutWebhook.OneResponseUnlessEscaped` | api/checkout.js:31-54 | at most one response is sent, and exactly one unless an exception escaped the handler |
| `CheckoutWebhook.AcknowledgeThenForward` | api/checkout.js:35-50 | the body is parsed only on a POST whose signature matched, and only after it was read; the 200 acknowledgment precedes every downstream call |
| `CheckoutWebhook.AcceptsGenuineDelivery` | api/checkout.js:35-46 | a POST signed over its exact bytes that parses is answered 200 `Webhook received` and forwarded once with the mapped checkout |
| `ManualDraftOrders.ManualPayloadFields` | api/draft-orders.js:25-32 | the manual body has `lineItems` unchanged as a prefix followed by one custom line per custom item; customer and email are verbatim; the note is `Manual draft order creation` |
| `ManualDraftOrders.RejectsOtherMethods` | api/draft-orders.js:4-6 | a non-POST is answered 405, with no downstream request |
| `ManualDraftOrders.ManualFlowOutcome` | api/draft-orders.js:8-49 | exactly one response; with a body, exactly one post before it; 201 with the downstream body on success; 500 on an HTTP error and on a network error; a missing body gives 500 with no request |
| `ManualDraftOrders.GiftWrapScenario` | api/draft-orders.js:13-23 | one gift-wrap custom item with no `lineItems` gives exactly one line item, with quantity 1 and taxable true, under either rule |
| `CartDraftOrder.RejectsOtherMethods` | api/create-draft-order.js:5-8 | a non-POST is answered 405, except the preflight the CORS middleware answers with 204; nothing goes downstream |
| `CartDraftOrder.RejectsEmptyCart` | api/create-draft-order.js:13-15 | 400 is sent exactly for a POST whose `cartItems` is missing, not an array, or empty; then nothing goes downstream |
| `CartDraftOrder.MissingBodyFails` | api/create-draft-order.js:10-67 | a POST without a body is answered 500, with nothing sent downstream and no exception escaping |
| `CartDraftOrder.CartPayloadFields` | api/create-draft-order.js:18-35 | cart lines keep length and order and copy variant, quantity and properties verbatim (or `[]`); a falsy note becomes `Custom order with properties`; tags are `custom-properties`; the `customer` key is present exactly when the customer is truthy, and holds only its id |
| `CartDraftOrder.OutcomeIsNotValidation` | api/create-draft-order.js:57-67 | no downstream outcome produces the validation response; an error with a truthy body keeps its status and carries that body as `details` |
| `CartDraftOrder.CartOutcome` | api/create-draft-order.js:48-67 | a valid cart posts once and gets one response: 201 with `draft_order_id` the draft id and `checkout_url` its invoice URL; a downstream error with a body keeps its status, with the body as `details`; any other failure gives 500 |
| `ServerRoutes.WebhookGate` | server.js:66-79 | exactly one response; with a secret set and a failing signature it is 401, and nothing goes downstream; otherwise it is 200, and the mapped checkout is posted once, after it |
| `ServerRoutes.WebhookSkipsUnsetSecret` | server.js:68-70 | when the secret is unset or empty, the run does not depend on the signature header |
| `ServerRoutes.AutoCompleteRule` | server.js:141-143 | the created draft order is completed, with its own id, exactly when the webhook is admitted, creation succeeded and `AUTO_COMPLETE_DRAFT_ORDER` is exactly `"true"` |
| `ServerRoutes.WebhookFailureAfterAck` | server.js:76-83 | an exception escapes exactly when an admitted forward fails (creation, or completion when asked for); the only response is then the acknowledgment already sent |
| `ServerRoutes.ManualRoutesAgree` | server.js:178-227 | the server's manual route and api/draft-orders.js behave alike on a POST, unless some custom item has a null `taxable`; when `req.body` is undefined both answer 500 and send nothing |
| `ServerRoutes.AddCustomItemOutcome` | server.js:230-282 | one response: 200 with the downstream body when fetch and update succeed, 500 otherwise; given a body, the first effect is the fetch of that order id; without one nothing goes downstream; the update exists exactly after a successful fetch, comes after the fetch, goes to the same order id, and holds the existing line items unchanged followed by one new custom line |

## Left out

- Outbound HTTPS through axios: URLs, headers, the API version and timeouts. Each call is a `PostDraftOrder`, `CompleteDraftOrder`, `GetDraftOrder` or `PutDraftOrder` effect, and its answer is an input value.
- HMAC-SHA256, base64 and UTF-8 internals, and the timing behaviour of `timingSafeEqual`. These are foreign primitives, passed in as functions.
- `JSON.parse` and `JSON.stringify`. They are passed in as functions; a parse that throws is `None`.
- Signatures.VerifyRawVerdicts: acceptance is stated as equality of the encoded bytes, not of the strings, because the UTF-8 encoder is abstract and its injectivity is not assumed.
- CORS headers and the middleware wrapper in `api/helpers/cors.js`. They are library configuration; only the preflight answer that short-circuits the cart handler is modelled.
- Server bootstrap: express and dotenv setup, the JSON body parser's own 400 on malformed JSON, `app.listen`, and express's 404 for methods a route does not declare.
- The `/api/shop` and `/api/products` routes of server.js. They are fixed-payload wrappers with no shaping logic.
- Logging, async scheduling, and the detached forward after the acknowledgment. Only the order "response before forward" is kept. What the hosting platform does with an escaped exception, or with work after a response, is outside the handlers.
- Inputs of other types are outside the model. Each request datatype fixes the keys a body holds and their types: `properties`, `lineItems` and `customItems` are arrays or absent, a checkout always has a `line_items` array and a string `token`, and a successful downstream answer always holds a `draft_order`. On other inputs the source behaves in ways the model does not follow:
  - a truthy non-array `properties` is sent downstream unchanged by `properties || []`;
  - a truthy `customItems` without a length, such as `{}` or `true`, is skipped;
  - a string `lineItems` is spread into its characters;
  - a non-array is thrown on only by `?.map` in `api/helpers/draftOrder.js`, by `forEach` in `server.js`, and by spreading a `lineItems` or iterating a `customItems` that cannot be iterated.
- Numbers are reals with no NaN. JSON bodies cannot carry NaN, so no truthiness test of the handlers (`quantity || 1`, `note || …`, `customer && …`, `checkout.customer ? …`) ever sees one.
- ServerRoutes.HandleManual and ServerRoutes.HandleAddCustomItem: a `None` body means `req.body` is undefined, as Express 5's `express.json()` leaves it for a POST with no JSON body. Under Express 4 the body parser sets `req.body` to `{}` instead. That request is then `Some` with every key absent, and the manual route posts an empty draft order rather than answering 500.
