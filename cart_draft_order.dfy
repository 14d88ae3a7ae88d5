/**
 * The cart endpoint of api/create-draft-order.js: method gate (behind the
 * CORS middleware), cart validation, line-item mapping, a customer reference
 * only when a customer is given, and the status mapping of the outcome.
 */
module CartDraftOrder {
  import opened Wrappers
  import opened JsValues
  import opened Payloads

  /** A cart entry: its variant, quantity and properties as the storefront sends them. */
  datatype CartItem = CartItem(variantId: Value, quantity: Value, properties: Option<seq<Property>>)

  /** `cartItems`: a falsy value (missing included), a truthy value that is not an array, or an array. */
  datatype CartItems = Falsy | NotAnArray | Items(items: seq<CartItem>)

  /** The destructured request body: `{ cartItems, customer, email, note }`. */
  datatype CartRequest = CartRequest(cartItems: CartItems, customer: Value, email: Value, note: Value)

  /** The answer of the CORS middleware to a preflight; the handler never resumes after it. */
  const Preflight := Response(204, Text(""))
  const NoCartItems := Response(400, Json(Message("error", "No cart items provided")))

  /** `!cartItems || !Array.isArray(cartItems) || cartItems.length === 0` fails. */
  predicate HasCartItems(c: CartItems) {
    c.Items? && |c.items| > 0
  }

  /** `{ variant_id, quantity, properties: item.properties || [] }`: properties pass through untouched. */
  function CartLine(item: CartItem): LineItem {
    Catalog(item.variantId, item.quantity, item.properties.GetOr([]))
  }

  function CartLines(items: seq<CartItem>): (r: seq<LineItem>)
    ensures |r| == |items|
  {
    if items == [] then [] else [CartLine(items[0])] + CartLines(items[1..])
  }

  lemma {:induction false} CartLinesAt(items: seq<CartItem>, i: int)
    requires 0 <= i < |items|
    ensures CartLines(items)[i] == CartLine(items[i])
  {
    if i > 0 {
      CartLinesAt(items[1..], i - 1);
    }
  }

  /** The body sent downstream for a valid cart. */
  function CartPayload(req: CartRequest, items: seq<CartItem>): DraftOrderPayload {
    DraftOrderPayload(
      lineItems := CartLines(items),
      customer := if Truthy(req.customer) then IdOnly(Member(req.customer, "id")) else Omitted,
      email := req.email,
      shippingAddress := None,
      billingAddress := None,
      note := Or(req.note, Str("Custom order with properties")),
      tags := Some("custom-properties"),
      useCustomerDefaultAddress := None)
  }

  /**
   * The cart body: one catalog line per cart entry, in order, with variant,
   * quantity and properties copied (or `[]`); the default note for a falsy note;
   * a `customer` key, holding only the id, exactly when a customer is given.
   */
  lemma CartPayloadFields(req: CartRequest, items: seq<CartItem>)
    ensures var p := CartPayload(req, items);
      && |p.lineItems| == |items|
      && (forall i :: 0 <= i < |items| ==>
            p.lineItems[i] == Catalog(items[i].variantId, items[i].quantity, items[i].properties.GetOr([])))
      && (Truthy(req.note) ==> p.note == req.note)
      && (!Truthy(req.note) ==> p.note == Str("Custom order with properties"))
      && p.tags == Some("custom-properties")
      && (p.customer != Omitted <==> Truthy(req.customer))
      && (Truthy(req.customer) ==> p.customer == IdOnly(Member(req.customer, "id")))
      && p.email == req.email
  {
    forall i | 0 <= i < |items|
      ensures CartLines(items)[i] == CartLine(items[i])
    {
      CartLinesAt(items, i);
    }
  }

  /** The success body, and the pass-through of a downstream HTTP error that carries a body. */
  function CartResponse(d: Downstream): Response {
    match d
    case Success(order, _) =>
      Response(201, Json(Obj(map[
        "success" := Bool(true),
        "draft_order_id" := order.id,
        "invoice_url" := order.invoiceUrl,
        "checkout_url" := order.invoiceUrl])))
    case HttpError(status, data) =>
      if Truthy(data)
      then Response(status, Json(Obj(map["error" := Str("Failed to create draft order"), "details" := data])))
      else CreateFailed
    case NetworkError => CreateFailed
  }

  /** No downstream outcome is answered with the validation error: a passed-through 400 carries `details`. */
  lemma OutcomeIsNotValidation(d: Downstream)
    ensures CartResponse(d) != NoCartItems
    ensures d.HttpError? && Truthy(d.data) ==>
      && CartResponse(d).status == d.status
      && CartResponse(d).body.Json? && CartResponse(d).body.json.Obj?
      && "details" in CartResponse(d).body.json.fields
      && CartResponse(d).body.json.fields["details"] == d.data
  {
    if d.HttpError? && Truthy(d.data) {
      assert "details" in CartResponse(d).body.json.fields;
    }
  }

  /** `handler` of api/create-draft-order.js. */
  function Handle(verb: string, body: Option<CartRequest>, d: Downstream): Run {
    if verb == "OPTIONS" then Run([Respond(Preflight)], false)
    else if verb != "POST" then Run([Respond(MethodNotAllowed)], false)
    else
      match body
      case None => Run([Respond(CreateFailed)], false)
      case Some(req) =>
        if !HasCartItems(req.cartItems) then Run([Respond(NoCartItems)], false)
        else Run([PostDraftOrder(CartPayload(req, req.cartItems.items)), Respond(CartResponse(d))], false)
  }

  /** A method other than POST (and the CORS preflight) is answered 405; nothing goes downstream. */
  lemma RejectsOtherMethods(verb: string, body: Option<CartRequest>, d: Downstream)
    requires verb != "POST"
    ensures var run := Handle(verb, body, d);
      && Responses(run.effects) == (if verb == "OPTIONS" then [Preflight] else [MethodNotAllowed])
      && NoDownstreamCall(run.effects)
  {
    FiltersByPosition(Handle(verb, body, d).effects);
  }

  /** 400 is sent exactly for a POST whose cart is missing, not an array, or empty; then nothing goes downstream. */
  lemma RejectsEmptyCart(verb: string, body: Option<CartRequest>, d: Downstream)
    ensures var run := Handle(verb, body, d);
      Responses(run.effects) == [NoCartItems] <==>
        verb == "POST" && body.Some? && !HasCartItems(body.value.cartItems)
    ensures var run := Handle(verb, body, d);
      Responses(run.effects) == [NoCartItems] ==> NoDownstreamCall(run.effects)
  {
    var run := Handle(verb, body, d);
    FiltersByPosition(run.effects);
    OutcomeIsNotValidation(d);
    if Responses(run.effects) == [NoCartItems] {
      assert Responses(run.effects)[0] == NoCartItems;
    }
  }

  /** A POST without a body throws on destructuring and is answered 500; nothing goes downstream. */
  lemma MissingBodyFails(d: Downstream)
    ensures var run := Handle("POST", None, d);
      && Responses(run.effects) == [CreateFailed]
      && NoDownstreamCall(run.effects)
      && !run.escaped
  {
    FiltersByPosition(Handle("POST", None, d).effects);
  }

  /**
   * For a valid cart exactly one draft order is posted and one response sent:
   * 201 with the draft id and the invoice URL as checkout URL; a downstream
   * error with a body keeps its status and returns the body as `details`;
   * every other failure is 500.
   */
  lemma CartOutcome(req: CartRequest, d: Downstream)
    requires HasCartItems(req.cartItems)
    ensures var run := Handle("POST", Some(req), d);
            var r := CartResponse(d);
      && Posted(run.effects) == [CartPayload(req, req.cartItems.items)]
      && Responses(run.effects) == [r]
      && (d.Success? ==>
            && r.status == 201 && r.body.json.Obj?
            && r.body.json.fields["draft_order_id"] == d.order.id
            && r.body.json.fields["checkout_url"] == d.order.invoiceUrl
            && r.body.json.fields["invoice_url"] == d.order.invoiceUrl)
      && (d.HttpError? && Truthy(d.data) ==> r.status == d.status && r.body.json.fields["details"] == d.data)
      && (d.HttpError? && !Truthy(d.data) ==> r == CreateFailed)
      && (d.NetworkError? ==> r == CreateFailed)
  {
    FiltersByPosition(Handle("POST", Some(req), d).effects);
  }
}
