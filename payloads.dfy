/**
 * The request and response bodies of the relay, and the observable effects
 * of one handler invocation (what it reads, what it answers, which
 * draft-order calls it makes, in order).
 */
module Payloads {
  import opened Wrappers
  import opened JsValues

  newtype byte = x: int | 0 <= x < 256

  type Bytes = seq<byte>

  /** A line-item property: its name, its value, and any further keys it carried. */
  datatype Property = Property(name: Value, value: Value, extra: map<string, Value>)

  /** A line item of an inbound checkout. */
  datatype CheckoutLine = CheckoutLine(variantId: Value, quantity: Value, properties: Option<seq<Property>>)

  /** The checkout the storefront delivers with its webhook. */
  datatype Checkout = Checkout(
    token: string,
    email: Value,
    customer: Value,
    shippingAddress: Value,
    billingAddress: Value,
    lineItems: seq<CheckoutLine>)

  /** An ad hoc item sent to the manual endpoints: a title and a price, no variant. */
  datatype CustomItem = CustomItem(
    title: Value,
    price: Value,
    quantity: Value,
    taxable: Value,
    properties: Option<seq<Property>>)

  /**
   * A line item: one the handlers build, either a catalog item (variant) or a
   * custom item (title and price), or one forwarded untouched as the caller or
   * the platform sent it, whatever keys it holds.
   */
  datatype LineItem =
    | Catalog(variantId: Value, quantity: Value, properties: seq<Property>)
    | Custom(title: Value, price: Value, quantity: Value, taxable: Value, properties: seq<Property>)
    | PassThrough(item: Value)

  /** The `customer` of the outbound body: left out, `{ id }` only, or the caller's value as given. */
  datatype CustomerField = Omitted | IdOnly(id: Value) | Verbatim(customer: Value)

  /** The `draft_order` object of a create request; `None` is a key the handler leaves out. */
  datatype DraftOrderPayload = DraftOrderPayload(
    lineItems: seq<LineItem>,
    customer: CustomerField,
    email: Value,
    shippingAddress: Option<Value>,
    billingAddress: Option<Value>,
    note: Value,
    tags: Option<string>,
    useCustomerDefaultAddress: Option<bool>)

  /** The part of a downstream draft order the handlers read. */
  datatype DraftOrder = DraftOrder(id: Value, invoiceUrl: Value, lineItems: seq<LineItem>)

  /** What one downstream admin API call comes back with. */
  datatype Downstream =
    | Success(order: DraftOrder, data: Value)
    | HttpError(status: int, data: Value)
    | NetworkError

  datatype Body = Json(json: Value) | Text(text: string)

  datatype Response = Response(status: int, body: Body)

  /** An observable step of a handler. */
  datatype Effect =
    | ReadBody
    | ParseBody
    | Respond(response: Response)
    | PostDraftOrder(payload: DraftOrderPayload)
    | CompleteDraftOrder(id: Value)
    | GetDraftOrder(orderId: string)
    | PutDraftOrder(orderId: string, lineItems: seq<LineItem>)

  /** The effects of one invocation, and whether an exception escaped the handler. */
  datatype Run = Run(effects: seq<Effect>, escaped: bool)

  const MethodNotAllowed := Response(405, Json(Message("message", "Method not allowed")))
  const InvalidSignature := Response(401, Json(Message("error", "Invalid webhook signature")))
  const Acknowledged := Response(200, Text("Webhook received"))
  const CreateFailed := Response(500, Json(Message("error", "Failed to create draft order")))

  predicate IsDownstreamCall(e: Effect) {
    e.PostDraftOrder? || e.CompleteDraftOrder? || e.GetDraftOrder? || e.PutDraftOrder?
  }

  /** The responses sent, in order. */
  function Responses(effects: seq<Effect>): seq<Response> {
    if effects == [] then []
    else (if effects[0].Respond? then [effects[0].response] else []) + Responses(effects[1..])
  }

  /** The create-draft-order bodies sent downstream, in order. */
  function Posted(effects: seq<Effect>): seq<DraftOrderPayload> {
    if effects == [] then []
    else (if effects[0].PostDraftOrder? then [effects[0].payload] else []) + Posted(effects[1..])
  }

  /** The responses of two runs of effects, one after the other, are the two lists of responses joined. */
  lemma {:induction false} ResponsesAppend(a: seq<Effect>, b: seq<Effect>)
    ensures Responses(a + b) == Responses(a) + Responses(b)
  {
    if a == [] {
      assert a + b == b;
    } else {
      assert (a + b)[0] == a[0] && (a + b)[1..] == a[1..] + b;
      ResponsesAppend(a[1..], b);
    }
  }

  /** The same for the bodies posted downstream. */
  lemma {:induction false} PostedAppend(a: seq<Effect>, b: seq<Effect>)
    ensures Posted(a + b) == Posted(a) + Posted(b)
  {
    if a == [] {
      assert a + b == b;
    } else {
      assert (a + b)[0] == a[0] && (a + b)[1..] == a[1..] + b;
      PostedAppend(a[1..], b);
    }
  }

  /** The response sent at position i, if any. */
  function ResponseAt(effects: seq<Effect>, i: nat): seq<Response> {
    if i < |effects| && effects[i].Respond? then [effects[i].response] else []
  }

  /** The create-draft-order body sent at position i, if any. */
  function PostedAt(effects: seq<Effect>, i: nat): seq<DraftOrderPayload> {
    if i < |effects| && effects[i].PostDraftOrder? then [effects[i].payload] else []
  }

  lemma ShiftAt(effects: seq<Effect>, i: nat)
    requires effects != []
    ensures ResponseAt(effects[1..], i) == ResponseAt(effects, i + 1)
    ensures PostedAt(effects[1..], i) == PostedAt(effects, i + 1)
  {
  }

  /** On a run of at most four effects, the responses read off position by position. */
  lemma {:induction false} ResponsesByPosition(effects: seq<Effect>)
    requires |effects| <= 4
    ensures Responses(effects) ==
      ResponseAt(effects, 0) + ResponseAt(effects, 1) + ResponseAt(effects, 2) + ResponseAt(effects, 3)
  {
    if effects != [] {
      var rest := effects[1..];
      ResponsesByPosition(rest);
      ShiftAt(effects, 0);
      ShiftAt(effects, 1);
      ShiftAt(effects, 2);
      assert ResponseAt(rest, 3) == [];
      assert Responses(effects) == ResponseAt(effects, 0) + Responses(rest);
    }
  }

  /** On a run of at most four effects, the posted bodies read off position by position. */
  lemma {:induction false} PostedByPosition(effects: seq<Effect>)
    requires |effects| <= 4
    ensures Posted(effects) ==
      PostedAt(effects, 0) + PostedAt(effects, 1) + PostedAt(effects, 2) + PostedAt(effects, 3)
  {
    if effects != [] {
      var rest := effects[1..];
      PostedByPosition(rest);
      ShiftAt(effects, 0);
      ShiftAt(effects, 1);
      ShiftAt(effects, 2);
      assert PostedAt(rest, 3) == [];
      assert Posted(effects) == PostedAt(effects, 0) + Posted(rest);
    }
  }

  /** Both filters of a run of at most four effects, position by position. */
  lemma FiltersByPosition(effects: seq<Effect>)
    requires |effects| <= 4
    ensures Responses(effects) ==
      ResponseAt(effects, 0) + ResponseAt(effects, 1) + ResponseAt(effects, 2) + ResponseAt(effects, 3)
    ensures Posted(effects) ==
      PostedAt(effects, 0) + PostedAt(effects, 1) + PostedAt(effects, 2) + PostedAt(effects, 3)
  {
    ResponsesByPosition(effects);
    PostedByPosition(effects);
  }

  /** No downstream call at all. */
  predicate NoDownstreamCall(effects: seq<Effect>) {
    forall i :: 0 <= i < |effects| ==> !IsDownstreamCall(effects[i])
  }

  /** Every downstream call comes after the webhook acknowledgment has been sent. */
  predicate AckBeforeDownstream(effects: seq<Effect>) {
    forall j :: 0 <= j < |effects| && IsDownstreamCall(effects[j]) ==>
      exists i :: 0 <= i < j && effects[i] == Respond(Acknowledged)
  }
}
