/**
 * Manual draft-order creation: the handler of api/draft-orders.js, and the
 * flow it shares with the `/api/draft-orders` route of server.js (which
 * differs only in how it defaults `taxable`).
 */
module ManualDraftOrders {
  import opened Wrappers
  import opened JsValues
  import opened Payloads
  import opened CustomItems

  /** The destructured request body: `{ lineItems, customItems, customer, email }`. */
  datatype ManualRequest = ManualRequest(
    lineItems: Option<seq<LineItem>>,
    customItems: Option<seq<CustomItem>>,
    customer: Value,
    email: Value)

  /** The body sent downstream: the merged line items, customer and email as given, a fixed note. */
  function ManualPayload(req: ManualRequest, rule: TaxableDefault): DraftOrderPayload {
    DraftOrderPayload(
      lineItems := MergedLineItems(req.lineItems, req.customItems, rule),
      customer := Verbatim(req.customer),
      email := req.email,
      shippingAddress := None,
      billingAddress := None,
      note := Str("Manual draft order creation"),
      tags := None,
      useCustomerDefaultAddress := None)
  }

  /**
   * The manual body: `lineItems` first and unchanged, then one defaulted custom
   * line per custom item in order; customer and email verbatim; the fixed note.
   */
  lemma ManualPayloadFields(req: ManualRequest, rule: TaxableDefault)
    ensures var p := ManualPayload(req, rule);
            var base := req.lineItems.GetOr([]);
            var cs := req.customItems.GetOr([]);
      && |p.lineItems| == |base| + |cs|
      && p.lineItems[..|base|] == base
      && (forall j :: 0 <= j < |cs| ==> p.lineItems[|base| + j] == CustomLine(cs[j], rule))
      && p.customer == Verbatim(req.customer)
      && p.email == req.email
      && p.note == Str("Manual draft order creation")
      && p.tags.None? && p.shippingAddress.None? && p.billingAddress.None?
  {
    MergedLineItemsShape(req.lineItems, req.customItems, rule);
  }

  /** 201 with the downstream body on success; any failure becomes 500. */
  function CreateResponse(d: Downstream): Response {
    if d.Success? then Response(201, Json(d.data)) else CreateFailed
  }

  /** From destructuring the body to the response; destructuring an undefined body throws into the catch. */
  function ManualFlow(body: Option<ManualRequest>, rule: TaxableDefault, d: Downstream): Run {
    match body
    case None => Run([Respond(CreateFailed)], false)
    case Some(req) => Run([PostDraftOrder(ManualPayload(req, rule)), Respond(CreateResponse(d))], false)
  }

  /** `handler` of api/draft-orders.js. */
  function Handle(verb: string, body: Option<ManualRequest>, d: Downstream): Run {
    if verb != "POST" then Run([Respond(MethodNotAllowed)], false)
    else ManualFlow(body, WhenNullish, d)
  }

  /** Any method but POST is answered 405 and nothing is sent downstream. */
  lemma RejectsOtherMethods(verb: string, body: Option<ManualRequest>, d: Downstream)
    requires verb != "POST"
    ensures var run := Handle(verb, body, d);
      Responses(run.effects) == [MethodNotAllowed] && NoDownstreamCall(run.effects) && !run.escaped
  {
    FiltersByPosition(Handle(verb, body, d).effects);
  }

  /**
   * The shared flow sends exactly one response. With a body it posts exactly
   * one draft order, before answering: 201 with the downstream body on
   * success, 500 on an HTTP error or a network error alike.
   */
  lemma ManualFlowOutcome(body: Option<ManualRequest>, rule: TaxableDefault, d: Downstream)
    ensures var run := ManualFlow(body, rule, d);
      && !run.escaped
      && |Responses(run.effects)| == 1
      && Posted(run.effects) == (if body.Some? then [ManualPayload(body.value, rule)] else [])
      && (body.None? ==> Responses(run.effects) == [CreateFailed] && NoDownstreamCall(run.effects))
      && (body.Some? ==> run.effects[0].PostDraftOrder? &&
                         run.effects[|run.effects| - 1] == Respond(CreateResponse(d)))
      && (body.Some? && d.Success? ==> Responses(run.effects) == [Response(201, Json(d.data))])
      && (body.Some? && !d.Success? ==> Responses(run.effects) == [Response(500, CreateFailed.body)])
  {
    FiltersByPosition(ManualFlow(body, rule, d).effects);
  }

  /**
   * A gift-wrap custom item with no `lineItems` gives exactly one line item,
   * taxable by default, under either taxable rule.
   */
  lemma GiftWrapScenario(rule: TaxableDefault)
    ensures var item := CustomItem(Str("Gift wrap"), Str("5.00"), Num(1.0), Undefined, None);
            var p := ManualPayload(ManualRequest(None, Some([item]), Undefined, Str("a@b.com")), rule);
      p.lineItems == [Custom(Str("Gift wrap"), Str("5.00"), Num(1.0), Bool(true), [])]
  {
    var item := CustomItem(Str("Gift wrap"), Str("5.00"), Num(1.0), Undefined, None);
    assert [item][1..] == [];
  }
}
