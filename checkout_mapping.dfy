/**
 * The two webhook mappers from a checkout to a create-draft-order body:
 * `createDraftOrderFromCheckout` (api/helpers/draftOrder.js) and
 * `createDraftOrderWithProperties` (server.js). Both keep the checkout's
 * line items in order and rebuild each property as a bare `{ name, value }`.
 */
module CheckoutMapping {
  import opened Wrappers
  import opened JsValues
  import opened Payloads

  /** `{ name: p.name, value: p.value }`: every other key of the property is dropped. */
  function ProjectProperty(p: Property): Property {
    Property(p.name, p.value, map[])
  }

  function ProjectAll(ps: seq<Property>): (r: seq<Property>)
    ensures |r| == |ps|
  {
    if ps == [] then [] else [ProjectProperty(ps[0])] + ProjectAll(ps[1..])
  }

  /** `item.properties?.map(p => ({ name: p.name, value: p.value })) || []` */
  function ProjectProperties(props: Option<seq<Property>>): seq<Property> {
    match props
    case None => []
    case Some(ps) => ProjectAll(ps)
  }

  lemma {:induction false} ProjectAllAt(ps: seq<Property>, k: int)
    requires 0 <= k < |ps|
    ensures ProjectAll(ps)[k] == Property(ps[k].name, ps[k].value, map[])
  {
    if k > 0 {
      ProjectAllAt(ps[1..], k - 1);
    }
  }

  lemma {:induction false} ProjectAllAppend(a: seq<Property>, b: seq<Property>)
    ensures ProjectAll(a + b) == ProjectAll(a) + ProjectAll(b)
  {
    if a == [] {
      assert a + b == b;
    } else {
      assert (a + b)[0] == a[0] && (a + b)[1..] == a[1..] + b;
      ProjectAllAppend(a[1..], b);
    }
  }

  /**
   * The rebuilt properties list: absent properties give the empty list;
   * otherwise the same length and order, each entry reduced to its name and value.
   */
  lemma ProjectedProperties(props: Option<seq<Property>>)
    ensures props.None? ==> ProjectProperties(props) == []
    ensures props.Some? ==>
      && |ProjectProperties(props)| == |props.value|
      && forall k :: 0 <= k < |props.value| ==>
           ProjectProperties(props)[k] == Property(props.value[k].name, props.value[k].value, map[])
  {
    if props.Some? {
      forall k | 0 <= k < |props.value|
        ensures ProjectProperties(props)[k] == Property(props.value[k].name, props.value[k].value, map[])
      {
        ProjectAllAt(props.value, k);
      }
    }
  }

  /** The mapped line item: variant, quantity and projected properties, never a title or a price. */
  function CatalogLine(item: CheckoutLine): LineItem {
    Catalog(item.variantId, item.quantity, ProjectProperties(item.properties))
  }

  /** `checkout.line_items.map(...)` */
  function CatalogLines(items: seq<CheckoutLine>): (r: seq<LineItem>)
    ensures |r| == |items|
  {
    if items == [] then [] else [CatalogLine(items[0])] + CatalogLines(items[1..])
  }

  lemma {:induction false} CatalogLinesAt(items: seq<CheckoutLine>, i: int)
    requires 0 <= i < |items|
    ensures CatalogLines(items)[i] == CatalogLine(items[i])
  {
    if i > 0 {
      CatalogLinesAt(items[1..], i - 1);
    }
  }

  /** The webhook line items: same length and order, the i-th carries the i-th variant, quantity and properties. */
  lemma CatalogLinesShape(items: seq<CheckoutLine>)
    ensures |CatalogLines(items)| == |items|
    ensures forall i :: 0 <= i < |items| ==>
      && CatalogLines(items)[i].Catalog?
      && CatalogLines(items)[i].variantId == items[i].variantId
      && CatalogLines(items)[i].quantity == items[i].quantity
      && CatalogLines(items)[i].properties == ProjectProperties(items[i].properties)
  {
    forall i | 0 <= i < |items|
      ensures CatalogLines(items)[i] == CatalogLine(items[i])
    {
      CatalogLinesAt(items, i);
    }
  }

  /** `createDraftOrderFromCheckout` (api/helpers/draftOrder.js): the body it posts. */
  function DraftOrderFromCheckout(c: Checkout): DraftOrderPayload {
    DraftOrderPayload(
      lineItems := CatalogLines(c.lineItems),
      customer := if Truthy(c.customer) then IdOnly(Member(c.customer, "id")) else Omitted,
      email := c.email,
      shippingAddress := Some(c.shippingAddress),
      billingAddress := Some(c.billingAddress),
      note := Str("Created from checkout " + c.token),
      tags := Some("custom-properties,checkout-conversion"),
      useCustomerDefaultAddress := Some(true))
  }

  /** The line items of the helper's body mirror the checkout's; an empty checkout gives an empty list. */
  lemma CheckoutPayloadLines(c: Checkout)
    ensures var p := DraftOrderFromCheckout(c);
      && |p.lineItems| == |c.lineItems|
      && (c.lineItems == [] ==> p.lineItems == [])
      && forall i :: 0 <= i < |c.lineItems| ==>
           p.lineItems[i] == Catalog(c.lineItems[i].variantId, c.lineItems[i].quantity,
                                     ProjectProperties(c.lineItems[i].properties))
  {
    CatalogLinesShape(c.lineItems);
  }

  /** The other fields of the helper's body: customer as `{ id }` only when present, the rest verbatim or constant. */
  lemma CheckoutPayloadFields(c: Checkout)
    ensures var p := DraftOrderFromCheckout(c);
      && (Truthy(c.customer) ==> p.customer == IdOnly(Member(c.customer, "id")))
      && (!Truthy(c.customer) ==> p.customer == Omitted)
      && p.email == c.email
      && p.shippingAddress == Some(c.shippingAddress)
      && p.billingAddress == Some(c.billingAddress)
      && p.note == Str("Created from checkout " + c.token)
      && p.tags == Some("custom-properties,checkout-conversion")
      && p.useCustomerDefaultAddress == Some(true)
  {
  }

  /**
   * server.js builds each line item with `properties: []` and then pushes one
   * `{ name, value }` per input property.
   */
  method BuildLineItem(item: CheckoutLine) returns (line: LineItem)
    ensures line == CatalogLine(item)
  {
    var properties: seq<Property> := [];
    if item.properties.Some? {
      var ps := item.properties.value;
      var k := 0;
      while k < |ps|
        invariant 0 <= k <= |ps|
        invariant properties == ProjectAll(ps[..k])
      {
        assert ps[..k + 1] == ps[..k] + [ps[k]];
        ProjectAllAppend(ps[..k], [ps[k]]);
        properties := properties + [ProjectProperty(ps[k])];
        k := k + 1;
      }
      assert ps[..k] == ps;
    }
    line := Catalog(item.variantId, item.quantity, properties);
  }

  /** `createDraftOrderWithProperties` (server.js): the body it posts. */
  function DraftOrderWithProperties(c: Checkout): DraftOrderPayload {
    DraftOrderPayload(
      lineItems := CatalogLines(c.lineItems),
      customer := IdOnly(Member(c.customer, "id")),
      email := c.email,
      shippingAddress := Some(c.shippingAddress),
      billingAddress := Some(c.billingAddress),
      note := Str("Created from checkout " + c.token),
      tags := Some("custom-properties,metaobject-variant"),
      useCustomerDefaultAddress := None)
  }

  /**
   * The server's body: the same line items as the helper's, a `customer` object
   * that is there even without a customer (then its id is undefined), its own tags.
   */
  lemma PropertiesPayloadFields(c: Checkout)
    ensures var p := DraftOrderWithProperties(c);
      && |p.lineItems| == |c.lineItems|
      && (forall i :: 0 <= i < |c.lineItems| ==>
           p.lineItems[i] == Catalog(c.lineItems[i].variantId, c.lineItems[i].quantity,
                                     ProjectProperties(c.lineItems[i].properties)))
      && p.customer.IdOnly?
      && (Nullish(c.customer) ==> p.customer == IdOnly(Undefined))
      && (c.customer.Obj? && "id" in c.customer.fields ==> p.customer == IdOnly(c.customer.fields["id"]))
      && p.email == c.email
      && p.shippingAddress == Some(c.shippingAddress)
      && p.billingAddress == Some(c.billingAddress)
      && p.note == Str("Created from checkout " + c.token)
      && p.tags == Some("custom-properties,metaobject-variant")
      && p.useCustomerDefaultAddress.None?
  {
    CatalogLinesShape(c.lineItems);
  }

  /** The two webhook mappers agree on line items and differ on the customer only when there is none. */
  lemma MappersAgreeOnLines(c: Checkout)
    ensures DraftOrderWithProperties(c).lineItems == DraftOrderFromCheckout(c).lineItems
    ensures Truthy(c.customer) ==> DraftOrderWithProperties(c).customer == DraftOrderFromCheckout(c).customer
    ensures !Truthy(c.customer) ==> DraftOrderFromCheckout(c).customer == Omitted && DraftOrderWithProperties(c).customer.IdOnly?
  {
  }
}
