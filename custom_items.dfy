/**
 * The custom-item rules of the manual endpoints: how a `customItems` entry
 * becomes a draft-order line item (api/draft-orders.js and server.js), how the
 * merged list is grown, and how one item is appended to an existing order.
 */
module CustomItems {
  import opened Wrappers
  import opened JsValues
  import opened Payloads

  /**
   * How a missing `taxable` is defaulted to true: `item.taxable ?? true`
   * (api/draft-orders.js) or `item.taxable !== undefined ? item.taxable : true` (server.js).
   */
  datatype TaxableDefault = WhenNullish | WhenUndefined

  /** `item.quantity || 1` */
  function DefaultQuantity(q: Value): (r: Value)
    ensures Truthy(r)
    ensures Truthy(q) ==> r == q
    ensures !Truthy(q) ==> r == Num(1.0)
  {
    Or(q, Num(1.0))
  }

  function DefaultTaxable(t: Value, rule: TaxableDefault): Value {
    match rule
    case WhenNullish => Coalesce(t, Bool(true))
    case WhenUndefined => if t.Undefined? then Bool(true) else t
  }

  /** A missing or zero quantity becomes 1; every other number is kept. */
  lemma QuantityDefaults(q: Value)
    ensures DefaultQuantity(Undefined) == Num(1.0)
    ensures DefaultQuantity(Num(0.0)) == Num(1.0)
    ensures q.Num? && q.x != 0.0 ==> DefaultQuantity(q) == q
    ensures DefaultQuantity(q) == Num(1.0) <==> !Truthy(q) || q == Num(1.0)
  {
  }

  /**
   * Both rules default an undefined `taxable` to true and keep an explicit false;
   * they disagree exactly on null, which `??` replaces and `!== undefined` keeps.
   */
  lemma TaxableDefaults(t: Value)
    ensures DefaultTaxable(Undefined, WhenNullish) == Bool(true)
    ensures DefaultTaxable(Undefined, WhenUndefined) == Bool(true)
    ensures DefaultTaxable(Bool(false), WhenNullish) == Bool(false)
    ensures DefaultTaxable(Bool(false), WhenUndefined) == Bool(false)
    ensures DefaultTaxable(Null, WhenNullish) == Bool(true)
    ensures DefaultTaxable(Null, WhenUndefined) == Null
    ensures DefaultTaxable(t, WhenNullish) != DefaultTaxable(t, WhenUndefined) <==> t == Null
  {
  }

  /** The line item pushed for one custom item: no variant, properties defaulting to `[]`. */
  function CustomLine(item: CustomItem, rule: TaxableDefault): LineItem {
    Custom(item.title, item.price, DefaultQuantity(item.quantity), DefaultTaxable(item.taxable, rule),
           item.properties.GetOr([]))
  }

  function CustomLines(items: seq<CustomItem>, rule: TaxableDefault): (r: seq<LineItem>)
    ensures |r| == |items|
  {
    if items == [] then [] else [CustomLine(items[0], rule)] + CustomLines(items[1..], rule)
  }

  lemma {:induction false} CustomLinesAt(items: seq<CustomItem>, rule: TaxableDefault, j: int)
    requires 0 <= j < |items|
    ensures CustomLines(items, rule)[j] == CustomLine(items[j], rule)
  {
    if j > 0 {
      CustomLinesAt(items[1..], rule, j - 1);
    }
  }

  lemma {:induction false} CustomLinesAppend(a: seq<CustomItem>, b: seq<CustomItem>, rule: TaxableDefault)
    ensures CustomLines(a + b, rule) == CustomLines(a, rule) + CustomLines(b, rule)
  {
    if a == [] {
      assert a + b == b;
    } else {
      var ab, head := a + b, [CustomLine(a[0], rule)];
      assert ab[0] == a[0] && ab[1..] == a[1..] + b;
      calc {
        CustomLines(ab, rule);
        head + CustomLines(a[1..] + b, rule);
        { CustomLinesAppend(a[1..], b, rule); }
        head + (CustomLines(a[1..], rule) + CustomLines(b, rule));
        CustomLines(a, rule) + CustomLines(b, rule);
      }
    }
  }

  /** Without a null `taxable` the two defaulting rules build the same custom lines. */
  lemma {:induction false} CustomLinesRulesAgree(items: seq<CustomItem>)
    requires forall j :: 0 <= j < |items| ==> items[j].taxable != Null
    ensures CustomLines(items, WhenNullish) == CustomLines(items, WhenUndefined)
  {
    if items != [] {
      TaxableDefaults(items[0].taxable);
      CustomLinesRulesAgree(items[1..]);
    }
  }

  /** `[...(lineItems || [])]` followed by one pushed line per custom item. */
  function MergedLineItems(lineItems: Option<seq<LineItem>>, customItems: Option<seq<CustomItem>>,
                           rule: TaxableDefault): seq<LineItem> {
    lineItems.GetOr([]) + CustomLines(customItems.GetOr([]), rule)
  }

  /**
   * The merged list starts with `lineItems` unchanged (or nothing) and ends with
   * one custom line per custom item, in order, each defaulted and without a variant.
   */
  lemma MergedLineItemsShape(lineItems: Option<seq<LineItem>>, customItems: Option<seq<CustomItem>>,
                             rule: TaxableDefault)
    ensures var base := lineItems.GetOr([]);
            var cs := customItems.GetOr([]);
            var r := MergedLineItems(lineItems, customItems, rule);
      && |r| == |base| + |cs|
      && r[..|base|] == base
      && var added := r[|base|..];
         forall j :: 0 <= j < |cs| ==>
           && added[j].Custom?
           && added[j].title == cs[j].title
           && added[j].price == cs[j].price
           && added[j].quantity == DefaultQuantity(cs[j].quantity)
           && added[j].taxable == DefaultTaxable(cs[j].taxable, rule)
           && added[j].properties == cs[j].properties.GetOr([])
  {
    var base := lineItems.GetOr([]);
    var cs := customItems.GetOr([]);
    var r := MergedLineItems(lineItems, customItems, rule);
    var tail := CustomLines(cs, rule);
    assert r[..|base|] == base && r[|base|..] == tail;
    forall j | 0 <= j < |cs|
      ensures tail[j] == CustomLine(cs[j], rule)
    {
      CustomLinesAt(cs, rule, j);
    }
  }

  /**
   * The manual endpoints' merge: copy `lineItems`, then, when `customItems` is
   * non-empty, push one custom line per item.
   */
  method MergeLineItems(lineItems: Option<seq<LineItem>>, customItems: Option<seq<CustomItem>>,
                        rule: TaxableDefault) returns (all: seq<LineItem>)
    ensures all == MergedLineItems(lineItems, customItems, rule)
  {
    all := lineItems.GetOr([]);
    if customItems.Some? && |customItems.value| > 0 {
      var cs := customItems.value;
      var k := 0;
      while k < |cs|
        invariant 0 <= k <= |cs|
        invariant all == lineItems.GetOr([]) + CustomLines(cs[..k], rule)
      {
        assert cs[..k + 1] == cs[..k] + [cs[k]];
        CustomLinesAppend(cs[..k], [cs[k]], rule);
        all := all + [CustomLine(cs[k], rule)];
        k := k + 1;
      }
      assert cs[..k] == cs;
    }
  }

  /** The line items server.js puts back: `[...existing, { title, price, quantity || 1, ... }]`. */
  function AppendCustomItem(existing: seq<LineItem>, item: CustomItem): seq<LineItem> {
    existing + [CustomLine(item, WhenUndefined)]
  }

  /** Appending keeps every existing line item and grows the list by exactly one custom line. */
  lemma AppendCustomItemShape(existing: seq<LineItem>, item: CustomItem)
    ensures var r := AppendCustomItem(existing, item);
      && |r| == |existing| + 1
      && r[..|existing|] == existing
      && r[|existing|] == Custom(item.title, item.price, DefaultQuantity(item.quantity),
                                 DefaultTaxable(item.taxable, WhenUndefined), item.properties.GetOr([]))
  {
  }

  /** Appending one item is the server's manual merge with that single custom item. */
  lemma AppendIsSingleMerge(existing: seq<LineItem>, item: CustomItem)
    ensures AppendCustomItem(existing, item) == MergedLineItems(Some(existing), Some([item]), WhenUndefined)
  {
    assert [item][1..] == [];
  }
}
