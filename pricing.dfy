/**
 * The figures the cart page shows, derived from the items alone: the
 * subtotal, shipping, tax and total of the summary panel and the unit count
 * of the cart badge. Money is exact (`real`); the two-decimal display
 * formatting is not part of the model.
 */
module Pricing {
  import opened Outcomes
  import opened LineItems

  const ShippingFee: real := 9.99
  const TaxRate: real := 0.08

  datatype Summary = Summary(subtotal: real, shipping: real, tax: real, total: real)

  function LineTotal(item: Item): real {
    item.price * item.quantity as real
  }

  /**
   * Σ price × quantity, summed from the first item to the last as `reduce`
   * does; never negative on a cart of non-negative prices and quantities >= 1.
   */
  function Subtotal(s: seq<Item>): (r: real)
    ensures PricesNonNegative(s) && QuantitiesPositive(s) ==> r >= 0.0
  {
    if s == [] then 0.0
    else
      var x := s[|s| - 1];
      assert x.price >= 0.0 && x.quantity >= 1 ==> x.price * x.quantity as real >= 0.0;
      Subtotal(s[..|s| - 1]) + LineTotal(x)
  }

  /**
   * Σ quantity: the number on the cart badge; with every quantity >= 1 it is
   * at least the number of lines. The page refreshes the badge after add,
   * customised add, removal, restore and a confirmed payment, but not after a quantity press, so
   * there the badge shows the count from before the press.
   */
  function CartCount(s: seq<Item>): (r: int)
    ensures QuantitiesPositive(s) ==> r >= |s|
  {
    if s == [] then 0 else CartCount(s[..|s| - 1]) + s[|s| - 1].quantity
  }

  function Shipping(subtotal: real): real {
    if subtotal > 0.0 then ShippingFee else 0.0
  }

  /** The total is the subtotal with 8% tax, plus 9.99 shipping on a non-zero subtotal. */
  function CartSummary(items: seq<Item>): (r: Summary)
    ensures r.subtotal == Subtotal(items)
    ensures r.shipping == (if Subtotal(items) > 0.0 then 9.99 else 0.0)
    ensures r.tax == 0.08 * Subtotal(items)
    ensures r.total == r.subtotal + r.shipping + r.tax
    ensures r.total == 1.08 * Subtotal(items) + r.shipping
  {
    var subtotal := Subtotal(items);
    var shipping := Shipping(subtotal);
    var tax := subtotal * TaxRate;
    Summary(subtotal, shipping, tax, subtotal + shipping + tax)
  }

  predicate PricesNonNegative(s: seq<Item>) {
    forall i :: 0 <= i < |s| ==> s[i].price >= 0.0
  }

  // ---------------------------------------------------------------- summary

  /** One item at 50 with quantity 2: 100 / 9.99 / 8 / 117.99. */
  lemma SingleLineScenario(id: ItemId, image: string, color: string)
    ensures CartSummary([Item(id, "Arizona", 50.0, image, color, 2, false)])
         == Summary(100.0, 9.99, 8.0, 117.99)
  {
    var x := Item(id, "Arizona", 50.0, image, color, 2, false);
    SumsOfOne(x);
    assert LineTotal(x) == 100.0;
  }

  lemma EmptyCartSummary()
    ensures CartSummary([]) == Summary(0.0, 0.0, 0.0, 0.0)
  {
  }

  // ---------------------------------------------------------------- sums

  lemma {:induction false} SubtotalAppend(a: seq<Item>, b: seq<Item>)
    ensures Subtotal(a + b) == Subtotal(a) + Subtotal(b)
  {
    if b == [] {
      assert a + b == a;
    } else {
      var b' := b[..|b| - 1];
      assert (a + b)[..|a + b| - 1] == a + b';
      SubtotalAppend(a, b');
    }
  }

  lemma {:induction false} CartCountAppend(a: seq<Item>, b: seq<Item>)
    ensures CartCount(a + b) == CartCount(a) + CartCount(b)
  {
    if b == [] {
      assert a + b == a;
    } else {
      var b' := b[..|b| - 1];
      assert (a + b)[..|a + b| - 1] == a + b';
      CartCountAppend(a, b');
    }
  }

  lemma SumsOfOne(x: Item)
    ensures Subtotal([x]) == LineTotal(x) && CartCount([x]) == x.quantity
  {
    assert [x][..0] == [];
  }

  /** Replacing one line changes each sum by the difference of that line. */
  lemma SumsAfterReplace(s: seq<Item>, k: nat, x: Item)
    requires k < |s|
    ensures Subtotal(s[k := x]) == Subtotal(s) - LineTotal(s[k]) + LineTotal(x)
    ensures CartCount(s[k := x]) == CartCount(s) - s[k].quantity + x.quantity
  {
    var pre, post := s[..k], s[k + 1..];
    assert s == pre + [s[k]] + post;
    assert s[k := x] == pre + [x] + post;
    SumsOfOne(s[k]);
    SumsOfOne(x);
    SubtotalAppend(pre + [s[k]], post);
    SubtotalAppend(pre, [s[k]]);
    SubtotalAppend(pre + [x], post);
    SubtotalAppend(pre, [x]);
    CartCountAppend(pre + [s[k]], post);
    CartCountAppend(pre, [s[k]]);
    CartCountAppend(pre + [x], post);
    CartCountAppend(pre, [x]);
  }

  lemma OneMoreUnit(x: Item)
    ensures LineTotal(x.(quantity := x.quantity + 1)) == LineTotal(x) + x.price
  {
  }

  // ---------------------------------------------------------------- count

  /** The badge shows 0 exactly when the cart has no lines. */
  lemma CartCountZeroIffEmpty(s: seq<Item>)
    requires QuantitiesPositive(s)
    ensures CartCount(s) == 0 <==> s == []
  {
  }

  // ---------------------------------------------------------------- operations

  /**
   * A plain add raises the badge count by one and the subtotal by the unit
   * price of the line that received the unit (the existing line's own price
   * when merging).
   */
  lemma AddedItemsSums(items: seq<Item>, product: ProductData, selected: Option<string>, freshId: ItemId)
    ensures var r := AddedItems(items, product, selected, freshId);
      var k := FindIndex(items, BySelection(product.name, ChosenColor(selected)));
      && CartCount(r) == CartCount(items) + 1
      && Subtotal(r) == Subtotal(items) + (if k >= 0 then items[k].price else product.price)
  {
    var color := ChosenColor(selected);
    var k := FindIndex(items, BySelection(product.name, color));
    var r := AddedItems(items, product, selected, freshId);
    if k >= 0 {
      var x := items[k].(quantity := items[k].quantity + 1);
      assert r == items[k := x];
      SumsAfterReplace(items, k, x);
      OneMoreUnit(items[k]);
    } else {
      var x := NewItem(freshId, product, color, false);
      assert r == items + [x];
      SubtotalAppend(items, [x]);
      CartCountAppend(items, [x]);
      SumsOfOne(x);
    }
  }

  /** One button press on line `k` moves each sum by one unit of that line, or not at all. */
  lemma StepSums(items: seq<Item>, k: nat, button: QtyButton)
    requires k < |items|
    ensures var r := items[k := Stepped(items[k], button)];
      && (button == Plus || items[k].quantity > 1 ==>
            && CartCount(r) == CartCount(items) + (if button == Plus then 1 else -1)
            && Subtotal(r) == Subtotal(items) + (if button == Plus then items[k].price else -items[k].price))
      && (button == Minus && items[k].quantity <= 1 ==> r == items)
  {
    var x := Stepped(items[k], button);
    SumsAfterReplace(items, k, x);
    if button == Plus {
      OneMoreUnit(items[k]);
    } else if items[k].quantity > 1 {
      OneMoreUnit(x);
      assert x.(quantity := x.quantity + 1) == items[k];
    } else {
      assert items[k := x] == items;
    }
  }

  /** "+" adds one unit and its price; "-" removes one only above quantity 1. */
  lemma QuantityUpdatedSums(items: seq<Item>, id: ItemId, button: QtyButton)
    ensures var r := QuantityUpdated(items, id, button);
      var k := FindIndex(items, ById(id));
      && (k < 0 ==> r == items)
      && (k >= 0 && (button == Plus || items[k].quantity > 1) ==>
            && CartCount(r) == CartCount(items) + (if button == Plus then 1 else -1)
            && Subtotal(r) == Subtotal(items) + (if button == Plus then items[k].price else -items[k].price))
      && (k >= 0 && button == Minus && items[k].quantity <= 1 ==> r == items)
  {
    var k := FindIndex(items, ById(id));
    if k >= 0 {
      StepSums(items, k, button);
    }
  }
}
