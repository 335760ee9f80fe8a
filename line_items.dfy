/**
 * The line items of the cart store (Script.js, class ShoppingCart) and the
 * list operations the store performs on its `items` field: the `find` used by
 * add and quantity change, the `filter` used by removal, and the new lists
 * that add and quantity change produce.
 */
module LineItems {
  import opened Outcomes

  /** Item ids are numbers built from the clock and a random fraction. */
  type ItemId = real

  datatype Item = Item(
    id: ItemId,
    name: string,
    price: real,
    image: string,
    color: string,
    quantity: int,
    customized: bool)

  /** The product fields an "add to cart" button carries. */
  datatype ProductData = ProductData(name: string, price: real, image: string)

  /** Which `find` the store runs: by id, or by the same product selection. */
  datatype Key = ById(id: ItemId) | BySelection(name: string, color: string)

  datatype QtyButton = Plus | Minus

  /** The colour used when the product card has no selected colour. */
  const DefaultColor: string := "#8B4513"

  predicate Matches(item: Item, key: Key) {
    match key
    case ById(id) => item.id == id
    case BySelection(name, color) => item.name == name && item.color == color
  }

  /** The cart invariant: every line holds at least one unit. */
  predicate QuantitiesPositive(s: seq<Item>) {
    forall i :: 0 <= i < |s| ==> s[i].quantity >= 1
  }

  /** Index of the first item matching `key`, or -1 (the array `find`). */
  function FindIndex(s: seq<Item>, key: Key): (r: int)
    ensures -1 <= r < |s|
    ensures r == -1 <==> forall j :: 0 <= j < |s| ==> !Matches(s[j], key)
    ensures 0 <= r ==> Matches(s[r], key) && forall j :: 0 <= j < r ==> !Matches(s[j], key)
  {
    if s == [] then -1
    else if Matches(s[0], key) then 0
    else
      var k := FindIndex(s[1..], key);
      if k == -1 then -1 else k + 1
  }

  /** The colour of a plain add: the selected one, unless absent or empty. */
  function ChosenColor(selected: Option<string>): (c: string)
    ensures c != ""
    ensures c == DefaultColor || selected == Some(c)
    ensures selected.Some? && selected.value != "" ==> c == selected.value
  {
    if selected.Some? && selected.value != "" then selected.value else DefaultColor
  }

  function NewItem(id: ItemId, product: ProductData, color: string, customized: bool): Item {
    Item(id, product.name, product.price, product.image, color, 1, customized)
  }

  /** The list after a plain add: merge into the first same-selection item, else append. */
  function AddedItems(items: seq<Item>, product: ProductData, selected: Option<string>, freshId: ItemId): (r: seq<Item>)
    ensures |items| <= |r| <= |items| + 1
    ensures forall j :: 0 <= j < |items| ==> r[j] == items[j].(quantity := r[j].quantity)
  {
    var color := ChosenColor(selected);
    var k := FindIndex(items, BySelection(product.name, color));
    if k >= 0 then items[k := items[k].(quantity := items[k].quantity + 1)]
    else items + [NewItem(freshId, product, color, false)]
  }

  /** The item after one press of a quantity button; "-" stops at 1. */
  function Stepped(item: Item, button: QtyButton): (r: Item)
    ensures r == item.(quantity := r.quantity)
    ensures button == Plus ==> r.quantity == item.quantity + 1
    ensures button == Minus ==> r.quantity == if item.quantity > 1 then item.quantity - 1 else item.quantity
    ensures item.quantity >= 1 ==> r.quantity >= 1
  {
    match button
    case Plus => item.(quantity := item.quantity + 1)
    case Minus => if item.quantity > 1 then item.(quantity := item.quantity - 1) else item
  }

  /** The list after a quantity button press on the first item with `id`. */
  function QuantityUpdated(items: seq<Item>, id: ItemId, button: QtyButton): (r: seq<Item>)
    ensures |r| == |items|
    ensures forall j :: 0 <= j < |items| ==> r[j] == items[j].(quantity := r[j].quantity)
    ensures forall j :: 0 <= j < |items| && items[j].id != id ==> r[j] == items[j]
  {
    var k := FindIndex(items, ById(id));
    if k < 0 then items else items[k := Stepped(items[k], button)]
  }

  /** The list `filter`ed to the items whose id differs from `id`. */
  function Without(s: seq<Item>, id: ItemId): (r: seq<Item>)
    ensures |r| <= |s|
    ensures forall x :: x in r ==> x in s && x.id != id
  {
    if s == [] then []
    else (if s[0].id != id then [s[0]] else []) + Without(s[1..], id)
  }

  // ---------------------------------------------------------------- add

  lemma AddMergesIntoFirstMatch(items: seq<Item>, product: ProductData, selected: Option<string>, freshId: ItemId, k: nat)
    requires k < |items|
    requires Matches(items[k], BySelection(product.name, ChosenColor(selected)))
    requires forall j :: 0 <= j < k ==> !Matches(items[j], BySelection(product.name, ChosenColor(selected)))
    ensures var r := AddedItems(items, product, selected, freshId);
      && |r| == |items|
      && r[k] == items[k].(quantity := items[k].quantity + 1)
      && forall j :: 0 <= j < |items| && j != k ==> r[j] == items[j]
  {
  }

  lemma AddAppendsWhenNoMatch(items: seq<Item>, product: ProductData, selected: Option<string>, freshId: ItemId)
    requires forall j :: 0 <= j < |items| ==> !Matches(items[j], BySelection(product.name, ChosenColor(selected)))
    ensures AddedItems(items, product, selected, freshId)
         == items + [Item(freshId, product.name, product.price, product.image, ChosenColor(selected), 1, false)]
  {
  }

  lemma AddKeepsQuantitiesPositive(items: seq<Item>, product: ProductData, selected: Option<string>, freshId: ItemId)
    requires QuantitiesPositive(items)
    ensures QuantitiesPositive(AddedItems(items, product, selected, freshId))
  {
  }

  /** `n` plain adds of one product and colour, one fresh id per add. */
  function AddRepeatedly(items: seq<Item>, product: ProductData, selected: Option<string>, ids: seq<ItemId>): seq<Item> {
    if ids == [] then items
    else AddedItems(AddRepeatedly(items, product, selected, ids[..|ids| - 1]), product, selected, ids[|ids| - 1])
  }

  /**
   * Adding the same product and colour `n >= 1` times to a cart that does not
   * hold that selection yields exactly one new line, at the end, whose
   * quantity is `n` and whose id is the one generated by the first add.
   */
  lemma {:induction false} RepeatedAddMakesOneLine(items: seq<Item>, product: ProductData, selected: Option<string>, ids: seq<ItemId>)
    requires |ids| >= 1
    requires forall j :: 0 <= j < |items| ==> !Matches(items[j], BySelection(product.name, ChosenColor(selected)))
    ensures AddRepeatedly(items, product, selected, ids)
         == items + [Item(ids[0], product.name, product.price, product.image, ChosenColor(selected), |ids|, false)]
  {
    var color := ChosenColor(selected);
    var key := BySelection(product.name, color);
    var init := ids[..|ids| - 1];
    if |ids| == 1 {
      assert init == [];
      AddAppendsWhenNoMatch(items, product, selected, ids[0]);
    } else {
      RepeatedAddMakesOneLine(items, product, selected, init);
      var prev := items + [Item(ids[0], product.name, product.price, product.image, color, |ids| - 1, false)];
      assert init[0] == ids[0];
      assert Matches(prev[|items|], key);
      AddMergesIntoFirstMatch(prev, product, selected, ids[|ids| - 1], |items|);
      var r := AddRepeatedly(items, product, selected, ids);
      assert |r| == |prev|;
      assert forall j :: 0 <= j < |r| ==> r[j] == (items + [Item(ids[0], product.name, product.price, product.image, color, |ids|, false)])[j];
    }
  }

  // ---------------------------------------------------------------- quantity

  /**
   * A press steps the first line carrying the id, and only that line; later
   * lines with the same id are left alone.
   */
  lemma QuantityStepsFirstMatch(items: seq<Item>, id: ItemId, button: QtyButton, k: nat)
    requires k < |items| && items[k].id == id
    requires forall j :: 0 <= j < k ==> items[j].id != id
    ensures var r := QuantityUpdated(items, id, button);
      && |r| == |items|
      && r[k] == Stepped(items[k], button)
      && forall j :: 0 <= j < |items| && j != k ==> r[j] == items[j]
  {
  }

  /** In a cart whose quantities are all >= 1, no button press takes one below 1. */
  lemma QuantityStaysPositive(items: seq<Item>, id: ItemId, button: QtyButton)
    requires QuantitiesPositive(items)
    ensures QuantitiesPositive(QuantityUpdated(items, id, button))
  {
  }

  lemma QuantityUnknownIdUnchanged(items: seq<Item>, id: ItemId, button: QtyButton)
    requires forall j :: 0 <= j < |items| ==> items[j].id != id
    ensures QuantityUpdated(items, id, button) == items
  {
  }

  /** A "-" press on a line holding one unit changes nothing. */
  lemma MinusAtOneUnchanged(items: seq<Item>, id: ItemId, k: nat)
    requires k < |items| && items[k].id == id && items[k].quantity == 1
    requires forall j :: 0 <= j < k ==> items[j].id != id
    ensures QuantityUpdated(items, id, Minus) == items
  {
  }

  /** Replacing an item by one with the same id does not move the first match. */
  lemma {:induction false} FindIndexSameId(s: seq<Item>, k: nat, x: Item, id: ItemId)
    requires k < |s| && x.id == s[k].id
    ensures FindIndex(s[k := x], ById(id)) == FindIndex(s, ById(id))
  {
    if s[0].id != id && k > 0 {
      FindIndexSameId(s[1..], k - 1, x, id);
      assert s[k := x][1..] == s[1..][k - 1 := x];
    }
  }

  /** "+" followed by "-" on the same id restores a cart whose quantities are >= 1. */
  lemma PlusThenMinusRestores(items: seq<Item>, id: ItemId)
    requires QuantitiesPositive(items)
    ensures QuantityUpdated(QuantityUpdated(items, id, Plus), id, Minus) == items
  {
    var k := FindIndex(items, ById(id));
    if k >= 0 {
      var once := items[k := Stepped(items[k], Plus)];
      FindIndexSameId(items, k, Stepped(items[k], Plus), id);
      assert once[k := Stepped(once[k], Minus)] == items;
    }
  }

  // ---------------------------------------------------------------- remove

  lemma {:induction false} WithoutKeepsOthers(s: seq<Item>, id: ItemId, x: Item)
    requires x in s && x.id != id
    ensures x in Without(s, id)
  {
    if s[0] != x {
      WithoutKeepsOthers(s[1..], id, x);
    }
  }

  /** Removal distributes over concatenation, so it keeps the relative order. */
  lemma {:induction false} WithoutAppend(a: seq<Item>, b: seq<Item>, id: ItemId)
    ensures Without(a + b, id) == Without(a, id) + Without(b, id)
  {
    if a == [] {
      assert a + b == b;
    } else {
      assert (a + b)[1..] == a[1..] + b;
      WithoutAppend(a[1..], b, id);
    }
  }

  lemma {:induction false} WithoutAbsentUnchanged(s: seq<Item>, id: ItemId)
    requires forall x :: x in s ==> x.id != id
    ensures Without(s, id) == s
  {
    if s != [] {
      WithoutAbsentUnchanged(s[1..], id);
    }
  }

  /** A second removal of the same id is a no-op. */
  lemma RemoveTwiceSameAsOnce(s: seq<Item>, id: ItemId)
    ensures Without(Without(s, id), id) == Without(s, id)
  {
    WithoutAbsentUnchanged(Without(s, id), id);
  }

  lemma WithoutKeepsQuantitiesPositive(s: seq<Item>, id: ItemId)
    requires QuantitiesPositive(s)
    ensures QuantitiesPositive(Without(s, id))
  {
  }
}
