/**
 * The cart store itself (Script.js, class ShoppingCart): the `items` field
 * that its handlers update in place, and the browser's local storage, where
 * every change is saved under one fixed key and from which a new store is
 * restored.
 */
module CartStore {
  import opened Outcomes
  import opened LineItems
  import opened Checkout

  /** The local-storage key holding the saved items. */
  const CartKey: string := "cartItems"

  /** The items a new store starts with: the saved ones, or none. */
  function Restore(entries: map<string, seq<Item>>): (r: seq<Item>)
    ensures CartKey in entries ==> r == entries[CartKey]
    ensures CartKey !in entries ==> r == []
  {
    if CartKey in entries then entries[CartKey] else []
  }

  /** Local storage after saving `items`: only the cart key changes. */
  function Saved(entries: map<string, seq<Item>>, items: seq<Item>): (r: map<string, seq<Item>>)
    ensures Restore(r) == items
    ensures r.Keys == entries.Keys + {CartKey}
    ensures forall k :: k in entries && k != CartKey ==> r[k] == entries[k]
  {
    entries[CartKey := items]
  }

  /** The browser's local storage, shared by every store of the page. */
  class LocalStorage {
    var entries: map<string, seq<Item>>

    constructor (initial: map<string, seq<Item>>)
      ensures entries == initial
    {
      entries := initial;
    }
  }

  class ShoppingCart {
    var items: seq<Item>
    const storage: LocalStorage

    /** Every line holds at least one unit. */
    ghost predicate Valid()
      reads this
    {
      QuantitiesPositive(items)
    }

    /** Local storage holds exactly the current items. */
    ghost predicate Persisted()
      reads this, storage
    {
      Restore(storage.entries) == items
    }

    constructor (storage: LocalStorage)
      ensures this.storage == storage
      ensures items == Restore(storage.entries)
      ensures Persisted()
      ensures QuantitiesPositive(Restore(storage.entries)) ==> Valid()
    {
      this.storage := storage;
      items := Restore(storage.entries);
    }

    method SaveCart()
      modifies storage
      ensures storage.entries == Saved(old(storage.entries), items)
      ensures Persisted()
    {
      storage.entries := Saved(storage.entries, items);
    }

    /** Add one unit of a product in the selected colour (or the default colour). */
    method AddToCart(product: ProductData, selected: Option<string>, freshId: ItemId)
      modifies this, storage
      ensures items == AddedItems(old(items), product, selected, freshId)
      ensures storage.entries == Saved(old(storage.entries), items)
      ensures old(Valid()) ==> Valid()
    {
      var color := ChosenColor(selected);
      var k := FindIndex(items, BySelection(product.name, color));
      if k >= 0 {
        items := items[k := items[k].(quantity := items[k].quantity + 1)];
      } else {
        items := items + [NewItem(freshId, product, color, false)];
      }
      SaveCart();
      if old(Valid()) {
        AddKeepsQuantitiesPositive(old(items), product, selected, freshId);
      }
    }

    /**
     * Add a customised product: nothing happens without a selected colour;
     * otherwise a new line is always appended, never merged.
     */
    method ApplyCustomization(product: ProductData, selected: Option<string>, freshId: ItemId)
      modifies this, storage
      ensures selected.None? ==> items == old(items) && storage.entries == old(storage.entries)
      ensures selected.Some? ==>
        && items == old(items) + [Item(freshId, product.name, product.price, product.image, selected.value, 1, true)]
        && storage.entries == Saved(old(storage.entries), items)
      ensures old(Valid()) ==> Valid()
      ensures old(Persisted()) ==> Persisted()
    {
      if selected.None? {
        return;
      }
      items := items + [NewItem(freshId, product, selected.value, true)];
      SaveCart();
    }

    /** Drop every line with this id. */
    method RemoveItem(id: ItemId)
      modifies this, storage
      ensures items == Without(old(items), id)
      ensures storage.entries == Saved(old(storage.entries), items)
      ensures old(Valid()) ==> Valid()
    {
      items := Without(items, id);
      SaveCart();
      if old(Valid()) {
        WithoutKeepsQuantitiesPositive(old(items), id);
      }
    }

    /** Press "+" or "-" on the first line with this id; an unknown id changes nothing. */
    method UpdateQuantity(id: ItemId, button: QtyButton)
      modifies this, storage
      ensures items == QuantityUpdated(old(items), id, button)
      ensures (forall j :: 0 <= j < |old(items)| ==> old(items)[j].id != id) ==>
        storage.entries == old(storage.entries)
      ensures (exists j :: 0 <= j < |old(items)| && old(items)[j].id == id) ==>
        storage.entries == Saved(old(storage.entries), items)
      ensures old(Valid()) ==> Valid()
      ensures old(Persisted()) ==> Persisted()
    {
      var k := FindIndex(items, ById(id));
      if k < 0 {
        return;
      }
      items := items[k := Stepped(items[k], button)];
      SaveCart();
      if old(Valid()) {
        QuantityStaysPositive(old(items), id, button);
      }
    }

    /**
     * React to a verification reply (`None` when the request or its decoding
     * failed): empty the cart only when the reply confirms the payment.
     */
    method HandlePaymentSuccess(reply: Option<VerifyReply>) returns (cleared: bool)
      modifies this, storage
      ensures cleared <==> reply.Some? && reply.value.status && reply.value.payStatus == "success"
      ensures cleared ==> items == [] && storage.entries == Saved(old(storage.entries), [])
      ensures !cleared ==> items == old(items) && storage.entries == old(storage.entries)
      ensures old(Valid()) ==> Valid()
      ensures old(Persisted()) ==> Persisted()
    {
      cleared := reply.Some? && reply.value.status && reply.value.payStatus == "success";
      if cleared {
        items := [];
        SaveCart();
      }
    }
  }

  /** A store created over the storage of a saved store starts with the same items. */
  method Reload(cart: ShoppingCart) returns (again: ShoppingCart)
    requires cart.Persisted()
    ensures fresh(again)
    ensures again.storage == cart.storage && again.items == cart.items
  {
    again := new ShoppingCart(cart.storage);
  }

  /** A session: two identical adds make one line of two units, removal is idempotent, and a reload sees the result. */
  method Session(storage: LocalStorage, product: ProductData, other: ProductData, id1: ItemId, id2: ItemId, id3: ItemId)
    requires storage.entries == map[]
    requires product.name != other.name
    requires id1 != id3
    modifies storage
  {
    var cart := new ShoppingCart(storage);
    assert cart.items == [];
    cart.AddToCart(product, None, id1);
    cart.AddToCart(product, None, id2);
    RepeatedAddMakesOneLine([], product, None, [id1, id2]);
    assert cart.items == [Item(id1, product.name, product.price, product.image, DefaultColor, 2, false)];
    cart.AddToCart(other, None, id3);
    assert |cart.items| == 2;
    cart.RemoveItem(id3);
    var once := cart.items;
    cart.RemoveItem(id3);
    RemoveTwiceSameAsOnce(once, id3);
    assert cart.items == once;
    var again := Reload(cart);
    assert again.items == once;
  }
}
