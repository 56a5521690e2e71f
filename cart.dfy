/** The cart page: the items in the cart, the quantity and removal updates the
    buttons make, and the order summary (subtotal, a flat shipping charge when
    the cart is non-empty, 18% tax, and the total). Prices are exact `real`s:
    the two-decimal display rounding is not part of the model. */
module Cart {

  datatype CartItem = CartItem(
    id: int,
    name: string,
    description: string,
    price: real,
    quantity: int,
    image: string,
    category: string)

  /** The cart the page loads. */
  const SampleCartItems: seq<CartItem> := [
    CartItem(1, "4Wrd By Dressberry", "Black Solid Noughties Spaghetti Top", 767.36, 1, "/api/placeholder/80/80", "Tops"),
    CartItem(2, "Aahwan", "White Bralette Crop Top", 499.50, 2, "/api/placeholder/80/80", "Tops")
  ]

  /** The `map` of `updateQuantity`: every item with the id gets the new
      quantity, and nothing else changes. */
  function WithQuantity(items: seq<CartItem>, id: int, quantity: int): (r: seq<CartItem>)
    ensures |r| == |items|
    ensures forall k :: 0 <= k < |items| ==>
      r[k] == (if items[k].id == id then items[k].(quantity := quantity) else items[k])
  {
    if items == [] then []
    else
      [if items[0].id == id then items[0].(quantity := quantity) else items[0]] +
      WithQuantity(items[1..], id, quantity)
  }

  /** The `filter` of `removeItem`: the items whose id differs, in order. */
  function Without(items: seq<CartItem>, id: int): (r: seq<CartItem>)
    ensures forall x :: x in r <==> x in items && x.id != id
    ensures |r| <= |items|
  {
    if items == [] then []
    else if items[0].id != id then [items[0]] + Without(items[1..], id)
    else Without(items[1..], id)
  }

  /** Removing keeps the order of the items that stay: it distributes over
      concatenation, so each item stays or goes where it stands. */
  lemma {:induction false} WithoutDistributes(a: seq<CartItem>, b: seq<CartItem>, id: int)
    ensures Without(a + b, id) == Without(a, id) + Without(b, id)
  {
    if a == [] {
      assert a + b == b;
    } else {
      assert (a + b)[1..] == a[1..] + b;
      WithoutDistributes(a[1..], b, id);
      if a[0].id != id {
        assert Without(a + b, id) == [a[0]] + Without(a[1..] + b, id);
      }
    }
  }

  /** A button's action on the cart. */
  datatype Action = UpdateQuantity(id: int, quantity: int) | RemoveItem(id: int)

  /** `updateQuantity` ignores a quantity below one. */
  function Apply(items: seq<CartItem>, a: Action): seq<CartItem> {
    match a
    case UpdateQuantity(id, quantity) => if quantity < 1 then items else WithQuantity(items, id, quantity)
    case RemoveItem(id) => Without(items, id)
  }

  function ApplyAll(items: seq<CartItem>, actions: seq<Action>): seq<CartItem>
    decreases |actions|
  {
    if actions == [] then items else ApplyAll(Apply(items, actions[0]), actions[1..])
  }

  predicate QuantitiesPositive(items: seq<CartItem>) {
    forall k :: 0 <= k < |items| ==> items[k].quantity >= 1
  }

  /** A quantity below one changes nothing. */
  lemma UpdateBelowOneIsNoOp(items: seq<CartItem>, id: int, quantity: int)
    requires quantity < 1
    ensures Apply(items, UpdateQuantity(id, quantity)) == items
  {
  }

  /** No sequence of button actions makes a quantity drop below one. */
  lemma {:induction false} QuantitiesStayPositive(items: seq<CartItem>, actions: seq<Action>)
    requires QuantitiesPositive(items)
    ensures QuantitiesPositive(ApplyAll(items, actions))
    decreases |actions|
  {
    if actions != [] {
      var next := Apply(items, actions[0]);
      assert QuantitiesPositive(next) by {
        if actions[0].RemoveItem? {
          forall k | 0 <= k < |next|
            ensures next[k].quantity >= 1
          {
            assert next[k] in items;
          }
        }
      }
      QuantitiesStayPositive(next, actions[1..]);
    }
  }

  /** What one item adds to the total: its price times its quantity. */
  function LineTotal(x: CartItem): real {
    x.price * x.quantity as real
  }

  /** `calculateTotal`: the sum of the line totals. */
  function Subtotal(items: seq<CartItem>): real {
    if items == [] then 0.0 else LineTotal(items[0]) + Subtotal(items[1..])
  }

  /** The subtotal of a cart with one more item at its end. */
  lemma {:induction false} SubtotalSnoc(items: seq<CartItem>, x: CartItem)
    ensures Subtotal(items + [x]) == Subtotal(items) + LineTotal(x)
  {
    if items != [] {
      assert (items + [x])[1..] == items[1..] + [x];
      SubtotalSnoc(items[1..], x);
    }
  }

  predicate DistinctIds(items: seq<CartItem>) {
    forall i, j :: 0 <= i < j < |items| ==> items[i].id != items[j].id
  }

  /** In a cart whose ids are distinct, setting one item's quantity changes
      the subtotal by the price times the change in quantity. */
  lemma {:induction false} UpdateChangesSubtotal(items: seq<CartItem>, k: nat, quantity: int)
    requires DistinctIds(items) && k < |items|
    ensures Subtotal(WithQuantity(items, items[k].id, quantity)) ==
      Subtotal(items) + (quantity - items[k].quantity) as real * items[k].price
  {
    var id := items[k].id;
    var r := WithQuantity(items, id, quantity);
    DistinctTail(items);
    assert r[1..] == WithQuantity(items[1..], id, quantity);
    if k == 0 {
      assert forall j :: 0 <= j < |items| - 1 ==> items[1..][j].id != id;
      UnmatchedUnchanged(items[1..], id, quantity);
    } else {
      UpdateChangesSubtotal(items[1..], k - 1, quantity);
    }
  }

  /** An id no item has changes nothing. */
  lemma UnmatchedUnchanged(items: seq<CartItem>, id: int, quantity: int)
    requires forall j :: 0 <= j < |items| ==> items[j].id != id
    ensures WithQuantity(items, id, quantity) == items
  {
  }

  /** Removing an item of a cart with distinct ids lowers the subtotal by the
      item's price times its quantity. */
  lemma {:induction false} RemoveChangesSubtotal(items: seq<CartItem>, k: nat)
    requires DistinctIds(items) && k < |items|
    ensures Subtotal(Without(items, items[k].id)) ==
      Subtotal(items) - LineTotal(items[k])
  {
    var id := items[k].id;
    DistinctTail(items);
    if k == 0 {
      assert forall j :: 0 <= j < |items| - 1 ==> items[1..][j].id != id;
      NothingToRemove(items[1..], id);
      assert Without(items, id) == Without(items[1..], id);
    } else {
      assert items[0].id != id;
      assert items[1..][k - 1] == items[k];
      RemoveChangesSubtotal(items[1..], k - 1);
      var rest := Without(items[1..], id);
      assert Without(items, id) == [items[0]] + rest;
      SubtotalCons(items[0], rest);
    }
  }

  /** The subtotal of a cart with one more item at its front. */
  lemma SubtotalCons(x: CartItem, items: seq<CartItem>)
    ensures Subtotal([x] + items) == LineTotal(x) + Subtotal(items)
  {
    assert ([x] + items)[1..] == items;
  }

  lemma DistinctTail(items: seq<CartItem>)
    requires DistinctIds(items) && items != []
    ensures DistinctIds(items[1..])
  {
    forall i, j | 0 <= i < j < |items| - 1
      ensures items[1..][i].id != items[1..][j].id
    {
      assert items[1..][i] == items[i + 1] && items[1..][j] == items[j + 1];
    }
  }

  lemma NothingToRemove(items: seq<CartItem>, id: int)
    requires forall j :: 0 <= j < |items| ==> items[j].id != id
    ensures Without(items, id) == items
  {
  }

  /** Shipping is a flat 50 for a non-empty cart. */
  function Shipping(items: seq<CartItem>): real {
    if |items| > 0 then 50.0 else 0.0
  }

  function Tax(items: seq<CartItem>): real {
    Subtotal(items) * 0.18
  }

  function GrandTotal(items: seq<CartItem>): real {
    Subtotal(items) + Shipping(items) + Tax(items)
  }

  predicate CheckoutDisabled(items: seq<CartItem>, isUpdating: bool) {
    |items| == 0 || isUpdating
  }

  /** An empty cart costs nothing and cannot be checked out; a non-empty one
      costs 50 more than its subtotal with tax. */
  lemma TotalsIdentity(items: seq<CartItem>)
    ensures |items| == 0 ==> GrandTotal(items) == 0.0 && CheckoutDisabled(items, false)
    ensures |items| > 0 ==> GrandTotal(items) == Subtotal(items) * 1.18 + 50.0
  {
  }

  /** With non-negative prices and positive quantities the subtotal is
      never negative, and a non-empty cart costs at least the shipping. */
  lemma {:induction false} TotalsBounds(items: seq<CartItem>)
    requires QuantitiesPositive(items)
    requires forall k :: 0 <= k < |items| ==> items[k].price >= 0.0
    ensures Subtotal(items) >= 0.0
    ensures |items| > 0 ==> GrandTotal(items) >= 50.0
  {
    TotalsIdentity(items);
    if items != [] {
      TotalsBounds(items[1..]);
    }
  }

  /** The loaded cart: a subtotal of 1766.36, 50 shipping, 317.9448 tax. */
  lemma SampleTotals()
    ensures Subtotal(SampleCartItems) == 1766.36
    ensures Shipping(SampleCartItems) == 50.0
    ensures Tax(SampleCartItems) == 317.9448
    ensures GrandTotal(SampleCartItems) == 2134.3048
  {
    assert SampleCartItems[1..][1..] == [];
  }

  /** The cart page's state. */
  class CartPage {
    var items: seq<CartItem>
    var isLoading: bool
    var isUpdating: bool

    constructor ()
      ensures items == [] && isLoading && !isUpdating
    {
      items := [];
      isLoading := true;
      isUpdating := false;
    }

    /** The effect that fills the cart once the simulated load completes. */
    method Load()
      modifies this
      ensures items == SampleCartItems && !isLoading && isUpdating == old(isUpdating)
    {
      items := SampleCartItems;
      isLoading := false;
    }

    /** `updateQuantity`; the delayed update is taken as one step, after
        which `isUpdating` is false again. */
    method UpdateQuantity(id: int, quantity: int)
      modifies this
      ensures items == Apply(old(items), Action.UpdateQuantity(id, quantity))
      ensures isUpdating == (if quantity < 1 then old(isUpdating) else false)
      ensures isLoading == old(isLoading)
    {
      if quantity < 1 {
        return;
      }
      isUpdating := true;
      items := WithQuantity(items, id, quantity);
      isUpdating := false;
    }

    method RemoveItem(id: int)
      modifies this
      ensures items == Apply(old(items), Action.RemoveItem(id))
      ensures !isUpdating && isLoading == old(isLoading)
    {
      isUpdating := true;
      items := Without(items, id);
      isUpdating := false;
    }

    /** The `reduce` of `calculateTotal`, adding from the first item. */
    method CalculateTotal() returns (total: real)
      ensures total == Subtotal(items)
    {
      total := 0.0;
      var i := 0;
      while i < |items|
        invariant 0 <= i <= |items|
        invariant total == Subtotal(items[..i])
      {
        SubtotalSnoc(items[..i], items[i]);
        assert items[..i + 1] == items[..i] + [items[i]];
        total := total + LineTotal(items[i]);
        i := i + 1;
      }
      assert items[..i] == items;
    }
  }
}
