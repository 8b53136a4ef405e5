/** Aggregates derived from the cart: the number of units and the
    subtotal / tax / total triple. */
module Totals {
  import opened Cart

  /** The sales tax rate applied to the subtotal (15%). */
  const TaxRate: real := 0.15

  /** The three amounts shown on the cart and checkout pages. */
  datatype CartTotals = CartTotals(subtotal: real, tax: real, total: real)

  /** Sum of `w` over the items, accumulated from the front, as
      `Array.prototype.reduce` does with initial value 0. */
  function SumBy(c: Cart, w: LineItem -> int): int {
    if |c| == 0 then 0 else SumBy(c[..|c| - 1], w) + w(c[|c| - 1])
  }

  function Quantity(it: LineItem): int {
    it.quantity
  }

  function LineTotal(it: LineItem): int {
    it.price * it.quantity
  }

  /** The number shown on the cart badge: the total number of units. */
  function ItemCount(c: Cart): int {
    SumBy(c, Quantity)
  }

  /** The sum over all items of unit price times quantity. */
  function Subtotal(c: Cart): int {
    SumBy(c, LineTotal)
  }

  predicate NonNegativePrices(c: Cart) {
    forall i | 0 <= i < |c| :: c[i].price >= 0
  }

  lemma {:induction false} SumByAppend(a: Cart, b: Cart, w: LineItem -> int)
    ensures SumBy(a + b, w) == SumBy(a, w) + SumBy(b, w)
    decreases |b|
  {
    if |b| == 0 {
      assert a + b == a;
    } else {
      var b' := b[..|b| - 1];
      assert (a + b)[..|a + b| - 1] == a + b';
      SumByAppend(a, b', w);
    }
  }

  lemma {:induction false} SumBySingleton(x: LineItem, w: LineItem -> int)
    ensures SumBy([x], w) == w(x)
  {
  }

  /** Replacing one item changes the sum by the difference of the two weights. */
  lemma {:induction false} SumByUpdate(c: Cart, i: nat, x: LineItem, w: LineItem -> int)
    requires i < |c|
    ensures SumBy(c[i := x], w) == SumBy(c, w) - w(c[i]) + w(x)
  {
    assert c == c[..i] + [c[i]] + c[i + 1..];
    assert c[i := x] == c[..i] + [x] + c[i + 1..];
    SumByAppend(c[..i] + [c[i]], c[i + 1..], w);
    SumByAppend(c[..i], [c[i]], w);
    SumByAppend(c[..i] + [x], c[i + 1..], w);
    SumByAppend(c[..i], [x], w);
    SumBySingleton(c[i], w);
    SumBySingleton(x, w);
  }

  /** Deleting one item lowers the sum by that item's weight. */
  lemma {:induction false} SumByRemoveAt(c: Cart, i: nat, w: LineItem -> int)
    requires i < |c|
    ensures SumBy(RemoveAt(c, i), w) == SumBy(c, w) - w(c[i])
  {
    assert c == c[..i] + [c[i]] + c[i + 1..];
    assert RemoveAt(c, i) == c[..i] + c[i + 1..];
    SumByAppend(c[..i] + [c[i]], c[i + 1..], w);
    SumByAppend(c[..i], [c[i]], w);
    SumByAppend(c[..i], c[i + 1..], w);
    SumBySingleton(c[i], w);
  }

  lemma {:induction false} SumByBounds(c: Cart, w: LineItem -> int)
    requires forall i | 0 <= i < |c| :: w(c[i]) >= 1
    ensures SumBy(c, w) >= |c|
  {
    if |c| > 0 {
      SumByBounds(c[..|c| - 1], w);
    }
  }

  lemma {:induction false} SumByNonNegative(c: Cart, w: LineItem -> int)
    requires forall i | 0 <= i < |c| :: w(c[i]) >= 0
    ensures SumBy(c, w) >= 0
  {
    if |c| > 0 {
      SumByNonNegative(c[..|c| - 1], w);
    }
  }

  /** The count reduce: adds up the quantities from the front of the cart. */
  method UpdateCartCount(c: Cart) returns (count: int)
    ensures count == ItemCount(c)
    ensures PositiveQuantities(c) ==> count >= |c|
  {
    count := 0;
    var i := 0;
    while i < |c|
      invariant 0 <= i <= |c|
      invariant count == ItemCount(c[..i])
    {
      assert c[..i + 1][..i] == c[..i];
      count := count + c[i].quantity;
      i := i + 1;
    }
    assert c[..|c|] == c;
    if PositiveQuantities(c) {
      SumByBounds(c, Quantity);
    }
  }

  /** Subtotal, 15% tax and total of the cart, computed exactly. Because prices
      and quantities are whole numbers, the tax and the total are whole numbers
      of cents, so rounding them to two decimals loses nothing. */
  function CalculateCartTotals(c: Cart): (t: CartTotals)
    ensures t.subtotal == Subtotal(c) as real
    ensures t.tax * 100.0 == (Subtotal(c) * 15) as real
    ensures t.total == t.subtotal + t.tax
    ensures t.total * 100.0 == (Subtotal(c) * 115) as real
  {
    var subtotal := Subtotal(c) as real;
    var tax := subtotal * TaxRate;
    CartTotals(subtotal, tax, subtotal + tax)
  }

  /** With non-negative prices and positive quantities the amounts are ordered:
      nothing is negative and the total is at least the subtotal. */
  lemma {:induction false} TotalsOrdered(c: Cart)
    requires NonNegativePrices(c) && PositiveQuantities(c)
    ensures var t := CalculateCartTotals(c);
      0.0 <= t.subtotal && 0.0 <= t.tax && t.subtotal <= t.total
  {
    forall i | 0 <= i < |c|
      ensures LineTotal(c[i]) >= 0
    {
      assert c[i].price >= 0 && c[i].quantity >= 1;
    }
    SumByNonNegative(c, LineTotal);
  }

  /** Every unit in a cart of positive quantities is counted, so the count is
      zero exactly when the cart is empty. */
  lemma {:induction false} ItemCountBounds(c: Cart)
    requires PositiveQuantities(c)
    ensures ItemCount(c) >= |c|
    ensures ItemCount(c) == 0 <==> |c| == 0
  {
    SumByBounds(c, Quantity);
  }

  /** Adding a product adds one unit to the count and that product's unit price
      to the subtotal; an item already in the cart keeps its stored price. */
  lemma {:induction false} AddToCartTotals(c: Cart, name: string, price: int)
    ensures ItemCount(AddToCart(c, name, price)) == ItemCount(c) + 1
    ensures HasName(c, name) ==>
      Subtotal(AddToCart(c, name, price)) == Subtotal(c) + c[FindByName(c, name).value].price
    ensures !HasName(c, name) ==>
      Subtotal(AddToCart(c, name, price)) == Subtotal(c) + price
  {
    if HasName(c, name) {
      AddExistingTotals(c, name, price);
    } else {
      AddNewTotals(c, name, price);
    }
  }

  lemma {:induction false} AddExistingTotals(c: Cart, name: string, price: int)
    requires HasName(c, name)
    ensures ItemCount(AddToCart(c, name, price)) == ItemCount(c) + 1
    ensures Subtotal(AddToCart(c, name, price)) == Subtotal(c) + c[FindByName(c, name).value].price
  {
    var i := FindByName(c, name).value;
    AddToCartExisting(c, name, price, i);
    IncrementTotals(c, i);
  }

  lemma {:induction false} AddNewTotals(c: Cart, name: string, price: int)
    requires !HasName(c, name)
    ensures ItemCount(AddToCart(c, name, price)) == ItemCount(c) + 1
    ensures Subtotal(AddToCart(c, name, price)) == Subtotal(c) + price
  {
  }

  lemma {:induction false} IncrementTotals(c: Cart, i: nat)
    requires i < |c|
    ensures var x := c[i].(quantity := c[i].quantity + 1);
      && ItemCount(c[i := x]) == ItemCount(c) + 1
      && Subtotal(c[i := x]) == Subtotal(c) + c[i].price
  {
    var x := c[i].(quantity := c[i].quantity + 1);
    SumByUpdate(c, i, x, Quantity);
    SumByUpdate(c, i, x, LineTotal);
    assert LineTotal(x) == LineTotal(c[i]) + c[i].price;
  }

  /** Removing the item at a valid position takes away its units and its line total. */
  lemma {:induction false} RemoveFromCartTotals(c: Cart, index: int)
    requires 0 <= index < |c|
    ensures ItemCount(RemoveFromCart(c, index)) == ItemCount(c) - c[index].quantity
    ensures Subtotal(RemoveFromCart(c, index)) == Subtotal(c) - c[index].price * c[index].quantity
  {
    SumByRemoveAt(c, index, Quantity);
    SumByRemoveAt(c, index, LineTotal);
  }

  /** Changing a quantity moves the count by the change, unless the item drops
      out, in which case all of its units go. */
  lemma {:induction false} UpdateQuantityTotals(c: Cart, index: int, change: int)
    requires 0 <= index < |c|
    ensures var r := UpdateQuantity(c, index, change).value;
      if c[index].quantity + change > 0 then
        && ItemCount(r) == ItemCount(c) + change
        && Subtotal(r) == Subtotal(c) + c[index].price * change
      else
        && ItemCount(r) == ItemCount(c) - c[index].quantity
        && Subtotal(r) == Subtotal(c) - c[index].price * c[index].quantity
  {
    var q := c[index].quantity + change;
    if q > 0 {
      var x := c[index].(quantity := q);
      assert UpdateQuantity(c, index, change).value == c[index := x];
      SumByUpdate(c, index, x, Quantity);
      SumByUpdate(c, index, x, LineTotal);
      assert LineTotal(x) == LineTotal(c[index]) + c[index].price * change;
    } else {
      SumByRemoveAt(c, index, Quantity);
      SumByRemoveAt(c, index, LineTotal);
    }
  }

  /** A cleared cart shows no units and all-zero amounts, whatever it held before. */
  lemma ClearCartTotals(c: Cart)
    ensures ItemCount(ClearCart(c)) == 0
    ensures CalculateCartTotals(ClearCart(c)) == CartTotals(0.0, 0.0, 0.0)
  {
  }

  /** One violin at J$65,000: tax J$9,750, total J$74,750. */
  lemma ViolinTotals()
    ensures CalculateCartTotals([LineItem("Violin", 65000, 1)]) == CartTotals(65000.0, 9750.0, 74750.0)
  {
  }
}
