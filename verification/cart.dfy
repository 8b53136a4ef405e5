/** The shopping cart: an ordered sequence of line items and its four mutators. */
module Cart {
  import opened Outcomes

  /** One entry of the cart. `name` is the key that identifies the product,
      `price` the unit price in whole currency units, `quantity` the number of
      units ordered. */
  datatype LineItem = LineItem(name: string, price: int, quantity: int)

  type Cart = seq<LineItem>

  /** The error the script raises when it dereferences a position that holds no item. */
  datatype CartError = NoItemAt(index: int)

  /** No name occurs at two positions of the cart. */
  predicate UniqueNames(c: Cart) {
    forall i, j | 0 <= i < j < |c| :: c[i].name != c[j].name
  }

  /** Every item is ordered at least once. */
  predicate PositiveQuantities(c: Cart) {
    forall i | 0 <= i < |c| :: c[i].quantity >= 1
  }

  /** The invariant every reachable cart satisfies. */
  predicate Valid(c: Cart) {
    UniqueNames(c) && PositiveQuantities(c)
  }

  predicate HasName(c: Cart, name: string) {
    exists i | 0 <= i < |c| :: c[i].name == name
  }

  /** The first position holding an item called `name`, scanning from the front
      as `Array.prototype.find` does. */
  function FindByName(c: Cart, name: string): (r: Option<nat>)
    ensures r.Some? ==> r.value < |c| && c[r.value].name == name
    ensures r.Some? ==> forall j | 0 <= j < r.value :: c[j].name != name
    ensures r.None? <==> !HasName(c, name)
  {
    if |c| == 0 then None
    else if c[0].name == name then Some(0)
    else match FindByName(c[1..], name)
      case None => None
      case Some(i) => Some(i + 1)
  }

  /** Adds one unit of the product `name`: an item already called `name` gains
      one unit (keeping its own price), otherwise a new item with quantity 1 is
      appended. */
  function AddToCart(c: Cart, name: string, price: int): (r: Cart)
    ensures HasName(c, name) ==>
      var i := FindByName(c, name).value;
      && |r| == |c|
      && r[i].name == c[i].name && r[i].price == c[i].price
      && r[i].quantity == c[i].quantity + 1
      && forall j | 0 <= j < |c| && j != i :: r[j] == c[j]
    ensures !HasName(c, name) ==>
      && |r| == |c| + 1 && r[..|c|] == c
      && r[|c|] == LineItem(name, price, 1)
    ensures HasName(r, name)
    ensures UniqueNames(c) ==> UniqueNames(r)
    ensures PositiveQuantities(c) ==> PositiveQuantities(r)
  {
    match FindByName(c, name)
    case Some(i) =>
      SetQuantityKeepsValid(c, i, c[i].quantity + 1);
      c[i := c[i].(quantity := c[i].quantity + 1)]
    case None =>
      AppendKeepsValid(c, LineItem(name, price, 1));
      c + [LineItem(name, price, 1)]
  }

  /** Changing one item's quantity keeps the names, and keeps quantities
      positive when the new one is. */
  lemma SetQuantityKeepsValid(c: Cart, i: nat, q: int)
    requires i < |c|
    ensures var r := c[i := c[i].(quantity := q)];
      && (UniqueNames(c) ==> UniqueNames(r))
      && (PositiveQuantities(c) && q >= 1 ==> PositiveQuantities(r))
  {
  }

  /** Appending an item under a new name keeps names unique. */
  lemma AppendKeepsValid(c: Cart, x: LineItem)
    ensures UniqueNames(c) && !HasName(c, x.name) ==> UniqueNames(c + [x])
    ensures PositiveQuantities(c) && x.quantity >= 1 ==> PositiveQuantities(c + [x])
  {
  }

  /** Deletes the item at the valid position `i`, keeping the others in order. */
  function RemoveAt(c: Cart, i: nat): (r: Cart)
    requires i < |c|
    ensures |r| == |c| - 1
    ensures forall j | 0 <= j < i :: r[j] == c[j]
    ensures forall j | i <= j < |r| :: r[j] == c[j + 1]
    ensures multiset(r) + multiset{c[i]} == multiset(c)
    ensures UniqueNames(c) ==> UniqueNames(r)
    ensures PositiveQuantities(c) ==> PositiveQuantities(r)
  {
    assert c == c[..i] + [c[i]] + c[i + 1..];
    c[..i] + c[i + 1..]
  }

  /** The position `Array.prototype.splice` starts deleting at, for a list of
      length `len` and a requested `index`: a negative index counts back from the
      end, and the result is clamped to `[0, len]`. */
  function SpliceStart(len: nat, index: int): (s: nat)
    ensures s <= len
    ensures 0 <= index <= len ==> s == index
    ensures index < 0 && len + index >= 0 ==> s == len + index
    ensures len + index < 0 ==> s == 0
    ensures index > len ==> s == len
  {
    if index < 0 then (if len + index < 0 then 0 else len + index)
    else if index > len then len
    else index
  }

  /** `cart.splice(index, 1)`: removes the item at `index`, counting from the end
      when `index` is negative; an index at or past the end removes nothing. */
  function RemoveFromCart(c: Cart, index: int): (r: Cart)
    ensures 0 <= index < |c| ==> r == RemoveAt(c, index)
    ensures index < 0 && |c| + index >= 0 ==> r == RemoveAt(c, |c| + index)
    ensures |c| + index < 0 && |c| > 0 ==> r == RemoveAt(c, 0)
    ensures index >= |c| ==> r == c
    ensures |c| == 0 ==> r == c
    ensures UniqueNames(c) ==> UniqueNames(r)
    ensures PositiveQuantities(c) ==> PositiveQuantities(r)
  {
    var s := SpliceStart(|c|, index);
    if s < |c| then RemoveAt(c, s) else c
  }

  /** Adds `change` to the quantity of the item at `index`; when the quantity
      would drop to zero or below, the item is removed instead. An index that
      names no item is an error. */
  function UpdateQuantity(c: Cart, index: int, change: int): (r: Result<Cart, CartError>)
    ensures r.Failure? <==> !(0 <= index < |c|)
    ensures r.Failure? ==> r.error == NoItemAt(index)
    ensures 0 <= index < |c| && c[index].quantity + change <= 0 ==>
      r == Success(RemoveAt(c, index))
    ensures 0 <= index < |c| && c[index].quantity + change > 0 ==>
      && r.Success? && |r.value| == |c|
      && r.value[index].name == c[index].name
      && r.value[index].price == c[index].price
      && r.value[index].quantity == c[index].quantity + change
      && forall j | 0 <= j < |c| && j != index :: r.value[j] == c[j]
    ensures r.Success? && UniqueNames(c) ==> UniqueNames(r.value)
    ensures r.Success? && PositiveQuantities(c) ==> PositiveQuantities(r.value)
  {
    if !(0 <= index < |c|) then Failure(NoItemAt(index))
    else
      var q := c[index].quantity + change;
      if q <= 0 then Success(RemoveFromCart(c, index))
      else
        SetQuantityKeepsValid(c, index, q);
        Success(c[index := c[index].(quantity := q)])
  }

  /** Empties the cart. */
  function ClearCart(c: Cart): (r: Cart)
    ensures |r| == 0
    ensures Valid(r)
  {
    []
  }

  /** Adding a product already in the cart at position `i` bumps that item. */
  lemma AddToCartExisting(c: Cart, name: string, price: int, i: nat)
    requires FindByName(c, name) == Some(i)
    ensures AddToCart(c, name, price) == c[i := c[i].(quantity := c[i].quantity + 1)]
  {
  }

  /** Adding a product that is not in the cart twice leaves a single entry for it,
      with quantity 2, at the end of the cart. */
  lemma {:induction false} AddTwiceMerges(c: Cart, name: string, price: int, price': int)
    requires !HasName(c, name)
    ensures var r := AddToCart(AddToCart(c, name, price), name, price');
      |r| == |c| + 1 && r[..|c|] == c && r[|c|] == LineItem(name, price, 2)
  {
  }
}
