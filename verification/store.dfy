/** The cart together with the browser storage entry it is written through to. */
module Store {
  import opened Outcomes
  import opened Cart
  import opened Totals
  import opened Checkout

  /** The storage entry under the key 'cart': never written, holding a cart
      written earlier, or holding text that does not parse as JSON. */
  datatype Slot = Absent | Saved(cart: Cart) | Malformed

  /** Raised when the stored text does not parse; the script stops loading. */
  datatype LoadError = UnparseableCart

  /** The cart in memory and the storage entry. */
  datatype Session = Session(cart: Cart, slot: Slot)

  /** Reading the storage entry at start-up: an absent entry gives the empty
      cart, a saved cart comes back as written, and unparseable text is an error. */
  function Load(slot: Slot): (r: Result<Cart, LoadError>)
    ensures r.Failure? <==> slot.Malformed?
    ensures slot.Absent? ==> r.value == []
    ensures slot.Saved? ==> r.value == slot.cart
  {
    match slot
    case Absent => Success([])
    case Saved(c) => Success(c)
    case Malformed => Failure(UnparseableCart)
  }

  /** Reloading the page would bring back exactly the cart in memory. */
  predicate Restores(s: Session) {
    Load(s.slot) == Success(s.cart)
  }

  /** The session at page load. */
  function Start(slot: Slot): (r: Result<Session, LoadError>)
    ensures r.Failure? <==> slot.Malformed?
    ensures r.Success? ==> Restores(r.value)
    ensures slot.Absent? ==> r == Success(Session([], Absent))
    ensures slot.Saved? ==> r == Success(Session(slot.cart, slot))
  {
    match Load(slot)
    case Success(c) => Success(Session(c, slot))
    case Failure(e) => Failure(e)
  }

  /** Replaces the cart and writes it to storage. */
  function Commit(c: Cart): (r: Session)
    ensures r.cart == c && Restores(r)
  {
    Session(c, Saved(c))
  }

  function Add(s: Session, name: string, price: int): (r: Session)
    ensures r.cart == AddToCart(s.cart, name, price) && Restores(r)
    ensures ItemCount(r.cart) == ItemCount(s.cart) + 1
    ensures Valid(s.cart) ==> Valid(r.cart)
  {
    AddToCartTotals(s.cart, name, price);
    Commit(AddToCart(s.cart, name, price))
  }

  function Remove(s: Session, index: int): (r: Session)
    ensures r.cart == RemoveFromCart(s.cart, index) && Restores(r)
    ensures Valid(s.cart) ==> Valid(r.cart)
  {
    Commit(RemoveFromCart(s.cart, index))
  }

  /** A quantity change at a position that holds no item fails before anything
      is written, so the session is left as it was. */
  function Update(s: Session, index: int, change: int): (r: Result<Session, CartError>)
    ensures r.Failure? <==> !(0 <= index < |s.cart|)
    ensures r.Success? ==> r.value.cart == UpdateQuantity(s.cart, index, change).value && Restores(r.value)
    ensures r.Success? && Valid(s.cart) ==> Valid(r.value.cart)
  {
    match UpdateQuantity(s.cart, index, change)
    case Success(c) => Success(Commit(c))
    case Failure(e) => Failure(e)
  }

  function Clear(s: Session): (r: Session)
    ensures |r.cart| == 0 && Restores(r) && Valid(r.cart)
  {
    Commit(ClearCart(s.cart))
  }

  /** The confirm button: a confirmed order clears the cart and writes the empty
      cart to storage; a refused one changes nothing. */
  function Confirm(s: Session, payment: Option<real>): (r: (Decision, Session))
    ensures r.0 == ConfirmOrder(s.cart, payment).decision
    ensures r.0.Confirmed? ==> r.1 == Commit([])
    ensures r.0.Insufficient? ==> r.1 == s
    ensures Restores(s) ==> Restores(r.1)
    ensures Valid(s.cart) ==> Valid(r.1.cart)
  {
    var order := ConfirmOrder(s.cart, payment);
    if order.decision.Confirmed? then (order.decision, Clear(s)) else (order.decision, s)
  }

  /** Every operation keeps the session reloadable and the cart valid: storage
      always holds what is in memory, names stay unique, quantities stay positive. */
  lemma OperationsPreserveInvariant(s: Session, name: string, price: int, index: int, change: int, payment: Option<real>)
    requires Restores(s) && Valid(s.cart)
    ensures var r := Add(s, name, price); Restores(r) && Valid(r.cart)
    ensures var r := Remove(s, index); Restores(r) && Valid(r.cart)
    ensures var r := Update(s, index, change); r.Success? ==> Restores(r.value) && Valid(r.value.cart)
    ensures var r := Clear(s); Restores(r) && Valid(r.cart)
    ensures var r := Confirm(s, payment).1; Restores(r) && Valid(r.cart)
  {
  }
}
