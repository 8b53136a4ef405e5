/** The order confirmation on the checkout page. */
module Checkout {
  import opened Outcomes
  import opened Cart
  import opened Totals

  /** What the confirm button decides: the order goes through, or the payment
      falls short of the total due. */
  datatype Decision = Confirmed | Insufficient(totalDue: real)

  /** The decision and the cart left behind. */
  datatype Order = Order(decision: Decision, cart: Cart)

  /** Confirms the order when the payment covers the total, and then empties the
      cart; otherwise reports the total due and keeps the cart. `payment` is the
      number read from the payment field, `None` when it does not parse (`NaN`),
      which compares false with every total. */
  function ConfirmOrder(c: Cart, payment: Option<real>): (r: Order)
    ensures r.decision.Confirmed? <==> payment.Some? && payment.value >= CalculateCartTotals(c).total
    ensures r.decision.Confirmed? ==> r.cart == []
    ensures r.decision.Insufficient? ==>
      r.cart == c && r.decision.totalDue == CalculateCartTotals(c).total
  {
    var total := CalculateCartTotals(c).total;
    if payment.Some? && payment.value >= total then Order(Confirmed, ClearCart(c))
    else Order(Insufficient(total), c)
  }

  /** A payment that is accepted stays accepted when it is raised. */
  lemma ConfirmMonotone(c: Cart, p: real, q: real)
    requires p <= q
    requires ConfirmOrder(c, Some(p)).decision.Confirmed?
    ensures ConfirmOrder(c, Some(q)).decision.Confirmed?
  {
  }

  /** Paying exactly the total confirms the order and leaves an empty cart
      whose amounts are all zero. */
  lemma ExactPaymentConfirms(c: Cart)
    ensures var r := ConfirmOrder(c, Some(CalculateCartTotals(c).total));
      && r.decision.Confirmed?
      && CalculateCartTotals(r.cart) == CartTotals(0.0, 0.0, 0.0)
  {
  }

  /** Tax is charged: when something is owed, paying only the subtotal is refused. */
  lemma SubtotalIsNotEnough(c: Cart)
    requires Subtotal(c) > 0
    ensures ConfirmOrder(c, Some(Subtotal(c) as real)).decision.Insufficient?
  {
  }

  /** A payment field that does not hold a number never confirms the order. */
  lemma UnparsedPaymentRefused(c: Cart)
    ensures ConfirmOrder(c, None) == Order(Insufficient(CalculateCartTotals(c).total), c)
  {
  }
}
