/** The tax arithmetic shared by every cart in the application. Money is an exact
    rational; the floating-point rounding of the browser is not modelled. */
module Pricing {

  /** `TAX_RATE` of the cart context: 8.75 %. */
  const CartContextTaxRate: real := 0.0875

  /** The flat 8 % rate written inline by the customer menu, the order modal and the
      order summary. */
  const FlatTaxRate: real := 0.08

  datatype Totals = Totals(subtotal: real, tax: real, total: real)

  /** `tax = subtotal * rate; total = subtotal + tax`. */
  function TotalsOf(subtotal: real, rate: real): Totals
  {
    var tax := subtotal * rate;
    Totals(subtotal, tax, subtotal + tax)
  }

  const ZeroTotals: Totals := Totals(0.0, 0.0, 0.0)

  /** A price times a sum of quantities is the sum of the line amounts. */
  lemma Distribute(p: real, a: int, b: int)
    ensures p * (a + b) as real == p * a as real + p * b as real
  {
  }

  /** One more unit adds one price. */
  lemma OneMoreUnit(p: real, a: int)
    ensures p * (a + 1) as real == p * a as real + p
  {
    Distribute(p, a, 1);
  }

  /** Re-pricing one line from quantity `a` to `b` moves a sum by the price times the change. */
  lemma ChangeQuantity(s: real, p: real, a: int, b: int)
    ensures s - p * a as real + p * b as real == s + p * (b - a) as real
  {
    Distribute(p, a, b - a);
  }

  /** The average order value of a day's sales: the total over the count, 0 for no orders. */
  function Average(total: real, count: int): (avg: real)
    ensures count > 0 ==> avg * count as real == total
    ensures count <= 0 ==> avg == 0.0
  {
    if count > 0 then total / count as real else 0.0
  }
}
