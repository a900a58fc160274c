/**
  The derived pricing fields of a product. The controller computes
  `unit_price = price - (price * discount) / 100` and
  `total = quantity * unit_price` in JavaScript numbers; here the same
  computation runs over exact reals, with `NaN` absorbing.
 */
module Pricing {
  import opened JsValue

  /** The two derived fields of a product. */
  datatype Derived = Derived(unitPrice: Numeric, total: Numeric)

  /** Reference definition of consistent pricing, written the other way
      round from the code: the unit price is the list price scaled by
      `(1 - discount / 100)`, and the total is `quantity * price` scaled by
      the same factor. A `NaN` input makes the fields it feeds `NaN`. */
  ghost predicate Consistent(price: Numeric, discount: Numeric, quantity: Numeric, d: Derived) {
    && (price.Finite? && discount.Finite? ==>
          d.unitPrice == Finite(price.r * (1.0 - discount.r / 100.0)))
    && (price.Finite? && discount.Finite? && quantity.Finite? ==>
          d.total == Finite(quantity.r * price.r * (1.0 - discount.r / 100.0)))
    && (!price.Finite? || !discount.Finite? ==> d.unitPrice == NaN)
    && (!price.Finite? || !discount.Finite? || !quantity.Finite? ==> d.total == NaN)
  }

  /** The code's computation meets the reference definition. */
  function ComputeDerived(price: Numeric, discount: Numeric, quantity: Numeric): (d: Derived)
    ensures Consistent(price, discount, quantity, d)
    ensures discount == Finite(0.0) && price.Finite? ==> d.unitPrice == price
    ensures quantity == Finite(0.0) && price.Finite? && discount.Finite? ==> d.total == Finite(0.0)
  {
    var unitPrice := Minus(price, Hundredth(Times(price, discount)));
    Derived(unitPrice, Times(quantity, unitPrice))
  }

  /** There is one consistent pair of derived fields for each triple, so a
      recomputation from unchanged inputs changes nothing. */
  lemma ConsistentIsFunctional(price: Numeric, discount: Numeric, quantity: Numeric, d1: Derived, d2: Derived)
    requires Consistent(price, discount, quantity, d1)
    requires Consistent(price, discount, quantity, d2)
    ensures d1 == d2
  {
  }
}
