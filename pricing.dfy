/** The discounted unit price, as the three places that compute it write it,
    in exact arithmetic. The cart total and the receipt apply any non-zero
    discount (`item.discount ? ... : price`); the cart sidebar and the
    product card apply a positive discount only (`item.discount &&
    item.discount > 0`); the discount board always applies the formula with
    an absent discount read as 0. */
module Pricing {
  import opened Types

  /** price × (1 − d/100). */
  function Discounted(price: int, d: int): (r: real)
    ensures 0 <= d <= 100 && price >= 0 ==> 0.0 <= r <= price as real
    ensures d == 0 ==> r == price as real
  {
    price as real * (1.0 - d as real / 100.0)
  }

  /** Unit price as the cart total and the receipt compute it. */
  function TotalUnitPrice(m: MenuItem): real {
    if m.discount != 0 then Discounted(m.price, m.discount) else m.price as real
  }

  /** Unit price as the cart sidebar and the product card compute it. */
  function ShownUnitPrice(m: MenuItem): real {
    if m.discount > 0 then Discounted(m.price, m.discount) else m.price as real
  }

  /** Sale price on the discount board. */
  function SalePrice(m: MenuItem): (r: real)
    ensures 0 <= m.discount <= 100 && m.price >= 0 ==> 0.0 <= r <= m.price as real
  {
    Discounted(m.price, m.discount)
  }

  /** For a discount in 0..100 on a positive list price, the price charged
      lies between 0 and the list price, and is below the list price
      exactly when the discount is positive. */
  lemma ChargedPriceBelowList(m: MenuItem)
    requires 0 <= m.discount <= 100 && m.price > 0
    ensures 0.0 <= TotalUnitPrice(m) <= m.price as real
    ensures TotalUnitPrice(m) < m.price as real <==> m.discount > 0
  {
    if m.discount > 0 {
      assert TotalUnitPrice(m) == m.price as real - m.price as real * (m.discount as real / 100.0);
      assert m.price as real * (m.discount as real / 100.0) > 0.0;
    }
  }

  /** For the discounts the catalog carries (none negative) the three
      computations agree. */
  lemma UnitPricesAgree(m: MenuItem)
    requires m.discount >= 0
    ensures TotalUnitPrice(m) == ShownUnitPrice(m) == SalePrice(m)
  {
  }

  /** A negative discount is where they part: the cart total raises the
      price, the sidebar and the card ignore the discount. */
  lemma NegativeDiscountSplitsPrices(m: MenuItem)
    requires m.discount < 0 && m.price > 0
    ensures TotalUnitPrice(m) > ShownUnitPrice(m) == m.price as real
  {
    assert Discounted(m.price, m.discount)
        == m.price as real + m.price as real * (-(m.discount as real) / 100.0);
  }
}
