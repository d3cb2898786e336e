/** The discount board (src/pages/DiscountsPage.tsx): the catalog entries on
    sale, the highest discount in the headline, the rotating spotlight and
    the sale prices. */
module Discounts {
  import opened Types
  import opened Pricing

  /** `fetchDiscountedProducts`: the entries with a positive discount, in
      catalog order. */
  function DiscountedProducts(catalog: seq<MenuItem>): (r: seq<MenuItem>)
    ensures |r| <= |catalog|
    ensures forall x :: x in r <==> x in catalog && x.discount > 0
  {
    if catalog == [] then []
    else if catalog[0].discount > 0 then [catalog[0]] + DiscountedProducts(catalog[1..])
    else DiscountedProducts(catalog[1..])
  }

  /** The filter keeps catalog order: it distributes over concatenation. */
  lemma {:induction false} DiscountedProductsConcat(a: seq<MenuItem>, b: seq<MenuItem>)
    ensures DiscountedProducts(a + b) == DiscountedProducts(a) + DiscountedProducts(b)
  {
    if a == [] {
      assert a + b == b;
    } else {
      assert (a + b)[1..] == a[1..] + b;
      DiscountedProductsConcat(a[1..], b);
    }
  }

  /** One step of the `reduce`: `Math.max(max, p.discount || 0)`. */
  function MaxStep(acc: int, p: MenuItem): int {
    if p.discount > acc then p.discount else acc
  }

  /** The `reduce` from a running maximum. */
  function MaxFrom(acc: int, products: seq<MenuItem>): (r: int)
    ensures r >= acc
    ensures forall i :: 0 <= i < |products| ==> r >= products[i].discount
    ensures r == acc || exists i :: 0 <= i < |products| && r == products[i].discount
    decreases |products|
  {
    if products == [] then acc
    else
      var r := MaxFrom(MaxStep(acc, products[0]), products[1..]);
      assert forall i :: 1 <= i < |products| ==> products[i] == products[1..][i - 1];
      assert r != MaxStep(acc, products[0]) ==> exists i :: 1 <= i < |products| && r == products[i].discount by {
        if r != MaxStep(acc, products[0]) {
          var j :| 0 <= j < |products[1..]| && r == products[1..][j].discount;
          assert r == products[j + 1].discount;
        }
      }
      r
  }

  /** `maxDiscount`: 0 before the list arrives, otherwise the largest
      discount of the list, or 0 for an empty list. */
  function MaxDiscount(products: Option<seq<MenuItem>>): (r: int)
    ensures r >= 0
    ensures products.Some? ==> forall i :: 0 <= i < |products.value| ==> r >= products.value[i].discount
    ensures products.None? || products.value == [] ==> r == 0
    ensures products.Some? && r > 0 ==> exists i :: 0 <= i < |products.value| && r == products.value[i].discount
  {
    match products
    case None => 0
    case Some(s) => MaxFrom(0, s)
  }

  /** On the list of entries on sale the headline is the largest discount
      of the whole catalog, and it is positive exactly when something is on
      sale. */
  lemma HeadlineIsCatalogMaximum(catalog: seq<MenuItem>)
    ensures var m := MaxDiscount(Some(DiscountedProducts(catalog)));
            (forall i :: 0 <= i < |catalog| ==> m >= catalog[i].discount) &&
            (m > 0 <==> exists i :: 0 <= i < |catalog| && catalog[i].discount > 0) &&
            (m > 0 ==> exists i :: 0 <= i < |catalog| && catalog[i].discount == m)
  {
    var s := DiscountedProducts(catalog);
    var m := MaxDiscount(Some(s));
    forall i | 0 <= i < |catalog| ensures m >= catalog[i].discount {
      if catalog[i].discount > 0 {
        assert catalog[i] in s;
        var j :| 0 <= j < |s| && s[j] == catalog[i];
      }
    }
    if m > 0 {
      var j :| 0 <= j < |s| && m == s[j].discount;
      assert s[j] in catalog;
      var i :| 0 <= i < |catalog| && catalog[i] == s[j];
    }
  }

  /** Every entry on the board sells below its list price (given a positive
      list price and a discount of at most 100). */
  lemma SalePriceBelowList(p: MenuItem)
    requires 0 < p.discount <= 100 && p.price > 0
    ensures 0.0 <= SalePrice(p) < p.price as real
  {
    assert SalePrice(p) == p.price as real - p.price as real * (p.discount as real / 100.0);
  }

  /** The board's state. */
  class DiscountBoard {
    /** The product catalog (a constant of the program). */
    const catalog: seq<MenuItem>
    /** `discountedProducts`: absent until the query resolves. */
    var products: Option<seq<MenuItem>>
    var activeIndex: nat

    ghost predicate Valid() reads this {
      (products.Some? ==> products.value == DiscountedProducts(catalog)) &&
      (activeIndex == 0 || (products.Some? && activeIndex < |products.value|))
    }

    constructor (catalog: seq<MenuItem>)
      ensures Valid() && this.catalog == catalog && products.None? && activeIndex == 0
    {
      this.catalog := catalog;
      products, activeIndex := None, 0;
    }

    /** The query resolves (first fetch or a refetch): always the entries on
        sale. */
    method FetchCompleted()
      requires Valid()
      modifies this`products
      ensures Valid() && products == Some(DiscountedProducts(catalog))
    {
      products := Some(DiscountedProducts(catalog));
    }

    /** The rotation interval, which only runs while the list is non-empty. */
    method RotationTick()
      requires Valid()
      modifies this`activeIndex
      ensures Valid()
      ensures products.Some? && |products.value| > 0 ==> activeIndex == (old(activeIndex) + 1) % |products.value|
      ensures products.None? || products.value == [] ==> activeIndex == old(activeIndex)
    {
      if products.Some? && |products.value| > 0 {
        activeIndex := (activeIndex + 1) % |products.value|;
      }
    }

    /** `discountedProducts[activeIndex]`, when there is one. */
    function Spotlight(): Option<MenuItem>
      reads this
    {
      if products.Some? && activeIndex < |products.value| then Some(products.value[activeIndex]) else None
    }

    /** The cards of the list, flagged active at the spotlight's index. */
    function ActiveFlags(): seq<bool>
      reads this
    {
      match products
      case None => []
      case Some(s) => var k := activeIndex; seq(|s|, i => i == k)
    }

    /** The board's headline. */
    function Headline(): (r: int)
      reads this
      ensures r >= 0
    {
      MaxDiscount(products)
    }
  }

  /** Once the list is in and something is on sale, the spotlight always
      shows an entry on sale, and exactly that entry's card is active. */
  lemma SpotlightShowsSale(b: DiscountBoard)
    requires b.Valid() && b.products.Some? && b.products.value != []
    ensures b.Spotlight().Some?
    ensures b.Spotlight().value in b.catalog && b.Spotlight().value.discount > 0
    ensures |b.ActiveFlags()| == |b.products.value| && b.ActiveFlags()[b.activeIndex]
    ensures forall i :: 0 <= i < |b.ActiveFlags()| ==> (b.ActiveFlags()[i] <==> i == b.activeIndex)
    ensures forall i :: 0 <= i < |b.ActiveFlags()| && b.ActiveFlags()[i] ==> b.products.value[i] == b.Spotlight().value
  {
    assert b.products.value[b.activeIndex] in b.products.value;
  }
}
