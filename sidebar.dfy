/** The order summary (src/components/CartSidebar.tsx): subtotal, discount
    and total of the cart, the per-line prices, the quota messages, the
    checkout gate and the payment-method selection. */
module Sidebar {
  import opened Types
  import opened Pricing
  import CartModel

  /** `subtotal`: Σ price × quantity, before discounts. */
  function Subtotal(cart: seq<CartItem>): real {
    if cart == [] then 0.0
    else cart[0].item.price as real * cart[0].quantity as real + Subtotal(cart[1..])
  }

  /** One line's discount: (price × d / 100) × quantity when d > 0, else 0. */
  function LineDiscount(line: CartItem): real {
    if line.item.discount > 0
    then (line.item.price as real * line.item.discount as real / 100.0) * line.quantity as real
    else 0.0
  }

  /** `totalDiscount`: the line discounts summed over the discounted lines. */
  function TotalDiscount(cart: seq<CartItem>): real {
    if cart == [] then 0.0 else LineDiscount(cart[0]) + TotalDiscount(cart[1..])
  }

  /** `total = subtotal - totalDiscount`. */
  function Total(cart: seq<CartItem>): real {
    Subtotal(cart) - TotalDiscount(cart)
  }

  /** The line's shown total: discountedPrice × quantity. */
  function LineTotal(line: CartItem): real {
    ShownUnitPrice(line.item) * line.quantity as real
  }

  function SumLineTotals(cart: seq<CartItem>): real {
    if cart == [] then 0.0 else LineTotal(cart[0]) + SumLineTotals(cart[1..])
  }

  /** The shown line totals add up to the shown total. */
  lemma {:induction false} LineTotalsSumToTotal(cart: seq<CartItem>)
    ensures SumLineTotals(cart) == Total(cart)
  {
    if cart != [] {
      LineTotalsSumToTotal(cart[1..]);
      var m := cart[0].item;
      assert LineTotal(cart[0])
          == m.price as real * cart[0].quantity as real - LineDiscount(cart[0]);
    }
  }

  predicate NoNegativeDiscount(cart: seq<CartItem>) {
    forall i :: 0 <= i < |cart| ==> cart[i].item.discount >= 0
  }

  /** With no negative discount in the cart, the sidebar's total is the page's
      cart total (the amount the payment step charges). */
  lemma {:induction false} TotalIsCartTotal(cart: seq<CartItem>)
    requires NoNegativeDiscount(cart)
    ensures Total(cart) == CartModel.CartTotal(cart)
  {
    LineTotalsSumToTotal(cart);
    SumLineTotalsIsCartTotal(cart);
  }

  lemma {:induction false} SumLineTotalsIsCartTotal(cart: seq<CartItem>)
    requires NoNegativeDiscount(cart)
    ensures SumLineTotals(cart) == CartModel.CartTotal(cart)
  {
    if cart != [] {
      UnitPricesAgree(cart[0].item);
      SumLineTotalsIsCartTotal(cart[1..]);
    }
  }

  /** A line with a negative discount makes the two totals disagree: the
      sidebar ignores it and the page total applies it. */
  lemma NegativeDiscountTotalsDisagree()
    ensures var line := CartItem(MenuItem("x", "X", "", 1000, -10, Household, 1), 1, "x-1");
            Total([line]) == 1000.0 && CartModel.CartTotal([line]) == 1100.0
  {
    var line := CartItem(MenuItem("x", "X", "", 1000, -10, Household, 1), 1, "x-1");
    assert [line][1..] == [];
  }

  // ----- checkout gate and quota messages -----

  /** Two worked carts: 2 × 1000 against a quota of 1500 is blocked and leaves
      −500; 1 × 1000 at 10% off against a quota of 1000 is allowed and leaves
      100. */
  lemma WorkedCarts(user: UserProfile)
    ensures var a := [CartItem(MenuItem("a", "A", "", 1000, 0, Household, 5), 2, "a-1")];
            Total(a) == 2000.0 && CheckoutDisabled(a, 1500) &&
            CartModel.RemainingQuota(Some(user.(balance := 1500)), a) == -500.0
    ensures var b := [CartItem(MenuItem("b", "B", "", 1000, 10, Household, 5), 1, "b-1")];
            ShownUnitPrice(b[0].item) == 900.0 && Total(b) == 900.0 && !CheckoutDisabled(b, 1000) &&
            CartModel.RemainingQuota(Some(user.(balance := 1000)), b) == 100.0
  {
    var a := [CartItem(MenuItem("a", "A", "", 1000, 0, Household, 5), 2, "a-1")];
    var b := [CartItem(MenuItem("b", "B", "", 1000, 10, Household, 5), 1, "b-1")];
    assert a[1..] == [] && b[1..] == [];
  }

  /** The confirm button's `disabled`: the cart is empty or the total exceeds the quota. */
  function CheckoutDisabled(cart: seq<CartItem>, quota: int): bool {
    |cart| == 0 || Total(cart) > quota as real
  }

  /** An enabled checkout button means a non-empty cart whose charged total
      (the page's cart total) is within the quota, and conversely. */
  lemma GateBoundsCharge(cart: seq<CartItem>, quota: int)
    requires NoNegativeDiscount(cart)
    ensures !CheckoutDisabled(cart, quota) <==>
              cart != [] && CartModel.CartTotal(cart) <= quota as real
  {
    TotalIsCartTotal(cart);
  }

  /** The two quota notes: the excess when the total is over the quota, and
      the remainder when the total is positive and within the quota. */
  datatype QuotaNotes = QuotaNotes(excess: Types.Option<real>, remaining: Types.Option<real>)

  function Notes(cart: seq<CartItem>, quota: int): (r: QuotaNotes)
    ensures r.excess.Some? <==> Total(cart) > quota as real
    ensures r.excess.Some? ==> r.excess.value > 0.0 && r.excess.value + quota as real == Total(cart)
    ensures r.remaining.Some? <==> 0.0 < Total(cart) <= quota as real
    ensures r.remaining.Some? ==> r.remaining.value >= 0.0 && r.remaining.value + Total(cart) == quota as real
    ensures !(r.excess.Some? && r.remaining.Some?)
  {
    var t := Total(cart);
    QuotaNotes(
      if t > quota as real then Some(t - quota as real) else None,
      if t > 0.0 && t <= quota as real then Some(quota as real - t) else None)
  }

  /** The remainder note is only shown when checkout is possible, and the
      excess note only when it is not. */
  lemma NotesMatchGate(cart: seq<CartItem>, quota: int)
    ensures Notes(cart, quota).remaining.Some? ==> !CheckoutDisabled(cart, quota)
    ensures Notes(cart, quota).excess.Some? ==> CheckoutDisabled(cart, quota)
  {
  }

  /** The button caption. */
  function ButtonLabel(cart: seq<CartItem>, quota: int): string {
    if Total(cart) > quota as real then "Quota Exceeded" else "Confirm Payment"
  }

  /** "Quota Exceeded" always comes with a disabled button; on a non-empty
      cart the button reads "Confirm Payment" exactly when it is enabled. */
  lemma LabelMatchesGate(cart: seq<CartItem>, quota: int)
    ensures ButtonLabel(cart, quota) == "Quota Exceeded" ==> CheckoutDisabled(cart, quota)
    ensures cart != [] ==>
              (ButtonLabel(cart, quota) == "Confirm Payment" <==> !CheckoutDisabled(cart, quota))
  {
  }

  // ----- payment-method selection -----

  /** The sidebar's own state: the selected payment method. */
  class PaymentChoice {
    var selected: PaymentMethod

    constructor ()
      ensures selected == Zigama
    {
      selected := Zigama;
    }

    /** The two channel buttons. */
    method Select(m: PaymentMethod)
      modifies this
      ensures selected == m
    {
      selected := m;
    }

    /** The confirm button: hands the selected method to the page, and does
        nothing while the button is disabled. */
    method Confirm(cart: seq<CartItem>, quota: int) returns (r: Types.Option<PaymentMethod>)
      ensures r.Some? <==> !CheckoutDisabled(cart, quota)
      ensures r.Some? ==> r.value == selected
    {
      if CheckoutDisabled(cart, quota) { r := None; } else { r := Some(selected); }
    }
  }
}
