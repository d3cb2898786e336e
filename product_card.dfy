/** One catalog tile (src/components/ProductCard.tsx): availability, the
    discounted price, the over-quota flag and which badge and which add
    control the tile shows. */
module ProductCard {
  import opened Types
  import opened Pricing

  /** The `remainingQuota` prop; when the page gives none it is `Infinity`. */
  datatype QuotaBound = Finite(amount: real) | Unbounded

  function IsAvailable(item: MenuItem): bool {
    item.stock > 0
  }

  /** `exceedsQuota`: the discounted unit price is above the remaining quota. */
  function ExceedsQuota(item: MenuItem, remaining: QuotaBound): bool {
    match remaining
    case Unbounded => false
    case Finite(q) => ShownUnitPrice(item) > q
  }

  datatype Badge = OverQuota | InStock | OutOfStock

  /** What the add corner shows: the add button (with the cart quantity on it
      when there is one), the blocked indicator, or nothing. */
  datatype AddControl = AddButton(count: Option<int>) | Blocked | NoControl

  datatype Tile = Skeleton | Tile(
    badge: Badge,
    control: AddControl,
    discountBadge: Option<int>,
    price: real,
    struckPrice: Option<int>,
    unavailableNote: bool)

  /** The tile for an entry (or the loading placeholder). */
  function Render(item: Option<MenuItem>, loading: bool, cartQuantity: int, remaining: QuotaBound): Tile {
    if loading || item.None? then Skeleton
    else
      var m := item.value;
      var available := IsAvailable(m);
      var exceeds := ExceedsQuota(m, remaining);
      var hasDiscount := m.discount > 0;
      Tile(
        if exceeds && available then OverQuota else if available then InStock else OutOfStock,
        if available && !exceeds then AddButton(if cartQuantity > 0 then Some(cartQuantity) else None)
        else if available && exceeds then Blocked
        else NoControl,
        if hasDiscount then Some(m.discount) else None,
        ShownUnitPrice(m),
        if hasDiscount then Some(m.price) else None,
        !available)
  }

  /** The add button is there exactly when the entry is in stock and its
      discounted price is within the remaining quota, and then it carries the
      cart quantity when that is positive; the blocked indicator is there
      exactly when it is in stock and over the quota; an entry out of stock
      has neither. */
  lemma AddControlShown(m: MenuItem, cartQuantity: int, remaining: QuotaBound)
    ensures var t := Render(Some(m), false, cartQuantity, remaining);
            var over := remaining.Finite? && ShownUnitPrice(m) > remaining.amount;
            (t.control.AddButton? <==> m.stock > 0 && !over) &&
            (t.control.Blocked? <==> m.stock > 0 && over) &&
            (t.control.NoControl? <==> m.stock <= 0) &&
            (t.control.AddButton? ==>
               t.control.count == if cartQuantity > 0 then Some(cartQuantity) else None)
  {
  }

  /** "Over Quota" is shown exactly for an entry in stock and over the quota;
      otherwise the stock badge says whether the entry is in stock, and the
      unavailable note is shown exactly for an entry out of stock. */
  lemma BadgeShown(m: MenuItem, cartQuantity: int, remaining: QuotaBound)
    ensures var t := Render(Some(m), false, cartQuantity, remaining);
            var over := remaining.Finite? && ShownUnitPrice(m) > remaining.amount;
            (t.badge == OverQuota <==> m.stock > 0 && over) &&
            (t.badge == InStock <==> m.stock > 0 && !over) &&
            (t.badge == OutOfStock <==> m.stock <= 0) &&
            (t.unavailableNote <==> m.stock <= 0)
  {
  }

  /** While products load, or for a missing entry, the placeholder is shown. */
  lemma SkeletonShown(item: Option<MenuItem>, loading: bool, cartQuantity: int, remaining: QuotaBound)
    ensures Render(item, loading, cartQuantity, remaining).Skeleton? <==> loading || item.None?
  {
  }

  /** Without a quota bound no entry is ever flagged or blocked. */
  lemma UnboundedNeverBlocks(m: MenuItem, cartQuantity: int)
    ensures Render(Some(m), false, cartQuantity, Unbounded).badge != OverQuota
    ensures !Render(Some(m), false, cartQuantity, Unbounded).control.Blocked?
  {
  }

  /** The tile shows the discounted price, which for a discount in 0..100 is
      between 0 and the list price; the list price is struck through exactly
      when the discount is positive. */
  lemma TilePrice(m: MenuItem, cartQuantity: int, remaining: QuotaBound)
    requires 0 <= m.discount <= 100 && m.price >= 0
    ensures var t := Render(Some(m), false, cartQuantity, remaining);
            0.0 <= t.price <= m.price as real &&
            (t.struckPrice.Some? <==> m.discount > 0) &&
            (m.discount == 0 ==> t.price == m.price as real)
  {
  }
}
