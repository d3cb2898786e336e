/** The cart updates and derived values of the storefront page
    (src/App.tsx): the pure `setCart` updaters of add-to-cart and
    update-quantity, the lookup of a product's quantity, the cart total, the
    remaining quota and the catalog filter. */
module CartModel {
  import opened Types
  import opened Text
  import opened Pricing

  // ----- line ids -----

  /** The line id of a fresh line: `${item.id}-${Date.now()}`. */
  function CartIdFor(id: string, now: nat): string {
    id + "-" + Digits(now)
  }

  /** The number of decimal digits that end `s`. */
  function TrailingDigits(s: string): (n: nat)
    ensures n <= |s|
  {
    if s != [] && IsDigit(s[|s| - 1]) then 1 + TrailingDigits(s[..|s| - 1]) else 0
  }

  lemma {:induction false} TrailingDigitsAfterDash(x: string, d: string)
    requires AllDigits(d)
    ensures TrailingDigits(x + "-" + d) == |d|
  {
    if d != [] {
      var s := x + "-" + d;
      assert s[..|s| - 1] == x + "-" + d[..|d| - 1];
      TrailingDigitsAfterDash(x, d[..|d| - 1]);
    }
  }

  /** A line id determines the product id and the clock reading it was made
      from, so lines of distinct products never share a line id. */
  lemma CartIdInjective(a: string, n1: nat, b: string, n2: nat)
    requires CartIdFor(a, n1) == CartIdFor(b, n2)
    ensures a == b && n1 == n2
  {
    var c := CartIdFor(a, n1);
    TrailingDigitsAfterDash(a, Digits(n1));
    TrailingDigitsAfterDash(b, Digits(n2));
    assert |a| == |b|;
    assert a == c[..|a|] == b;
    assert Digits(n1) == c[|a| + 1..] == Digits(n2);
    ParseDigitsOfDigits(n1);
    ParseDigitsOfDigits(n2);
  }

  // ----- cart invariant -----

  predicate AllPositive(cart: seq<CartItem>) {
    forall i :: 0 <= i < |cart| ==> cart[i].quantity >= 1
  }

  predicate UniqueIds(cart: seq<CartItem>) {
    forall i, j :: 0 <= i < j < |cart| ==> cart[i].item.id != cart[j].item.id
  }

  /** `cid` has the shape `${id}-<decimal digits>`. */
  predicate IsLineIdOf(cid: string, id: string) {
    |cid| >= |id| + 2 && cid[..|id|] == id && cid[|id|] == '-' && AllDigits(cid[|id| + 1..])
  }

  lemma CartIdForShape(id: string, now: nat)
    ensures IsLineIdOf(CartIdFor(id, now), id)
  {
    var c := CartIdFor(id, now);
    assert c[|id| + 1..] == Digits(now);
  }

  /** A line id of that shape names one product only. */
  lemma LineIdDeterminesProduct(c: string, a: string, b: string)
    requires IsLineIdOf(c, a) && IsLineIdOf(c, b)
    ensures a == b
  {
    assert c == a + "-" + c[|a| + 1..];
    assert c == b + "-" + c[|b| + 1..];
    TrailingDigitsAfterDash(a, c[|a| + 1..]);
    TrailingDigitsAfterDash(b, c[|b| + 1..]);
  }

  /** Every line id was made from the line's product id and a clock reading. */
  predicate IdsFromProducts(cart: seq<CartItem>) {
    forall i :: 0 <= i < |cart| ==> IsLineIdOf(cart[i].cartId, cart[i].item.id)
  }

  /** What every cart the page builds satisfies: positive quantities, one line
      per product, and line ids made from the product ids. */
  predicate WellFormed(cart: seq<CartItem>) {
    AllPositive(cart) && UniqueIds(cart) && IdsFromProducts(cart)
  }

  predicate UniqueCartIds(cart: seq<CartItem>) {
    forall i, j :: 0 <= i < j < |cart| ==> cart[i].cartId != cart[j].cartId
  }

  /** In a well-formed cart a line id names at most one line. */
  lemma WellFormedCartIdsUnique(cart: seq<CartItem>)
    requires WellFormed(cart)
    ensures UniqueCartIds(cart)
  {
    forall i, j | 0 <= i < j < |cart| ensures cart[i].cartId != cart[j].cartId {
      if cart[i].cartId == cart[j].cartId {
        LineIdDeterminesProduct(cart[i].cartId, cart[i].item.id, cart[j].item.id);
      }
    }
  }

  // ----- lookup -----

  /** `cart.find(i => i.id === id)`, as the index of the first matching line. */
  function FindLine(cart: seq<CartItem>, id: string): (r: Option<nat>)
    ensures r.Some? ==> r.value < |cart| && cart[r.value].item.id == id &&
                        forall j :: 0 <= j < r.value ==> cart[j].item.id != id
    ensures r.None? ==> forall j :: 0 <= j < |cart| ==> cart[j].item.id != id
  {
    if cart == [] then None
    else if cart[0].item.id == id then Some(0)
    else match FindLine(cart[1..], id)
      case None => None
      case Some(k) => Some(k + 1)
  }

  /** `getItemQuantity`: the quantity of the first line of that product, or 0. */
  function ItemQuantity(cart: seq<CartItem>, id: string): int {
    match FindLine(cart, id)
    case None => 0
    case Some(i) => cart[i].quantity
  }

  /** In a well-formed cart the quantity is positive exactly for the products
      that have a line. */
  lemma ItemQuantityPositiveIffInCart(cart: seq<CartItem>, id: string)
    requires AllPositive(cart)
    ensures ItemQuantity(cart, id) > 0 <==> exists i :: 0 <= i < |cart| && cart[i].item.id == id
  {
    var r := FindLine(cart, id);
    if r.Some? { assert cart[r.value].item.id == id; }
  }

  // ----- add to cart -----

  /** `prev.map(i => i.id === item.id ? { ...i, quantity: i.quantity + 1 } : i)`. */
  function BumpLines(cart: seq<CartItem>, id: string): (r: seq<CartItem>)
    ensures |r| == |cart|
  {
    seq(|cart|, i requires 0 <= i < |cart| =>
      if cart[i].item.id == id then cart[i].(quantity := cart[i].quantity + 1) else cart[i])
  }

  /** The `addToCart` updater: bump the product's line when there is one,
      otherwise append a fresh line of quantity 1. */
  function AddToCart(cart: seq<CartItem>, item: MenuItem, now: nat): seq<CartItem> {
    if FindLine(cart, item.id).Some? then BumpLines(cart, item.id)
    else cart + [CartItem(item, 1, CartIdFor(item.id, now))]
  }

  /** Adding a product that has a line adds exactly 1 to that line and
      changes nothing else. */
  lemma AddToExistingLine(cart: seq<CartItem>, item: MenuItem, now: nat, i: nat)
    requires UniqueIds(cart) && i < |cart| && cart[i].item.id == item.id
    ensures AddToCart(cart, item, now) == cart[i := cart[i].(quantity := cart[i].quantity + 1)]
  {
    assert FindLine(cart, item.id).Some?;
  }

  /** Adding a product without a line appends one line of quantity 1 whose
      id is made from the product id and the clock; the old lines stay as they
      were, in order. */
  lemma AddNewLine(cart: seq<CartItem>, item: MenuItem, now: nat)
    requires forall j :: 0 <= j < |cart| ==> cart[j].item.id != item.id
    ensures AddToCart(cart, item, now) == cart + [CartItem(item, 1, item.id + "-" + Digits(now))]
  {
  }

  /** Adding two times the same product to a cart without it gives one line
      of quantity 2. */
  lemma AddTwiceMerges(cart: seq<CartItem>, item: MenuItem, now1: nat, now2: nat)
    requires forall j :: 0 <= j < |cart| ==> cart[j].item.id != item.id
    ensures AddToCart(AddToCart(cart, item, now1), item, now2)
         == cart + [CartItem(item, 2, CartIdFor(item.id, now1))]
  {
    var once := AddToCart(cart, item, now1);
    assert FindLine(once, item.id).Some? by { assert once[|cart|].item.id == item.id; }
    assert BumpLines(once, item.id) == cart + [CartItem(item, 2, CartIdFor(item.id, now1))];
  }

  /** Adding keeps the cart well-formed: quantities stay positive, no product
      gets a second line, line ids stay made from product ids. */
  lemma AddKeepsWellFormed(cart: seq<CartItem>, item: MenuItem, now: nat)
    requires WellFormed(cart)
    ensures WellFormed(AddToCart(cart, item, now))
  {
    CartIdForShape(item.id, now);
  }

  /** After adding, the product's quantity is one more than before and every
      other product's quantity is unchanged. */
  lemma AddRaisesItemQuantity(cart: seq<CartItem>, item: MenuItem, now: nat, other: string)
    ensures ItemQuantity(AddToCart(cart, item, now), item.id) == ItemQuantity(cart, item.id) + 1
    ensures other != item.id ==> ItemQuantity(AddToCart(cart, item, now), other) == ItemQuantity(cart, other)
  {
    var r := AddToCart(cart, item, now);
    var f := FindLine(cart, item.id);
    if f.Some? {
      SameFindAfterBump(cart, item.id, item.id);
      if other != item.id { SameFindAfterBump(cart, item.id, other); }
    } else {
      FindInPrefix(cart, [CartItem(item, 1, CartIdFor(item.id, now))], item.id);
      if other != item.id { FindInPrefix(cart, [CartItem(item, 1, CartIdFor(item.id, now))], other); }
    }
  }

  /** Bumping the lines of one product moves no line: the first line of any
      product is at the same index afterwards. */
  lemma {:induction false} SameFindAfterBump(cart: seq<CartItem>, id: string, other: string)
    ensures FindLine(BumpLines(cart, id), other) == FindLine(cart, other)
  {
    if cart != [] {
      assert BumpLines(cart, id)[1..] == BumpLines(cart[1..], id);
      SameFindAfterBump(cart[1..], id, other);
    }
  }

  lemma ItemQuantitySkipsOther(s: seq<CartItem>, id: string)
    requires s != [] && s[0].item.id != id
    ensures ItemQuantity(s, id) == ItemQuantity(s[1..], id)
  {
  }

  /** Appending lines does not change where a product already present is found,
      and a product absent from the prefix is looked for in the suffix. */
  lemma {:induction false} FindInPrefix(a: seq<CartItem>, b: seq<CartItem>, id: string)
    ensures FindLine(a, id).Some? ==> FindLine(a + b, id) == FindLine(a, id)
    ensures FindLine(a, id).None? ==> ItemQuantity(a + b, id) == ItemQuantity(b, id)
  {
    if a == [] {
      assert a + b == b;
    } else {
      assert (a + b)[0] == a[0];
      assert (a + b)[1..] == a[1..] + b;
      FindInPrefix(a[1..], b, id);
      if a[0].item.id != id {
        ItemQuantitySkipsOther(a + b, id);
      }
    }
  }

  // ----- update quantity -----

  /** `.filter(item => item.quantity > 0)`. */
  function KeepPositive(s: seq<CartItem>): (r: seq<CartItem>)
    ensures AllPositive(r)
    ensures |r| <= |s|
    ensures forall x :: x in r ==> x in s
  {
    if s == [] then []
    else if s[0].quantity > 0 then [s[0]] + KeepPositive(s[1..])
    else KeepPositive(s[1..])
  }

  lemma {:induction false} KeepPositiveOfPositive(s: seq<CartItem>)
    requires AllPositive(s)
    ensures KeepPositive(s) == s
  {
    if s != [] { KeepPositiveOfPositive(s[1..]); }
  }

  lemma {:induction false} KeepPositiveConcat(a: seq<CartItem>, b: seq<CartItem>)
    ensures KeepPositive(a + b) == KeepPositive(a) + KeepPositive(b)
  {
    if a != [] {
      assert (a + b)[1..] == a[1..] + b;
      KeepPositiveConcat(a[1..], b);
    } else {
      assert a + b == b;
    }
  }

  function ClampedAdd(q: int, delta: int): (r: int)
    ensures r >= 0
  {
    if q + delta > 0 then q + delta else 0
  }

  /** `prev.map(...)`: the line with that line id gets `Math.max(0, q + delta)`. */
  function SetLines(cart: seq<CartItem>, cartId: string, delta: int): (r: seq<CartItem>)
    ensures |r| == |cart|
  {
    seq(|cart|, i requires 0 <= i < |cart| =>
      if cart[i].cartId == cartId
      then cart[i].(quantity := ClampedAdd(cart[i].quantity, delta))
      else cart[i])
  }

  /** The `updateQuantity` updater. */
  function UpdateQuantity(cart: seq<CartItem>, cartId: string, delta: int): (r: seq<CartItem>)
    ensures AllPositive(r)
  {
    KeepPositive(SetLines(cart, cartId, delta))
  }

  /** An unknown line id leaves a cart of positive quantities unchanged. */
  lemma UpdateUnknownLine(cart: seq<CartItem>, cartId: string, delta: int)
    requires AllPositive(cart)
    requires forall j :: 0 <= j < |cart| ==> cart[j].cartId != cartId
    ensures UpdateQuantity(cart, cartId, delta) == cart
  {
    assert SetLines(cart, cartId, delta) == cart;
    KeepPositiveOfPositive(cart);
  }

  /** The line with that id gets max(0, q + delta); it is dropped when that is
      0 and the other lines keep their contents and order. */
  lemma UpdateKnownLine(cart: seq<CartItem>, cartId: string, delta: int, i: nat)
    requires AllPositive(cart) && UniqueCartIds(cart)
    requires i < |cart| && cart[i].cartId == cartId
    ensures var q := cart[i].quantity + delta;
            UpdateQuantity(cart, cartId, delta)
            == if q > 0 then cart[i := cart[i].(quantity := q)] else cart[..i] + cart[i + 1..]
  {
    var x := cart[i].(quantity := ClampedAdd(cart[i].quantity, delta));
    SetLinesSplit(cart, cartId, delta, i);
    KeepPositiveSplice(cart[..i], x, cart[i + 1..]);
    if cart[i].quantity + delta > 0 {
      assert cart[i := cart[i].(quantity := cart[i].quantity + delta)] == cart[..i] + [x] + cart[i + 1..];
    }
  }

  /** With distinct line ids, SetLines touches the one line with that id. */
  lemma SetLinesSplit(cart: seq<CartItem>, cartId: string, delta: int, i: nat)
    requires UniqueCartIds(cart) && i < |cart| && cart[i].cartId == cartId
    ensures SetLines(cart, cartId, delta)
         == cart[..i] + [cart[i].(quantity := ClampedAdd(cart[i].quantity, delta))] + cart[i + 1..]
  {
  }

  /** The `filter` on positive lines around one line keeps or drops that line. */
  lemma KeepPositiveSplice(a: seq<CartItem>, x: CartItem, b: seq<CartItem>)
    requires AllPositive(a) && AllPositive(b)
    ensures KeepPositive(a + [x] + b) == if x.quantity > 0 then a + [x] + b else a + b
  {
    var l := a + [x];
    KeepPositiveConcat(l, b);
    KeepPositiveConcat(a, [x]);
    KeepPositiveOfPositive(a);
    KeepPositiveOfPositive(b);
    assert [x][1..] == [];
    if x.quantity > 0 {
      assert KeepPositive([x]) == [x];
    } else {
      assert KeepPositive([x]) == [];
      assert KeepPositive(l) == a;
    }
  }

  /** `onRemove` runs `updateQuantity(id, -1000)`: it removes the line only when
      its quantity is at most 1000, and otherwise leaves q − 1000. */
  lemma RemoveLine(cart: seq<CartItem>, i: nat)
    requires WellFormed(cart) && i < |cart|
    ensures var r := UpdateQuantity(cart, cart[i].cartId, -1000);
            if cart[i].quantity <= 1000 then r == cart[..i] + cart[i + 1..]
            else r == cart[i := cart[i].(quantity := cart[i].quantity - 1000)]
  {
    WellFormedCartIdsUnique(cart);
    UpdateKnownLine(cart, cart[i].cartId, -1000, i);
  }

  /** Lowering a line by its own quantity removes it. */
  lemma UpdateByMinusQuantityRemoves(cart: seq<CartItem>, i: nat)
    requires WellFormed(cart) && i < |cart|
    ensures UpdateQuantity(cart, cart[i].cartId, -cart[i].quantity) == cart[..i] + cart[i + 1..]
  {
    WellFormedCartIdsUnique(cart);
    UpdateKnownLine(cart, cart[i].cartId, -cart[i].quantity, i);
  }

  lemma {:induction false} KeepPositiveKeepsUnique(s: seq<CartItem>)
    requires UniqueIds(s) && IdsFromProducts(s)
    ensures UniqueIds(KeepPositive(s)) && IdsFromProducts(KeepPositive(s))
  {
    if s != [] {
      KeepPositiveKeepsUnique(s[1..]);
      var rest := KeepPositive(s[1..]);
      forall j | 0 <= j < |rest| ensures rest[j].item.id != s[0].item.id {
        assert rest[j] in s[1..];
      }
      forall x | x in KeepPositive(s) ensures IsLineIdOf(x.cartId, x.item.id) {
        assert x in s;
      }
    }
  }

  /** Updating keeps the cart well-formed. */
  lemma UpdateKeepsWellFormed(cart: seq<CartItem>, cartId: string, delta: int)
    requires WellFormed(cart)
    ensures WellFormed(UpdateQuantity(cart, cartId, delta))
  {
    KeepPositiveKeepsUnique(SetLines(cart, cartId, delta));
  }

  // ----- totals -----

  /** `cartTotal`: the sum of discounted unit price × quantity. */
  function CartTotal(cart: seq<CartItem>): real {
    if cart == [] then 0.0 else LineAmount(cart[0]) + CartTotal(cart[1..])
  }

  /** One line's share of the total: discounted unit price × quantity. */
  function LineAmount(line: CartItem): real {
    TotalUnitPrice(line.item) * line.quantity as real
  }

  /** Replacing one line changes the total by the difference of the two lines. */
  lemma {:induction false} CartTotalReplace(cart: seq<CartItem>, i: nat, line: CartItem)
    requires i < |cart|
    ensures CartTotal(cart[i := line]) == CartTotal(cart) - LineAmount(cart[i]) + LineAmount(line)
  {
    if i > 0 {
      assert cart[i := line][1..] == cart[1..][i - 1 := line];
      CartTotalReplace(cart[1..], i - 1, line);
    }
  }

  lemma {:induction false} CartTotalConcat(a: seq<CartItem>, b: seq<CartItem>)
    ensures CartTotal(a + b) == CartTotal(a) + CartTotal(b)
  {
    if a != [] {
      assert (a + b)[1..] == a[1..] + b;
      CartTotalConcat(a[1..], b);
    } else {
      assert a + b == b;
    }
  }

  /** Lines are copies of catalog entries: the lines of a product carry the
      same entry as the catalog. */
  predicate LinesCarry(cart: seq<CartItem>, item: MenuItem) {
    forall j :: 0 <= j < |cart| && cart[j].item.id == item.id ==> cart[j].item == item
  }

  /** Adding a product raises the total by exactly its unit price. */
  lemma AddRaisesTotal(cart: seq<CartItem>, item: MenuItem, now: nat)
    requires UniqueIds(cart) && LinesCarry(cart, item)
    ensures CartTotal(AddToCart(cart, item, now)) == CartTotal(cart) + TotalUnitPrice(item)
  {
    var f := FindLine(cart, item.id);
    if f.Some? {
      var i := f.value;
      AddToExistingLine(cart, item, now, i);
      CartTotalReplace(cart, i, cart[i].(quantity := cart[i].quantity + 1));
    } else {
      CartTotalConcat(cart, [CartItem(item, 1, CartIdFor(item.id, now))]);
    }
  }

  /** `remainingQuota`: balance − cartTotal with a user, 0 without one. */
  function RemainingQuota(user: Option<UserProfile>, cart: seq<CartItem>): real {
    match user
    case None => 0.0
    case Some(u) => u.balance as real - CartTotal(cart)
  }

  /** Adding one unit of a product lowers a signed-in user's remaining
      quota by exactly the product's charged unit price, and leaves it 0
      when nobody is signed in. */
  lemma AddLowersRemaining(user: Option<UserProfile>, cart: seq<CartItem>, item: MenuItem, now: nat)
    requires UniqueIds(cart) && LinesCarry(cart, item)
    ensures user.Some? ==>
      RemainingQuota(user, AddToCart(cart, item, now)) == RemainingQuota(user, cart) - TotalUnitPrice(item)
    ensures user.None? ==> RemainingQuota(user, AddToCart(cart, item, now)) == 0.0
  {
    AddRaisesTotal(cart, item, now);
  }

  // ----- catalog filter -----

  /** The predicate of `filteredItems`: the category matches (or is 'All') and
      the lower-cased query occurs in the lower-cased name or description. */
  predicate Matches(item: MenuItem, category: Category, query: string) {
    (category == All || item.category == category) &&
    (Includes(Lower(item.name), Lower(query)) || Includes(Lower(item.description), Lower(query)))
  }

  /** `filteredItems`: the catalog entries that match, in catalog order. */
  function FilteredItems(items: seq<MenuItem>, category: Category, query: string): (r: seq<MenuItem>)
    ensures |r| <= |items|
    ensures forall x :: x in r <==> x in items && Matches(x, category, query)
  {
    if items == [] then []
    else
      var rest := FilteredItems(items[1..], category, query);
      if Matches(items[0], category, query) then [items[0]] + rest else rest
  }

  /** The filter splits over concatenation: it keeps catalog order. */
  lemma {:induction false} FilteredItemsConcat(a: seq<MenuItem>, b: seq<MenuItem>, category: Category, query: string)
    ensures FilteredItems(a + b, category, query)
         == FilteredItems(a, category, query) + FilteredItems(b, category, query)
  {
    if a != [] {
      assert (a + b)[1..] == a[1..] + b;
      FilteredItemsConcat(a[1..], b, category, query);
    } else {
      assert a + b == b;
    }
  }

  /** With category 'All' and an empty search box every entry is shown. */
  lemma {:induction false} FilterAllEmptyQuery(items: seq<MenuItem>)
    ensures FilteredItems(items, All, "") == items
  {
    if items != [] {
      assert Lower("") == "";
      IncludesEmpty(Lower(items[0].name));
      FilterAllEmptyQuery(items[1..]);
    }
  }

  /** The search ignores the query's case. */
  lemma {:induction false} FilterIgnoresQueryCase(items: seq<MenuItem>, category: Category, q1: string, q2: string)
    requires Lower(q1) == Lower(q2)
    ensures FilteredItems(items, category, q1) == FilteredItems(items, category, q2)
  {
    if items != [] { FilterIgnoresQueryCase(items[1..], category, q1, q2); }
  }
}
