/** The storefront page (src/App.tsx): the signed-in user, the cart, the
    category and search filters, the loading placeholder and the payment
    dialog's visibility, with the handlers that change them; and the two
    flows that run through the payment dialog's callbacks. */
module Storefront {
  import opened Types
  import opened Pricing
  import CartModel
  import Sidebar
  import ProductCard
  import Payment

  /** Catalog entries have distinct ids. */
  predicate CatalogIdsUnique(catalog: seq<MenuItem>) {
    forall i, j :: 0 <= i < j < |catalog| ==> catalog[i].id != catalog[j].id
  }

  /** Catalog discounts are percentages between 0 and 100. */
  predicate CatalogDiscountsInRange(catalog: seq<MenuItem>) {
    forall i :: 0 <= i < |catalog| ==> 0 <= catalog[i].discount <= 100
  }

  /** Every line of the cart carries an entry of the catalog. */
  predicate FromCatalog(cart: seq<CartItem>, catalog: seq<MenuItem>) {
    forall i :: 0 <= i < |cart| ==> cart[i].item in catalog
  }

  /** Adding a catalog entry keeps every line a catalog entry. */
  lemma AddKeepsFromCatalog(cart: seq<CartItem>, catalog: seq<MenuItem>, item: MenuItem, now: nat)
    requires FromCatalog(cart, catalog) && item in catalog
    ensures FromCatalog(CartModel.AddToCart(cart, item, now), catalog)
  {
    var r := CartModel.AddToCart(cart, item, now);
    if CartModel.FindLine(cart, item.id).Some? {
      assert forall i :: 0 <= i < |r| ==> r[i].item == cart[i].item;
    } else {
      assert forall i :: 0 <= i < |cart| ==> r[i] == cart[i];
    }
  }

  /** Changing a quantity keeps every line a catalog entry. */
  lemma UpdateKeepsFromCatalog(cart: seq<CartItem>, catalog: seq<MenuItem>, cartId: string, delta: int)
    requires FromCatalog(cart, catalog)
    ensures FromCatalog(CartModel.UpdateQuantity(cart, cartId, delta), catalog)
  {
    var s := CartModel.SetLines(cart, cartId, delta);
    assert forall i :: 0 <= i < |s| ==> s[i].item == cart[i].item;
    var r := CartModel.UpdateQuantity(cart, cartId, delta);
    forall i | 0 <= i < |r| ensures r[i].item in catalog {
      assert r[i] in s;
    }
  }

  /** A cart of catalog entries carries no negative discount. */
  lemma CatalogCartDiscountsNonNegative(cart: seq<CartItem>, catalog: seq<MenuItem>)
    requires FromCatalog(cart, catalog) && CatalogDiscountsInRange(catalog)
    ensures Sidebar.NoNegativeDiscount(cart)
  {
    forall i | 0 <= i < |cart| ensures cart[i].item.discount >= 0 {
      var a :| 0 <= a < |catalog| && catalog[a] == cart[i].item;
    }
  }

  /** With distinct catalog ids, the lines of a catalog entry carry that very
      entry. */
  lemma CatalogLinesCarry(cart: seq<CartItem>, catalog: seq<MenuItem>, item: MenuItem)
    requires FromCatalog(cart, catalog) && CatalogIdsUnique(catalog) && item in catalog
    ensures CartModel.LinesCarry(cart, item)
  {
    forall j | 0 <= j < |cart| && cart[j].item.id == item.id ensures cart[j].item == item {
      var a :| 0 <= a < |catalog| && catalog[a] == cart[j].item;
      var b :| 0 <= b < |catalog| && catalog[b] == item;
      assert a == b;
    }
  }

  /** The page's state. */
  class Shop {
    /** The product catalog (a constant of the program). */
    const catalog: seq<MenuItem>
    var user: Option<UserProfile>
    var selectedCategory: Category
    var cart: seq<CartItem>
    var isPaymentOpen: bool
    var selectedPaymentMethod: PaymentMethod
    var searchQuery: string
    var isLoadingProducts: bool
    /** The pending timer that ends the loading placeholder. */
    var loadingTimer: bool

    ghost predicate Valid() reads this {
      CatalogIdsUnique(catalog) && CatalogDiscountsInRange(catalog) &&
      CartModel.WellFormed(cart) && FromCatalog(cart, catalog)
    }

    /** The first render: nobody signed in, an empty cart, every category,
        an empty search, the Zigama channel preselected. */
    constructor (catalog: seq<MenuItem>)
      requires CatalogIdsUnique(catalog) && CatalogDiscountsInRange(catalog)
      ensures Valid() && this.catalog == catalog
      ensures user.None? && cart == [] && selectedCategory == All && searchQuery == ""
      ensures !isPaymentOpen && selectedPaymentMethod == Zigama
      ensures isLoadingProducts && loadingTimer
    {
      this.catalog := catalog;
      user, selectedCategory, cart := None, All, [];
      isPaymentOpen, selectedPaymentMethod, searchQuery := false, Zigama, "";
      isLoadingProducts, loadingTimer := true, true;
    }

    // ----- derived values -----

    /** `cartTotal`. */
    function Total(): real
      reads this
    {
      CartModel.CartTotal(cart)
    }

    /** `remainingQuota`. */
    function Remaining(): real
      reads this
    {
      CartModel.RemainingQuota(user, cart)
    }

    /** `filteredItems`. */
    function Visible(): (r: seq<MenuItem>)
      reads this
      ensures forall x :: x in r <==> x in catalog && CartModel.Matches(x, selectedCategory, searchQuery)
    {
      CartModel.FilteredItems(catalog, selectedCategory, searchQuery)
    }

    /** The tile of the k-th visible entry: it shows the entry's discounted
        price, offers the add button exactly when the entry is in stock and
        that price fits in the remaining quota, and the button then carries
        the entry's quantity in the cart when there is one. */
    function TileAt(k: nat): (t: ProductCard.Tile)
      requires k < |Visible()|
      reads this
      ensures t.Tile? && t.price == ShownUnitPrice(Visible()[k])
      ensures t.control.AddButton? <==>
                Visible()[k].stock > 0 && ShownUnitPrice(Visible()[k]) <= Remaining()
      ensures t.control.AddButton? ==>
                (t.control.count.Some? <==> CartModel.ItemQuantity(cart, Visible()[k].id) > 0)
    {
      var item := Visible()[k];
      var q := CartModel.ItemQuantity(cart, item.id);
      ProductCard.AddControlShown(item, q, ProductCard.Finite(Remaining()));
      ProductCard.Render(Some(item), false, q, ProductCard.Finite(Remaining()))
    }

    // ----- handlers -----

    /** `addToCart` (also what a scanned product goes through). */
    method AddToCart(item: MenuItem, now: nat)
      requires Valid() && item in catalog
      modifies this`cart
      ensures Valid()
      ensures cart == CartModel.AddToCart(old(cart), item, now)
    {
      CartModel.AddKeepsWellFormed(cart, item, now);
      AddKeepsFromCatalog(cart, catalog, item, now);
      cart := CartModel.AddToCart(cart, item, now);
    }

    /** The add button of the k-th tile. A click can only land when the tile
        shows the button; a signed-in user's cart total then stays within the
        balance, because the tile only offers an entry whose price fits in
        the remaining quota. */
    method ClickAdd(k: nat, now: nat) returns (added: bool)
      requires Valid() && user.Some? && !isLoadingProducts && k < |Visible()|
      modifies this`cart
      ensures Valid()
      ensures added <==> old(TileAt(k)).control.AddButton?
      ensures added ==> cart == CartModel.AddToCart(old(cart), old(Visible())[k], now)
      ensures added ==> Total() <= user.value.balance as real
      ensures !added ==> cart == old(cart)
    {
      var item := Visible()[k];
      assert item in catalog;
      added := TileAt(k).control.AddButton?;
      if added {
        ProductCard.AddControlShown(item, CartModel.ItemQuantity(cart, item.id), ProductCard.Finite(Remaining()));
        CatalogLinesCarry(cart, catalog, item);
        CartModel.AddRaisesTotal(cart, item, now);
        UnitPricesAgree(item);
        AddToCart(item, now);
      }
    }

    /** `updateQuantity`, from the sidebar's − and + buttons. */
    method UpdateQuantity(cartId: string, delta: int)
      requires Valid()
      modifies this`cart
      ensures Valid()
      ensures cart == CartModel.UpdateQuantity(old(cart), cartId, delta)
    {
      CartModel.UpdateKeepsWellFormed(cart, cartId, delta);
      UpdateKeepsFromCatalog(cart, catalog, cartId, delta);
      cart := CartModel.UpdateQuantity(cart, cartId, delta);
    }

    /** `onRemove`: an update by −1000. */
    method Remove(cartId: string)
      requires Valid()
      modifies this`cart
      ensures Valid()
      ensures cart == CartModel.UpdateQuantity(old(cart), cartId, -1000)
    {
      UpdateQuantity(cartId, -1000);
    }

    /** `handleCheckoutSuccess`: empty the cart and close the dialog. */
    method CheckoutSuccess()
      requires Valid()
      modifies this`cart, this`isPaymentOpen
      ensures Valid() && cart == [] && !isPaymentOpen
    {
      cart, isPaymentOpen := [], false;
    }

    /** `setUser(...)`; a change of user restarts the loading placeholder. */
    method SetUser(u: Option<UserProfile>)
      modifies this`user, this`isLoadingProducts, this`loadingTimer
      ensures user == u
      ensures u != old(user) ==> isLoadingProducts && loadingTimer
      ensures u == old(user) ==> isLoadingProducts == old(isLoadingProducts) && loadingTimer == old(loadingTimer)
    {
      if u != user {
        isLoadingProducts, loadingTimer := true, true;
      }
      user := u;
    }

    /** The category buttons; a change restarts the loading placeholder. */
    method SelectCategory(c: Category)
      modifies this`selectedCategory, this`isLoadingProducts, this`loadingTimer
      ensures selectedCategory == c
      ensures c != old(selectedCategory) ==> isLoadingProducts && loadingTimer
      ensures c == old(selectedCategory) ==> isLoadingProducts == old(isLoadingProducts) && loadingTimer == old(loadingTimer)
    {
      if c != selectedCategory {
        isLoadingProducts, loadingTimer := true, true;
      }
      selectedCategory := c;
    }

    /** The search box. */
    method SetSearchQuery(q: string)
      modifies this`searchQuery
      ensures searchQuery == q
    {
      searchQuery := q;
    }

    /** The loading timer fires. */
    method LoadingTimerElapsed()
      modifies this`isLoadingProducts, this`loadingTimer
      ensures !loadingTimer
      ensures isLoadingProducts == (old(isLoadingProducts) && !old(loadingTimer))
    {
      if loadingTimer {
        isLoadingProducts, loadingTimer := false, false;
      }
    }

    /** The sidebar's `onCheckout`: remember the channel and open the dialog. */
    method OpenPayment(m: PaymentMethod)
      modifies this`selectedPaymentMethod, this`isPaymentOpen
      ensures selectedPaymentMethod == m && isPaymentOpen
    {
      selectedPaymentMethod, isPaymentOpen := m, true;
    }

    /** The sidebar's confirm button: the checkout gate is the sidebar's, the
        quota it is checked against is the user's balance. A dialog this call
        opens charges a non-empty cart whose total is within the balance. */
    method Checkout(choice: Sidebar.PaymentChoice)
      requires Valid() && user.Some?
      modifies this`selectedPaymentMethod, this`isPaymentOpen
      ensures isPaymentOpen == (old(isPaymentOpen) || !Sidebar.CheckoutDisabled(cart, user.value.balance))
      ensures !Sidebar.CheckoutDisabled(cart, user.value.balance) ==> selectedPaymentMethod == choice.selected
      ensures Sidebar.CheckoutDisabled(cart, user.value.balance) ==> selectedPaymentMethod == old(selectedPaymentMethod)
      ensures isPaymentOpen && !old(isPaymentOpen) ==> cart != [] && Total() <= user.value.balance as real
    {
      CatalogCartDiscountsNonNegative(cart, catalog);
      Sidebar.GateBoundsCharge(cart, user.value.balance);
      var r := choice.Confirm(cart, user.value.balance);
      if r.Some? {
        OpenPayment(r.value);
      }
    }

    /** The dialog as the page mounts it: charged the cart total, on the
        selected channel, for the signed-in user. */
    method MountPayment() returns (modal: Payment.PaymentModal)
      requires isPaymentOpen && user.Some?
      ensures fresh(modal) && modal.Valid() && modal.mounted
      ensures modal.step == Payment.Processing && modal.printTimers == 0
      ensures modal.total == Total() && modal.cart == cart && modal.paymentMethod == selectedPaymentMethod
      ensures modal.userName == user.value.name && modal.userQuota == user.value.balance
    {
      modal := new Payment.PaymentModal(Total(), selectedPaymentMethod, cart, user.value.name, user.value.balance);
    }

    /** Runs one of the dialog's callbacks. */
    method Invoke(cb: Payment.Callback)
      requires Valid()
      modifies this`cart, this`isPaymentOpen, this`user, this`isLoadingProducts, this`loadingTimer
      ensures Valid()
      ensures cb == Payment.OnClose ==> !isPaymentOpen && cart == old(cart) && user == old(user)
      ensures cb == Payment.OnSuccess ==> !isPaymentOpen && cart == [] && user == old(user)
      ensures cb == Payment.OnLogout ==> user.None? && cart == old(cart) && isPaymentOpen == old(isPaymentOpen)
      ensures cb != Payment.OnLogout ==>
                isLoadingProducts == old(isLoadingProducts) && loadingTimer == old(loadingTimer)
    {
      match cb
      case OnClose => isPaymentOpen := false;
      case OnSuccess => CheckoutSuccess();
      case OnLogout => SetUser(None);
    }

    /** Runs callbacks in order: the cart is emptied if `onSuccess` ran, the
        user is signed out if `onLogout` ran, and the dialog is closed if
        `onClose` or `onSuccess` ran; otherwise each stays as it was. */
    method InvokeAll(calls: seq<Payment.Callback>)
      requires Valid()
      modifies this`cart, this`isPaymentOpen, this`user, this`isLoadingProducts, this`loadingTimer
      ensures Valid()
      ensures cart == if Payment.OnSuccess in calls then [] else old(cart)
      ensures user == if Payment.OnLogout in calls then None else old(user)
      ensures isPaymentOpen ==
                if Payment.OnClose in calls || Payment.OnSuccess in calls then false else old(isPaymentOpen)
      ensures Payment.OnLogout !in calls ==>
                isLoadingProducts == old(isLoadingProducts) && loadingTimer == old(loadingTimer)
    {
      var i := 0;
      while i < |calls|
        invariant 0 <= i <= |calls| && Valid()
        invariant cart == if Payment.OnSuccess in calls[..i] then [] else old(cart)
        invariant user == if Payment.OnLogout in calls[..i] then None else old(user)
        invariant isPaymentOpen ==
                    if Payment.OnClose in calls[..i] || Payment.OnSuccess in calls[..i] then false else old(isPaymentOpen)
        invariant Payment.OnLogout !in calls[..i] ==>
                    isLoadingProducts == old(isLoadingProducts) && loadingTimer == old(loadingTimer)
      {
        assert calls[..i + 1] == calls[..i] + [calls[i]];
        Invoke(calls[i]);
        i := i + 1;
      }
      assert calls[..i] == calls;
    }
  }

  /** Cancelling while the dialog processes: the page closes and drops the
      dialog; the cart, the user and the rest of the page stay. */
  method CancelPayment(shop: Shop, modal: Payment.PaymentModal)
    requires shop.Valid() && modal.Valid() && modal.mounted && modal.step == Payment.Processing
    modifies shop`cart, shop`isPaymentOpen, shop`user, shop`isLoadingProducts, shop`loadingTimer
    modifies modal`mounted, modal`processingTimer, modal`successTimer, modal`printTimers
    ensures shop.Valid() && !shop.isPaymentOpen && !modal.mounted
    ensures shop.cart == old(shop.cart) && shop.user == old(shop.user)
    ensures shop.isLoadingProducts == old(shop.isLoadingProducts) && shop.loadingTimer == old(shop.loadingTimer)
  {
    var calls := modal.Cancel();
    shop.InvokeAll(calls);
    modal.Unmount();
  }

  /** "Print Receipt & Finish" on the receipt screen, followed by its timer.
      When the receipt window opens, it receives the dialog's receipt, and
      the purchase ends with an empty cart, nobody signed in and the dialog
      closed and dropped; when it is blocked, nothing changes but the alert
      and the dialog stays on its receipt screen. */
  method PrintAndFinish(shop: Shop, modal: Payment.PaymentModal, popupOpened: bool, now: nat, random36: string)
      returns (alerted: bool, doc: Option<Payment.PrintedReceipt>)
    requires shop.Valid() && modal.Valid() && modal.mounted && modal.step == Payment.Receipt
    requires shop.isPaymentOpen && modal.printTimers == 0
    modifies shop`cart, shop`isPaymentOpen, shop`user, shop`isLoadingProducts, shop`loadingTimer
    modifies modal`mounted, modal`processingTimer, modal`successTimer, modal`printTimers
    ensures shop.Valid() && modal.Valid()
    ensures popupOpened ==>
              !alerted &&
              doc == Some(Payment.PrintedReceiptOf(modal.cart, modal.total, modal.paymentMethod,
                                                   modal.userName, modal.userQuota, now, random36)) &&
              shop.cart == [] && shop.user.None? && !shop.isPaymentOpen && !modal.mounted
    ensures !popupOpened ==>
              alerted && doc.None? &&
              shop.cart == old(shop.cart) && shop.user == old(shop.user) &&
              shop.isPaymentOpen == old(shop.isPaymentOpen) &&
              shop.isLoadingProducts == old(shop.isLoadingProducts) &&
              shop.loadingTimer == old(shop.loadingTimer) &&
              modal.mounted && modal.step == Payment.Receipt && modal.printTimers == 0
  {
    alerted, doc := modal.Print(popupOpened, now, random36);
    var calls := modal.PrintTimerElapsed();
    shop.InvokeAll(calls);
    if !shop.isPaymentOpen {
      modal.Unmount();
    }
  }
}
