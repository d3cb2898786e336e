# AFOS point-of-sale: the cart and quota checkout engine

This project is a Dafny model of the checkout core of the AFOS storefront, a
point-of-sale front end for an armed-forces shop. A signed-in service member
browses a catalog and fills a cart. The cart total is checked against a
spending quota, the member's balance. The member pays on one of two
channels, Zigama Pay or Mobile Money, and gets a receipt. Finishing the
receipt empties the cart and signs the member out.

The modules follow the program's components:

| module | file | models |
|---|---|---|
| `Types` | `types.dfy` | the records of `src/types.ts`: product, cart line, user profile, category, payment channel |
| `Text` | `text.dfy` | the JavaScript string operations the core relies on: `toLowerCase`/`toUpperCase` (ASCII letters), `includes`, `trim`, `substring`, `slice(-k)`, decimal rendering of a clock reading |
| `Pricing` | `pricing.dfy` | the discounted unit price, in the three guard styles the source uses |
| `CartModel` | `cart.dfy` | the pure `setCart` updaters of `src/App.tsx`, the quantity lookup, the cart total, the remaining quota and the catalog filter |
| `Sidebar` | `sidebar.dfy` | `src/components/CartSidebar.tsx`: subtotal, discount and total, the quota notes, the checkout gate, the channel selection |
| `ProductCard` | `product_card.dfy` | `src/components/ProductCard.tsx`: which badge, add control and price a tile shows |
| `Payment` | `payment.dfy` | `src/components/PaymentModal.tsx`: the processing, success and receipt steps driven by timers; cancel; print-and-finish; the receipt fields |
| `Storefront` | `shop.dfy` | the page state of `src/App.tsx` as a class whose handlers assign the `CartModel` updaters; the cancel and finish flows through the dialog's callbacks |
| `Auth` | `auth.dfy` | `src/components/AuthScreen.tsx`: the access-key step, the service-number step, their timers and the background carousel |
| `Discounts` | `discounts.dfy` | `src/pages/DiscountsPage.tsx`: the products on sale, the "up to" headline, the rotating spotlight |

Choices that shape the model:

- Arithmetic is exact. Prices, discounts, stock and quantities are `int`.
  Money derived from a discount is `real`.
- `discount?: number` is an `int`, and an absent discount is 0. Every
  discount guard in the core reads absent and 0 alike.
- The source computes the discounted unit price with three different
  guards:
  - `item.discount ? ... : price` applies any non-zero discount. It is used
    for the page's total and for the receipt (`Pricing.TotalUnitPrice`).
  - `item.discount && item.discount > 0` applies only a positive discount.
    It is used by the sidebar and the product tile (`Pricing.ShownUnitPrice`).
  - `(item.discount || 0)` always applies the formula. It is used by the
    discount board (`Pricing.SalePrice`).

  The three agree for every discount of at least 0
  (`Pricing.UnitPricesAgree`). A negative discount would make the sidebar's
  total and the amount charged differ (`Sidebar.NegativeDiscountTotalsDisagree`).
  The catalog is assumed to hold discounts in 0..100 (see "Left out").
- Timers are explicit events. Each pending `setTimeout` is a flag or a
  counter, and firing it is a method. The clock (`Date.now()`) and the
  random draw (`Math.random().toString(36)`) are parameters.
- React state setters become class fields that the handler methods assign.
  The dialog's callbacks (`onClose`, `onSuccess`, `onLogout`) come back from
  its methods as a list of `Payment.Callback` values. `Storefront.Shop.InvokeAll`
  applies them to the page in order.

## Model

| member | source | states |
|---|---|---|
| `Pricing.Discounted` | src/App.tsx:93 | price × (1 − d/100) lies between 0 and the list price for a discount in 0..100, and equals the list price at 0 |
| `Pricing.ChargedPriceBelowList` | src/App.tsx:93 | for a discount in 0..100 on a positive list price, the unit price charged lies between 0 and the list price, and is below the list price exactly when the discount is positive |
| `Pricing.SalePrice` | src/pages/DiscountsPage.tsx:176 | the board's sale price lies between 0 and the list price for a discount in 0..100 |
| `Pricing.UnitPricesAgree` | src/components/ProductCard.tsx:26-27 | for any discount ≥ 0 the page total, the sidebar and tile, and the discount board compute the same unit price |
| `Pricing.NegativeDiscountSplitsPrices` | src/App.tsx:93 | a negative discount raises the charged price above the list price, while the sidebar and tile show the list price |
| `Text.Lower` | src/App.tsx:52-53 | `toLowerCase` keeps the length and maps each character on its own |
| `Text.Upper` | src/components/AuthScreen.tsx:52 | `toUpperCase` keeps the length and maps each character on its own |
| `Text.UpperIgnoresCase` | src/components/AuthScreen.tsx:225 | upper-casing forgets the input's case and is idempotent |
| `Text.IncludesIffWindow` | src/App.tsx:52-53 | `includes` holds exactly when some window of the string equals the query |
| `Text.IncludesEmpty` | src/App.tsx:52-53 | the empty query occurs in every string |
| `Text.Substring` | src/components/PaymentModal.tsx:29 | `substring(start, end)` clamps both ends to the length and is at most end − start long |
| `Text.TrimEmptyIffBlank` | src/components/AuthScreen.tsx:66 | `trim()` yields the empty string exactly for all-white-space input |
| `Text.Digits` | src/App.tsx:64 | a clock reading renders as a non-empty run of digits, with no leading zero |
| `Text.ParseDigitsOfDigits` | src/App.tsx:64 | reading back a rendered clock value gives the value |
| `Text.DigitsLengthAtLeast` | src/components/PaymentModal.tsx:28 | a value of at least 10^k renders with more than k digits |
| `Text.LastN` | src/components/PaymentModal.tsx:28 | `slice(-k)` is the last k characters, or the whole string when it is shorter |
| `Text.LastDigitsValue` | src/components/PaymentModal.tsx:28 | the last k digits of a rendered value spell the value modulo 10^k |
| `CartModel.CartIdInjective` | src/App.tsx:64 | a fresh line id `${id}-${now}` determines both the product id and the clock reading |
| `CartModel.CartIdForShape` | src/App.tsx:64 | a fresh line id is the product id, a dash and digits |
| `CartModel.LineIdDeterminesProduct` | src/App.tsx:64 | a line id of that shape belongs to a single product id |
| `CartModel.WellFormedCartIdsUnique` | src/App.tsx:58-80 | in every cart the page builds, no two lines share a line id |
| `CartModel.FindLine` | src/App.tsx:60 | `find` gives the first line of the product, or none when the product has no line |
| `CartModel.ItemQuantityPositiveIffInCart` | src/App.tsx:87-89 | `getItemQuantity` is positive exactly for the products that have a line |
| `CartModel.AddToExistingLine` | src/App.tsx:58-63 | adding a product that has a line raises that line by 1 and changes nothing else |
| `CartModel.AddNewLine` | src/App.tsx:58-65 | adding a product with no line appends one line of quantity 1 whose id is `${id}-${now}`; the old lines keep their order |
| `CartModel.AddTwiceMerges` | src/App.tsx:58-65 | adding the same product twice gives one line of quantity 2 |
| `CartModel.AddKeepsWellFormed` | src/App.tsx:58-65 | adding keeps quantities positive, one line per product, and line ids made from product ids |
| `CartModel.AddRaisesItemQuantity` | src/App.tsx:58-65 | after adding, the product's quantity is one more and every other product's is unchanged |
| `CartModel.SameFindAfterBump` | src/App.tsx:62 | raising a product's quantity moves no line |
| `CartModel.FindInPrefix` | src/App.tsx:60 | appending lines does not change where a product already in the cart is found |
| `CartModel.KeepPositive` | src/App.tsx:79 | the `filter` leaves only positive quantities, and only lines that were there |
| `CartModel.KeepPositiveOfPositive` | src/App.tsx:79 | the `filter` leaves a cart of positive quantities unchanged |
| `CartModel.KeepPositiveConcat` | src/App.tsx:79 | the `filter` splits over concatenation, so it keeps order |
| `CartModel.ClampedAdd` | src/App.tsx:76 | `Math.max(0, q + delta)` is never negative; the quantity an update leaves is given by `CartModel.UpdateKnownLine` |
| `CartModel.UpdateQuantity` | src/App.tsx:73-80 | after an update every quantity is positive |
| `CartModel.UpdateUnknownLine` | src/App.tsx:73-80 | an unknown line id leaves the cart unchanged |
| `CartModel.UpdateKnownLine` | src/App.tsx:73-80 | the line gets q + delta when that is positive and is dropped otherwise; the other lines keep their contents and order |
| `CartModel.RemoveLine` | src/App.tsx:279 | removing (an update by −1000) drops a line of quantity ≤ 1000 and leaves q − 1000 otherwise |
| `CartModel.UpdateByMinusQuantityRemoves` | src/App.tsx:73-80 | lowering a line by its own quantity removes it |
| `CartModel.KeepPositiveKeepsUnique` | src/App.tsx:79 | the `filter` keeps one line per product and ids made from product ids |
| `CartModel.UpdateKeepsWellFormed` | src/App.tsx:73-80 | updating keeps the cart well-formed |
| `CartModel.CartTotalReplace` | src/App.tsx:92-95 | replacing one line changes the total by the difference of the two line amounts |
| `CartModel.CartTotalConcat` | src/App.tsx:92-95 | the total of two carts put together is the sum of their totals |
| `CartModel.AddRaisesTotal` | src/App.tsx:58-65 | adding a product raises the cart total by exactly its discounted unit price |
| `CartModel.AddLowersRemaining` | src/App.tsx:90-96 | adding one unit lowers a signed-in user's remaining quota by exactly the product's charged unit price; with nobody signed in it stays 0 |
| `CartModel.FilteredItems` | src/App.tsx:49-56 | an entry is shown exactly when the category matches (or is 'All') and the query occurs, ignoring case, in its name or description |
| `CartModel.FilteredItemsConcat` | src/App.tsx:49-56 | the filter keeps catalog order |
| `CartModel.FilterAllEmptyQuery` | src/App.tsx:24-29 | on the first screen (category 'All', empty search) every entry is shown |
| `CartModel.FilterIgnoresQueryCase` | src/App.tsx:52-53 | two queries that differ only in case show the same entries |
| `Sidebar.LineTotalsSumToTotal` | src/components/CartSidebar.tsx:21-32 | the line totals shown add up to subtotal − totalDiscount |
| `Sidebar.TotalIsCartTotal` | src/components/CartSidebar.tsx:32 | with no negative discount, the sidebar's total is the amount the page charges |
| `Sidebar.SumLineTotalsIsCartTotal` | src/components/CartSidebar.tsx:54-56 | with no negative discount, the shown line totals add up to the page's cart total |
| `Sidebar.NegativeDiscountTotalsDisagree` | src/components/CartSidebar.tsx:24-32 | a 1000 line at −10% shows 1000 in the sidebar while the page charges 1100 |
| `Sidebar.WorkedCarts` | src/components/CartSidebar.tsx:212 | 2 × 1000 against 1500 is blocked and leaves −500; 1 × 1000 at 10% against 1000 is allowed and leaves 100 |
| `Sidebar.GateBoundsCharge` | src/components/CartSidebar.tsx:212 | with no negative discount, the confirm button is enabled exactly when the cart is non-empty and the amount the page charges is within the quota |
| `Sidebar.Notes` | src/components/CartSidebar.tsx:130-135 | the excess note appears exactly when the total is over the quota and gives total − quota > 0; the remainder note appears exactly when 0 < total ≤ quota and gives quota − total ≥ 0; never both |
| `Sidebar.NotesMatchGate` | src/components/CartSidebar.tsx:130-135 | the remainder note shows only when checkout is possible, the excess note only when it is not |
| `Sidebar.LabelMatchesGate` | src/components/CartSidebar.tsx:212-215 | "Quota Exceeded" always comes with a disabled button; on a non-empty cart the caption is "Confirm Payment" exactly when the button is enabled |
| `Sidebar.PaymentChoice.constructor` | src/components/CartSidebar.tsx:18 | the Zigama channel is preselected |
| `Sidebar.PaymentChoice.Select` | src/components/CartSidebar.tsx:163-180 | a channel button selects that channel |
| `Sidebar.PaymentChoice.Confirm` | src/components/CartSidebar.tsx:211-212 | confirming passes on the selected channel exactly when the button is enabled |
| `ProductCard.SkeletonShown` | src/components/ProductCard.tsx:14-23 | the loading placeholder is shown exactly when loading or when no entry is given |
| `ProductCard.AddControlShown` | src/components/ProductCard.tsx:25-93 | the add button shows exactly for an entry with positive stock whose discounted price is within the remaining quota, and then carries the cart quantity when it is positive; the blocked mark shows for one in stock over the quota; nothing for one out of stock |
| `ProductCard.BadgeShown` | src/components/ProductCard.tsx:25-64 | "Over Quota" shows exactly for an entry in stock whose discounted price is above the remaining quota; otherwise the badge tells whether the stock is positive; the unavailable note shows exactly when it is not |
| `ProductCard.UnboundedNeverBlocks` | src/components/ProductCard.tsx:13 | without a quota no tile is flagged or blocked |
| `ProductCard.TilePrice` | src/components/ProductCard.tsx:103-106 | the tile's price lies between 0 and the list price; the list price is struck through exactly when the discount is positive |
| `Payment.TransactionId` | src/components/PaymentModal.tsx:28 | the transaction id is "TXN" followed by one to eight digits |
| `Payment.TransactionIdEncodesClock` | src/components/PaymentModal.tsx:28 | its digits are the clock reading modulo 10^8; a reading of eight digits or more gives an 11-character id |
| `Payment.ReceiptNo` | src/components/PaymentModal.tsx:29 | the receipt number is "RCP" followed by at most six characters with no lower-case letter, taken from characters 2..8 of the draw |
| `Payment.RemainingQuota` | src/components/PaymentModal.tsx:293 | the remaining quota is at most the quota exactly when the total is not negative; its value on both receipts is given by `Payment.ReceiptsConsistent` |
| `Payment.MethodLabelIsUpperName` | src/components/PaymentModal.tsx:221 | the channel label on the printed receipt is the screen name in capitals |
| `Payment.ReceiptLinesSumToCartTotal` | src/components/PaymentModal.tsx:193-202 | the rows add up to the page's cart total |
| `Payment.ReceiptsConsistent` | src/components/PaymentModal.tsx:193-402 | charged the cart total, the rows of both receipts add up to the total they print; printed and on-screen receipts show the same customer, receipt number, transaction id, rows, total and remainder; the printed channel label is the screen name in capitals; tax is 0 and the subtotal is the total; the remainder is the quota less the total |
| `Payment.PaymentModal.constructor` | src/components/PaymentModal.tsx:26-37 | the dialog opens processing, with the processing timer pending |
| `Payment.PaymentModal.ProcessingTimerElapsed` | src/components/PaymentModal.tsx:31-37 | the processing timer moves to success and starts the success timer |
| `Payment.PaymentModal.SuccessTimerElapsed` | src/components/PaymentModal.tsx:39-47 | the success timer moves to the receipt and calls nothing |
| `Payment.PaymentModal.Cancel` | src/components/PaymentModal.tsx:482-489 | cancel calls `onClose` exactly when it is on screen |
| `Payment.PaymentModal.Unmount` | src/components/PaymentModal.tsx:31-47 | unmounting clears the processing and success timers |
| `Payment.PaymentModal.Print` | src/components/PaymentModal.tsx:49-64 | off the receipt, nothing happens; with the receipt window blocked, only an alert; otherwise the printed receipt is produced and one finishing timer is set |
| `Payment.PaymentModal.PrintTimerElapsed` | src/components/PaymentModal.tsx:286-290 | a finishing timer calls `onSuccess` and then `onLogout` |
| `Storefront.AddKeepsFromCatalog` | src/App.tsx:58-65 | adding a catalog entry keeps every line a catalog entry |
| `Storefront.UpdateKeepsFromCatalog` | src/App.tsx:73-80 | updating keeps every line a catalog entry |
| `Storefront.CatalogLinesCarry` | src/App.tsx:64 | with distinct catalog ids, every line of a catalog entry carries that very entry |
| `Storefront.CatalogCartDiscountsNonNegative` | src/App.tsx:58-65 | a cart built from a catalog with discounts in 0..100 has no negative discount, so the sidebar and the page agree on its total |
| `Storefront.Shop.constructor` | src/App.tsx:23-30 | first render: no user, empty cart, category 'All', empty search, Zigama, dialog closed, products loading |
| `Storefront.Shop.Visible` | src/App.tsx:49-56 | the entries shown are the catalog entries that match the category and the search |
| `Storefront.Shop.TileAt` | src/App.tsx:253-262 | the k-th tile shows the entry's discounted price and offers the add button exactly when the entry is in stock and that price fits in the remaining quota; the button then shows a count exactly when the entry has a positive quantity in the cart |
| `Storefront.Shop.AddToCart` | src/App.tsx:58-71 | the cart becomes the add-to-cart update of the old cart and stays well-formed |
| `Storefront.Shop.ClickAdd` | src/App.tsx:255-261 | a click adds exactly when the tile shows the add button, and the cart total then stays within the balance |
| `Storefront.Shop.UpdateQuantity` | src/App.tsx:73-80 | the cart becomes the update of the old cart and stays well-formed |
| `Storefront.Shop.Remove` | src/App.tsx:279 | removing is the update by −1000 |
| `Storefront.Shop.CheckoutSuccess` | src/App.tsx:82-85 | the cart is emptied and the dialog closed |
| `Storefront.Shop.SetUser` | src/App.tsx:41-47 | a change of user restarts the loading placeholder |
| `Storefront.Shop.SelectCategory` | src/App.tsx:41-47 | a change of category restarts the loading placeholder |
| `Storefront.Shop.SetSearchQuery` | src/App.tsx:243 | the search box sets the query |
| `Storefront.Shop.LoadingTimerElapsed` | src/App.tsx:43-45 | the loading timer ends the placeholder |
| `Storefront.Shop.OpenPayment` | src/App.tsx:275-278 | checkout remembers the channel and opens the dialog |
| `Storefront.Shop.Checkout` | src/App.tsx:271-278 | the dialog opens exactly when the sidebar's gate, checked against the balance, allows it, and the selected channel is passed on; a dialog this call opens charges a non-empty cart whose total is within the balance |
| `Storefront.Shop.MountPayment` | src/App.tsx:284-297 | the dialog is charged the cart total, on the selected channel, for the signed-in user's name and balance |
| `Storefront.Shop.Invoke` | src/App.tsx:294-296 | `onClose` closes the dialog, `onSuccess` empties the cart, `onLogout` signs out |
| `Storefront.Shop.InvokeAll` | src/App.tsx:294-296 | for any list of callbacks: the cart is emptied exactly when `onSuccess` is among them, the user signed out exactly when `onLogout` is, the dialog closed exactly when `onClose` or `onSuccess` is; otherwise each keeps its value |
| `Storefront.CancelPayment` | src/components/PaymentModal.tsx:482-489 | cancelling closes the dialog and unmounts it; the cart, the user, the loading placeholder, the category, the search and the selected channel stay as they were |
| `Storefront.PrintAndFinish` | src/components/PaymentModal.tsx:49-64 | with the receipt window open, the window gets the dialog's printed receipt and the purchase ends with an empty cart, nobody signed in and the dialog closed and unmounted; with it blocked, only the alert happens: the page's cart, user, dialog visibility, loading placeholder, category, search and channel stay as they were, and the dialog stays on its receipt screen |
| `Auth.AccessKeyIgnoresCase` | src/components/AuthScreen.tsx:52 | a key is accepted in lower case exactly when it is accepted as typed |
| `Auth.UpperOfUpperCase` | src/components/AuthScreen.tsx:225 | a field with no lower-case letter is unchanged by upper-casing |
| `Auth.ListedKeyAccepted` | src/components/AuthScreen.tsx:19-23 | "AFOS2024" is accepted as written and in lower case; the empty code is not |
| `Auth.AuthScreen.constructor` | src/components/AuthScreen.tsx:26-32 | the screen starts at the key step with empty fields and the first image |
| `Auth.AuthScreen.ChangeAccessCode` | src/components/AuthScreen.tsx:225 | the key field holds the upper-cased text and the error is cleared |
| `Auth.AuthScreen.ChangeServiceId` | src/components/AuthScreen.tsx:286 | the service-number field holds the text and the error is cleared |
| `Auth.AuthScreen.SubmitCode` | src/components/AuthScreen.tsx:47-62 | an unlisted key sets the invalid-key message; a listed key starts loading and the key timer |
| `Auth.AuthScreen.CodeTimerElapsed` | src/components/AuthScreen.tsx:58-61 | the key timer ends loading and moves to the service-number step |
| `Auth.AuthScreen.SubmitId` | src/components/AuthScreen.tsx:64-72 | a blank number sets the missing-number message; otherwise loading starts and the timer captures the number |
| `Auth.AuthScreen.IdTimerElapsed` | src/components/AuthScreen.tsx:71-80 | the timer hands over the profile with the captured number; a profile only comes out after a listed key was accepted, and its number is not blank |
| `Auth.AuthScreen.Back` | src/components/AuthScreen.tsx:327 | back to the key step with an empty field and no error |
| `Auth.AuthScreen.CarouselTick` | src/components/AuthScreen.tsx:35-40 | the carousel moves to the next of the seven images, wrapping around |
| `Auth.AuthScreen.SelectImage` | src/components/AuthScreen.tsx:131-133 | a dot selects its image |
| `Auth.AuthScreen.EntranceTimerElapsed` | src/components/AuthScreen.tsx:43-45 | the entrance timer shows the dialog |
| `Auth.Advance` | src/components/AuthScreen.tsx:35-40 | after any number of ticks the image index is in range; the image reached is given by `Auth.AdvanceIsShift` |
| `Auth.AdvanceIsShift` | src/components/AuthScreen.tsx:35-40 | n ticks from image i show image (i + n) mod 7 |
| `Auth.CarouselCycles` | src/components/AuthScreen.tsx:35-40 | seven more ticks come back to the same image |
| `Discounts.DiscountedProducts` | src/pages/DiscountsPage.tsx:7-10 | an entry is on the board exactly when it is in the catalog with a positive discount |
| `Discounts.DiscountedProductsConcat` | src/pages/DiscountsPage.tsx:9 | the board keeps catalog order |
| `Discounts.MaxFrom` | src/pages/DiscountsPage.tsx:35 | the `reduce` is at least its start and every discount, and is its start or one of the discounts |
| `Discounts.MaxDiscount` | src/pages/DiscountsPage.tsx:35 | `maxDiscount` is ≥ 0 and ≥ every discount; 0 before the list arrives or for an empty list; a positive value is some entry's discount |
| `Discounts.HeadlineIsCatalogMaximum` | src/pages/DiscountsPage.tsx:35-76 | the headline is the largest discount in the catalog, positive exactly when something is on sale |
| `Discounts.SalePriceBelowList` | src/pages/DiscountsPage.tsx:176 | every entry on the board sells below its list price |
| `Discounts.DiscountBoard.constructor` | src/pages/DiscountsPage.tsx:14-20 | the board starts with no list and the first entry highlighted |
| `Discounts.DiscountBoard.FetchCompleted` | src/pages/DiscountsPage.tsx:16-20 | a fetch or refetch yields the entries on sale |
| `Discounts.DiscountBoard.RotationTick` | src/pages/DiscountsPage.tsx:27-33 | the spotlight advances, wrapping around, only while the list is non-empty |
| `Discounts.DiscountBoard.Headline` | src/pages/DiscountsPage.tsx:76 | the headline percentage is never negative; its value, the catalog's largest discount, is given by `Discounts.HeadlineIsCatalogMaximum` |
| `Discounts.SpotlightShowsSale` | src/pages/DiscountsPage.tsx:123-227 | once the list is in and not empty, the spotlight shows an entry of the catalog on sale, there is one card per entry, and exactly the card at the active index, the spotlight's entry, is highlighted |

## Left out

- Markup, styling, icons, images, the mobile drawer (`isMobileCartOpen`),
  the scanner overlay's open state and the entrance animations are left
  out. So is the sidebar's savings row, markup shown when `totalDiscount > 0`.
- Currency and date formatting (`formatCurrency`, `toLocaleString`,
  `toLocaleDateString`, `toISOString`), the page's clock display and the
  board's one-second clock are left out. The printed receipt's date and
  time fields are omitted for the same reason.
- IEEE floating point is not modelled: all money is exact. The core's
  arithmetic never rounds, so float rounding differences are not captured.
  Rounding for display (`formatCurrency` with `maximumFractionDigits: 0`,
  `src/components/currency.tsx`) belongs to the formatting left out above.
- Timer durations (300, 400, 500, 800, 1000, 2000, 2500, 5000, 30000 ms) are
  not kept. Only the order in which pending timers fire is modelled. The
  300 ms entrance timer is `Auth.AuthScreen.EntranceTimerElapsed`. The 500 ms
  `window.print` delay inside the receipt window is part of the printing
  reduced below.
- `window.open`, `document.write` and `window.print` are reduced to one
  boolean: whether the receipt window opened. `alert` is a returned flag.
- The scanner (`src/components/Scanner.tsx`), the AI assistant
  (`src/components/AIChef.tsx`, `src/services/geminiService.ts`) and the
  router are not part of this model. A scanned product enters through
  `Storefront.Shop.AddToCart` like a tile click; closing the scanner is left out.
- The discount board's query client (the 300 ms fetch delay, `isLoading`,
  the 30-second refetch) is reduced to `Discounts.DiscountBoard.FetchCompleted`.
  The catalog is static, so a refetch always returns the same list.
- `src/constants.ts` (`MENU_ITEMS`) is not part of this model. The catalog
  is a constructor parameter of `Storefront.Shop` and `Discounts.DiscountBoard`.
  The page assumes the catalog has distinct ids and discounts in 0..100.
- Several functions carry no contract of their own, because their meaning
  is stated by the lemmas and methods about them: the unit prices (by
  `Pricing.UnitPricesAgree` and `Pricing.ChargedPriceBelowList`), the
  remaining quotas (by `CartModel.AddLowersRemaining` and
  `Payment.ReceiptsConsistent`), the sidebar's gate and caption (by
  `Sidebar.GateBoundsCharge`, `Sidebar.LabelMatchesGate` and
  `Storefront.Shop.Checkout`), the tile's parts (by
  `ProductCard.AddControlShown` and `ProductCard.BadgeShown`), the dialog's
  actions (by `Payment.PaymentModal.Cancel` and `Payment.PaymentModal.Print`),
  the receipts (by `Payment.ReceiptsConsistent`), the sign-in profile (by
  `Auth.AuthScreen.IdTimerElapsed`), the sign-in buttons' disabled states
  (by `Auth.AuthScreen.SubmitCode` and `Auth.AuthScreen.SubmitId`, which do
  nothing while their button is disabled), and the spotlight
  (by `Discounts.SpotlightShowsSale`). So do the core definitions with no
  row of their own: `CartModel.AddToCart` (by `CartModel.AddToExistingLine`
  and `CartModel.AddNewLine`), `CartModel.ItemQuantity` (by
  `CartModel.FindLine` and `CartModel.ItemQuantityPositiveIffInCart`),
  `CartModel.CartTotal` (by `CartModel.CartTotalConcat` and
  `CartModel.AddRaisesTotal`), `CartModel.CartIdFor` (by
  `CartModel.CartIdInjective` and `CartModel.CartIdForShape`),
  `CartModel.Matches` (by `CartModel.FilteredItems`), `Sidebar.Subtotal`,
  `Sidebar.TotalDiscount` and `Sidebar.Total` (by
  `Sidebar.LineTotalsSumToTotal` and `Sidebar.TotalIsCartTotal`), and
  `Auth.IsValidAccessKey` (by `Auth.AccessKeyIgnoresCase` and
  `Auth.ListedKeyAccepted`). `Storefront.Shop.Total` and
  `Storefront.Shop.Remaining` read the `CartModel` functions.
- `Storefront.PrintAndFinish` requires the page to have the dialog open, as
  the page only mounts the dialog while `isPaymentOpen` holds.
- Case mapping covers the ASCII letters only. Other letters the JavaScript
  runtime would map are left as they are.
- React batching is not modelled. `onSuccess` and `onLogout` are applied to
  the page one after the other, in the order the source calls them.
- A product's `image` and `tags` and a line's `notes` are left out. No
  operation of the core reads them.
- The model does not tell an absent discount from an explicit 0. For an
  explicit 0 the guards `{item.discount && ...}` on the on-screen receipt and
  `{hasDiscount && ...}` in the sidebar (src/components/CartSidebar.tsx:62,
  75) and on the tile (src/components/ProductCard.tsx:41, 104) would render
  a stray "0". The model shows no tag for either.
