# forever: a verified model of the shop's pricing, cart and catalog logic

The `forever` repository is an online shop in three parts:

- a React storefront;
- a React admin panel;
- an Express/Mongo backend.

This project models in Dafny the small, deterministic computations these parts run on data that has already been fetched, and proves properties of them. Each module below is one source file:

- **`Catalog`**: prices. A per-size price overrides the base price only when it is truthy, so a 0 override falls back. Discounts are percentages.
- **`CartTotal`**: the cart totals box.
  - The coupon saving is gated on the minimum purchase and rounded to cents.
  - The delivery fee is waived for an empty cart.
- **`MiniCartDrawer`**: the drawer's lines, zero quantities included, their prices and the steppers.
- **`CartPage`**: the cart page's line list, which drops zero quantities, its unit price, its steppers and the promo panel.
- **`PlaceOrder`**: the checkout.
  - Building the order items.
  - The amount actually submitted.
  - Clearing the cart after a successful order.
  - Pre-filling the address form from the profile.
- **`ProductPage`**: the product page.
  - The quoted price, the initial size, the price effect and the tabs.
  - The two add-to-cart buttons.
  - The description parser.
- **`ProductItem`**: a product card's flags (sold out, quick add, overlay), its price, its click and its link.
- **`AdminList`**: the admin list's `normalizePricing` and its per-size price labels.
- **`Collection`**: the collection page's filter, its sort selector and "clear filters".
- **`Compare`**: the compare page's two slots, its search and its union of spec keys.
- **`RelatedProducts`** and **`LatestCollection`**: the "More for you" and "New arrivals" strips.
- **`Wishlist`**: the wishlist page.
- **`Orders`**: the order history.
  - The flattened, newest-first rows.
  - The address line and the price shown.
  - The detail toggle.
- **`UserController`**: the backend's user controller.
  - Registration checks.
  - The partial profile update.
  - Wishlist and compare toggles and reads.
- **`Coupons`**: the admin coupon form's clamps, reset and removal, and the usage column.
- **`Contact`**: the forgot-password / reset-password page.
- **`ReviewsSlider`**: the infinite review carousel.

Shared helpers: `Wrappers` (Option), `Text` (strings), `Dict` (a JavaScript object as an ordered list of entries) and `Seqs` (filter, sub-sequence, prefix, reverse).

How the model is written:

- **Money** is an exact `real`. `Number(x.toFixed(2))` is the explicit `CartTotal.Round2`, which rounds halves away from zero.
- **JavaScript objects** are ordered lists of entries (`Dict.Entries`), so `Object.keys` order is kept. This applies to `sizePricing`, the cart, `sizeStock` and `specs`. Assigning to an existing key keeps its position.
- **The cart** is productId → size → quantity.
- **Pure code** becomes functions.
- **Loops** become methods with loop invariants, each proved equal to the function that specifies it:
  - the cart page's nested `for … in`;
  - the checkout's nested `forEach`;
  - `normalizePricing`'s `forEach`;
  - `allSpecsKeys`;
  - the order flattening;
  - the profile update's `if` chain.
- **Component state** kept with `useState` becomes a class with one method per handler or effect: `CartPage.CartView`, `ProductPage.ProductView`, `Collection.CollectionView`, `Coupons.CouponPage`, `Contact.RecoveryPage`, `ReviewsSlider.Slider`, `RelatedProducts.RelatedStrip` and `LatestCollection.LatestSection`.
- **Server replies** are parameters: success flags, returned lists, rejections.

The subtotal is an assumption. The shop context's `calculateCartSubtotal` is not part of this model. The subtotal is taken to be the sum of the drawer's line totals (`MiniCartDrawer.Subtotal`), that is, resolved unit price × quantity, with 0 for a product the catalog no longer has.

Three points where the code behaves in a way a reader may not expect, and which the model follows as written:

- **Per-size price.** `sizePricing[size] || price` means a 0 entry falls back to the base price, like a missing one (`Catalog.SizeOverride`).
- **Amount at checkout.** The amount submitted (frontend/src/pages/PlaceOrder.jsx:98-103) differs from the total the cart displays. It has no minimum-purchase gate, no rounding and no empty-cart waiver. See the "## Findings" row for frontend/src/pages/PlaceOrder.jsx:98-103.
- **Zero quantities.** How the cart itself is updated is not part of this model. What the code shown here does:
  - the drawer lists zero quantities (`MiniCartDrawer.ItemsAreAllEntries`);
  - the cart page and the checkout skip them;
  - the steppers never request less than 1.

## Model

| member | source | states |
|---|---|---|
| Catalog.FindProduct | frontend/src/pages/Cart.jsx:90 | the product found has the id and is in the catalog; none is found exactly when no catalog product has the id |
| Catalog.SizeOverride | frontend/src/pages/Cart.jsx:92-93 | an override is returned only when the size has a non-zero entry; a missing map, a missing size or a 0 entry gives none |
| Catalog.ResolveUnitPrice | frontend/src/components/MiniCartDrawer.jsx:90-91 | the unit price is the truthy per-size override when there is one, the base price otherwise |
| Catalog.DiscountBounds | frontend/src/pages/Product.jsx:67-71 | `ApplyDiscount`: a discount in [0, 100] keeps a non-negative price between 0 and itself; a 0 discount keeps it unchanged |
| Catalog.SizeLines | frontend/src/components/MiniCartDrawer.jsx:19-27 | one triple per size entry of a product, in key order, carrying the product id, the size and its quantity |
| Catalog.LinesAt | frontend/src/components/MiniCartDrawer.jsx:19-27 | a triple is among the flattened `Lines` exactly when the cart stores it at some product and size position |
| Catalog.LinesQuantity | frontend/src/pages/Cart.jsx:28-38 | in a well-formed cart, (id, size, q) is a line exactly when `Quantity` finds the stored quantity q for that id and size |
| Catalog.LinesDistinct | frontend/src/pages/Cart.jsx:28-38 | in a well-formed cart no (id, size) pair is listed twice among the lines |
| CartTotal.Round2 | frontend/src/components/CartTotal.jsx:17 | the result is a whole number of cents within half a cent of the input; a tie goes up for a non-negative input and down for a negative one, that is, away from zero |
| CartTotal.Round2Cents | frontend/src/components/CartTotal.jsx:17 | an amount already in whole cents is not changed by rounding |
| CartTotal.Round2Monotone | frontend/src/components/CartTotal.jsx:17 | rounding keeps the order of non-negative amounts |
| CartTotal.CouponSavings | frontend/src/components/CartTotal.jsx:15-19 | 0 without a coupon or below its minimum purchase, while the coupon stays held; at or above the minimum, the percentage of the subtotal rounded to cents |
| CartTotal.Total | frontend/src/components/CartTotal.jsx:20-21 | 0 for a zero subtotal; otherwise subtotal − savings + fee, floored at the fee, so never below the fee |
| CartTotal.ShippingShown | frontend/src/components/CartTotal.jsx:42-44 | the shipping row is 0 for an empty cart and the delivery fee otherwise |
| CartTotal.EmptyCartTotalsZero | frontend/src/components/CartTotal.jsx:20-21 | with a zero subtotal, the `Summarize` totals box has total 0 and shipping 0 whatever coupon is held |
| CartTotal.SavingsWithinSubtotal | frontend/src/components/CartTotal.jsx:17-21 | a 0–100% discount gives unrounded savings in [0, subtotal]; for a whole-cent subtotal the rounded savings stay in that range, so the floor at 0 never changes the total |
| CartTotal.FreeDeliveryNoticeStillCharges | frontend/src/components/CartTotal.jsx:69 | above 50 the free-delivery notice of `Summarize` shows, yet the shipping row is the fee and the total includes it |
| CartTotal.SavingsRowNeedsQualifyingCoupon | frontend/src/components/CartTotal.jsx:15-19 | the coupon row shows only for a coupon whose minimum the subtotal meets, and does show once the unrounded discount reaches a cent |
| CartTotal.CouponExamples | frontend/src/components/CartTotal.jsx:15-21 | 10% with a minimum of 10 saves 0 on 5 and 2.00 on 20; SAVE10 on 100 saves 10 and the total is 90 plus the fee |
| MiniCartDrawer.ItemsAreAllEntries | frontend/src/components/MiniCartDrawer.jsx:19-27 | `Items` lists every stored triple, zero quantities included, and its count is `EntryCount`, the number of stored entries |
| MiniCartDrawer.LinePrice | frontend/src/components/MiniCartDrawer.jsx:90-91 | 0 for a product the catalog lacks, otherwise the resolved unit price for the line's size |
| MiniCartDrawer.LineName | frontend/src/components/MiniCartDrawer.jsx:105 | the product's name when the product is found and named; "Product" when it is missing or unnamed, so never empty |
| MiniCartDrawer.LineImage | frontend/src/components/MiniCartDrawer.jsx:100 | the product's first image when it has a non-empty one; the placeholder when the product is missing or has none, so never empty |
| MiniCartDrawer.DecrementRequest | frontend/src/components/MiniCartDrawer.jsx:110-115 | one less than the quantity, but never below 1 |
| MiniCartDrawer.IncrementRequest | frontend/src/components/MiniCartDrawer.jsx:124-127 | exactly one more than the current quantity; the drawer and the bag page make the same request |
| MiniCartDrawer.IncrementThenDecrement | frontend/src/components/MiniCartDrawer.jsx:110-127 | from any quantity of at least 1, "+" then "−" is back where it started; "−" then "+" is too above 1, and at 1 ends at 2 |
| MiniCartDrawer.SubtotalBounds | frontend/src/components/MiniCartDrawer.jsx:90-92 | with non-negative prices and quantities the `Subtotal` of the `LineTotal`s is non-negative, and it is 0 when every quantity is 0 |
| MiniCartDrawer.SizePricedLineExample | frontend/src/components/MiniCartDrawer.jsx:90-92 | 2 units at size "M" priced 45 contribute 90 |
| CartPage.Positive | frontend/src/pages/Cart.jsx:28-38 | exactly the triples with a positive quantity, never more than the input |
| CartPage.CollectCartData | frontend/src/pages/Cart.jsx:27-38 | the nested loops produce the positive-quantity lines of the cart, in cart order |
| CartPage.CollectSizes | frontend/src/pages/Cart.jsx:29-37 | the inner loop appends exactly the positive-quantity lines of one product, in key order |
| CartPage.PositiveDistinct | frontend/src/pages/Cart.jsx:28-38 | dropping zero quantities keeps the (id, size) pairs distinct |
| CartPage.CartDataExact | frontend/src/pages/Cart.jsx:27-38 | in a well-formed cart, cartData holds (id, size, q) exactly when q > 0 is the stored quantity, each pair once |
| CartPage.NothingToCheckout | frontend/src/pages/Cart.jsx:265 | the checkout list is empty exactly when no quantity is positive |
| CartPage.CartView.constructor | frontend/src/pages/Cart.jsx:22-23 | an empty list and an empty promo code |
| CartPage.CartView.Refresh | frontend/src/pages/Cart.jsx:25-41 | rebuilt from the cart when the catalog is non-empty, kept as it was otherwise; after a rebuild `CheckoutDisabled` holds exactly when no quantity is positive |
| CartPage.CartView.EditCouponCode | frontend/src/pages/Cart.jsx:207-214 | typing changes the code only while no coupon is applied |
| CartPage.ItemPrice | frontend/src/pages/Cart.jsx:90-93 | a price exists exactly when the catalog has the product |
| CartPage.ItemPriceAgrees | frontend/src/pages/Cart.jsx:92-93 | the cart page's unit price equals the drawer's for the same line, and the line is listed when its quantity is positive |
| CartPage.MinusRequest | frontend/src/pages/Cart.jsx:144-150 | a request is made exactly when the quantity exceeds 1, and it is exactly one less |
| CartPage.MinusAgreesWithDrawer | frontend/src/pages/Cart.jsx:144-150 | above 1 the page requests what the drawer requests; at 1 the page requests nothing and the drawer re-requests 1 |
| CartPage.PlusThenMinus | frontend/src/pages/Cart.jsx:144-167 | "+" then "−" on the bag page requests the starting quantity back, and above 1 "−" then "+" does too |
| CartPage.CouponPanelFor | frontend/src/pages/Cart.jsx:207-257 | with a coupon applied the input is disabled, "Remove" replaces "Apply" and the message is a success; without one the reverse |
| ProductPage.FinalPriceShown | frontend/src/pages/Product.jsx:67-71 | the quoted price is in whole cents and within half a cent of the current price × (1 − discount/100), the `DiscountedPrice` |
| ProductPage.FinalPriceBounds | frontend/src/pages/Product.jsx:65-71 | with a 0–100% `Discount` the quote lies between 0 and the rounded current price, and equals it when `HasDiscount` fails |
| ProductPage.FinalPriceExample | frontend/src/pages/Product.jsx:67-71 | a price of 50 with a 20% discount is quoted as 40.00 |
| ProductPage.Tabs | frontend/src/pages/Product.jsx:319-320 | "description" first and "reviews" last, with "specs" present exactly when `HasSpecs`, that is, the product has a spec key |
| ProductPage.ImageFor | frontend/src/pages/Product.jsx:81-84 | the first image when there is a non-empty one, never empty otherwise |
| ProductPage.InitialSize | frontend/src/pages/Product.jsx:85-88 | a size is chosen exactly when the product lists sizes; the first `sizePricing` key when the map is non-empty and that key is truthy, else the first listed size; never "" unless the first listed size is "" |
| ProductPage.InitialSizeListed | frontend/src/pages/Product.jsx:85-88 | when every priced size is a listed one, the initial size is one of the listed sizes |
| ProductPage.EffectPrice | frontend/src/pages/Product.jsx:96-99 | nothing changes without a product or a size |
| ProductPage.EffectPriceMatchesCart | frontend/src/pages/Product.jsx:96-99 | for a selected size, the page quotes the unit price the cart page shows for the same product and size |
| ProductPage.ProductView.constructor | frontend/src/pages/Product.jsx:43-46 | no product, no image, no size, price 0 |
| ProductPage.ProductView.FetchProductData | frontend/src/pages/Product.jsx:74-89 | an unknown id changes nothing; a known one loads the product, its image and, when it has sizes, the initial size |
| ProductPage.ProductView.PriceEffect | frontend/src/pages/Product.jsx:96-99 | the current price becomes the effect's price |
| ProductPage.ProductView.CorrectedPriceEffect | frontend/src/pages/Product.jsx:96-99 | the current price becomes the intended effect's price |
| ProductPage.ProductView.SelectSize | frontend/src/pages/Product.jsx:241 | the chosen size is selected |
| ProductPage.ProductView.MainAddToCart | frontend/src/pages/Product.jsx:257-259 | adds exactly when `MainButtonDisabled` fails, that is, `IsInStock` with a size selected, always with a non-empty size |
| ProductPage.ProductView.StickyAddToCart | frontend/src/pages/Product.jsx:437-439 | always adds the product with whatever size is selected |
| ProductPage.OpenSizelessProduct | frontend/src/pages/Product.jsx:86-99 | as written, a product without sizes is quoted 0 and its main button is disabled |
| ProductPage.IntendedEffectPrice | frontend/src/pages/Product.jsx:96-99 | without a size, the base price; with one, what the effect yields |
| ProductPage.OpenSizelessProductCorrected | frontend/src/pages/Product.jsx:96-99 | corrected, a sizeless product is quoted at its discounted base price, between 0 and the rounded price |
| ProductPage.TitlePartsAsWritten | frontend/src/pages/Product.jsx:347 | the destructured title and content contain no colon; they are the line's first two colon-free pieces, so title + ":" + content is the whole line or is followed in it by another colon |
| ProductPage.TitleParts | frontend/src/pages/Product.jsx:344-347 | corrected: the title has no colon, and title + ":" + content gives back the line |
| ProductPage.ParseLine | frontend/src/pages/Product.jsx:344-366 | as written: a line becomes a title exactly when it has a colon; the title is the trimmed first piece and the content, present exactly when the second piece is non-empty, its trimmed text; any other line is a bullet holding the line verbatim |
| ProductPage.CorrectedParseLine | frontend/src/pages/Product.jsx:344-366 | corrected: the same, with the content taken from everything after the first colon |
| ProductPage.ParsersAgree | frontend/src/pages/Product.jsx:344-366 | a line with at most one colon is parsed the same by the code as written and by the correction |
| ProductPage.ParseLines | frontend/src/pages/Product.jsx:343-369 | one entry per line, in order, entry i being the as-written parse of line i |
| ProductPage.ParseDescription | frontend/src/pages/Product.jsx:340-343 | one entry per non-empty line of the description, entry i being the as-written parse of non-empty line i |
| ProductPage.CorrectedParseDescription | frontend/src/pages/Product.jsx:340-366 | corrected: one entry per non-empty line, entry i being the corrected parse of non-empty line i |
| ProductPage.DescriptionParsersAgree | frontend/src/pages/Product.jsx:340-366 | a description whose lines hold at most one colon each is shown the same by the code as written and the correction |
| ProductPage.DescriptionBullets | frontend/src/pages/Product.jsx:341-366 | each bullet is a whole non-empty line of the description, without a line break |
| ProductPage.SingleLineDescription | frontend/src/pages/Product.jsx:340-343 | a description without line breaks parses to nothing when empty, to its single line otherwise |
| ProductPage.TitledLine | frontend/src/pages/Product.jsx:347-356 | "t:c" with one colon gives the title Trim(t) and, when c is non-empty, the content Trim(c); here the code as written and the correction agree |
| ProductPage.SecondColonDropped | frontend/src/pages/Product.jsx:347 | as written, "t:u:w" keeps only the content Trim(u); the correction keeps Trim(u + ":" + w) |
| ProductItem.CardImage | frontend/src/components/ProductItem.jsx:21-22 | the first image, or the placeholder for no images |
| ProductItem.AllSoldOut | frontend/src/components/ProductItem.jsx:29-31 | true exactly when every listed size has a stock entry of 0 or less, which holds for no sizes at all |
| ProductItem.QuickAddSize | frontend/src/components/ProductItem.jsx:35 | a quick-add size exists exactly when there is one size |
| ProductItem.CardPrice | frontend/src/components/ProductItem.jsx:37-39 | in whole cents; within half a cent of price × (1 − discount/100) when `HasDiscount` holds, the rounded price otherwise |
| ProductItem.CardPriceMatchesPage | frontend/src/components/ProductItem.jsx:37-39 | for a non-negative discount, the card quotes what the product page quotes for the base price |
| ProductItem.QuickAddClick | frontend/src/components/ProductItem.jsx:61-68 | a single non-empty size adds the product in that size; every other card navigates to the product |
| ProductItem.OverlayExcludesQuickAdd | frontend/src/components/ProductItem.jsx:47-59 | `ShowsOverlay` and `ShowsQuickAdd` never hold together; an in-stock card with the overlay is `SizeSoldOut` |
| ProductItem.FromPriceWithoutQuickAdd | frontend/src/components/ProductItem.jsx:27-28 | a card showing "From" (`ShowFromPrice`: `HasSizePricing` and several sizes) never offers quick-add |
| ProductItem.SizelessLooksSoldOut | frontend/src/components/ProductItem.jsx:29-59 | as written, a card with no sizes shows the overlay and no quick-add button |
| ProductItem.QuickAddOnlyForOneSize | frontend/src/components/ProductItem.jsx:34-71 | the quick-add button shows only for exactly one size (`CanQuickAdd` with a single size), and then adds that size |
| ProductItem.SizelessInStockCard | frontend/src/components/ProductItem.jsx:29-71 | corrected, an in-stock sizeless card has no overlay and offers "View & Add" |
| ProductItem.CorrectionKeepsSizedCards | frontend/src/components/ProductItem.jsx:29-59 | the correction changes nothing for a card that lists sizes |
| ProductItem.CardName | frontend/src/components/ProductItem.jsx:80 | the name when given, never empty |
| ProductItem.CardLink | frontend/src/components/ProductItem.jsx:44 | "/product/" + id for a card with an id, "#" exactly for a card without one |
| AdminList.SizesOf | admin/src/pages/List.jsx:22-26 | the listed sizes, in order |
| AdminList.PricingDictKeys | admin/src/pages/List.jsx:22-26 | the dictionary's keys are the listed sizes, each once, in first-listed order |
| AdminList.PricingDictLastWins | admin/src/pages/List.jsx:24-26 | a size listed more than once takes the price of its last entry |
| AdminList.PricingDictFrom | admin/src/pages/List.jsx:24-26 | every price in the dictionary comes from the last entry for its size |
| AdminList.PricingDictMissing | admin/src/pages/List.jsx:22-26 | a size is missing from the dictionary exactly when no entry lists it |
| AdminList.Normalized | admin/src/pages/List.jsx:13-35 | null stays null; existing sizePricing or no pricing sizes returns the product unchanged; otherwise only sizePricing is added, keyed by the listed sizes |
| AdminList.NormalizePricing | admin/src/pages/List.jsx:13-35 | the loop builds exactly the normalized product |
| AdminList.BuildSizePricing | admin/src/pages/List.jsx:23-26 | the `forEach` leaves `sizePricing` equal to the entries assigned one by one from `{}` |
| AdminList.NormalizedIdempotent | admin/src/pages/List.jsx:17-31 | normalizing twice is normalizing once |
| AdminList.NormalizedUnitPrice | admin/src/pages/List.jsx:22-31 | after normalizing, a size is charged its last non-zero listed price; an unlisted size is charged the base price |
| AdminList.SizeLabelPrice | admin/src/pages/List.jsx:154-162 | the label's `sizePricing?.[size]`, taken when truthy with the base price otherwise, is the unit price the shop resolves for that size |
| AdminList.Labels | admin/src/pages/List.jsx:154-162 | one (size, price) label per listed size, in order, the price being the shop's resolved unit price |
| AdminList.PricingInfoOf | admin/src/pages/List.jsx:147-172 | per-size labels exactly when sizes are listed, beside the base price: label i is listed size i with its resolved unit price; the base price alone otherwise |
| Collection.FilteredExact | frontend/src/pages/Collection.jsx:25-58 | a product is in `Filtered` exactly when it is in the catalog and passes search, category, sub-category and price range; the catalog order is kept; every shown price is in [0, 2000] |
| Collection.Insert | frontend/src/pages/Collection.jsx:64-88 | one more element, the same multiset plus it |
| Collection.InsertSorted | frontend/src/pages/Collection.jsx:64-88 | inserting into a sorted list keeps it sorted |
| Collection.SortByKey | frontend/src/pages/Collection.jsx:64-88 | a permutation of the list |
| Collection.SortByKeySorted | frontend/src/pages/Collection.jsx:64-88 | and it is sorted by the key |
| Collection.SortForPermutation | frontend/src/pages/Collection.jsx:64-86 | `SortFor` gives a permutation of the list on display for every selector value |
| Collection.NewArrivalsAndOthers | frontend/src/pages/Collection.jsx:80-85 | "New arrivals" reverses the list; a value the selector does not name leaves it unchanged |
| Collection.LowHighOrder | frontend/src/pages/Collection.jsx:68-70 | "low-high" is non-decreasing by price |
| Collection.HighLowOrder | frontend/src/pages/Collection.jsx:71-73 | "high-low" is non-increasing by price |
| Collection.TopDealsOrder | frontend/src/pages/Collection.jsx:74-79 | "Top ranking" and "Top deals" are non-increasing by discount |
| Collection.CollectionView.constructor | frontend/src/pages/Collection.jsx:12-15 | nothing shown, no categories, sort "relevant" |
| Collection.CollectionView.ApplyFilter | frontend/src/pages/Collection.jsx:25-58 | the staged filters give exactly the filtered catalog |
| Collection.CollectionView.SortEffect | frontend/src/pages/Collection.jsx:64-88 | a non-empty list on display is re-sorted by the selector; an empty one is left alone |
| Collection.CollectionView.CorrectedRefresh | frontend/src/pages/Collection.jsx:60-88 | corrected, the list shown is the filtered catalog in the selector's order |
| Collection.CollectionView.SetSortType | frontend/src/pages/Collection.jsx:122 | the selector value is stored |
| Collection.CollectionView.ClearFilters | frontend/src/pages/Collection.jsx:90-94 | categories and sub-categories emptied, sort "relevant" |
| Collection.RelevantKeepsPriceOrder | frontend/src/pages/Collection.jsx:64-88 | as written, "low-high" then "relevant" leaves the list out of catalog order |
| Collection.RefilterDropsSort | frontend/src/pages/Collection.jsx:60-62 | as written, a re-filter while "low-high" stays selected shows an unsorted list |
| Collection.ShownProperties | frontend/src/pages/Collection.jsx:25-88 | the intended list `Shown` is a permutation of the filtered catalog, is in catalog order for "relevant" and is sorted for "low-high" |
| Collection.RelevantRestoresCatalogOrder | frontend/src/pages/Collection.jsx:64-88 | corrected, "relevant" after "low-high" gives back the catalog order |
| Compare.Compared | frontend/src/pages/Compare.jsx:9-11 | the compare-list products of the catalog (`OnList`) cut to two: length min(2, matches), all on the compare list, a prefix of the catalog-order matches |
| Compare.ComparedInCatalogOrder | frontend/src/pages/Compare.jsx:9-11 | the compared products are in catalog order |
| Compare.SearchResults | frontend/src/pages/Compare.jsx:15-22 | empty for a blank search; otherwise exactly the catalog products whose name contains the search, ignoring case, that are not already compared, in catalog order (a subsequence of the catalog) |
| Compare.SpecKeysOfAt | frontend/src/pages/Compare.jsx:24-30 | a key is collected exactly when some compared product specifies it |
| Compare.AddKeys | frontend/src/pages/Compare.jsx:26-28 | adding one product's keys to the set extends it in first-seen order |
| Compare.AllSpecsKeys | frontend/src/pages/Compare.jsx:24-30 | the loops produce the first-seen-order union of the compared products' spec keys |
| Compare.SpecRows | frontend/src/pages/Compare.jsx:24-30 | one row per key some compared product specifies, and no key twice |
| Compare.SpecCell | frontend/src/pages/Compare.jsx:129 | never empty: the slot's value when the slot exists and the value is present and non-empty; "—" for a missing slot, a missing key or an empty value |
| RelatedProducts.Related | frontend/src/components/RelatedProducts.jsx:13-17 | exactly min(5, matches) catalog products with the same category and sub-category, a prefix of all matches; the current product is not excluded |
| RelatedProducts.RelatedComplete | frontend/src/components/RelatedProducts.jsx:13-17 | fewer than five means every match is shown; the strip keeps catalog order |
| RelatedProducts.RelatedStrip.constructor | frontend/src/components/RelatedProducts.jsx:9 | no related products |
| RelatedProducts.RelatedStrip.Refresh | frontend/src/components/RelatedProducts.jsx:11-19 | recomputed for a non-empty catalog, kept for an empty one |
| LatestCollection.Latest | frontend/src/components/LatestCollection.jsx:15 | a prefix of the catalog of length min(10, catalog size) |
| LatestCollection.LatestSection.constructor | frontend/src/components/LatestCollection.jsx:10 | no products |
| LatestCollection.LatestSection.Refresh | frontend/src/components/LatestCollection.jsx:13-17 | recomputed for a non-empty catalog, kept for an empty one |
| LatestCollection.LatestStartsTheCatalog | frontend/src/components/LatestCollection.jsx:15-19 | once a catalog has loaded the section renders and starts with the first product |
| Wishlist.WishlistProducts | frontend/src/pages/Wishlist.jsx:12 | exactly the catalog products whose id is on the wishlist, in catalog order (a subsequence of the catalog); unknown ids are dropped |
| Wishlist.EmptyState | frontend/src/pages/Wishlist.jsx:19 | the empty state shows exactly when no catalog product is on the wishlist |
| Wishlist.AddButton | frontend/src/pages/Wishlist.jsx:60 | adds the product with no size |
| Wishlist.RemoveButton | frontend/src/pages/Wishlist.jsx:67 | toggles the product's wishlist membership |
| PlaceOrder.AssembleOrderItems | frontend/src/pages/PlaceOrder.jsx:82-96 | the nested loops produce `OrderItemsOf` the cart's lines |
| PlaceOrder.AssembleSizes | frontend/src/pages/PlaceOrder.jsx:83-95 | the inner loop appends exactly the order items of one product's positive sizes, when the catalog has the product |
| PlaceOrder.OrderItemsAt | frontend/src/pages/PlaceOrder.jsx:82-96 | an item is in `OrderItemsOf` exactly for a line with a positive quantity whose product is in the catalog, with that quantity and the resolved unit price |
| PlaceOrder.OrderItemsExact | frontend/src/pages/PlaceOrder.jsx:82-96 | in a well-formed cart, an item exists exactly for each stored positive quantity of a catalog product, and no two items share a product id and size |
| PlaceOrder.OrderItemsDistinct | frontend/src/pages/PlaceOrder.jsx:82-96 | lines with distinct (id, size) pairs give items with distinct (id, size) pairs |
| PlaceOrder.OrderTotalOfLines | frontend/src/pages/PlaceOrder.jsx:82-96 | the items' price × quantity sums to the drawer's line totals |
| PlaceOrder.OrderItemsMatchSubtotal | frontend/src/pages/PlaceOrder.jsx:82-96 | the order items add up to the subtotal |
| PlaceOrder.OrderSavings | frontend/src/pages/PlaceOrder.jsx:99-101 | with a coupon, the unrounded percentage of the subtotal, with no minimum-purchase gate; 0 without one |
| PlaceOrder.OrderAmount | frontend/src/pages/PlaceOrder.jsx:98-103 | never below the fee, even for an empty cart; subtotal − savings + fee when the savings do not exceed the subtotal, and the fee alone when they do |
| PlaceOrder.AmountMatchesDisplayedTotal | frontend/src/pages/PlaceOrder.jsx:98-103 | for a positive whole-cent subtotal at or above the minimum, the amount is the displayed total up to half a cent, and exactly it without a coupon or when the savings are whole cents |
| PlaceOrder.EmptyCartDiverges | frontend/src/pages/PlaceOrder.jsx:103 | an empty cart is displayed as 0 but charged the fee |
| PlaceOrder.BelowMinimumDiverges | frontend/src/pages/PlaceOrder.jsx:99-101 | below the minimum, 5 is displayed as 5 plus the fee but charged 4.50 plus the fee |
| PlaceOrder.IntendedAmountIsDisplayed | frontend/src/pages/PlaceOrder.jsx:98-103 | the corrected amount, written as the submit code with the minimum-purchase gate, the rounding and the empty-cart waiver added, equals the displayed `Summarize` total for every cart and coupon; below the minimum it is the coupon-free total |
| PlaceOrder.IntendedAgreesWithoutCoupon | frontend/src/pages/PlaceOrder.jsx:98-103 | for a non-empty cart without a coupon, the correction charges what the code as written charges |
| PlaceOrder.CartAfterSubmit | frontend/src/pages/PlaceOrder.jsx:118-124 | the cart is emptied on success and kept on a failure or an error |
| PlaceOrder.ApplyAddressFromProfile | frontend/src/pages/PlaceOrder.jsx:43-60 | each of first name, last name, email and phone is kept when non-empty and otherwise filled from the profile on its own: the first word of the name, the remaining words joined by spaces, the email, the phone; the address fields are always overwritten |
| PlaceOrder.PrefillSplitsName | frontend/src/pages/PlaceOrder.jsx:45-49 | an empty name pair becomes the first word of the profile name and the remaining words |
| Orders.FormatAddress | frontend/src/pages/Orders.jsx:15-36 | "" without an address |
| Orders.FormatFullAddress | frontend/src/pages/Orders.jsx:28-33 | with every part given: "first last", street, city, state, zipcode and country joined by ", ", then " \| Phone: " and the phone |
| Orders.FormatBlankAddress | frontend/src/pages/Orders.jsx:17-33 | the line is empty exactly when every part is |
| Orders.PhoneOnlyAppends | frontend/src/pages/Orders.jsx:32-33 | the phone only appends " \| Phone: <phone>", and only when it is given |
| Orders.FormatPartialAddress | frontend/src/pages/Orders.jsx:28-31 | missing parts leave no stray separator ("Lee, Dhaka") |
| Orders.OrderRows | frontend/src/pages/Orders.jsx:52-59 | one of the `Rows` per item, carrying the order's status, payment, method, date and address |
| Orders.RowsCount | frontend/src/pages/Orders.jsx:50-61 | one row per item of every order |
| Orders.RowsAt | frontend/src/pages/Orders.jsx:50-60 | a row is exactly an item of some order with that order's fields |
| Orders.LoadOrderData | frontend/src/pages/Orders.jsx:50-61 | the loops and `reverse()` give the reversed flattening |
| Orders.NewestFirst | frontend/src/pages/Orders.jsx:61 | the first row is the last item of the last order |
| Orders.PriceShown | frontend/src/pages/Orders.jsx:147 | the size price when non-zero, the base price otherwise |
| Orders.PriceShownIsCharged | frontend/src/pages/Orders.jsx:147 | for an item the checkout built, the price shown is the unit price charged |
| Orders.TotalShownIgnoresSizePrice | frontend/src/pages/Orders.jsx:210 | as written, `TotalShown` for 2 units of a size priced 45 on a base of 30 is 60 |
| Orders.IntendedTotalsAreCharged | frontend/src/pages/Orders.jsx:210 | corrected, the item totals of an order add up to what the checkout charged |
| Orders.ToggleSelected | frontend/src/pages/Orders.jsx:188 | the row opens exactly when it was not the open one; otherwise nothing is open |
| Orders.ToggleTwice | frontend/src/pages/Orders.jsx:188 | pressing a row twice leaves it open only if it was open before, with nothing else open |
| UserController.Register | backend/controllers/userController.js:80-119 | the first failing check decides the message, in the order existing email, invalid email, password under 6 characters; otherwise a user with that name and email, whose image is the one sent or "" when none was sent |
| UserController.Picked | backend/controllers/userController.js:187-211 | exactly the listed fields that are copied, with the sent values |
| UserController.UpdateDataExact | backend/controllers/userController.js:187-211 | updateData holds exactly the profile fields sent with a non-empty value, plus the alternative label whenever sent, even "" |
| UserController.BuildUpdateData | backend/controllers/userController.js:187-212 | the `if` chain builds exactly those fields, and `lastUpdated` is now |
| UserController.ApplyUpdate | backend/controllers/userController.js:214-216 | listed fields are set; every other field, both lists and nothing else change; `lastUpdated` is set |
| UserController.UpdateProfile | backend/controllers/userController.js:158-230 | an unknown user fails with "User not found" and nothing changes; otherwise only that user is updated, and the reply carries the updated profile without the password, as `.select("-password")` returns it |
| UserController.UpdateKeepsTheRest | backend/controllers/userController.js:187-215 | a field not sent, sent empty or off the list keeps its value, and other users are untouched |
| UserController.ProfileUpdateKeepsCredentials | backend/controllers/userController.js:158-216 | for a stored user, a profile update leaves both the email and the password as they were, present or absent |
| UserController.Pull | backend/controllers/userController.js:244 | every occurrence removed, the other ids kept in order |
| UserController.AddToSet | backend/controllers/userController.js:245 | appended only when absent |
| UserController.ToggleList | backend/controllers/userController.js:242-253 | a listed id is removed with "removed", an unlisted one appended with "added" |
| UserController.ToggleTwice | backend/controllers/userController.js:242-246 | two toggles restore membership, restore the very list when the id started absent, and report opposite actions |
| UserController.WithList | backend/controllers/userController.js:247-249 | only the toggled list changes |
| UserController.Toggle | backend/controllers/userController.js:233-259 | "productId required" first, then "User not found", then a missing list throws; otherwise that user's list is toggled |
| UserController.ToggleRequestTwice | backend/controllers/userController.js:283-287 | two requests restore the user's list membership and leave the other list untouched, for the wishlist and the compare list alike |
| UserController.GetList | backend/controllers/userController.js:261-271 | "User not found", or the list with [] for a missing one |
| UserController.ReadAfterToggle | backend/controllers/userController.js:247-253 | reading after a toggle returns the list the toggle replied |
| Coupons.ClampDiscount | admin/src/pages/Coupons.jsx:118-121 | kept in [1, 100], unchanged inside that range |
| Coupons.ClampMinPurchase | admin/src/pages/Coupons.jsx:135-137 | never negative, unchanged when non-negative |
| Coupons.ClampsIdempotent | admin/src/pages/Coupons.jsx:118-137 | clamping again changes nothing |
| Coupons.Optional | admin/src/pages/Coupons.jsx:45-46 | an empty input is left out, any other is sent as typed |
| Coupons.WithoutCoupon | admin/src/pages/Coupons.jsx:79 | exactly the other coupons, in their order |
| Coupons.WithoutCouponProperties | admin/src/pages/Coupons.jsx:79 | removing an absent id changes nothing; removing twice is removing once |
| Coupons.UsageShown | admin/src/pages/Coupons.jsx:209-211 | "count/limit" exactly when a non-zero limit is set, with a missing count as 0; the infinity mark otherwise |
| Coupons.MinPurchaseShown | admin/src/pages/Coupons.jsx:202 | 0 when missing, the minimum otherwise |
| Coupons.CouponPage.constructor | admin/src/pages/Coupons.jsx:7-13 | the blank form, no coupons, not saving |
| Coupons.CouponPage.EditCode | admin/src/pages/Coupons.jsx:103 | the code is the upper-cased input |
| Coupons.CouponPage.EditDiscount | admin/src/pages/Coupons.jsx:118-121 | the discount is the clamped input, and the form stays in range |
| Coupons.CouponPage.EditMinPurchase | admin/src/pages/Coupons.jsx:135-137 | the minimum is the clamped input, and the form stays in range |
| Coupons.CouponPage.EditExpiresAt | admin/src/pages/Coupons.jsx:148 | the expiry is the input |
| Coupons.CouponPage.EditUsageLimit | admin/src/pages/Coupons.jsx:160 | the limit is the input |
| Coupons.CouponPage.CreatePayload | admin/src/pages/Coupons.jsx:41-47 | the form's code, discount and minimum, with expiry and limit left out exactly when empty |
| Coupons.CouponPage.Created | admin/src/pages/Coupons.jsx:35-67 | success resets the form to code "", 10%, minimum 0, no expiry and no limit; failure keeps it; saving ends either way |
| Coupons.CouponPage.Fetched | admin/src/pages/Coupons.jsx:15-29 | success replaces the list, [] when missing; failure keeps it |
| Coupons.CouponPage.Remove | admin/src/pages/Coupons.jsx:69-87 | only a confirmed, successful removal drops that id's coupons |
| Coupons.EditedPayload | admin/src/pages/Coupons.jsx:41-47 | whatever is typed, the payload's code is upper case, its discount in [1, 100] and its minimum non-negative |
| Contact.RejectionNotice | frontend/src/pages/Contact.jsx:55-56 | the server's message when there is one, the error's otherwise |
| Contact.InitialStep | frontend/src/pages/Contact.jsx:20-26 | "reset" exactly when the link carries a non-empty token |
| Contact.ValidateReset | frontend/src/pages/Contact.jsx:67-74 | the first failing check decides the message, in the order missing field, mismatch, under 6 characters; no message exactly for matching passwords of 6 or more |
| Contact.RecoveryPage.constructor | frontend/src/pages/Contact.jsx:13-26 | the initial step, the link's token in the reset step, and empty fields |
| Contact.RecoveryPage.EditEmail | frontend/src/pages/Contact.jsx:129 | the email is the input |
| Contact.RecoveryPage.EditNewPassword | frontend/src/pages/Contact.jsx:139 | the new password is the input |
| Contact.RecoveryPage.EditConfirmPassword | frontend/src/pages/Contact.jsx:148 | the confirmation is the input |
| Contact.RecoveryPage.SubmitRequest | frontend/src/pages/Contact.jsx:32-60 | an empty email fails before any request; success clears the email and moves to "reset" only with a returned token; failures show the message |
| Contact.RecoveryPage.SubmitReset | frontend/src/pages/Contact.jsx:62-92 | only input passing validation is posted, with the token; success redirects to login |
| Contact.RecoveryPage.Back | frontend/src/pages/Contact.jsx:169-171 | from "request" to login, from "reset" back to "request" |
| Contact.ResetFromLink | frontend/src/pages/Contact.jsx:62-79 | a link with a token and a matching 6-character password posts both |
| ReviewsSlider.LastFew | frontend/src/components/ReviewsSlider.jsx:74-78 | the last min(3, n) reviews |
| ReviewsSlider.FirstFew | frontend/src/components/ReviewsSlider.jsx:74-78 | the first min(3, n) reviews |
| ReviewsSlider.Extended | frontend/src/components/ReviewsSlider.jsx:74-78 | length n + 2·min(3, n), with review i at position min(3, n) + i |
| ReviewsSlider.ExtendedWraps | frontend/src/components/ReviewsSlider.jsx:74-78 | the clones behind repeat the first cards and the clones in front repeat the last, so a reset at n + 3 shows the same cards |
| ReviewsSlider.RatingNumber | frontend/src/components/ReviewsSlider.jsx:90 | a missing, non-numeric or zero rating counts as 5 |
| ReviewsSlider.Stars | frontend/src/components/ReviewsSlider.jsx:97-105 | five stars, star i filled exactly when i is below the rating |
| ReviewsSlider.StarsForRating | frontend/src/components/ReviewsSlider.jsx:97-105 | a whole rating k from 1 to 5 fills k stars; a missing one fills five |
| ReviewsSlider.AvatarLetter | frontend/src/components/ReviewsSlider.jsx:115 | the upper-cased first letter, none for a missing or empty name |
| ReviewsSlider.Slider.constructor | frontend/src/components/ReviewsSlider.jsx:10-12 | loading, no reviews, the index at 3 |
| ReviewsSlider.Slider.Loaded | frontend/src/components/ReviewsSlider.jsx:15-27 | success stores the list, [] when missing; loading ends; the index stays valid |
| ReviewsSlider.Slider.Tick | frontend/src/components/ReviewsSlider.jsx:29-35 | the index advances by one only with more than three reviews, staying within [3, n + 3] |
| ReviewsSlider.Slider.Settle | frontend/src/components/ReviewsSlider.jsx:37-46 | at n + 3 the index jumps back to 3; otherwise it is kept |
| ReviewsSlider.Slider.Render | frontend/src/components/ReviewsSlider.jsx:59-78 | a skeleton while loading, nothing for no reviews, otherwise the extended track at the index |
| ReviewsSlider.FullCycle | frontend/src/components/ReviewsSlider.jsx:29-46 | with five reviews the index walks 3, 4, …, 8 and comes back to 3 |

## Left out

- Network and persistence. Every axios call, toast, navigation and `localStorage` use is out. So are the Mongo calls (`findOne`, `findById`, `findByIdAndUpdate`, `save`). Server replies are parameters, and the user collection is a map from id to user.
- Authentication and cryptography. Out: Firebase login, bcrypt hashing, JWT tokens, `loginUser`, `adminLogin` and `getUserProfile`. `validator.isEmail` is the input `validEmail` of `UserController.Register`.
- The JSON mirror `syncUsersToJSON`, a file write.
- The shop context. It holds `calculateCartSubtotal`, `addToCart`, `updateQuantity`, `removeFromCart` and the storefront's `normalizePricing`, and it is not part of this model:
  - the subtotal is assumed to be the drawer's sum of line totals;
  - the storefront's `normalizePricing` is taken as the identity;
  - the steppers and buttons are modelled as the requests they make.
- Floating point: IEEE doubles, `toFixed` string formatting and NaN. Prices are exact reals.
  - `Number("abc")` in the coupon clamps and `Number(item.price) || 0` in the collection filter are left out: prices and typed numbers are already numbers.
  - Display-only `toFixed(2)` is left out.
- Timers and animation: `setInterval`, `setTimeout`, `requestAnimationFrame`, CSS transforms, framer-motion, and the drawer's key listener and scroll lock.
- ReviewsSlider.Slider.Tick: requires that no reset is pending. This assumes the reset effect runs before the next 4-second tick, which the source's timing makes so but the model does not derive.
- The recovery page's redirect of a signed-in visitor to the home page (frontend/src/pages/Contact.jsx:28-30), which is navigation only.
- Browser form validation, such as `required` and `min` attributes: handlers are modelled on whatever values they receive.
- Presentation-only files, the admin orders page (a status colour lookup with no enforced transitions) and route wiring.
- JavaScript's ordering of integer-like object keys before other keys: keys keep insertion order.
- Contact.ValidateReset: the 6-character minimum compares the number of characters, while JavaScript's `.length` counts UTF-16 code units, so a password of three emoji (`.length` 6) is rejected here and accepted by the page. Strings are sequences of characters throughout the model.
- UserController.Register: the same character count stands for `password.length`, with the same difference for characters outside the Basic Multilingual Plane.
- Case mapping and trimming. Case mapping is ASCII only, and trimming uses a fixed set of whitespace characters.
- Collection.SortByKey: states sortedness and permutation only. It does not state that JavaScript's stable sort keeps equal-key products in their earlier order.
- ProductItem.CardImage: a non-array `image` prop is not modelled, because images are always a sequence.
- Badge percentages, formatted dates and currency symbols.
- UserController.UpdateProfile: the update happens before the existence check. The model checks first; the reply and the stored users are the same either way, the reply's profile being the stored one without its password.
- UserController.UpdateProfile: a user deleted between the lookup and the update (concurrency) is not modelled, and neither is Mongo's cast error for a malformed id.
- UserController.Toggle: a runtime error in the `catch` becomes `Threw`; its message text is not modelled. Mongo's default empty arrays are represented by the list being present.

## Findings

| source | as written | input that shows it | evidently intended | confidence | as-written member | corrected member |
|---|---|---|---|---|---|---|
| frontend/src/components/ProductItem.jsx:29-31 | `sizeSoldOut` is an `every` over the sizes, true when there are none | an in-stock product with `sizes = []` shows "Out of Stock" and no button, so the "View & Add" branch is unreachable | sold out only when there are sizes and all are out | not executed; high | ProductItem.SizelessLooksSoldOut | ProductItem.SizelessInStockCard |
| frontend/src/pages/Product.jsx:96-99 | the price effect returns when no size is selected, and a sizeless product never gets one | a product with `sizes = []` is quoted 0.00 | quote the base price when there is no size | not executed; high | ProductPage.OpenSizelessProduct | ProductPage.OpenSizelessProductCorrected |
| frontend/src/pages/PlaceOrder.jsx:98-103 | the submitted amount ignores the minimum purchase, the rounding and the empty-cart waiver | subtotal 5 with 10% off above 10: displayed 5 + fee, charged 4.50 + fee | charge the total the cart displayed | not executed; high | PlaceOrder.BelowMinimumDiverges | PlaceOrder.IntendedAmountIsDisplayed |
| frontend/src/pages/Orders.jsx:210 | "Total Amount" is the base price × quantity | 2 units of a size priced 45 on a base of 30 show 60 | the price shown × quantity, 90 | not executed; high | Orders.TotalShownIgnoresSizePrice | Orders.IntendedTotalsAreCharged |
| frontend/src/pages/Product.jsx:347 | `const [title, content] = line.split(":")` keeps only the text between the first two colons | "Hours: 9:30" shows "Hours" and "9" | keep everything after the first colon | not executed; high | ProductPage.SecondColonDropped | ProductPage.CorrectedParseLine |
| frontend/src/pages/Collection.jsx:60-88 | the sort effect depends only on `sortType` and re-sorts whatever is on display | "low-high" then "relevant" keeps price order; a re-filter under "low-high" shows catalog order | show the filtered catalog in the selected order | not executed; medium | Collection.RelevantKeepsPriceOrder | Collection.ShownProperties |
