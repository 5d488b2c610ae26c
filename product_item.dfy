/**
 * One product card of the listings (ProductItem.jsx): the image, the price
 * line, the out-of-stock overlay and the quick-add button.
 */
module ProductItem {
  import opened Wrappers
  import opened Text
  import opened Dict
  import opened Catalog
  import opened CartTotal
  import ProductPage

  /**
   * The card's props. An absent `sizes` or `sizeStock` behaves as an empty
   * one here, as it does in every test the card makes; an `image` that is
   * not an array is the empty list.
   */
  datatype Props = Props(
    id: String,
    image: seq<String>,
    name: String,
    price: real,
    discount: real,
    sizePricing: Option<Entries<real>>,
    sizes: seq<String>,
    category: String,
    inStock: bool,
    sizeStock: Entries<real>)

  /** The props the listings pass for a catalog product. */
  function PropsOf(p: Product): Props {
    Props(p.id, p.images, p.name, p.price, p.discount, p.sizePricing, p.sizes, p.category, p.inStock, p.sizeStock)
  }

  const Placeholder: String := "placeholder.jpg"

  function CardImage(props: Props): (r: String)
    ensures |props.image| > 0 ==> r == props.image[0]
    ensures |props.image| == 0 ==> r == Placeholder
  {
    if |props.image| > 0 then props.image[0] else Placeholder
  }

  predicate HasDiscount(props: Props) {
    props.discount > 0.0
  }

  /** `sizePricing && Object.keys(sizePricing).length > 0` */
  predicate HasSizePricing(props: Props) {
    props.sizePricing.Some? && |props.sizePricing.value| > 0
  }

  /** "From" before the price: size pricing and more than one size. */
  predicate ShowFromPrice(props: Props) {
    HasSizePricing(props) && |props.sizes| > 1
  }

  /** `sizes.every(s => sizeStock[s] !== undefined && Number(sizeStock[s]) <= 0)` */
  function AllSoldOut(sizes: seq<String>, stock: Entries<real>): (r: bool)
    ensures r <==> forall i :: 0 <= i < |sizes| ==>
      Get(stock, sizes[i]).Some? && Get(stock, sizes[i]).value <= 0.0
  {
    if sizes == [] then true
    else Get(stock, sizes[0]).Some? && Get(stock, sizes[0]).value <= 0.0 && AllSoldOut(sizes[1..], stock)
  }

  /** `sizeSoldOut` as written, true for a card with no sizes at all. */
  predicate SizeSoldOut(props: Props) {
    AllSoldOut(props.sizes, props.sizeStock)
  }

  predicate CanQuickAdd(props: Props) {
    |props.sizes| <= 1
  }

  function QuickAddSize(props: Props): (r: Option<String>)
    ensures r.Some? <==> |props.sizes| == 1
  {
    if |props.sizes| == 1 then Some(props.sizes[0]) else None
  }

  /** The price line: the discounted price when there is a discount, else the price, `toFixed(2)`. */
  function CardPrice(props: Props): (r: real)
    ensures WholeCents(r)
    ensures !HasDiscount(props) ==> r == Round2(props.price)
    ensures HasDiscount(props) ==> -0.005 <= r - props.price * (1.0 - props.discount / 100.0) <= 0.005
  {
    if HasDiscount(props) then Round2(ApplyDiscount(props.price, props.discount)) else Round2(props.price)
  }

  /** A card quotes what its product page quotes for the base price, unless the discount is negative. */
  lemma CardPriceMatchesPage(p: Product)
    requires p.discount >= 0.0
    ensures CardPrice(PropsOf(p)) == ProductPage.FinalPriceShown(p.price, Some(p))
  {
    assert ProductPage.Discount(Some(p)) == p.discount;
    if p.discount == 0.0 {
      assert ProductPage.DiscountedPrice(p.price, Some(p)) == p.price;
    }
  }

  /** A card that says "From" has several sizes, so it never quick-adds. */
  lemma FromPriceWithoutQuickAdd(props: Props)
    ensures ShowFromPrice(props) ==> QuickAddSize(props).None? && !ShowsQuickAdd(props)
  {
  }

  /** The "Out of Stock" overlay as written. */
  predicate ShowsOverlay(props: Props) {
    !props.inStock || SizeSoldOut(props)
  }

  /** The quick-add button as written. */
  predicate ShowsQuickAdd(props: Props) {
    CanQuickAdd(props) && props.inStock && !SizeSoldOut(props)
  }

  datatype Click = AddToCart(productId: String, size: String) | Navigate(productId: String)

  /** The quick-add button: add the only size when it is a real one, else open the product page. */
  function QuickAddClick(props: Props): (r: Click)
    ensures r.AddToCart? ==> |props.sizes| == 1 && r == AddToCart(props.id, props.sizes[0]) && r.size != ""
    ensures r.Navigate? ==> r.productId == props.id
    ensures |props.sizes| == 1 && props.sizes[0] != "" ==> r == AddToCart(props.id, props.sizes[0])
  {
    match QuickAddSize(props)
    case Some(s) => if s != "" then AddToCart(props.id, s) else Navigate(props.id)
    case None => Navigate(props.id)
  }

  /** The overlay and the quick-add button never show together. */
  lemma OverlayExcludesQuickAdd(props: Props)
    ensures ShowsQuickAdd(props) ==> !ShowsOverlay(props)
    ensures props.inStock && ShowsOverlay(props) ==> SizeSoldOut(props)
  {
  }

  /**
   * As written, a card without sizes is always overlaid "Out of Stock", even
   * in stock, and never offers quick-add: `[].every(…)` is true.
   */
  lemma SizelessLooksSoldOut(props: Props)
    requires props.sizes == []
    ensures ShowsOverlay(props)
    ensures !ShowsQuickAdd(props)
  {
  }

  /** So the quick-add button shows only for exactly one size, and never for the sizeless cards it names. */
  lemma QuickAddOnlyForOneSize(props: Props)
    requires ShowsQuickAdd(props)
    ensures |props.sizes| == 1
    ensures props.sizes[0] != "" ==> QuickAddClick(props) == AddToCart(props.id, props.sizes[0])
  {
  }

  /** Sold out as evidently intended: there are sizes and every one is out. */
  predicate IntendedSizeSoldOut(props: Props) {
    |props.sizes| > 0 && SizeSoldOut(props)
  }

  predicate IntendedShowsOverlay(props: Props) {
    !props.inStock || IntendedSizeSoldOut(props)
  }

  predicate IntendedShowsQuickAdd(props: Props) {
    CanQuickAdd(props) && props.inStock && !IntendedSizeSoldOut(props)
  }

  /** With the correction, an in-stock sizeless card has no overlay and offers "View & Add". */
  lemma SizelessInStockCard(props: Props)
    requires props.sizes == [] && props.inStock
    ensures !IntendedShowsOverlay(props)
    ensures IntendedShowsQuickAdd(props)
    ensures QuickAddClick(props) == Navigate(props.id)
  {
  }

  /** The correction changes nothing for a card that lists sizes. */
  lemma CorrectionKeepsSizedCards(props: Props)
    requires |props.sizes| > 0
    ensures IntendedShowsOverlay(props) == ShowsOverlay(props)
    ensures IntendedShowsQuickAdd(props) == ShowsQuickAdd(props)
  {
  }

  /** `name || "No Name"` */
  function CardName(props: Props): (r: String)
    ensures r != ""
    ensures props.name != "" ==> r == props.name
  {
    if props.name != "" then props.name else "No Name"
  }

  /** `id ? /product/${id} : "#"` */
  function CardLink(props: Props): (r: String)
    ensures props.id == "" <==> r == "#"
    ensures props.id != "" ==> r == "/product/" + props.id
  {
    if props.id != "" then "/product/" + props.id else "#"
  }
}
