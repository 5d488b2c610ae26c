/**
 * The slide-out mini cart (MiniCartDrawer.jsx): every cart triple becomes a
 * line, zero quantities included; each line resolves its price against the
 * catalog, falling back to 0 for a product the catalog no longer has.
 *
 * The shop context's `calculateCartSubtotal` is not part of this model; the
 * subtotal is taken to be the sum of these line totals (`Subtotal`).
 */
module MiniCartDrawer {
  import opened Wrappers
  import opened Text
  import opened Dict
  import opened Catalog

  /** `Object.entries(cartItems).flatMap(… Object.entries(sizes).map(…))` */
  function Items(cart: Cart): seq<CartLine> {
    Lines(cart)
  }

  /** The number of (id, size) entries the cart stores. */
  function EntryCount(cart: Cart): nat {
    if cart == [] then 0 else EntryCount(cart[..|cart| - 1]) + |cart[|cart| - 1].1|
  }

  /** The drawer lists every stored triple, zero quantities included, and its heading counts them all. */
  lemma {:induction false} ItemsAreAllEntries(cart: Cart, x: CartLine)
    ensures |Items(cart)| == EntryCount(cart)
    ensures x in Items(cart) <==>
      exists i, j :: 0 <= i < |cart| && 0 <= j < |cart[i].1| &&
        x == CartLine(cart[i].0, cart[i].1[j].0, cart[i].1[j].1)
  {
    LinesAt(cart, x);
    ItemsCount(cart);
  }

  lemma {:induction false} ItemsCount(cart: Cart)
    ensures |Lines(cart)| == EntryCount(cart)
  {
    if cart != [] {
      ItemsCount(cart[..|cart| - 1]);
    }
  }

  /** `product?.sizePricing?.[size] || product?.price || 0` */
  function LinePrice(products: seq<Product>, item: CartLine): (r: real)
    ensures FindProduct(products, item.productId).None? ==> r == 0.0
    ensures FindProduct(products, item.productId).Some? ==>
      r == ResolveUnitPrice(FindProduct(products, item.productId).value, item.size)
  {
    match FindProduct(products, item.productId)
    case None => 0.0
    case Some(p) => ResolveUnitPrice(p, item.size)
  }

  /** `price * item.qty` */
  function LineTotal(products: seq<Product>, item: CartLine): real {
    LinePrice(products, item) * item.qty as real
  }

  /** The name shown for a line: the product's, or "Product" when it is missing or unnamed. */
  function LineName(products: seq<Product>, item: CartLine): (r: String)
    ensures FindProduct(products, item.productId).None? ==> r == "Product"
    ensures var found := FindProduct(products, item.productId);
      found.Some? && found.value.name != "" ==> r == found.value.name
    ensures r != ""
  {
    match FindProduct(products, item.productId)
    case None => "Product"
    case Some(p) => if p.name != "" then p.name else "Product"
  }

  const PlaceholderImage: String := "https://via.placeholder.com/64"

  /** `product?.images?.[0] || placeholder` */
  function LineImage(products: seq<Product>, item: CartLine): (r: String)
    ensures FindProduct(products, item.productId).None? ==> r == PlaceholderImage
    ensures var found := FindProduct(products, item.productId);
      found.Some? && |found.value.images| > 0 && found.value.images[0] != "" ==> r == found.value.images[0]
    ensures r != ""
  {
    match FindProduct(products, item.productId)
    case None => PlaceholderImage
    case Some(p) => if |p.images| > 0 && p.images[0] != "" then p.images[0] else PlaceholderImage
  }

  /** The quantity the minus button requests: one less, but never below 1. */
  function DecrementRequest(qty: int): (r: int)
    ensures r >= 1
    ensures qty > 1 ==> r == qty - 1
    ensures qty <= 1 ==> r == 1
  {
    if qty - 1 >= 1 then qty - 1 else 1
  }

  /** The quantity the plus button requests, in the drawer and in the bag alike. */
  function IncrementRequest(qty: int): (r: int)
    ensures r == qty + 1
  {
    qty + 1
  }

  /** From any quantity of at least 1, plus then minus comes back to where it was. */
  lemma IncrementThenDecrement(qty: int)
    requires qty >= 1
    ensures DecrementRequest(IncrementRequest(qty)) == qty
    ensures IncrementRequest(DecrementRequest(qty)) == (if qty > 1 then qty else 2)
  {
  }

  function SumLineTotals(products: seq<Product>, items: seq<CartLine>): real {
    if items == [] then 0.0
    else SumLineTotals(products, items[..|items| - 1]) + LineTotal(products, items[|items| - 1])
  }

  /** The cart subtotal, taken as the sum of the drawer's line totals. */
  function Subtotal(cart: Cart, products: seq<Product>): real {
    SumLineTotals(products, Items(cart))
  }

  /** Every price the catalog can resolve to is non-negative. */
  ghost predicate NonNegativePrices(products: seq<Product>) {
    forall p, s :: p in products ==> ResolveUnitPrice(p, s) >= 0.0
  }

  lemma {:induction false} SumNonNegative(products: seq<Product>, items: seq<CartLine>)
    requires NonNegativePrices(products)
    requires forall x :: x in items ==> x.qty >= 0
    ensures SumLineTotals(products, items) >= 0.0
  {
    if items != [] {
      var last := items[|items| - 1];
      SumNonNegative(products, items[..|items| - 1]);
      assert last in items;
      assert LinePrice(products, last) >= 0.0;
    }
  }

  lemma {:induction false} SumZero(products: seq<Product>, items: seq<CartLine>)
    requires forall x :: x in items ==> x.qty == 0
    ensures SumLineTotals(products, items) == 0.0
  {
    if items != [] {
      SumZero(products, items[..|items| - 1]);
      assert items[|items| - 1] in items;
    }
  }

  /** With non-negative prices and quantities the subtotal is never negative; with all quantities 0 it is 0. */
  lemma SubtotalBounds(cart: Cart, products: seq<Product>)
    requires NonNegativePrices(products)
    requires forall x :: x in Lines(cart) ==> x.qty >= 0
    ensures Subtotal(cart, products) >= 0.0
    ensures (forall x :: x in Lines(cart) ==> x.qty == 0) ==> Subtotal(cart, products) == 0.0
  {
    SumNonNegative(products, Lines(cart));
    if forall x :: x in Lines(cart) ==> x.qty == 0 {
      SumZero(products, Lines(cart));
    }
  }

  /** The worked figure: 2 units at size "M" priced 45 add 90 to the subtotal. */
  lemma SizePricedLineExample(p: Product)
    requires p.sizePricing == Some([("M", 45.0)])
    ensures LineTotal([p], CartLine(p.id, "M", 2)) == 90.0
  {
  }
}
