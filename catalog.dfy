/**
 * The catalog as the storefront receives it, and the cart kept in the shop
 * context. A product field the source reads with a default (`discount || 0`,
 * `stockQuantity ?? 0`, `sizes || []`, `inStock !== false`) holds that
 * default here. `sizePricing` and `pricingId.sizes` keep the difference
 * between absent and empty, because the source tests their presence.
 */
module Catalog {
  import opened Wrappers
  import opened Text
  import opened Dict

  /** One entry of `pricingId.sizes`. */
  datatype SizePrice = SizePrice(size: String, price: real)

  datatype Product = Product(
    id: String,
    name: String,
    description: String,
    category: String,
    subCategory: String,
    tags: seq<String>,
    images: seq<String>,
    price: real,
    discount: real,
    sizes: seq<String>,
    sizePricing: Option<Entries<real>>,
    pricingSizes: Option<seq<SizePrice>>,
    sizeStock: Entries<real>,
    inStock: bool,
    stockQuantity: real,
    specs: Entries<String>)

  /** `products.find((p) => p._id === id)` */
  function FindProduct(products: seq<Product>, id: String): (r: Option<Product>)
    ensures r.Some? ==> r.value in products && r.value.id == id
    ensures r.None? <==> forall p :: p in products ==> p.id != id
  {
    if products == [] then None
    else if products[0].id == id then Some(products[0])
    else FindProduct(products[1..], id)
  }

  /** `sizePricing?.[size]` when it is truthy: present and not 0. */
  function SizeOverride(sizePricing: Option<Entries<real>>, size: String): (r: Option<real>)
    ensures r.Some? ==> r.value != 0.0 && sizePricing.Some? && Get(sizePricing.value, size) == r
    ensures r.None? ==> sizePricing.None? || Get(sizePricing.value, size) in {None, Some(0.0)}
  {
    if sizePricing.None? then None
    else
      match Get(sizePricing.value, size)
      case None => None
      case Some(v) => if v != 0.0 then Some(v) else None
  }

  /**
   * `product.sizePricing?.[size] || product.price`: the per-size price when
   * it is truthy, otherwise the base price (so an override of 0 falls back).
   */
  function ResolveUnitPrice(p: Product, size: String): (r: real)
    ensures SizeOverride(p.sizePricing, size).Some? ==> r == SizeOverride(p.sizePricing, size).value
    ensures SizeOverride(p.sizePricing, size).None? ==> r == p.price
  {
    SizeOverride(p.sizePricing, size).GetOr(p.price)
  }

  /** A percentage discount: `price * (1 - discount / 100)`. */
  function ApplyDiscount(price: real, discount: real): real {
    price * (1.0 - discount / 100.0)
  }

  /** A discount between 0 and 100% keeps a price between 0 and itself. */
  lemma DiscountBounds(price: real, discount: real)
    requires 0.0 <= discount <= 100.0 && price >= 0.0
    ensures 0.0 <= ApplyDiscount(price, discount) <= price
    ensures discount == 0.0 ==> ApplyDiscount(price, discount) == price
  {
    var d := discount / 100.0;
    assert 0.0 <= d <= 1.0;
    assert price * d >= 0.0;
    assert price * (1.0 - d) >= 0.0;
  }

  /** The cart: productId -> size -> quantity, both levels in insertion order. */
  type Cart = Entries<Entries<int>>

  predicate WellFormedCart(cart: Cart) {
    DistinctKeys(cart) && forall i :: 0 <= i < |cart| ==> DistinctKeys(cart[i].1)
  }

  /** The quantity stored for (id, size), if any. */
  function Quantity(cart: Cart, id: String, size: String): Option<int> {
    match Get(cart, id)
    case None => None
    case Some(sizes) => Get(sizes, size)
  }

  /** One (productId, size, quantity) triple of the cart. */
  datatype CartLine = CartLine(productId: String, size: String, qty: int)

  /** The triples of one product's size map, in key order. */
  function SizeLines(id: String, sizes: Entries<int>): (r: seq<CartLine>)
    ensures |r| == |sizes|
    ensures forall j :: 0 <= j < |r| ==> r[j] == CartLine(id, sizes[j].0, sizes[j].1)
  {
    if sizes == [] then []
    else SizeLines(id, sizes[..|sizes| - 1]) + [CartLine(id, sizes[|sizes| - 1].0, sizes[|sizes| - 1].1)]
  }

  /** One more size entry adds its triple at the end. */
  lemma SizeLinesStep(done0: seq<CartLine>, id: String, sizes: Entries<int>, j: nat)
    requires j < |sizes|
    ensures done0 + SizeLines(id, sizes[..j + 1]) == done0 + SizeLines(id, sizes[..j]) + [CartLine(id, sizes[j].0, sizes[j].1)]
  {
    var next := sizes[..j + 1];
    assert next[..j] == sizes[..j] && next[j] == sizes[j];
    assert SizeLines(id, next) == SizeLines(id, sizes[..j]) + [CartLine(id, sizes[j].0, sizes[j].1)];
  }

  /** Every triple of the cart, product by product, in key order. */
  function Lines(cart: Cart): seq<CartLine> {
    if cart == [] then []
    else Lines(cart[..|cart| - 1]) + SizeLines(cart[|cart| - 1].0, cart[|cart| - 1].1)
  }

  /** A triple is in `Lines(cart)` exactly when the cart stores that quantity at that position. */
  lemma {:induction false} LinesAt(cart: Cart, x: CartLine)
    ensures x in Lines(cart) <==>
      exists i, j :: 0 <= i < |cart| && 0 <= j < |cart[i].1| &&
        x == CartLine(cart[i].0, cart[i].1[j].0, cart[i].1[j].1)
  {
    if cart != [] {
      var n := |cart| - 1;
      var init := cart[..n];
      LinesAt(init, x);
      var tail := SizeLines(cart[n].0, cart[n].1);
      assert Lines(cart) == Lines(init) + tail;
      if x in tail {
        var j :| 0 <= j < |tail| && tail[j] == x;
        assert 0 <= n < |cart| && 0 <= j < |cart[n].1|;
      }
      if x in Lines(init) {
        var i, j :| 0 <= i < |init| && 0 <= j < |init[i].1| &&
          x == CartLine(init[i].0, init[i].1[j].0, init[i].1[j].1);
        assert cart[i] == init[i];
      }
      if exists i, j :: 0 <= i < |cart| && 0 <= j < |cart[i].1| &&
          x == CartLine(cart[i].0, cart[i].1[j].0, cart[i].1[j].1) {
        var i, j :| 0 <= i < |cart| && 0 <= j < |cart[i].1| &&
          x == CartLine(cart[i].0, cart[i].1[j].0, cart[i].1[j].1);
        if i == n {
          assert tail[j] == x;
        } else {
          assert init[i] == cart[i];
        }
      }
    }
  }

  /** In a well-formed cart, `Lines` lists precisely the stored quantities. */
  lemma LinesQuantity(cart: Cart, id: String, size: String, q: int)
    requires WellFormedCart(cart)
    ensures CartLine(id, size, q) in Lines(cart) <==> Quantity(cart, id, size) == Some(q)
  {
    LinesAt(cart, CartLine(id, size, q));
    if CartLine(id, size, q) in Lines(cart) {
      var i, j :| 0 <= i < |cart| && 0 <= j < |cart[i].1| &&
        CartLine(id, size, q) == CartLine(cart[i].0, cart[i].1[j].0, cart[i].1[j].1);
      GetAt(cart, id, cart[i].1);
      GetAt(cart[i].1, size, q);
    }
    if Quantity(cart, id, size) == Some(q) {
      var sizes := Get(cart, id).value;
      GetAt(cart, id, sizes);
      var i :| 0 <= i < |cart| && cart[i] == (id, sizes);
      GetAt(sizes, size, q);
      var j :| 0 <= j < |sizes| && sizes[j] == (size, q);
      assert CartLine(id, size, q) == CartLine(cart[i].0, cart[i].1[j].0, cart[i].1[j].1);
    }
  }

  /** No two triples share an (id, size) pair. */
  predicate DistinctPairs(lines: seq<CartLine>) {
    forall a, b :: 0 <= a < b < |lines| ==>
      (lines[a].productId, lines[a].size) != (lines[b].productId, lines[b].size)
  }

  lemma DistinctInit(lines: seq<CartLine>)
    requires lines != [] && DistinctPairs(lines)
    ensures DistinctPairs(lines[..|lines| - 1])
  {
    var init := lines[..|lines| - 1];
    forall a, b | 0 <= a < b < |init|
      ensures (init[a].productId, init[a].size) != (init[b].productId, init[b].size)
    {
      assert init[a] == lines[a] && init[b] == lines[b];
    }
  }

  lemma LastPairFresh(lines: seq<CartLine>)
    requires lines != [] && DistinctPairs(lines)
    ensures forall y :: y in lines[..|lines| - 1] ==>
      (y.productId, y.size) != (lines[|lines| - 1].productId, lines[|lines| - 1].size)
  {
    var init := lines[..|lines| - 1];
    forall y | y in init
      ensures (y.productId, y.size) != (lines[|lines| - 1].productId, lines[|lines| - 1].size)
    {
      var k :| 0 <= k < |init| && init[k] == y;
      assert lines[k] == y;
    }
  }

  /** In a well-formed cart, no (id, size) pair is listed twice. */
  lemma {:induction false} LinesDistinct(cart: Cart)
    requires WellFormedCart(cart)
    ensures DistinctPairs(Lines(cart))
  {
    if cart != [] {
      var n := |cart| - 1;
      var init := cart[..n];
      assert WellFormedCart(init) by {
        forall i | 0 <= i < |init| ensures DistinctKeys(init[i].1) {
          assert init[i] == cart[i];
        }
      }
      LinesDistinct(init);
      var tail := SizeLines(cart[n].0, cart[n].1);
      var all := Lines(cart);
      assert all == Lines(init) + tail;
      forall a, b | 0 <= a < b < |all|
        ensures (all[a].productId, all[a].size) != (all[b].productId, all[b].size)
      {
        if b >= |Lines(init)| {
          var jb := b - |Lines(init)|;
          assert all[b] == tail[jb];
          if a >= |Lines(init)| {
            var ja := a - |Lines(init)|;
            assert all[a] == tail[ja];
          } else {
            assert all[a] in Lines(init);
            LinesAt(init, all[a]);
            var i, j :| 0 <= i < |init| && 0 <= j < |init[i].1| &&
              all[a] == CartLine(init[i].0, init[i].1[j].0, init[i].1[j].1);
            assert init[i] == cart[i];
            assert cart[i].0 != cart[n].0;
          }
        } else {
          assert all[a] == Lines(init)[a] && all[b] == Lines(init)[b];
        }
      }
    }
  }
}
