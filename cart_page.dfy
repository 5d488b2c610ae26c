/**
 * The shopping bag page (Cart.jsx): the list of cart entries it shows, the
 * card price of each entry, the quantity steppers, the coupon panel and the
 * checkout button.
 */
module CartPage {
  import opened Wrappers
  import opened Text
  import opened Dict
  import opened Catalog
  import opened CartTotal
  import MiniCartDrawer
  import PlaceOrder

  /** The triples with a positive quantity, in order. */
  function Positive(lines: seq<CartLine>): (r: seq<CartLine>)
    ensures |r| <= |lines|
    ensures forall x :: x in r <==> x in lines && x.qty > 0
  {
    if lines == [] then []
    else
      var rest := Positive(lines[..|lines| - 1]);
      var x := lines[|lines| - 1];
      assert lines == lines[..|lines| - 1] + [x];
      if x.qty > 0 then rest + [x] else rest
  }

  lemma PositiveAppend(done: seq<CartLine>, x: CartLine)
    ensures Positive(done + [x]) == if x.qty > 0 then Positive(done) + [x] else Positive(done)
  {
    assert (done + [x])[..|done|] == done;
  }

  /** The nested `for … in` loops of the `cartData` effect. */
  method CollectCartData(cart: Cart) returns (temp: seq<CartLine>)
    ensures temp == Positive(Lines(cart))
  {
    temp := [];
    var i := 0;
    while i < |cart|
      invariant 0 <= i <= |cart|
      invariant temp == Positive(Lines(cart[..i]))
    {
      temp := CollectSizes(temp, Lines(cart[..i]), cart[i].0, cart[i].1);
      assert cart[..i + 1][..i] == cart[..i];
      assert Lines(cart[..i + 1]) == Lines(cart[..i]) + SizeLines(cart[i].0, cart[i].1);
      i := i + 1;
    }
    assert cart[..i] == cart;
  }

  /** The inner loop: one product's sizes with a positive quantity appended, in key order. */
  method CollectSizes(temp0: seq<CartLine>, ghost done0: seq<CartLine>, id: String, sizes: Entries<int>) returns (temp: seq<CartLine>)
    requires temp0 == Positive(done0)
    ensures temp == Positive(done0 + SizeLines(id, sizes))
  {
    temp := temp0;
    var j := 0;
    assert done0 + SizeLines(id, sizes[..j]) == done0;
    while j < |sizes|
      invariant 0 <= j <= |sizes|
      invariant temp == Positive(done0 + SizeLines(id, sizes[..j]))
    {
      ghost var done := done0 + SizeLines(id, sizes[..j]);
      var line := CartLine(id, sizes[j].0, sizes[j].1);
      SizeLinesStep(done0, id, sizes, j);
      PositiveAppend(done, line);
      if sizes[j].1 > 0 {
        temp := temp + [line];
      }
      j := j + 1;
    }
    assert sizes[..j] == sizes;
  }

  lemma {:induction false} PositiveDistinct(lines: seq<CartLine>)
    requires DistinctPairs(lines)
    ensures DistinctPairs(Positive(lines))
  {
    if lines != [] {
      var init := lines[..|lines| - 1];
      DistinctInit(lines);
      PositiveDistinct(init);
      if lines[|lines| - 1].qty > 0 {
        LastPairFresh(lines);
        DistinctSnoc(Positive(init), lines[|lines| - 1]);
      }
    }
  }

  lemma DistinctSnoc(rest: seq<CartLine>, x: CartLine)
    requires DistinctPairs(rest)
    requires forall y :: y in rest ==> (y.productId, y.size) != (x.productId, x.size)
    ensures DistinctPairs(rest + [x])
  {
    var r := rest + [x];
    forall a, b | 0 <= a < b < |r|
      ensures (r[a].productId, r[a].size) != (r[b].productId, r[b].size)
    {
      assert r[a] == rest[a];
      if b < |rest| {
        assert r[b] == rest[b];
      } else {
        assert rest[a] in rest;
      }
    }
  }

  /**
   * What the page lists for a well-formed cart: every stored positive
   * quantity, each (product, size) once.
   */
  lemma CartDataExact(cart: Cart, id: String, size: String, q: int)
    requires WellFormedCart(cart)
    ensures CartLine(id, size, q) in Positive(Lines(cart)) <==> q > 0 && Quantity(cart, id, size) == Some(q)
    ensures DistinctPairs(Positive(Lines(cart)))
  {
    LinesQuantity(cart, id, size, q);
    LinesDistinct(cart);
    PositiveDistinct(Lines(cart));
  }

  /** The checkout button is disabled exactly when no entry has a positive quantity. */
  lemma {:induction false} NothingToCheckout(lines: seq<CartLine>)
    ensures |Positive(lines)| == 0 <==> forall x :: x in lines ==> x.qty <= 0
  {
    if |Positive(lines)| != 0 {
      assert Positive(lines)[0] in Positive(lines);
    }
  }

  /** The page state that the source keeps with `useState`. */
  class CartView {
    var cartData: seq<CartLine>
    var couponCode: String

    constructor()
      ensures cartData == [] && couponCode == ""
    {
      cartData := [];
      couponCode := "";
    }

    /** The effect on `[cartItems, products]`: rebuilt only once the catalog has loaded. */
    method Refresh(cart: Cart, products: seq<Product>)
      modifies this`cartData
      ensures |products| > 0 ==> cartData == Positive(Lines(cart))
      ensures |products| == 0 ==> cartData == old(cartData)
      ensures |products| > 0 ==> (CheckoutDisabled() <==> forall x :: x in Lines(cart) ==> x.qty <= 0)
    {
      if |products| > 0 {
        var temp := CollectCartData(cart);
        cartData := temp;
        NothingToCheckout(Lines(cart));
      }
    }

    /** Typing in the promo input, which is disabled while a coupon is applied. */
    method EditCouponCode(typed: String, applied: Option<AppliedCoupon>)
      modifies this`couponCode
      ensures applied.None? ==> couponCode == typed
      ensures applied.Some? ==> couponCode == old(couponCode)
    {
      if applied.None? {
        couponCode := typed;
      }
    }

    /** `disabled={cartData.length === 0}` on "Secure Checkout" */
    predicate CheckoutDisabled()
      reads this
    {
      |cartData| == 0
    }
  }

  /**
   * The card price `productData.sizePricing?.[item.size] || productData.price`.
   * `None` when the entry's product is not in the catalog: the page then
   * reads a field of `undefined` and the render throws.
   */
  function ItemPrice(products: seq<Product>, item: CartLine): (r: Option<real>)
    ensures r.None? <==> FindProduct(products, item.productId).None?
  {
    match FindProduct(products, item.productId)
    case None => None
    case Some(p) => Some(ResolveUnitPrice(p, item.size))
  }

  /**
   * The bag, the drawer and the order agree on an entry's unit price
   * whenever its product is in the catalog.
   */
  lemma ItemPriceAgrees(products: seq<Product>, item: CartLine)
    requires FindProduct(products, item.productId).Some?
    ensures ItemPrice(products, item) == Some(MiniCartDrawer.LinePrice(products, item))
    ensures item.qty > 0 ==>
      PlaceOrder.OrderItemsOf([item], products)[0].sizePrice == ItemPrice(products, item).value
  {
    assert [item][..0] == [];
  }

  /** The minus button: `item.quantity > 1 && updateQuantity(…, item.quantity - 1)`. */
  function MinusRequest(qty: int): (r: Option<int>)
    ensures r.Some? <==> qty > 1
    ensures r.Some? ==> r.value == qty - 1 && r.value >= 1
  {
    if qty > 1 then Some(qty - 1) else None
  }

  /**
   * The plus button sends `item.quantity + 1` (the drawer's
   * `IncrementRequest`), and the bag's minus button takes it back.
   */
  lemma PlusThenMinus(qty: int)
    requires qty >= 1
    ensures MinusRequest(MiniCartDrawer.IncrementRequest(qty)) == Some(qty)
    ensures qty > 1 ==> MiniCartDrawer.IncrementRequest(MinusRequest(qty).value) == qty
  {
  }

  /**
   * The bag's minus button and the drawer's agree above 1; at 1 the drawer
   * still sends an update to 1, while the bag sends nothing.
   */
  lemma MinusAgreesWithDrawer(qty: int)
    ensures qty > 1 ==> MinusRequest(qty) == Some(MiniCartDrawer.DecrementRequest(qty))
    ensures qty == 1 ==> MinusRequest(qty).None? && MiniCartDrawer.DecrementRequest(qty) == qty
  {
  }

  /** What the promo panel shows. */
  datatype CouponPanel = CouponPanel(inputDisabled: bool, removeButton: bool, applyButton: bool, messageIsSuccess: bool)

  function CouponPanelFor(applied: Option<AppliedCoupon>): (r: CouponPanel)
    ensures r.applyButton != r.removeButton
    ensures r.inputDisabled <==> r.removeButton
    ensures r.removeButton <==> applied.Some?
    ensures r.messageIsSuccess <==> applied.Some?
  {
    CouponPanel(applied.Some?, applied.Some?, applied.None?, applied.Some?)
  }
}
