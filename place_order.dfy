/**
 * Checkout (PlaceOrder.jsx): the order items assembled from the cart at
 * submit time, the amount sent with the order, what a server reply does to
 * the cart, and the address prefill from the user profile.
 */
module PlaceOrder {
  import opened Wrappers
  import opened Text
  import opened Dict
  import opened Catalog
  import opened CartTotal
  import MiniCartDrawer

  /** `{ ...product, size, quantity, sizePrice }` */
  datatype OrderItem = OrderItem(product: Product, size: String, quantity: int, sizePrice: real)

  /** The order items for a list of cart triples: positive quantities whose product is in the catalog. */
  function OrderItemsOf(lines: seq<CartLine>, products: seq<Product>): seq<OrderItem> {
    if lines == [] then []
    else
      var rest := OrderItemsOf(lines[..|lines| - 1], products);
      var x := lines[|lines| - 1];
      if x.qty > 0 && FindProduct(products, x.productId).Some? then
        var p := FindProduct(products, x.productId).value;
        rest + [OrderItem(p, x.size, x.qty, ResolveUnitPrice(p, x.size))]
      else rest
  }

  /** The nested `forEach` loops of `onSubmitHandler` that push the order items. */
  method AssembleOrderItems(cart: Cart, products: seq<Product>) returns (items: seq<OrderItem>)
    ensures items == OrderItemsOf(Lines(cart), products)
  {
    items := [];
    var i := 0;
    while i < |cart|
      invariant 0 <= i <= |cart|
      invariant items == OrderItemsOf(Lines(cart[..i]), products)
    {
      items := AssembleSizes(items, Lines(cart[..i]), products, cart[i].0, cart[i].1);
      assert cart[..i + 1][..i] == cart[..i];
      assert Lines(cart[..i + 1]) == Lines(cart[..i]) + SizeLines(cart[i].0, cart[i].1);
      i := i + 1;
    }
    assert cart[..i] == cart;
  }

  /** The inner `forEach`: one product's sizes with a positive quantity, when the catalog has it. */
  method AssembleSizes(items0: seq<OrderItem>, ghost done0: seq<CartLine>, products: seq<Product>, id: String, sizes: Entries<int>)
    returns (items: seq<OrderItem>)
    requires items0 == OrderItemsOf(done0, products)
    ensures items == OrderItemsOf(done0 + SizeLines(id, sizes), products)
  {
    items := items0;
    var j := 0;
    assert done0 + SizeLines(id, sizes[..j]) == done0;
    while j < |sizes|
      invariant 0 <= j <= |sizes|
      invariant items == OrderItemsOf(done0 + SizeLines(id, sizes[..j]), products)
    {
      var q := sizes[j].1;
      ghost var done := done0 + SizeLines(id, sizes[..j]);
      SizeLinesStep(done0, id, sizes, j);
      assert (done + [CartLine(id, sizes[j].0, q)])[..|done|] == done;
      if q > 0 {
        var found := FindProduct(products, id);
        if found.Some? {
          var p := found.value;
          items := items + [OrderItem(p, sizes[j].0, q, ResolveUnitPrice(p, sizes[j].0))];
        }
      }
      j := j + 1;
    }
    assert sizes[..j] == sizes;
  }

  lemma {:induction false} OrderItemsAt(lines: seq<CartLine>, products: seq<Product>, it: OrderItem)
    ensures it in OrderItemsOf(lines, products) <==>
      CartLine(it.product.id, it.size, it.quantity) in lines && it.quantity > 0 &&
      FindProduct(products, it.product.id) == Some(it.product) &&
      it.sizePrice == ResolveUnitPrice(it.product, it.size)
  {
    if lines != [] {
      var init := lines[..|lines| - 1];
      OrderItemsAt(init, products, it);
      assert lines == init + [lines[|lines| - 1]];
    }
  }

  /**
   * An order item exists for exactly the (id, size) entries with positive
   * quantity whose product the catalog has; it carries the cart quantity and
   * the resolved unit price.
   */
  lemma OrderItemsExact(cart: Cart, products: seq<Product>, it: OrderItem)
    requires WellFormedCart(cart)
    ensures it in OrderItemsOf(Lines(cart), products) <==>
      Quantity(cart, it.product.id, it.size) == Some(it.quantity) && it.quantity > 0 &&
      FindProduct(products, it.product.id) == Some(it.product) &&
      it.sizePrice == ResolveUnitPrice(it.product, it.size)
    ensures DistinctItems(OrderItemsOf(Lines(cart), products))
  {
    OrderItemsAt(Lines(cart), products, it);
    LinesQuantity(cart, it.product.id, it.size, it.quantity);
    LinesDistinct(cart);
    OrderItemsDistinct(Lines(cart), products);
  }

  /** No two order items are for the same (product, size). */
  predicate DistinctItems(items: seq<OrderItem>) {
    forall a, b :: 0 <= a < b < |items| ==>
      (items[a].product.id, items[a].size) != (items[b].product.id, items[b].size)
  }

  /** Lines without a repeated (id, size) give items without one: one item per entry. */
  lemma {:induction false} OrderItemsDistinct(lines: seq<CartLine>, products: seq<Product>)
    requires DistinctPairs(lines)
    ensures DistinctItems(OrderItemsOf(lines, products))
  {
    if lines != [] {
      var init := lines[..|lines| - 1];
      var x := lines[|lines| - 1];
      DistinctInit(lines);
      OrderItemsDistinct(init, products);
      if x.qty > 0 && FindProduct(products, x.productId).Some? {
        var p := FindProduct(products, x.productId).value;
        var it := OrderItem(p, x.size, x.qty, ResolveUnitPrice(p, x.size));
        assert OrderItemsOf(lines, products) == OrderItemsOf(init, products) + [it];
        LastPairFresh(lines);
        forall y | y in OrderItemsOf(init, products)
          ensures (y.product.id, y.size) != (it.product.id, it.size)
        {
          OrderItemsAt(init, products, y);
        }
        DistinctItemsSnoc(OrderItemsOf(init, products), it);
      } else {
        assert OrderItemsOf(lines, products) == OrderItemsOf(init, products);
      }
    }
  }

  lemma DistinctItemsSnoc(rest: seq<OrderItem>, it: OrderItem)
    requires DistinctItems(rest)
    requires forall y :: y in rest ==> (y.product.id, y.size) != (it.product.id, it.size)
    ensures DistinctItems(rest + [it])
  {
    var r := rest + [it];
    forall a, b | 0 <= a < b < |r|
      ensures (r[a].product.id, r[a].size) != (r[b].product.id, r[b].size)
    {
      assert r[a] == rest[a];
      if b < |rest| {
        assert r[b] == rest[b];
      } else {
        assert rest[a] in rest;
      }
    }
  }

  function OrderItemsTotal(items: seq<OrderItem>): real {
    if items == [] then 0.0
    else OrderItemsTotal(items[..|items| - 1]) + items[|items| - 1].sizePrice * items[|items| - 1].quantity as real
  }

  lemma {:induction false} OrderTotalOfLines(lines: seq<CartLine>, products: seq<Product>)
    requires forall x :: x in lines ==> x.qty >= 0
    ensures OrderItemsTotal(OrderItemsOf(lines, products)) == MiniCartDrawer.SumLineTotals(products, lines)
  {
    if lines != [] {
      var init := lines[..|lines| - 1];
      assert forall x :: x in init ==> x in lines;
      OrderTotalOfLines(init, products);
      var x := lines[|lines| - 1];
      assert x in lines;
      LastLineContribution(lines, products);
    }
  }

  /** The last cart triple adds its line total to the order, whatever it is skipped for. */
  lemma LastLineContribution(lines: seq<CartLine>, products: seq<Product>)
    requires lines != [] && lines[|lines| - 1].qty >= 0
    ensures OrderItemsTotal(OrderItemsOf(lines, products)) ==
      OrderItemsTotal(OrderItemsOf(lines[..|lines| - 1], products)) + MiniCartDrawer.LineTotal(products, lines[|lines| - 1])
  {
    var x := lines[|lines| - 1];
    var rest := OrderItemsOf(lines[..|lines| - 1], products);
    if x.qty > 0 && FindProduct(products, x.productId).Some? {
      var p := FindProduct(products, x.productId).value;
      var it := OrderItem(p, x.size, x.qty, ResolveUnitPrice(p, x.size));
      assert OrderItemsOf(lines, products) == rest + [it];
      OrderItemsTotalSnoc(rest, it);
      assert MiniCartDrawer.LineTotal(products, x) == it.sizePrice * it.quantity as real;
    } else {
      assert OrderItemsOf(lines, products) == rest;
      SkippedLineIsZero(products, x);
    }
  }

  lemma OrderItemsTotalSnoc(rest: seq<OrderItem>, it: OrderItem)
    ensures OrderItemsTotal(rest + [it]) == OrderItemsTotal(rest) + it.sizePrice * it.quantity as real
  {
    assert (rest + [it])[..|rest|] == rest;
  }

  /** A triple the order skips (a zero quantity, or a product the catalog lacks) totals 0 in the drawer too. */
  lemma SkippedLineIsZero(products: seq<Product>, x: CartLine)
    requires x.qty == 0 || FindProduct(products, x.productId).None?
    ensures MiniCartDrawer.LineTotal(products, x) == 0.0
  {
    if x.qty != 0 {
      assert MiniCartDrawer.LinePrice(products, x) == 0.0;
    }
  }

  /**
   * The order items are priced consistently with the subtotal: for a cart
   * without negative quantities their sizePrice × quantity add up to the
   * sum of the drawer's line totals (skipped lines contribute 0 there too).
   */
  lemma OrderItemsMatchSubtotal(cart: Cart, products: seq<Product>)
    requires forall x :: x in Lines(cart) ==> x.qty >= 0
    ensures OrderItemsTotal(OrderItemsOf(Lines(cart), products)) == MiniCartDrawer.Subtotal(cart, products)
  {
    OrderTotalOfLines(Lines(cart), products);
  }

  /** `couponSavings` at submit time: no minimum-purchase gate and no rounding. */
  function OrderSavings(subtotal: real, coupon: Option<AppliedCoupon>): (s: real)
    ensures coupon.None? ==> s == 0.0
    ensures coupon.Some? ==> s == RawSavings(subtotal, coupon.value)
  {
    match coupon
    case None => 0.0
    case Some(c) => RawSavings(subtotal, c)
  }

  /** `finalAmount`: the discounted subtotal (never below 0) plus the fee, empty cart or not. */
  function OrderAmount(subtotal: real, coupon: Option<AppliedCoupon>, deliveryFee: real): (a: real)
    ensures a >= deliveryFee
    ensures OrderSavings(subtotal, coupon) <= subtotal ==> a == subtotal - OrderSavings(subtotal, coupon) + deliveryFee
    ensures OrderSavings(subtotal, coupon) > subtotal ==> a == deliveryFee
  {
    Max(0.0, subtotal - OrderSavings(subtotal, coupon)) + deliveryFee
  }

  /**
   * Where the submitted amount and the displayed total agree: a coupon whose
   * minimum is met (or none) on a non-empty cart with a sensible discount and
   * a subtotal in whole cents gives the same figure up to the half cent the
   * display rounds away.
   */
  lemma {:induction false} AmountMatchesDisplayedTotal(subtotal: real, coupon: Option<AppliedCoupon>, deliveryFee: real)
    requires subtotal > 0.0 && WholeCents(subtotal)
    requires coupon.Some? ==> subtotal >= coupon.value.minPurchase && 0.0 <= coupon.value.discountPercent <= 100.0
    ensures -0.005 <= OrderAmount(subtotal, coupon, deliveryFee) - Summarize(subtotal, coupon, deliveryFee).total <= 0.005
    ensures coupon.None? ==> OrderAmount(subtotal, coupon, deliveryFee) == Summarize(subtotal, coupon, deliveryFee).total
    ensures coupon.Some? && WholeCents(RawSavings(subtotal, coupon.value)) ==>
      OrderAmount(subtotal, coupon, deliveryFee) == Summarize(subtotal, coupon, deliveryFee).total
  {
    if coupon.Some? {
      SavingsWithinSubtotal(subtotal, coupon.value, deliveryFee);
      if WholeCents(RawSavings(subtotal, coupon.value)) {
        Round2Cents(RawSavings(subtotal, coupon.value));
      }
    }
  }

  /** Where they diverge: an empty cart is charged the fee but displayed as 0. */
  lemma EmptyCartDiverges(coupon: Option<AppliedCoupon>, deliveryFee: real)
    requires deliveryFee > 0.0
    ensures Summarize(0.0, coupon, deliveryFee).total == 0.0
    ensures OrderAmount(0.0, coupon, deliveryFee) == deliveryFee
  {
  }

  /** Where they diverge: below the minimum purchase the order is still discounted. */
  lemma BelowMinimumDiverges(deliveryFee: real)
    ensures Summarize(5.0, Some(AppliedCoupon("MIN10", 10.0, 10.0)), deliveryFee).total == 5.0 + deliveryFee
    ensures OrderAmount(5.0, Some(AppliedCoupon("MIN10", 10.0, 10.0)), deliveryFee) == 4.5 + deliveryFee
  {
  }

  /**
   * The submit handler's `couponSavings` and `finalAmount` as evidently
   * intended: the savings only once the coupon's minimum purchase is met,
   * rounded to cents, and no fee for an empty cart.
   */
  function IntendedOrderAmount(subtotal: real, coupon: Option<AppliedCoupon>, deliveryFee: real): real {
    var couponSavings :=
      if coupon.Some? && subtotal >= coupon.value.minPurchase then Round2(OrderSavings(subtotal, coupon)) else 0.0;
    if subtotal == 0.0 then 0.0 else Max(0.0, subtotal - couponSavings) + deliveryFee
  }

  /** The intended amount is the figure the customer was shown, for every cart and coupon. */
  lemma IntendedAmountIsDisplayed(subtotal: real, coupon: Option<AppliedCoupon>, deliveryFee: real)
    ensures IntendedOrderAmount(subtotal, coupon, deliveryFee) == Summarize(subtotal, coupon, deliveryFee).total
    ensures subtotal < 0.0 || coupon.None? || subtotal >= coupon.value.minPurchase ||
            IntendedOrderAmount(subtotal, coupon, deliveryFee) == Total(subtotal, 0.0, deliveryFee)
  {
    var shown := Summarize(subtotal, coupon, deliveryFee);
    if coupon.Some? && subtotal >= coupon.value.minPurchase {
      assert Round2(OrderSavings(subtotal, coupon)) == CouponSavings(subtotal, coupon);
    } else {
      assert CouponSavings(subtotal, coupon) == 0.0;
    }
  }

  /** Where the as-written amount is already right: a non-empty cart without a coupon. */
  lemma IntendedAgreesWithoutCoupon(subtotal: real, deliveryFee: real)
    requires subtotal != 0.0
    ensures IntendedOrderAmount(subtotal, None, deliveryFee) == OrderAmount(subtotal, None, deliveryFee)
  {
  }

  /** The reply of `/api/order/place`: a success flag, or a thrown request error. */
  datatype PlaceReply = Placed | Rejected(message: String) | RequestFailed

  /** The cart clears only when the server reports success; any other outcome leaves it as it was. */
  function CartAfterSubmit(cart: Cart, reply: PlaceReply): (r: Cart)
    ensures reply.Placed? ==> r == []
    ensures !reply.Placed? ==> r == cart
  {
    if reply.Placed? then [] else cart
  }

  /** The checkout form. */
  datatype AddressForm = AddressForm(
    firstName: String, lastName: String, email: String,
    street: String, city: String, state: String, zipcode: String, country: String,
    phone: String)

  /** The profile fields the prefill reads; a missing field is "". */
  datatype Profile = Profile(
    name: String, email: String, phone: String,
    deliveryStreet: String, deliveryCity: String, deliveryState: String,
    deliveryZipcode: String, deliveryCountry: String)

  function Or(a: String, b: String): String {
    if a != "" then a else b
  }

  /** `applyAddressFromProfile(source, prev)` */
  function ApplyAddressFromProfile(user: Profile, prev: AddressForm): (r: AddressForm)
    ensures prev.firstName != "" ==> r.firstName == prev.firstName
    ensures prev.lastName != "" ==> r.lastName == prev.lastName
    ensures prev.email != "" ==> r.email == prev.email
    ensures prev.phone != "" ==> r.phone == prev.phone
    ensures prev.firstName == "" ==> r.firstName == Split(user.name, ' ')[0]
    ensures prev.lastName == "" ==> r.lastName == Join(Split(user.name, ' ')[1..], " ")
    ensures prev.email == "" ==> r.email == user.email
    ensures prev.phone == "" ==> r.phone == user.phone
    ensures r.street == user.deliveryStreet && r.city == user.deliveryCity && r.state == user.deliveryState
    ensures r.zipcode == user.deliveryZipcode && r.country == user.deliveryCountry
  {
    var parts := Split(user.name, ' ');
    prev.(
      firstName := Or(prev.firstName, parts[0]),
      lastName := Or(prev.lastName, Join(parts[1..], " ")),
      email := Or(prev.email, user.email),
      phone := Or(prev.phone, user.phone),
      street := user.deliveryStreet,
      city := user.deliveryCity,
      state := user.deliveryState,
      zipcode := user.deliveryZipcode,
      country := user.deliveryCountry)
  }

  /**
   * On an empty name form the prefill splits the profile name at its first
   * space: the first word becomes firstName, the remaining words (joined by
   * single spaces, as written) become lastName, and nothing is lost.
   */
  lemma PrefillSplitsName(user: Profile, prev: AddressForm)
    requires prev.firstName == "" && prev.lastName == ""
    ensures ' ' !in ApplyAddressFromProfile(user, prev).firstName
    ensures ' ' in user.name ==>
      ApplyAddressFromProfile(user, prev).firstName + " " + ApplyAddressFromProfile(user, prev).lastName == user.name
    ensures ' ' !in user.name ==>
      ApplyAddressFromProfile(user, prev).firstName == user.name && ApplyAddressFromProfile(user, prev).lastName == ""
  {
    var parts := Split(user.name, ' ');
    if ' ' in user.name {
      JoinSplitHead(user.name, ' ');
    } else {
      SplitWithout(user.name, ' ');
    }
  }
}
