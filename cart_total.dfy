/**
 * The cart totals box (CartTotal.jsx): coupon savings gated on the coupon's
 * minimum purchase and rounded to cents, the delivery fee waived for an
 * empty cart, and the rows it chooses to show. The subtotal is an input.
 */
module CartTotal {
  import opened Wrappers
  import opened Text

  /** The coupon the shop context holds once the server has accepted a code (`minPurchase` missing = 0). */
  datatype AppliedCoupon = AppliedCoupon(code: String, discountPercent: real, minPurchase: real)

  function Max(a: real, b: real): real {
    if a >= b then a else b
  }

  /** A whole number of cents. */
  predicate WholeCents(x: real) {
    (x * 100.0).Floor as real == x * 100.0
  }

  /**
   * `Number(x.toFixed(2))` on the exact value: the nearest whole cent,
   * halves rounded away from zero.
   */
  function Round2(x: real): (r: real)
    ensures WholeCents(r)
    ensures -0.005 <= r - x <= 0.005
    ensures x >= 0.0 ==> -0.005 < r - x
    ensures x < 0.0 ==> r - x < 0.005
  {
    if x >= 0.0 then RoundHalfUp(x)
    else
      var h := RoundHalfUp(-x);
      NegatedCents(h);
      -h
  }

  /** The negation of a whole number of cents is one too. */
  lemma NegatedCents(h: real)
    requires WholeCents(h)
    ensures WholeCents(-h)
  {
    var n := (h * 100.0).Floor;
    var m := -n;
    assert h * 100.0 == n as real;
    assert (-h) * 100.0 == -(h * 100.0);
    assert (-h) * 100.0 == m as real;
    assert (m as real).Floor == m;
  }

  /** The nearest cent of a non-negative amount, halves rounded up. */
  function RoundHalfUp(y: real): (r: real)
    requires y >= 0.0
    ensures WholeCents(r)
    ensures -0.005 < r - y <= 0.005
  {
    var n := (y * 100.0 + 0.5).Floor;
    assert n as real <= y * 100.0 + 0.5 < n as real + 1.0;
    var r := n as real / 100.0;
    assert r * 100.0 == n as real;
    assert (r * 100.0).Floor == n;
    r
  }

  /** A value already in whole cents is left as it is. */
  lemma Round2Cents(x: real)
    requires WholeCents(x)
    ensures Round2(x) == x
  {
    var n := (x * 100.0).Floor;
    if x >= 0.0 {
      assert (x * 100.0 + 0.5).Floor == n;
    } else {
      assert (-x * 100.0 + 0.5).Floor == -n;
    }
  }

  /** Rounding to cents keeps the order of non-negative amounts. */
  lemma Round2Monotone(x: real, y: real)
    requires 0.0 <= x <= y
    ensures Round2(x) <= Round2(y)
  {
    assert (x * 100.0 + 0.5).Floor <= (y * 100.0 + 0.5).Floor;
  }

  /** The discount before rounding: `(discountPercent / 100) * subtotal`. */
  function RawSavings(subtotal: real, c: AppliedCoupon): real {
    c.discountPercent / 100.0 * subtotal
  }

  /**
   * `couponSavings`: 0 without a coupon or below its minimum purchase (the
   * coupon stays held); otherwise the discount rounded to cents.
   */
  function CouponSavings(subtotal: real, coupon: Option<AppliedCoupon>): (s: real)
    ensures coupon.None? ==> s == 0.0
    ensures coupon.Some? && subtotal < coupon.value.minPurchase ==> s == 0.0
    ensures coupon.Some? && subtotal >= coupon.value.minPurchase ==>
      WholeCents(s) && -0.005 <= s - RawSavings(subtotal, coupon.value) <= 0.005
  {
    match coupon
    case None => 0.0
    case Some(c) => if subtotal >= c.minPurchase then Round2(RawSavings(subtotal, c)) else 0.0
  }

  /** `total`: 0 for an empty cart, otherwise the discounted subtotal (never below 0) plus the fee. */
  function Total(subtotal: real, savings: real, deliveryFee: real): (t: real)
    ensures subtotal == 0.0 ==> t == 0.0
    ensures subtotal != 0.0 ==> t >= deliveryFee
    ensures subtotal != 0.0 && savings <= subtotal ==> t == subtotal - savings + deliveryFee
    ensures subtotal != 0.0 && savings > subtotal ==> t == deliveryFee
  {
    if subtotal == 0.0 then 0.0 else Max(0.0, subtotal - savings) + deliveryFee
  }

  /** The amount in the "Shipping Fee" row. */
  function ShippingShown(subtotal: real, deliveryFee: real): (r: real)
    ensures subtotal == 0.0 ==> r == 0.0
    ensures subtotal != 0.0 ==> r == deliveryFee
  {
    if subtotal == 0.0 then 0.0 else deliveryFee
  }

  /** The coupon row is rendered only for positive savings. */
  predicate ShowsSavingsRow(savings: real) {
    savings > 0.0
  }

  /** The free-delivery notice is rendered for a subtotal over 50. */
  predicate ShowsFreeDeliveryNotice(subtotal: real) {
    subtotal > 50.0
  }

  /** The totals box as a whole: what CartTotal renders for one subtotal. */
  datatype Summary = Summary(savings: real, shipping: real, total: real, savingsRow: bool, freeDeliveryNotice: bool)

  function Summarize(subtotal: real, coupon: Option<AppliedCoupon>, deliveryFee: real): Summary {
    var s := CouponSavings(subtotal, coupon);
    Summary(s, ShippingShown(subtotal, deliveryFee), Total(subtotal, s, deliveryFee),
            ShowsSavingsRow(s), ShowsFreeDeliveryNotice(subtotal))
  }

  /**
   * The coupon row appears only for a coupon whose minimum the subtotal
   * meets, and it does appear once the discount is worth a cent.
   */
  lemma SavingsRowNeedsQualifyingCoupon(subtotal: real, coupon: Option<AppliedCoupon>, deliveryFee: real)
    ensures Summarize(subtotal, coupon, deliveryFee).savingsRow ==>
      coupon.Some? && subtotal >= coupon.value.minPurchase
    ensures coupon.Some? && subtotal >= coupon.value.minPurchase && RawSavings(subtotal, coupon.value) >= 0.01 ==>
      Summarize(subtotal, coupon, deliveryFee).savingsRow
  {
  }

  /** An empty cart totals 0 and shows free shipping, whatever coupon is held. */
  lemma EmptyCartTotalsZero(coupon: Option<AppliedCoupon>, deliveryFee: real)
    ensures Summarize(0.0, coupon, deliveryFee).total == 0.0
    ensures Summarize(0.0, coupon, deliveryFee).shipping == 0.0
  {
  }

  /**
   * With a discount between 0 and 100 percent the unrounded savings lie in
   * [0, subtotal]; for a subtotal in whole cents the rounded savings do too,
   * so the `Math.max(0, …)` floor never changes the total.
   */
  lemma {:induction false} SavingsWithinSubtotal(subtotal: real, c: AppliedCoupon, deliveryFee: real)
    requires 0.0 <= c.discountPercent <= 100.0 && subtotal >= 0.0
    ensures 0.0 <= RawSavings(subtotal, c) <= subtotal
    ensures WholeCents(subtotal) ==>
      0.0 <= CouponSavings(subtotal, Some(c)) <= subtotal &&
      (subtotal != 0.0 ==> Total(subtotal, CouponSavings(subtotal, Some(c)), deliveryFee)
                             == subtotal - CouponSavings(subtotal, Some(c)) + deliveryFee)
  {
    RawSavingsBounds(subtotal, c);
    if WholeCents(subtotal) && subtotal >= c.minPurchase {
      RoundedBetween(RawSavings(subtotal, c), subtotal);
    }
  }

  lemma RawSavingsBounds(subtotal: real, c: AppliedCoupon)
    requires 0.0 <= c.discountPercent <= 100.0 && subtotal >= 0.0
    ensures 0.0 <= RawSavings(subtotal, c) <= subtotal
  {
    var d := c.discountPercent;
    NonNegativeProduct(d, subtotal);
    NonNegativeProduct(100.0 - d, subtotal);
    assert RawSavings(subtotal, c) == (d * subtotal) / 100.0;
  }

  /** Rounding an amount between 0 and a whole-cent bound keeps it between them. */
  lemma RoundedBetween(raw: real, bound: real)
    requires 0.0 <= raw <= bound && WholeCents(bound)
    ensures 0.0 <= Round2(raw) <= bound
  {
    Round2Monotone(0.0, raw);
    Round2Monotone(raw, bound);
    Round2Cents(bound);
    Round2Cents(0.0);
  }

  lemma NonNegativeProduct(a: real, b: real)
    requires a >= 0.0 && b >= 0.0
    ensures a * b >= 0.0
  {
  }

  /**
   * Above the threshold the free-delivery notice is shown, yet the fee is
   * still part of the total.
   */
  lemma FreeDeliveryNoticeStillCharges(subtotal: real, coupon: Option<AppliedCoupon>, deliveryFee: real)
    requires subtotal > 50.0
    ensures Summarize(subtotal, coupon, deliveryFee).freeDeliveryNotice
    ensures Summarize(subtotal, coupon, deliveryFee).total >= deliveryFee
    ensures Summarize(subtotal, coupon, deliveryFee).shipping == deliveryFee
  {
  }

  /** The worked figures: 10% with minimum 10 gives nothing on 5 and 2.00 on 20; SAVE10 on 100 totals 90 plus the fee. */
  lemma CouponExamples(deliveryFee: real)
    ensures CouponSavings(5.0, Some(AppliedCoupon("MIN10", 10.0, 10.0))) == 0.0
    ensures CouponSavings(20.0, Some(AppliedCoupon("MIN10", 10.0, 10.0))) == 2.0
    ensures CouponSavings(100.0, Some(AppliedCoupon("SAVE10", 10.0, 0.0))) == 10.0
    ensures Total(100.0, 10.0, deliveryFee) == 90.0 + deliveryFee
  {
    Round2Cents(2.0);
    Round2Cents(10.0);
  }
}
