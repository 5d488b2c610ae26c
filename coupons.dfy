/**
 * The admin coupon page (admin/src/pages/Coupons.jsx): the create form with
 * its input normalisation, the payload it posts, the reset after a created
 * coupon, the list with its remove filter, and the table cells.
 */
module Coupons {
  import opened Wrappers
  import opened Text
  import opened Seqs

  /** A coupon as the list endpoint returns it. */
  datatype Coupon = Coupon(id: String, code: String, discountPercent: real, minPurchase: Option<real>,
                           expiresAt: Option<String>, usageLimit: Option<int>, usageCount: Option<int>,
                           active: bool)

  /** `Math.max(1, Math.min(100, n))`: the discount input kept within 1..100. */
  function ClampDiscount(n: real): (r: real)
    ensures 1.0 <= r <= 100.0
    ensures 1.0 <= n <= 100.0 ==> r == n
    ensures n < 1.0 ==> r == 1.0
    ensures n > 100.0 ==> r == 100.0
  {
    if n > 100.0 then 100.0 else if n < 1.0 then 1.0 else n
  }

  /** `Math.max(0, n)`: the minimum-purchase input never negative. */
  function ClampMinPurchase(n: real): (r: real)
    ensures r >= 0.0
    ensures n >= 0.0 ==> r == n
    ensures n < 0.0 ==> r == 0.0
  {
    if n >= 0.0 then n else 0.0
  }

  /** Entering an already-normalised value again changes nothing. */
  lemma ClampsIdempotent(n: real)
    ensures ClampDiscount(ClampDiscount(n)) == ClampDiscount(n)
    ensures ClampMinPurchase(ClampMinPurchase(n)) == ClampMinPurchase(n)
  {
  }

  /** The body of the create request: empty expiry and limit are left out (`|| undefined`). */
  datatype Payload = Payload(code: String, discountPercent: real, minPurchase: real,
                             expiresAt: Option<String>, usageLimit: Option<String>)

  function Optional(s: String): (r: Option<String>)
    ensures r.None? <==> s == ""
    ensures r.Some? ==> r.value == s
  {
    if s == "" then None else Some(s)
  }

  /** `prev.filter((c) => c._id !== id)` as a test. */
  function NotCoupon(id: String): Coupon -> bool {
    (c: Coupon) => c.id != id
  }

  /** The list after a confirmed removal: exactly the other coupons, in their order. */
  function WithoutCoupon(coupons: seq<Coupon>, id: String): (r: seq<Coupon>)
    ensures forall c :: c in r <==> c in coupons && c.id != id
    ensures Subseq(r, coupons)
    ensures |r| <= |coupons|
  {
    FilterSubseq(coupons, NotCoupon(id));
    Filter(coupons, NotCoupon(id))
  }

  /** Removing an id no coupon has keeps the list; removing twice is removing once. */
  lemma WithoutCouponProperties(coupons: seq<Coupon>, id: String)
    ensures (forall c :: c in coupons ==> c.id != id) ==> WithoutCoupon(coupons, id) == coupons
    ensures WithoutCoupon(WithoutCoupon(coupons, id), id) == WithoutCoupon(coupons, id)
  {
    if forall c :: c in coupons ==> c.id != id {
      FilterAll(coupons, NotCoupon(id));
    }
    FilterAll(WithoutCoupon(coupons, id), NotCoupon(id));
  }

  /** The usage cell: "count/limit" when a limit is set, else the infinity mark. */
  datatype UsageCell = CountOf(count: int, limit: int) | Unlimited

  /** `c.usageLimit ? `${c.usageCount || 0}/${c.usageLimit}` : "∞"` */
  function UsageShown(c: Coupon): (r: UsageCell)
    ensures r.Unlimited? <==> c.usageLimit.None? || c.usageLimit.value == 0
    ensures r.CountOf? ==> r.limit == c.usageLimit.value
    ensures r.CountOf? && c.usageCount.None? ==> r.count == 0
    ensures r.CountOf? && c.usageCount.Some? ==> r.count == c.usageCount.value
  {
    match c.usageLimit
    case Some(l) => if l != 0 then CountOf(c.usageCount.GetOr(0), l) else Unlimited
    case None => Unlimited
  }

  /** `c.minPurchase || 0` */
  function MinPurchaseShown(c: Coupon): (r: real)
    ensures c.minPurchase.None? ==> r == 0.0
    ensures c.minPurchase.Some? ==> r == c.minPurchase.value
  {
    c.minPurchase.GetOr(0.0)
  }

  /** The page's state: the form fields, the list, and the saving flag. */
  class CouponPage {
    var code: String
    var discountPercent: real
    var minPurchase: real
    var expiresAt: String
    var usageLimit: String
    var coupons: seq<Coupon>
    var loading: bool

    /** The form's initial values, which a created coupon also restores. */
    predicate Blank()
      reads this
    {
      code == "" && discountPercent == 10.0 && minPurchase == 0.0 && expiresAt == "" && usageLimit == ""
    }

    /** The inputs keep the form within range once an edit has gone through them. */
    predicate InRange()
      reads this
    {
      1.0 <= discountPercent <= 100.0 && minPurchase >= 0.0
    }

    constructor ()
      ensures Blank() && InRange()
      ensures coupons == [] && !loading
    {
      code := "";
      discountPercent := 10.0;
      minPurchase := 0.0;
      expiresAt := "";
      usageLimit := "";
      coupons := [];
      loading := false;
    }

    /** The code input upper-cases what is typed. */
    method EditCode(value: String)
      modifies this`code
      ensures code == Upper(value)
    {
      code := Upper(value);
    }

    /** The discount input, `Number(value)` standing for the typed number. */
    method EditDiscount(n: real)
      modifies this`discountPercent
      requires InRange()
      ensures discountPercent == ClampDiscount(n)
      ensures InRange()
    {
      discountPercent := ClampDiscount(n);
    }

    method EditMinPurchase(n: real)
      modifies this`minPurchase
      requires InRange()
      ensures minPurchase == ClampMinPurchase(n)
      ensures InRange()
    {
      minPurchase := ClampMinPurchase(n);
    }

    method EditExpiresAt(value: String)
      modifies this`expiresAt
      ensures expiresAt == value
    {
      expiresAt := value;
    }

    method EditUsageLimit(value: String)
      modifies this`usageLimit
      ensures usageLimit == value
    {
      usageLimit := value;
    }

    /** What `onCreate` posts. */
    function CreatePayload(): (p: Payload)
      reads this
      ensures p.code == code && p.discountPercent == discountPercent && p.minPurchase == minPurchase
      ensures p.expiresAt.None? <==> expiresAt == ""
      ensures p.usageLimit.None? <==> usageLimit == ""
    {
      Payload(code, discountPercent, minPurchase, Optional(expiresAt), Optional(usageLimit))
    }

    /**
     * `onCreate` once the server has answered: a created coupon resets the
     * form; a refusal or an error keeps it. Either way saving ends.
     * The list is re-fetched afterwards, by `Fetched`.
     */
    method Created(success: bool)
      modifies this
      requires InRange()
      ensures success ==> Blank()
      ensures !success ==> (code == old(code) && discountPercent == old(discountPercent) &&
                            minPurchase == old(minPurchase) && expiresAt == old(expiresAt) &&
                            usageLimit == old(usageLimit))
      ensures coupons == old(coupons) && !loading && InRange()
    {
      if success {
        code := "";
        discountPercent := 10.0;
        minPurchase := 0.0;
        expiresAt := "";
        usageLimit := "";
      }
      loading := false;
    }

    /** `fetchCoupons`: on success the list is replaced (`|| []`); otherwise it is kept. */
    method Fetched(success: bool, list: Option<seq<Coupon>>)
      modifies this`coupons
      ensures success ==> coupons == list.GetOr([])
      ensures !success ==> coupons == old(coupons)
    {
      if success {
        coupons := list.GetOr([]);
      }
    }

    /**
     * `onRemove`: nothing happens unless the dialog is confirmed; the list
     * loses the coupon only once the server reports success.
     */
    method Remove(id: String, confirmed: bool, success: bool)
      modifies this`coupons
      ensures confirmed && success ==> coupons == WithoutCoupon(old(coupons), id)
      ensures !(confirmed && success) ==> coupons == old(coupons)
    {
      if !confirmed {
        return;
      }
      if success {
        coupons := WithoutCoupon(coupons, id);
      }
    }
  }

  /** A round of edits: whatever is typed, the payload's discount lies in 1..100 and its minimum is not negative. */
  method EditedPayload(typedCode: String, typedDiscount: real, typedMin: real) returns (p: Payload)
    ensures p.code == Upper(typedCode)
    ensures 1.0 <= p.discountPercent <= 100.0 && p.minPurchase >= 0.0
    ensures p.expiresAt.None? && p.usageLimit.None?
  {
    var page := new CouponPage();
    page.EditCode(typedCode);
    page.EditDiscount(typedDiscount);
    page.EditMinPurchase(typedMin);
    p := page.CreatePayload();
  }
}
