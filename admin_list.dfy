/**
 * The admin product list (admin List.jsx): `normalizePricing`, which turns a
 * pricing document's size list into a `sizePricing` dictionary, and the
 * per-size prices the list shows.
 */
module AdminList {
  import opened Wrappers
  import opened Text
  import opened Dict
  import opened Catalog

  /** The `size` of every entry of `pricingId.sizes`, in order. */
  function SizesOf(ss: seq<SizePrice>): (r: seq<String>)
    ensures |r| == |ss|
    ensures forall i :: 0 <= i < |ss| ==> r[i] == ss[i].size
  {
    if ss == [] then [] else SizesOf(ss[..|ss| - 1]) + [ss[|ss| - 1].size]
  }

  /** `sizePricing[sizeObj.size] = sizeObj.price` for each entry in turn, from `{}`. */
  function PricingDict(ss: seq<SizePrice>): Entries<real> {
    if ss == [] then []
    else Put(PricingDict(ss[..|ss| - 1]), ss[|ss| - 1].size, ss[|ss| - 1].price)
  }

  /** The dictionary's keys are the sizes, each once, in the order first listed. */
  lemma {:induction false} PricingDictKeys(ss: seq<SizePrice>)
    ensures Keys(PricingDict(ss)) == SeenOrder(SizesOf(ss))
  {
    if ss != [] {
      var n := |ss| - 1;
      PricingDictKeys(ss[..n]);
      PutKeys(PricingDict(ss[..n]), ss[n].size, ss[n].price);
      assert SizesOf(ss)[..n] == SizesOf(ss[..n]);
    }
  }

  /** Entry `i` lists size `s` at price `v`, and no later entry lists `s`. */
  predicate LastEntry(ss: seq<SizePrice>, i: int, s: String, v: real) {
    0 <= i < |ss| && ss[i] == SizePrice(s, v) && forall j :: i < j < |ss| ==> ss[j].size != s
  }

  /** The dictionary after one more entry. */
  lemma PricingDictStep(ss: seq<SizePrice>, s: String)
    requires ss != []
    ensures ss[|ss| - 1].size == s ==> Get(PricingDict(ss), s) == Some(ss[|ss| - 1].price)
    ensures ss[|ss| - 1].size != s ==> Get(PricingDict(ss), s) == Get(PricingDict(ss[..|ss| - 1]), s)
  {
  }

  /**
   * A size's price is the one of its LAST entry: a size listed twice keeps
   * the later price.
   */
  lemma {:induction false} PricingDictLastWins(ss: seq<SizePrice>, i: int, s: String, v: real)
    requires LastEntry(ss, i, s, v)
    ensures Get(PricingDict(ss), s) == Some(v)
  {
    var n := |ss| - 1;
    if i == n {
      PricingDictStep(ss, s);
    } else {
      LastEntryShrink(ss, i, s, v);
      PricingDictLastWins(ss[..n], i, s, v);
      PricingDictStep(ss, s);
    }
  }

  /** A last entry that is not the final one is still the last entry once the final one is dropped. */
  lemma LastEntryShrink(ss: seq<SizePrice>, i: int, s: String, v: real)
    requires LastEntry(ss, i, s, v) && i < |ss| - 1
    ensures ss[|ss| - 1].size != s
    ensures LastEntry(ss[..|ss| - 1], i, s, v)
  {
    var init := ss[..|ss| - 1];
    assert init[i] == ss[i];
    forall j | i < j < |init|
      ensures init[j].size != s
    {
      assert init[j] == ss[j];
    }
  }

  lemma LastEntryExtend(ss: seq<SizePrice>, i: int, s: String, v: real)
    requires ss != [] && LastEntry(ss[..|ss| - 1], i, s, v) && ss[|ss| - 1].size != s
    ensures LastEntry(ss, i, s, v)
  {
    var init := ss[..|ss| - 1];
    assert ss[i] == init[i];
    forall j | i < j < |ss|
      ensures ss[j].size != s
    {
      if j < |init| {
        assert ss[j] == init[j];
      }
    }
  }

  /** And every price in the dictionary comes from such a last entry. */
  lemma {:induction false} PricingDictFrom(ss: seq<SizePrice>, s: String, v: real)
    requires Get(PricingDict(ss), s) == Some(v)
    ensures exists i :: LastEntry(ss, i, s, v)
  {
    if ss != [] {
      var n := |ss| - 1;
      PricingDictStep(ss, s);
      if ss[n].size == s {
        assert LastEntry(ss, n, s, v);
      } else {
        PricingDictFrom(ss[..n], s, v);
        var i :| LastEntry(ss[..n], i, s, v);
        LastEntryExtend(ss, i, s, v);
      }
    }
  }

  /** A size no entry lists has no price in the dictionary. */
  lemma PricingDictMissing(ss: seq<SizePrice>, s: String)
    ensures Get(PricingDict(ss), s).None? <==> s !in SizesOf(ss)
  {
    PricingDictKeys(ss);
  }

  /**
   * `normalizePricing`: a product that already has `sizePricing` (even an
   * empty one) or has no `pricingId.sizes` is returned as it is; otherwise
   * it gains the dictionary built from its pricing document, all else kept.
   */
  function Normalized(product: Option<Product>): (r: Option<Product>)
    ensures r.None? <==> product.None?
    ensures r.Some? ==> r.value == product.value.(sizePricing := r.value.sizePricing)
    ensures r.Some? && product.value.sizePricing.Some? ==> r == product
    ensures r.Some? && product.value.sizePricing.None? && product.value.pricingSizes.None? ==> r == product
    ensures r.Some? && product.value.sizePricing.None? && product.value.pricingSizes.Some? ==>
      r.value.sizePricing.Some? && Keys(r.value.sizePricing.value) == SeenOrder(SizesOf(product.value.pricingSizes.value))
  {
    if product.None? then product
    else
      var p := product.value;
      if p.sizePricing.Some? then product
      else if p.pricingSizes.Some? then
        PricingDictKeys(p.pricingSizes.value);
        Some(p.(sizePricing := Some(PricingDict(p.pricingSizes.value))))
      else product
  }

  /** The function as the source writes it, with its `forEach`. */
  method NormalizePricing(product: Option<Product>) returns (r: Option<Product>)
    ensures r == Normalized(product)
  {
    if product.None? {
      return product;
    }
    var p := product.value;
    if p.sizePricing.Some? {
      return product;
    }
    if p.pricingSizes.Some? {
      var sizePricing := BuildSizePricing(p.pricingSizes.value);
      return Some(p.(sizePricing := Some(sizePricing)));
    }
    return product;
  }

  /** The `forEach` over `pricingId.sizes`, filling `sizePricing` from `{}`. */
  method BuildSizePricing(sizes: seq<SizePrice>) returns (sizePricing: Entries<real>)
    ensures sizePricing == PricingDict(sizes)
  {
    sizePricing := [];
    var i := 0;
    while i < |sizes|
      invariant 0 <= i <= |sizes|
      invariant sizePricing == PricingDict(sizes[..i])
    {
      var next := sizes[..i + 1];
      assert next[..i] == sizes[..i] && next[i] == sizes[i];
      sizePricing := Put(sizePricing, sizes[i].size, sizes[i].price);
      i := i + 1;
    }
    assert sizes[..i] == sizes;
  }

  /** Normalizing twice is normalizing once. */
  lemma NormalizedIdempotent(product: Option<Product>)
    ensures Normalized(Normalized(product)) == Normalized(product)
  {
  }

  /**
   * After normalizing a product priced by a pricing document, each size is
   * charged the price of its last entry when that is not 0, and the base
   * price otherwise.
   */
  lemma NormalizedUnitPrice(p: Product, s: String)
    requires p.sizePricing.None? && p.pricingSizes.Some?
    ensures forall i, v :: v != 0.0 && LastEntry(p.pricingSizes.value, i, s, v) ==>
      ResolveUnitPrice(Normalized(Some(p)).value, s) == v
    ensures s !in SizesOf(p.pricingSizes.value) ==> ResolveUnitPrice(Normalized(Some(p)).value, s) == p.price
  {
    var ss := p.pricingSizes.value;
    forall i, v | v != 0.0 && LastEntry(ss, i, s, v)
      ensures ResolveUnitPrice(Normalized(Some(p)).value, s) == v
    {
      PricingDictLastWins(ss, i, s, v);
    }
    PricingDictMissing(ss, s);
  }

  /**
   * `const sizePrice = item.sizePricing?.[size]` and then
   * `sizePrice ? $sizePrice : $item.price`: the admin label shows the price
   * the storefront charges for that size.
   */
  function SizeLabelPrice(item: Product, size: String): (r: real)
    ensures r == ResolveUnitPrice(item, size)
  {
    var sizePrice := if item.sizePricing.Some? then Get(item.sizePricing.value, size) else None;
    if sizePrice.Some? && sizePrice.value != 0.0 then sizePrice.value else item.price
  }

  /** The pricing column: the base price and one label per listed size, or the price alone. */
  datatype PricingInfo = PerSize(base: real, labels: seq<(String, real)>) | BaseOnly(price: real)

  function Labels(item: Product, sizes: seq<String>): (r: seq<(String, real)>)
    ensures |r| == |sizes|
    ensures forall i :: 0 <= i < |sizes| ==> r[i] == (sizes[i], ResolveUnitPrice(item, sizes[i]))
  {
    if sizes == [] then [] else [(sizes[0], SizeLabelPrice(item, sizes[0]))] + Labels(item, sizes[1..])
  }

  function PricingInfoOf(item: Product): (r: PricingInfo)
    ensures r.PerSize? <==> |item.sizes| > 0
    ensures r.PerSize? ==> r.base == item.price && |r.labels| == |item.sizes|
    ensures r.PerSize? ==> forall i :: 0 <= i < |item.sizes| ==>
      r.labels[i] == (item.sizes[i], ResolveUnitPrice(item, item.sizes[i]))
    ensures r.BaseOnly? ==> r.price == item.price
  {
    if |item.sizes| > 0 then PerSize(item.price, Labels(item, item.sizes)) else BaseOnly(item.price)
  }
}
