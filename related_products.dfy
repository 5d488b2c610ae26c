/** The "More for you" strip of the product page (RelatedProducts.jsx). */
module RelatedProducts {
  import opened Text
  import opened Seqs
  import opened Catalog

  /** Up to five catalog products of the same category and sub-category, in catalog order. */
  function Related(products: seq<Product>, category: String, subCategory: String): (r: seq<Product>)
    ensures |r| <= 5
    ensures |r| == if |Filter(products, (p: Product) => p.category == category && p.subCategory == subCategory)| < 5
      then |Filter(products, (p: Product) => p.category == category && p.subCategory == subCategory)| else 5
    ensures forall p :: p in r ==> p in products && p.category == category && p.subCategory == subCategory
    ensures r <= Filter(products, (p: Product) => p.category == category && p.subCategory == subCategory)
  {
    var same := Filter(products, (p: Product) => p.category == category && p.subCategory == subCategory);
    var r := Take(same, 5);
    assert forall p :: p in r ==> p in same;
    r
  }

  /** Fewer than five matches are all shown; the strip keeps the catalog order. */
  lemma RelatedComplete(products: seq<Product>, category: String, subCategory: String, p: Product)
    ensures |Related(products, category, subCategory)| < 5 ==>
      (p in Related(products, category, subCategory) <==> p in products && p.category == category && p.subCategory == subCategory)
    ensures Subseq(Related(products, category, subCategory), products)
  {
    var keep := (p: Product) => p.category == category && p.subCategory == subCategory;
    FilterSubseq(products, keep);
    PrefixSubseq(Related(products, category, subCategory), Filter(products, keep), products);
  }

  class RelatedStrip {
    var related: seq<Product>

    constructor()
      ensures related == []
    {
      related := [];
    }

    /** The effect on `[products, category, subCategory]`: nothing happens before the catalog has loaded. */
    method Refresh(products: seq<Product>, category: String, subCategory: String)
      modifies this
      ensures |products| > 0 ==> related == Related(products, category, subCategory)
      ensures |products| == 0 ==> related == old(related)
    {
      if |products| > 0 {
        related := Related(products, category, subCategory);
      }
    }

    /** `if (!related.length) return null` */
    predicate Renders()
      reads this
    {
      |related| > 0
    }
  }
}
