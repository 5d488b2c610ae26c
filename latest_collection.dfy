/** The "New arrivals" section of the home page (LatestCollection.jsx). */
module LatestCollection {
  import opened Seqs
  import opened Catalog

  /** `products.slice(0, 10)`: the first ten catalog products, or all of them when fewer. */
  function Latest(products: seq<Product>): (r: seq<Product>)
    ensures |r| == if |products| < 10 then |products| else 10
    ensures r <= products
  {
    Take(products, 10)
  }

  class LatestSection {
    var latestProducts: seq<Product>

    constructor()
      ensures latestProducts == []
    {
      latestProducts := [];
    }

    /** The effect on `[products]`: nothing happens before the catalog has loaded. */
    method Refresh(products: seq<Product>)
      modifies this
      ensures |products| > 0 ==> latestProducts == Latest(products)
      ensures |products| == 0 ==> latestProducts == old(latestProducts)
    {
      if |products| > 0 {
        latestProducts := Latest(products);
      }
    }

    predicate Renders()
      reads this
    {
      |latestProducts| > 0
    }
  }

  /** Once a catalog has loaded, the section shows and starts with the first product. */
  lemma LatestStartsTheCatalog(products: seq<Product>)
    requires |products| > 0
    ensures |Latest(products)| > 0 && Latest(products)[0] == products[0]
  {
  }
}
