/** The wishlist page (Wishlist.jsx). */
module Wishlist {
  import opened Wrappers
  import opened Text
  import opened Seqs
  import opened Catalog

  /** `products.filter((p) => wishlist?.includes(p._id))`: catalog order, ids missing from the catalog dropped. */
  function WishlistProducts(products: seq<Product>, wishlist: seq<String>): (r: seq<Product>)
    ensures forall p :: p in r <==> p in products && p.id in wishlist
    ensures Subseq(r, products)
  {
    var keep := (p: Product) => p.id in wishlist;
    FilterSubseq(products, keep);
    Filter(products, keep)
  }

  /** The empty state shows exactly when no catalog product is on the wishlist. */
  lemma EmptyState(products: seq<Product>, wishlist: seq<String>)
    ensures |WishlistProducts(products, wishlist)| == 0 <==> forall p :: p in products ==> p.id !in wishlist
  {
    if |WishlistProducts(products, wishlist)| != 0 {
      assert WishlistProducts(products, wishlist)[0] in WishlistProducts(products, wishlist);
    }
  }

  /** A card's buttons: "Add to Cart" sends no size, "✕" toggles the product off the wishlist. */
  datatype Request = AddToCart(productId: String, size: Option<String>) | ToggleWishlist(productId: String)

  function AddButton(p: Product): (r: Request)
    ensures r.AddToCart? && r.productId == p.id && r.size.None?
  {
    AddToCart(p.id, None)
  }

  function RemoveButton(p: Product): (r: Request)
    ensures r.ToggleWishlist? && r.productId == p.id
  {
    ToggleWishlist(p.id)
  }
}
