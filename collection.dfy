/**
 * The collection page (Collection.jsx): the filter that rebuilds the list
 * from the catalog, the sort applied when the sort selector changes, and
 * "clear filters".
 */
module Collection {
  import opened Wrappers
  import opened Text
  import opened Seqs
  import opened Catalog

  const MinPrice: real := 0.0
  const MaxPrice: real := 2000.0

  /** The search test on an already lower-cased query. */
  predicate MatchesSearch(p: Product, q: String) {
    Contains(Lower(p.name), q) || Contains(Lower(p.description), q) ||
    Contains(Lower(p.category), q) || Contains(Lower(p.subCategory), q) ||
    exists t :: t in p.tags && Contains(Lower(t), q)
  }

  predicate SearchActive(search: String, showSearch: bool) {
    showSearch && search != ""
  }

  /** Whether a product survives every stage of `applyFilter`. */
  predicate Selected(p: Product, search: String, showSearch: bool, category: seq<String>, subcategory: seq<String>) {
    (SearchActive(search, showSearch) ==> MatchesSearch(p, Lower(search))) &&
    (|category| > 0 ==> p.category in category) &&
    (|subcategory| > 0 ==> p.subCategory in subcategory) &&
    MinPrice <= p.price <= MaxPrice
  }

  /** The products `applyFilter` keeps, in catalog order. */
  function Filtered(products: seq<Product>, search: String, showSearch: bool, category: seq<String>, subcategory: seq<String>): seq<Product> {
    Filter(products, p => Selected(p, search, showSearch, category, subcategory))
  }

  /** The filtered list is exactly the selected products, in catalog order. */
  lemma FilteredExact(products: seq<Product>, search: String, showSearch: bool, category: seq<String>, subcategory: seq<String>, p: Product)
    ensures p in Filtered(products, search, showSearch, category, subcategory) <==>
      p in products && Selected(p, search, showSearch, category, subcategory)
    ensures Subseq(Filtered(products, search, showSearch, category, subcategory), products)
    ensures p in Filtered(products, search, showSearch, category, subcategory) ==> 0.0 <= p.price <= 2000.0
  {
    FilterSubseq(products, p => Selected(p, search, showSearch, category, subcategory));
  }

  /** Keys the comparators of the sort selector order by, ascending. */
  datatype SortKey = PriceAsc | PriceDesc | DiscountDesc

  function Key(p: Product, k: SortKey): real {
    match k
    case PriceAsc => p.price
    case PriceDesc => -p.price
    case DiscountDesc => -p.discount
  }

  predicate SortedBy(s: seq<Product>, k: SortKey) {
    forall i, j :: 0 <= i < j < |s| ==> Key(s[i], k) <= Key(s[j], k)
  }

  /** Put `x` before the first element whose key is not smaller, so equal keys keep `x` first. */
  function Insert(x: Product, s: seq<Product>, k: SortKey): (r: seq<Product>)
    ensures multiset(r) == multiset(s) + multiset{x}
    ensures |r| == |s| + 1
    ensures forall y :: y in r <==> y == x || y in s
  {
    if s == [] || Key(x, k) <= Key(s[0], k) then [x] + s
    else
      assert s == [s[0]] + s[1..];
      [s[0]] + Insert(x, s[1..], k)
  }

  lemma SortedTail(s: seq<Product>, k: SortKey)
    requires s != [] && SortedBy(s, k)
    ensures SortedBy(s[1..], k)
    ensures forall y :: y in s[1..] ==> Key(s[0], k) <= Key(y, k)
  {
    forall i, j | 0 <= i < j < |s| - 1
      ensures Key(s[1..][i], k) <= Key(s[1..][j], k)
    {
      assert s[1..][i] == s[i + 1] && s[1..][j] == s[j + 1];
    }
    forall y | y in s[1..]
      ensures Key(s[0], k) <= Key(y, k)
    {
      var m :| 0 <= m < |s| - 1 && s[1..][m] == y;
      assert s[m + 1] == y;
    }
  }

  /** A sorted list headed by an element no larger than every element of it. */
  lemma SortedCons(h: Product, r: seq<Product>, k: SortKey)
    requires SortedBy(r, k)
    requires forall j :: 0 <= j < |r| ==> Key(h, k) <= Key(r[j], k)
    ensures SortedBy([h] + r, k)
  {
    var t := [h] + r;
    forall a, b | 0 <= a < b < |t|
      ensures Key(t[a], k) <= Key(t[b], k)
    {
      assert t[b] == r[b - 1];
      if a > 0 {
        assert t[a] == r[a - 1];
      }
    }
  }

  lemma {:induction false} InsertSorted(x: Product, s: seq<Product>, k: SortKey)
    requires SortedBy(s, k)
    ensures SortedBy(Insert(x, s, k), k)
    ensures Insert(x, s, k) != [] && (Insert(x, s, k)[0] == x || (s != [] && Insert(x, s, k)[0] == s[0]))
  {
    if s != [] && Key(x, k) > Key(s[0], k) {
      SortedTail(s, k);
      InsertSorted(x, s[1..], k);
      var r := Insert(x, s[1..], k);
      forall j | 0 <= j < |r|
        ensures Key(s[0], k) <= Key(r[j], k)
      {
        assert r[j] in r;
      }
      SortedCons(s[0], r, k);
    } else if s != [] {
      forall j | 0 <= j < |s|
        ensures Key(x, k) <= Key(s[j], k)
      {
        if j > 0 {
          assert Key(s[0], k) <= Key(s[j], k);
        }
      }
      SortedCons(x, s, k);
    } else {
      SortedCons(x, s, k);
    }
  }

  /** `sorted.sort(comparator)`: an insertion sort by key. */
  function SortByKey(s: seq<Product>, k: SortKey): (r: seq<Product>)
    ensures multiset(r) == multiset(s)
    ensures |r| == |s|
  {
    if s == [] then []
    else
      assert s == [s[0]] + s[1..];
      Insert(s[0], SortByKey(s[1..], k), k)
  }

  lemma {:induction false} SortByKeySorted(s: seq<Product>, k: SortKey)
    ensures SortedBy(SortByKey(s, k), k)
  {
    if s != [] {
      SortByKeySorted(s[1..], k);
      InsertSorted(s[0], SortByKey(s[1..], k), k);
    }
  }

  /** The order the sort effect puts a list in, for each value of the selector. */
  function SortFor(s: seq<Product>, sortType: String): seq<Product> {
    if sortType == "low-high" then SortByKey(s, PriceAsc)
    else if sortType == "high-low" then SortByKey(s, PriceDesc)
    else if sortType == "Top ranking" || sortType == "Top deals" then SortByKey(s, DiscountDesc)
    else if sortType == "New arrivals" then Reverse(s)
    else s
  }

  /** Every sort is a permutation of the list on display. */
  lemma SortForPermutation(s: seq<Product>, sortType: String)
    ensures multiset(SortFor(s, sortType)) == multiset(s)
  {
    ReverseMultiset(s);
  }

  /** "New arrivals" reverses the list on display; a value the selector does not name leaves it as it is. */
  lemma NewArrivalsAndOthers(s: seq<Product>, sortType: String)
    ensures sortType == "New arrivals" ==>
      |SortFor(s, sortType)| == |s| && forall i :: 0 <= i < |s| ==> SortFor(s, sortType)[i] == s[|s| - 1 - i]
    ensures (sortType != "low-high" && sortType != "high-low" && sortType != "Top ranking" &&
             sortType != "Top deals" && sortType != "New arrivals") ==> SortFor(s, sortType) == s
  {
  }

  /** "low-high" orders by ascending price. */
  lemma LowHighOrder(s: seq<Product>)
    ensures var r := SortFor(s, "low-high");
      forall i, j :: 0 <= i < j < |r| ==> r[i].price <= r[j].price
  {
    SortByKeySorted(s, PriceAsc);
    var r := SortByKey(s, PriceAsc);
    assert SortedBy(r, PriceAsc);
    assert SortFor(s, "low-high") == r;
    forall i, j | 0 <= i < j < |r|
      ensures r[i].price <= r[j].price
    {
      assert Key(r[i], PriceAsc) <= Key(r[j], PriceAsc);
    }
  }

  /** "high-low" orders by descending price. */
  lemma HighLowOrder(s: seq<Product>)
    ensures var r := SortFor(s, "high-low");
      forall i, j :: 0 <= i < j < |r| ==> r[i].price >= r[j].price
  {
    SortByKeySorted(s, PriceDesc);
    var r := SortByKey(s, PriceDesc);
    assert SortedBy(r, PriceDesc);
    assert SortFor(s, "high-low") == r;
    forall i, j | 0 <= i < j < |r|
      ensures r[i].price >= r[j].price
    {
      assert Key(r[i], PriceDesc) <= Key(r[j], PriceDesc);
    }
  }

  /** "Top ranking" and "Top deals" order by descending discount. */
  lemma TopDealsOrder(s: seq<Product>, sortType: String)
    requires sortType == "Top ranking" || sortType == "Top deals"
    ensures var r := SortFor(s, sortType);
      forall i, j :: 0 <= i < j < |r| ==> r[i].discount >= r[j].discount
  {
    SortByKeySorted(s, DiscountDesc);
    var r := SortByKey(s, DiscountDesc);
    assert SortedBy(r, DiscountDesc);
    assert SortFor(s, sortType) == r;
    forall i, j | 0 <= i < j < |r|
      ensures r[i].discount >= r[j].discount
    {
      assert Key(r[i], DiscountDesc) <= Key(r[j], DiscountDesc);
    }
  }

  /** The page state that the source keeps with `useState`. */
  class CollectionView {
    var filterProducts: seq<Product>
    var category: seq<String>
    var subcategory: seq<String>
    var sortType: String

    constructor()
      ensures filterProducts == [] && category == [] && subcategory == [] && sortType == "relevant"
    {
      filterProducts := [];
      category := [];
      subcategory := [];
      sortType := "relevant";
    }

    /** `applyFilter`: the stages one after another on a copy of the catalog. */
    method ApplyFilter(products: seq<Product>, search: String, showSearch: bool)
      modifies this`filterProducts
      ensures filterProducts == Filtered(products, search, showSearch, category, subcategory)
    {
      var productsCopy := products;
      ghost var all: Product -> bool := p => true;
      FilterAll(products, all);
      if showSearch && search != "" {
        var searchLower := Lower(search);
        var f := p => MatchesSearch(p, searchLower);
        FilterFilter(products, all, f, f);
        productsCopy := Filter(productsCopy, f);
        all := f;
      }
      var sofar := all;
      if |category| > 0 {
        var cats := category;
        var g := (p: Product) => p.category in cats;
        var h := p => sofar(p) && g(p);
        FilterFilter(products, sofar, g, h);
        productsCopy := Filter(productsCopy, g);
        sofar := h;
      }
      var sofar2 := sofar;
      if |subcategory| > 0 {
        var subs := subcategory;
        var g := (p: Product) => p.subCategory in subs;
        var h := p => sofar2(p) && g(p);
        FilterFilter(products, sofar2, g, h);
        productsCopy := Filter(productsCopy, g);
        sofar2 := h;
      }
      var inRange := (p: Product) => MinPrice <= p.price <= MaxPrice;
      var cats0, subs0 := category, subcategory;
      var sel := p => Selected(p, search, showSearch, cats0, subs0);
      FilterFilter(products, sofar2, inRange, sel);
      productsCopy := Filter(productsCopy, inRange);
      filterProducts := productsCopy;
    }

    /** The effect on `[sortType]`: it sorts the list on display, when there is one. */
    method SortEffect()
      modifies this`filterProducts
      ensures |old(filterProducts)| > 0 ==> filterProducts == SortFor(old(filterProducts), sortType)
      ensures |old(filterProducts)| == 0 ==> filterProducts == old(filterProducts)
    {
      if |filterProducts| > 0 {
        filterProducts := SortFor(filterProducts, sortType);
      }
    }

    /** The corrected page: any change of filters or sort shows `Shown`. */
    method CorrectedRefresh(products: seq<Product>, search: String, showSearch: bool)
      modifies this`filterProducts
      ensures filterProducts == Shown(products, search, showSearch, category, subcategory, sortType)
    {
      ApplyFilter(products, search, showSearch);
      filterProducts := SortFor(filterProducts, sortType);
    }

    /** The sort selector, or a `selectedSort` passed with the navigation. */
    method SetSortType(t: String)
      modifies this`sortType
      ensures sortType == t
    {
      sortType := t;
    }

    /** `clearFilters` */
    method ClearFilters()
      modifies this`category, this`subcategory, this`sortType
      ensures category == [] && subcategory == [] && sortType == "relevant"
    {
      category := [];
      subcategory := [];
      sortType := "relevant";
    }
  }

  /** A catalog entry with only an id and a price, for the examples below. */
  function Listing(id: String, price: real): Product {
    Product(id, "", "", "", "", [], [], price, 0.0, [], None, None, [], true, 1.0, [])
  }

  /** Two products out of price order are swapped by the "low-high" sort. */
  lemma SortSwapsTwo(a: Product, b: Product)
    requires b.price < a.price
    ensures SortFor([a, b], "low-high") == [b, a]
  {
    assert [a, b][1..] == [b];
    assert [b][1..] == [];
    assert SortByKey([b], PriceAsc) == [b];
  }

  /** "relevant" is none of the values the sort effect reorders for. */
  lemma SortForRelevant(s: seq<Product>)
    ensures SortFor(s, "relevant") == s
  {
    assert "relevant"[0] == 'r';
  }

  lemma ReverseTwo(a: Product, b: Product)
    ensures Reverse([a, b]) == [b, a]
  {
    assert [a, b][1..] == [b];
    assert [b][1..] == [];
  }

  /** Both listings pass the default filters, so they are shown in catalog order. */
  lemma ListingsShown(a: Product, b: Product)
    requires Selected(a, "", false, [], []) && Selected(b, "", false, [], [])
    ensures Filtered([a, b], "", false, [], []) == [a, b]
  {
    FilterAll([a, b], p => Selected(p, "", false, [], []));
  }

  /**
   * As written, the sort effect sorts whatever is on display: choosing
   * "low-high" and then "relevant" leaves the list in price order instead
   * of catalog order.
   */
  method RelevantKeepsPriceOrder() returns (shown: seq<Product>, catalog: seq<Product>)
    ensures Filtered(catalog, "", false, [], []) == catalog
    ensures shown == Reverse(catalog) && shown != catalog
  {
    var a := Listing("a", 5.0);
    var b := Listing("b", 1.0);
    catalog := [a, b];
    var view := new CollectionView();
    assert Selected(a, "", false, [], []) && Selected(b, "", false, [], []);
    ListingsShown(a, b);
    SortSwapsTwo(a, b);
    view.ApplyFilter(catalog, "", false);
    view.SetSortType("low-high");
    view.SortEffect();
    SortForRelevant([b, a]);
    view.SetSortType("relevant");
    view.SortEffect();
    shown := view.filterProducts;
    ReverseTwo(a, b);
  }

  /** As written, a filter change while "low-high" stays selected shows the catalog order again. */
  method RefilterDropsSort() returns (shown: seq<Product>, sortType: String)
    ensures sortType == "low-high"
    ensures !SortedBy(shown, PriceAsc)
  {
    var a := Listing("a", 5.0);
    var b := Listing("b", 1.0);
    var view := new CollectionView();
    assert Selected(a, "", false, [], []) && Selected(b, "", false, [], []);
    ListingsShown(a, b);
    SortSwapsTwo(a, b);
    view.ApplyFilter([a, b], "", false);
    view.SetSortType("low-high");
    view.SortEffect();
    view.ApplyFilter([a, b], "", false);
    shown := view.filterProducts;
    sortType := view.sortType;
    assert Key(shown[0], PriceAsc) > Key(shown[1], PriceAsc);
  }

  /** The list as evidently intended: the filtered catalog in the order the selector names. */
  function Shown(products: seq<Product>, search: String, showSearch: bool, category: seq<String>, subcategory: seq<String>, sortType: String): seq<Product> {
    SortFor(Filtered(products, search, showSearch, category, subcategory), sortType)
  }

  /** The intended list holds the selected products, ordered by the selector alone; "relevant" is catalog order. */
  lemma ShownProperties(products: seq<Product>, search: String, showSearch: bool, category: seq<String>, subcategory: seq<String>, sortType: String)
    ensures multiset(Shown(products, search, showSearch, category, subcategory, sortType)) ==
      multiset(Filtered(products, search, showSearch, category, subcategory))
    ensures sortType == "relevant" ==>
      Shown(products, search, showSearch, category, subcategory, sortType) == Filtered(products, search, showSearch, category, subcategory)
    ensures sortType == "low-high" ==>
      SortedBy(Shown(products, search, showSearch, category, subcategory, sortType), PriceAsc)
  {
    SortForPermutation(Filtered(products, search, showSearch, category, subcategory), sortType);
    SortByKeySorted(Filtered(products, search, showSearch, category, subcategory), PriceAsc);
  }

  /** With the correction, "relevant" after "low-high" gives back the catalog order. */
  method RelevantRestoresCatalogOrder() returns (shown: seq<Product>, catalog: seq<Product>)
    ensures shown == catalog
  {
    var a := Listing("a", 5.0);
    var b := Listing("b", 1.0);
    catalog := [a, b];
    var view := new CollectionView();
    assert Selected(a, "", false, [], []) && Selected(b, "", false, [], []);
    ListingsShown(a, b);
    view.SetSortType("low-high");
    view.CorrectedRefresh(catalog, "", false);
    view.SetSortType("relevant");
    view.CorrectedRefresh(catalog, "", false);
    shown := view.filterProducts;
  }
}
