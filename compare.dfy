/**
 * The comparison page (Compare.jsx): the two compared products, the search
 * for more, and the specification table whose rows are the union of the
 * compared products' spec keys.
 */
module Compare {
  import opened Wrappers
  import opened Text
  import opened Dict
  import opened Seqs
  import opened Catalog

  /** `products.filter(p => compareList.includes(p._id))` */
  function OnList(products: seq<Product>, compareList: seq<String>): seq<Product> {
    Filter(products, (p: Product) => p.id in compareList)
  }

  /** `….slice(0, 2)`: the first two catalog products on the compare list. */
  function Compared(products: seq<Product>, compareList: seq<String>): (r: seq<Product>)
    ensures |r| <= 2
    ensures |r| == if |OnList(products, compareList)| < 2 then |OnList(products, compareList)| else 2
    ensures r <= OnList(products, compareList)
    ensures forall p :: p in r ==> p in products && p.id in compareList
    ensures |OnList(products, compareList)| <= 2 ==> r == OnList(products, compareList)
  {
    var on := OnList(products, compareList);
    var r := Take(on, 2);
    assert forall p :: p in r ==> p in on;
    r
  }

  /** Compared products come in catalog order. */
  lemma ComparedInCatalogOrder(products: seq<Product>, compareList: seq<String>)
    ensures Subseq(Compared(products, compareList), products)
  {
    var on := OnList(products, compareList);
    FilterSubseq(products, (p: Product) => p.id in compareList);
    PrefixSubseq(Compared(products, compareList), on, products);
  }

  /**
   * `searchResults`: nothing for a blank query; otherwise the catalog
   * products whose name holds the query, ignoring case, and not yet compared.
   */
  function SearchResults(products: seq<Product>, compareList: seq<String>, search: String): (r: seq<Product>)
    ensures Trim(search) == "" ==> r == []
    ensures Trim(search) != "" ==> forall p :: p in r <==>
      p in products && Contains(Lower(p.name), Lower(search)) && p.id !in compareList
    ensures Subseq(r, products)
  {
    if Trim(search) == "" then []
    else
      var keep := (p: Product) => Contains(Lower(p.name), Lower(search)) && p.id !in compareList;
      FilterSubseq(products, keep);
      Filter(products, keep)
  }

  /** All spec keys of a list of products, product by product, with repeats. */
  function SpecKeysOf(ps: seq<Product>): seq<String> {
    if ps == [] then [] else SpecKeysOf(ps[..|ps| - 1]) + Keys(ps[|ps| - 1].specs)
  }

  lemma {:induction false} SpecKeysOfAt(ps: seq<Product>, k: String)
    ensures k in SpecKeysOf(ps) <==> exists i :: 0 <= i < |ps| && k in Keys(ps[i].specs)
  {
    if ps != [] {
      var n := |ps| - 1;
      var init := ps[..n];
      SpecKeysOfAt(init, k);
      assert SpecKeysOf(ps) == SpecKeysOf(init) + Keys(ps[n].specs);
      if k in SpecKeysOf(ps) {
        if k in SpecKeysOf(init) {
          var i :| 0 <= i < n && k in Keys(init[i].specs);
          assert init[i] == ps[i];
        } else {
          assert k in Keys(ps[n].specs);
        }
      }
      if exists i :: 0 <= i < |ps| && k in Keys(ps[i].specs) {
        var i :| 0 <= i < |ps| && k in Keys(ps[i].specs);
        if i < n {
          assert init[i] == ps[i];
          assert k in SpecKeysOf(init);
        }
      }
    }
  }

  lemma SeenOrderAppend(xs: seq<String>, k: String)
    ensures SeenOrder(xs + [k]) == if k in SeenOrder(xs) then SeenOrder(xs) else SeenOrder(xs) + [k]
  {
    assert (xs + [k])[..|xs|] == xs;
  }

  lemma SpecKeysStep(ps: seq<Product>, i: nat)
    requires i < |ps|
    ensures SpecKeysOf(ps[..i + 1]) == SpecKeysOf(ps[..i]) + Keys(ps[i].specs)
  {
    assert ps[..i + 1][..i] == ps[..i];
  }

  lemma SnocPrefix(before: seq<String>, ks: seq<String>, j: nat)
    requires j < |ks|
    ensures before + ks[..j + 1] == (before + ks[..j]) + [ks[j]]
  {
    assert ks[..j + 1] == ks[..j] + [ks[j]];
  }

  /** The inner `forEach`: add each key of one product to the set. */
  method AddKeys(keys: seq<String>, ghost before: seq<String>, ks: seq<String>) returns (r: seq<String>)
    requires keys == SeenOrder(before)
    ensures r == SeenOrder(before + ks)
  {
    r := keys;
    var j := 0;
    assert before + ks[..0] == before;
    while j < |ks|
      invariant 0 <= j <= |ks|
      invariant r == SeenOrder(before + ks[..j])
    {
      SeenOrderAppend(before + ks[..j], ks[j]);
      SnocPrefix(before, ks, j);
      if ks[j] !in r {
        r := r + [ks[j]];
      }
      j := j + 1;
    }
    assert ks[..j] == ks;
  }

  /** `allSpecsKeys`: every spec key of the compared products added to a `Set`, read back with `Array.from`. */
  method AllSpecsKeys(compared: seq<Product>) returns (keys: seq<String>)
    ensures keys == SeenOrder(SpecKeysOf(compared))
  {
    keys := [];
    var i := 0;
    while i < |compared|
      invariant 0 <= i <= |compared|
      invariant keys == SeenOrder(SpecKeysOf(compared[..i]))
    {
      keys := AddKeys(keys, SpecKeysOf(compared[..i]), Keys(compared[i].specs));
      SpecKeysStep(compared, i);
      i := i + 1;
    }
    assert compared[..i] == compared;
  }

  /** The table has one row per key that some compared product specifies, each once. */
  lemma SpecRows(compared: seq<Product>, k: String)
    ensures k in SeenOrder(SpecKeysOf(compared)) <==> exists i :: 0 <= i < |compared| && k in Keys(compared[i].specs)
    ensures forall a, b :: 0 <= a < b < |SeenOrder(SpecKeysOf(compared))| ==>
      SeenOrder(SpecKeysOf(compared))[a] != SeenOrder(SpecKeysOf(compared))[b]
  {
    SpecKeysOfAt(compared, k);
  }

  /** `compared[slot]?.specs?.[key] || "—"` */
  function SpecCell(compared: seq<Product>, slot: nat, key: String): (r: String)
    ensures r != ""
    ensures slot < |compared| && Get(compared[slot].specs, key).Some? && Get(compared[slot].specs, key).value != "" ==>
      r == Get(compared[slot].specs, key).value
    ensures slot >= |compared| ==> r == "—"
    ensures slot < |compared| && Get(compared[slot].specs, key) in {None, Some("")} ==> r == "—"
  {
    if slot < |compared| then
      match Get(compared[slot].specs, key)
      case Some(v) => if v != "" then v else "—"
      case None => "—"
    else "—"
  }
}
