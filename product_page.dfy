/**
 * The product page (Product.jsx): the values it derives from the loaded
 * product, the fetch and price effects, the two add-to-cart buttons and the
 * description parser.
 */
module ProductPage {
  import opened Wrappers
  import opened Text
  import opened Dict
  import opened Catalog
  import opened CartTotal
  import CartPage

  /** `productData?.inStock !== false && Number(productData?.stockQuantity ?? 0) > 0` */
  predicate IsInStock(pd: Option<Product>) {
    pd.Some? && pd.value.inStock && pd.value.stockQuantity > 0.0
  }

  /** `Number(productData?.discount || 0)` */
  function Discount(pd: Option<Product>): real {
    if pd.Some? then pd.value.discount else 0.0
  }

  predicate HasDiscount(pd: Option<Product>) {
    Discount(pd) > 0.0
  }

  /** `actualPrice * (1 - discount / 100)`, before rounding. */
  function DiscountedPrice(actualPrice: real, pd: Option<Product>): real {
    ApplyDiscount(actualPrice, Discount(pd))
  }

  /** The price shown: `finalPrice`, the discounted price `toFixed(2)`. */
  function FinalPriceShown(currentPrice: real, pd: Option<Product>): (r: real)
    ensures WholeCents(r)
    ensures -0.005 <= r - currentPrice * (1.0 - Discount(pd) / 100.0) <= 0.005
  {
    Round2(DiscountedPrice(currentPrice, pd))
  }

  /** A discount of at most 100% never raises the quoted price, nor takes it below 0. */
  lemma FinalPriceBounds(currentPrice: real, pd: Option<Product>)
    requires 0.0 <= Discount(pd) <= 100.0 && currentPrice >= 0.0
    ensures 0.0 <= FinalPriceShown(currentPrice, pd) <= Round2(currentPrice)
    ensures Discount(pd) == 0.0 ==> FinalPriceShown(currentPrice, pd) == Round2(currentPrice)
  {
    var x := DiscountedPrice(currentPrice, pd);
    DiscountBounds(currentPrice, Discount(pd));
    Round2Monotone(x, currentPrice);
    Round2Monotone(0.0, x);
    Round2Cents(0.0);
  }

  /** The worked figure: a price of 50 with a 20% discount is quoted as 40.00. */
  lemma FinalPriceExample(p: Product)
    requires p.discount == 20.0
    ensures FinalPriceShown(50.0, Some(p)) == 40.0
  {
    assert DiscountedPrice(50.0, Some(p)) == 40.0;
    Round2Cents(40.0);
  }

  /** `Object.keys(productData?.specs || {}).length > 0` */
  predicate HasSpecs(pd: Option<Product>) {
    pd.Some? && |pd.value.specs| > 0
  }

  /** `["description", hasSpecs && "specs", "reviews"].filter(Boolean)` */
  function Tabs(pd: Option<Product>): (r: seq<String>)
    ensures 2 <= |r| <= 3 && r[0] == "description" && r[|r| - 1] == "reviews"
    ensures "specs" in r <==> HasSpecs(pd)
  {
    if HasSpecs(pd) then ["description", "specs", "reviews"] else ["description", "reviews"]
  }

  const NoImage: String := "https://via.placeholder.com/600x600?text=No+Image"

  /** `product.images?.[0] || placeholder` */
  function ImageFor(p: Product): (r: String)
    ensures r != ""
    ensures |p.images| > 0 && p.images[0] != "" ==> r == p.images[0]
  {
    if |p.images| > 0 && p.images[0] != "" then p.images[0] else NoImage
  }

  /**
   * The size selected when a product loads: the first priced size, or else
   * the first listed size; nothing is selected when the product lists no sizes.
   */
  function InitialSize(p: Product): (r: Option<String>)
    ensures r.Some? <==> |p.sizes| > 0
    ensures |p.sizes| > 0 && p.sizePricing.Some? && |p.sizePricing.value| > 0 && Keys(p.sizePricing.value)[0] != "" ==>
      r == Some(Keys(p.sizePricing.value)[0])
    ensures |p.sizes| > 0 && !(p.sizePricing.Some? && |p.sizePricing.value| > 0 && Keys(p.sizePricing.value)[0] != "") ==>
      r == Some(p.sizes[0])
    ensures r.Some? ==> r.value != "" || p.sizes[0] == ""
  {
    if |p.sizes| == 0 then None
    else if p.sizePricing.Some? && |p.sizePricing.value| > 0 && Keys(p.sizePricing.value)[0] != "" then
      Some(Keys(p.sizePricing.value)[0])
    else Some(p.sizes[0])
  }

  /**
   * When every priced size is also a listed size, the size selected on load
   * is one of the listed sizes; a priced key that is not listed can still be
   * selected otherwise.
   */
  lemma InitialSizeListed(p: Product)
    requires p.sizePricing.Some? ==> forall k :: k in Keys(p.sizePricing.value) ==> k in p.sizes
    ensures InitialSize(p).Some? ==> InitialSize(p).value in p.sizes
  {
    if |p.sizes| > 0 && p.sizePricing.Some? && |p.sizePricing.value| > 0 {
      assert Keys(p.sizePricing.value)[0] in Keys(p.sizePricing.value);
    }
  }

  /**
   * The price effect: with a product and a selected size, the unit price of
   * that size; otherwise the price already held.
   */
  function EffectPrice(pd: Option<Product>, size: String, current: real): (r: real)
    ensures pd.None? || size == "" ==> r == current
  {
    if pd.None? || size == "" then current else ResolveUnitPrice(pd.value, size)
  }

  /** The product page quotes the unit price the bag charges for the same product and size. */
  lemma EffectPriceMatchesCart(products: seq<Product>, p: Product, size: String, q: int, current: real)
    requires FindProduct(products, p.id) == Some(p) && size != ""
    ensures Some(EffectPrice(Some(p), size, current)) == CartPage.ItemPrice(products, CartLine(p.id, size, q))
  {
  }

  /** `disabled={!isInStock || !size}` on the main "Add to Cart" button. */
  predicate MainButtonDisabled(pd: Option<Product>, size: String) {
    !IsInStock(pd) || size == ""
  }

  /** The page state that the source keeps with `useState`. */
  class ProductView {
    var productData: Option<Product>
    var image: String
    var size: String
    var currentPrice: real

    constructor()
      ensures productData.None? && image == "" && size == "" && currentPrice == 0.0
    {
      productData := None;
      image := "";
      size := "";
      currentPrice := 0.0;
    }

    /** `fetchProductData`: nothing changes when the id is not in the catalog. */
    method FetchProductData(products: seq<Product>, productId: String)
      modifies this`productData, this`image, this`size
      ensures FindProduct(products, productId).None? ==>
        productData == old(productData) && image == old(image) && size == old(size)
      ensures FindProduct(products, productId).Some? ==>
        productData == FindProduct(products, productId) &&
        image == ImageFor(productData.value) &&
        size == InitialSize(productData.value).GetOr(old(size))
    {
      var found := FindProduct(products, productId);
      if found.None? {
        return;
      }
      var p := found.value;
      productData := Some(p);
      image := ImageFor(p);
      var initial := InitialSize(p);
      if initial.Some? {
        size := initial.value;
      }
    }

    /** The effect on `[productData, size]`. */
    method PriceEffect()
      modifies this`currentPrice
      ensures currentPrice == EffectPrice(productData, size, old(currentPrice))
    {
      if productData.None? || size == "" {
        return;
      }
      currentPrice := ResolveUnitPrice(productData.value, size);
    }

    /** The effect as evidently intended: a product without sizes is quoted at its base price. */
    method CorrectedPriceEffect()
      modifies this`currentPrice
      ensures currentPrice == IntendedEffectPrice(productData, size, old(currentPrice))
    {
      if productData.None? {
        return;
      }
      if size == "" {
        currentPrice := productData.value.price;
      } else {
        currentPrice := ResolveUnitPrice(productData.value, size);
      }
    }

    /** A size button. */
    method SelectSize(s: String)
      modifies this`size
      ensures size == s
    {
      size := s;
    }

    /** The main button: `addToCart(productData._id, size)` unless it is disabled. */
    method MainAddToCart() returns (req: Option<(String, String)>)
      requires productData.Some?
      ensures req.None? <==> MainButtonDisabled(productData, size)
      ensures req.Some? ==> req.value == (productData.value.id, size) && req.value.1 != ""
    {
      if MainButtonDisabled(productData, size) {
        req := None;
      } else {
        req := Some((productData.value.id, size));
      }
    }

    /** The sticky bar's button has no `disabled`: it adds even out of stock or with no size. */
    method StickyAddToCart() returns (req: (String, String))
      requires productData.Some?
      ensures req == (productData.value.id, size)
    {
      req := (productData.value.id, size);
    }
  }

  /**
   * A product listing no sizes, opened on a fresh page, is quoted at 0.00
   * whatever its price, and its main button never enables.
   */
  method OpenSizelessProduct(p: Product) returns (shown: real, mainDisabled: bool)
    requires p.sizes == []
    ensures shown == 0.0
    ensures mainDisabled
  {
    var view := new ProductView();
    view.FetchProductData([p], p.id);
    view.PriceEffect();
    shown := FinalPriceShown(view.currentPrice, view.productData);
    mainDisabled := MainButtonDisabled(view.productData, view.size);
    Round2Cents(0.0);
  }

  /** The corrected effect: the base price when no size is selected. */
  function IntendedEffectPrice(pd: Option<Product>, size: String, current: real): (r: real)
    ensures pd.None? ==> r == current
    ensures pd.Some? && size == "" ==> r == pd.value.price
    ensures pd.Some? && size != "" ==> r == EffectPrice(pd, size, current)
  {
    if pd.None? then current
    else if size == "" then pd.value.price
    else ResolveUnitPrice(pd.value, size)
  }

  /** With the corrected effect the same product is quoted at its discounted base price. */
  method OpenSizelessProductCorrected(p: Product) returns (shown: real)
    requires p.sizes == []
    ensures shown == FinalPriceShown(p.price, Some(p))
    ensures p.price > 0.0 && 0.0 <= p.discount <= 100.0 ==> 0.0 <= shown <= Round2(p.price)
  {
    var view := new ProductView();
    assert FindProduct([p], p.id) == Some(p);
    view.FetchProductData([p], p.id);
    assert view.productData == Some(p) && view.size == "";
    view.CorrectedPriceEffect();
    assert view.currentPrice == p.price;
    shown := FinalPriceShown(view.currentPrice, view.productData);
    if p.price > 0.0 && 0.0 <= p.discount <= 100.0 {
      FinalPriceBounds(p.price, Some(p));
    }
  }

  /** One line of the description tab. */
  datatype DescLine = Titled(title: String, content: Option<String>) | Bullet(text: String)

  /**
   * `const [title, content] = line.split(":")` as written: only the text up
   * to a second colon is kept as the content.
   */
  function TitlePartsAsWritten(line: String): (r: (String, String))
    requires ':' in line
    ensures ':' !in r.0 && ':' !in r.1
    ensures r.0 + ":" + r.1 == line || r.0 + ":" + r.1 + ":" <= line
  {
    JoinSplitHead(line, ':');
    var parts := Split(line, ':');
    JoinHead(parts[1..], ":");
    assert parts[1..][0] == parts[1];
    (parts[0], parts[1])
  }

  /** The split as evidently intended: the title, then everything after the first colon. */
  function TitleParts(line: String): (r: (String, String))
    requires ':' in line
    ensures ':' !in r.0
    ensures r.0 + ":" + r.1 == line
  {
    JoinSplitHead(line, ':');
    var parts := Split(line, ':');
    (parts[0], Join(parts[1..], ":"))
  }

  /**
   * A line with a colon becomes a title with the trimmed content when there
   * is any (as written: the content stops at a second colon); any other line
   * a bullet.
   */
  function ParseLine(line: String): (r: DescLine)
    ensures r.Titled? <==> ':' in line
    ensures r.Bullet? ==> r.text == line
    ensures r.Titled? ==> r.title == Trim(TitlePartsAsWritten(line).0)
    ensures r.Titled? ==> (r.content.Some? <==> TitlePartsAsWritten(line).1 != "")
    ensures r.Titled? && r.content.Some? ==> r.content.value == Trim(TitlePartsAsWritten(line).1)
  {
    if ':' in line then
      var (title, content) := TitlePartsAsWritten(line);
      Titled(Trim(title), if content != "" then Some(Trim(content)) else None)
    else Bullet(line)
  }

  /** The line parser as evidently intended: the content is everything after the first colon. */
  function CorrectedParseLine(line: String): (r: DescLine)
    ensures r.Titled? <==> ':' in line
    ensures r.Bullet? ==> r.text == line
    ensures r.Titled? ==> r.title == Trim(TitleParts(line).0)
    ensures r.Titled? ==> (r.content.Some? <==> TitleParts(line).1 != "")
    ensures r.Titled? && r.content.Some? ==> r.content.value == Trim(TitleParts(line).1)
  {
    if ':' in line then
      var (title, content) := TitleParts(line);
      Titled(Trim(title), if content != "" then Some(Trim(content)) else None)
    else Bullet(line)
  }

  /** The two parsers differ only on lines with a second colon. */
  lemma ParsersAgree(line: String)
    requires ':' in line ==> ':' !in TitleParts(line).1
    ensures ParseLine(line) == CorrectedParseLine(line)
  {
    if ':' in line {
      var (t, c) := TitleParts(line);
      TitledLine(t, c);
    }
  }

  function ParseLines(lines: seq<String>): (r: seq<DescLine>)
    ensures |r| == |lines|
    ensures forall i :: 0 <= i < |r| ==> r[i] == ParseLine(lines[i])
  {
    if lines == [] then [] else [ParseLine(lines[0])] + ParseLines(lines[1..])
  }

  /** `(productData.description || "").split("\n").filter(Boolean).map(…)` */
  function ParseDescription(description: String): (r: seq<DescLine>)
    ensures |r| == |NonEmpty(Split(description, '\n'))|
    ensures forall i :: 0 <= i < |r| ==> r[i] == ParseLine(NonEmpty(Split(description, '\n'))[i])
  {
    ParseLines(NonEmpty(Split(description, '\n')))
  }

  /** The description tab as evidently intended, with the corrected line parser. */
  function CorrectedParseDescription(description: String): (r: seq<DescLine>)
    ensures |r| == |NonEmpty(Split(description, '\n'))|
    ensures forall i :: 0 <= i < |r| ==> r[i] == CorrectedParseLine(NonEmpty(Split(description, '\n'))[i])
  {
    var lines := NonEmpty(Split(description, '\n'));
    seq(|lines|, i requires 0 <= i < |lines| => CorrectedParseLine(lines[i]))
  }

  /** A description whose lines hold at most one colon each is shown the same either way. */
  lemma DescriptionParsersAgree(description: String)
    requires forall l :: l in Split(description, '\n') && ':' in l ==> ':' !in TitleParts(l).1
    ensures ParseDescription(description) == CorrectedParseDescription(description)
  {
    var lines := NonEmpty(Split(description, '\n'));
    forall i | 0 <= i < |lines|
      ensures ParseLine(lines[i]) == CorrectedParseLine(lines[i])
    {
      assert lines[i] in lines;
      ParsersAgree(lines[i]);
    }
  }

  /** Every bullet is a whole non-empty line of the description. */
  lemma DescriptionBullets(description: String, i: nat)
    requires i < |ParseDescription(description)| && ParseDescription(description)[i].Bullet?
    ensures ParseDescription(description)[i].text != ""
    ensures '\n' !in ParseDescription(description)[i].text
    ensures ParseDescription(description)[i].text in Split(description, '\n')
  {
    var lines := NonEmpty(Split(description, '\n'));
    assert ParseDescription(description)[i].text == lines[i];
    assert lines[i] in lines;
  }

  /** A description without line breaks is a single line (or nothing, when empty). */
  lemma {:induction false} SingleLineDescription(description: String)
    requires '\n' !in description
    ensures description == "" ==> ParseDescription(description) == []
    ensures description != "" ==> ParseDescription(description) == [ParseLine(description)]
  {
    SplitWithout(description, '\n');
  }

  /** "Title: content" with one colon parses to the trimmed title and the trimmed content. */
  lemma TitledLine(t: String, c: String)
    requires ':' !in t && ':' !in c
    ensures ParseLine(t + ":" + c) == Titled(Trim(t), if c != "" then Some(Trim(c)) else None)
    ensures CorrectedParseLine(t + ":" + c) == ParseLine(t + ":" + c)
    ensures TitlePartsAsWritten(t + ":" + c) == TitleParts(t + ":" + c)
  {
    SplitConcat(t, ':', c);
    SplitWithout(c, ':');
    assert Split(t + ":" + c, ':') == [t, c];
  }

  /** The code as written loses everything after a second colon ("Hours: 9:30" keeps "Hours" and " 9"). */
  lemma SecondColonDropped(t: String, u: String, w: String)
    requires ':' !in t && ':' !in u
    ensures TitlePartsAsWritten(t + ":" + u + ":" + w) == (t, u)
    ensures TitleParts(t + ":" + u + ":" + w) == (t, u + ":" + w)
    ensures ParseLine(t + ":" + u + ":" + w) == Titled(Trim(t), if u != "" then Some(Trim(u)) else None)
    ensures CorrectedParseLine(t + ":" + u + ":" + w) == Titled(Trim(t), Some(Trim(u + ":" + w)))
  {
    var line := t + ":" + u + ":" + w;
    assert line == t + [':'] + (u + [':'] + w);
    SplitConcat(t, ':', u + [':'] + w);
    SplitConcat(u, ':', w);
    var parts := Split(line, ':');
    assert parts == [t] + ([u] + Split(w, ':'));
    assert parts[1..] == [u] + Split(w, ':');
    JoinSplit(w, ':');
    assert Join(parts[1..], ":") == u + ":" + Join(Split(w, ':'), ":");
  }
}
