/** The Shopify catalogue scraper: the paginated `/products.json` walk, the
    `/collections/all` HTML fallback, the transformation of Shopify product
    objects into store records, and the per-category summary. HTTP requests
    and the HTML parse are inputs: each JSON page is given as its response,
    and the HTML page as the product tiles the parser would find on it. */
module ShopifyScraper {
  import opened Wrappers
  import opened Text
  import opened Catalog

  // ===========================================================================
  // Shopify product objects

  /** A product object as the scraper reads it. A member that is absent is
      `None`; each variant is given by its `price` member and each image by
      its `src` member. */
  datatype ShopifyProduct = ShopifyProduct(
    title: Option<string>,
    handle: Option<string>,
    productType: Option<string>,
    bodyHtml: Option<string>,
    variants: seq<Option<string>>,
    images: seq<Option<string>>)

  // ===========================================================================
  // The JSON API walk

  /** The outcome of requesting one page: a failure (a connection error, an
      HTTP error status, or a body that is not JSON) or the `products`
      member of the JSON body (`None` when the member is absent). */
  datatype PageResponse = Failed | Page(products: Option<seq<ShopifyProduct>>)

  /** The page size requested with `limit=250`. */
  const PageLimit := 250

  /** The products of pages `i+1, i+2, ...` (`pages[i]` answers `page=i+1`):
      the walk stops at an empty page or after a page shorter than the page
      size, and any failure along the way makes the whole walk fail. A page
      beyond the given responses reads as empty. */
  function Paginate(pages: seq<PageResponse>, i: nat): Option<seq<ShopifyProduct>>
    decreases |pages| - i
  {
    if i >= |pages| then Some([])
    else match pages[i]
      case Failed => None
      case Page(p) =>
        var products := p.GetOr([]);
        if products == [] then Some([])
        else if |products| < PageLimit then Some(products)
        else Prepend(products, Paginate(pages, i + 1))
  }

  function Prepend(acc: seq<ShopifyProduct>, rest: Option<seq<ShopifyProduct>>): Option<seq<ShopifyProduct>> {
    match rest
    case None => None
    case Some(r) => Some(acc + r)
  }

  lemma PrependPrepend(a: seq<ShopifyProduct>, b: seq<ShopifyProduct>, rest: Option<seq<ShopifyProduct>>)
    ensures Prepend(a, Prepend(b, rest)) == Prepend(a + b, rest)
  {
    if rest.Some? {
      assert a + (b + rest.value) == (a + b) + rest.value;
    }
  }

  /** `scrape_shopify_json`: requests pages 1, 2, ... and concatenates their
      products; `None` when any request fails. */
  method ScrapeShopifyJson(pages: seq<PageResponse>) returns (r: Option<seq<ShopifyProduct>>)
    ensures r == Paginate(pages, 0)
  {
    var all: seq<ShopifyProduct> := [];
    var page := 1;
    if Paginate(pages, 0).Some? {
      assert all + Paginate(pages, 0).value == Paginate(pages, 0).value;
    }
    while page <= |pages|
      invariant 1 <= page <= |pages| + 1
      invariant Paginate(pages, 0) == Prepend(all, Paginate(pages, page - 1))
      decreases |pages| + 1 - page
    {
      var response := pages[page - 1];
      if response.Failed? {
        return None;
      }
      var products := response.products.GetOr([]);
      if products == [] {
        assert all + [] == all;
        break;
      }
      all := all + products;
      if |products| < PageLimit {
        assert all + [] == all;
        break;
      }
      PrependPrepend(all[..|all| - |products|], products, Paginate(pages, page));
      assert all[..|all| - |products|] + products == all;
      page := page + 1;
    }
    if page > |pages| {
      assert all + [] == all;
    }
    return Some(all);
  }

  /** The products the walk would collect from pages `i+1 .. k`. */
  function PagesProducts(pages: seq<PageResponse>, i: nat, k: nat): seq<ShopifyProduct>
    requires i <= k <= |pages|
    decreases k - i
  {
    if i == k then []
    else (if pages[i].Page? then pages[i].products.GetOr([]) else []) + PagesProducts(pages, i + 1, k)
  }

  /** A successful walk is the concatenation of consecutive pages, every one
      of them answered, and each but the last a full page. */
  lemma {:induction false} PaginateConcatenates(pages: seq<PageResponse>, i: nat) returns (k: nat)
    requires i <= |pages| && Paginate(pages, i).Some?
    ensures i <= k <= |pages|
    ensures Paginate(pages, i).value == PagesProducts(pages, i, k)
    ensures forall j :: i <= j < k ==> pages[j].Page?
    ensures forall j :: i <= j < k - 1 ==> |pages[j].products.GetOr([])| >= PageLimit
    decreases |pages| - i
  {
    if i == |pages| {
      k := i;
    } else {
      var products := pages[i].products.GetOr([]);
      if products == [] || |products| < PageLimit {
        k := i + 1;
        assert PagesProducts(pages, i + 1, k) == [];
        assert products + [] == products;
      } else {
        k := PaginateConcatenates(pages, i + 1);
      }
    }
  }

  /** The walk never looks past a page that ends it: responses to later
      pages do not change the result. */
  lemma {:induction false} PaginateIgnoresLaterPages(pages: seq<PageResponse>, i: nat, stop: nat, later: seq<PageResponse>)
    requires i <= stop < |pages|
    requires pages[stop].Failed? || |pages[stop].products.GetOr([])| < PageLimit
    ensures Paginate(pages, i) == Paginate(pages[..stop + 1] + later, i)
    decreases stop - i
  {
    var other := pages[..stop + 1] + later;
    assert other[i] == pages[i];
    if i < stop {
      PaginateIgnoresLaterPages(pages, i + 1, stop, later);
    }
  }

  // ===========================================================================
  // The HTML fallback

  /** The first `<a>` of a tile whose `href` contains `/products/`: its
      `href`, its stripped text, and the `alt` of the first `<img>` inside it
      that carries one. */
  datatype ProductLink = ProductLink(href: string, text: string, imageAlt: Option<string>)

  /** The first `<img>` of a tile with its `src` and `data-src` attributes. */
  datatype Image = Image(src: Option<string>, dataSrc: Option<string>)

  /** One product container of the collection page: its product link, the
      stripped text of its first title-or-name element (tried `h2`, `h3`,
      `h4`, `div`, `span` in turn), its first image and the stripped text of
      its first price element. */
  datatype Tile = Tile(link: Option<ProductLink>, titleText: Option<string>, image: Option<Image>, priceText: Option<string>)

  const ProductsPath := "/products/"
  const PricingFallback := "See store for pricing"

  /** The name taken from the product link when the tile has no title: the
      link text or else the image `alt`, and nothing at all when the link
      holds no image with an `alt` (the conditional expression applies to
      the whole `or`). */
  function LinkName(l: ProductLink): string {
    if l.imageAlt.Some? then (if l.text != "" then l.text else l.imageAlt.value) else ""
  }

  function TileName(t: Tile): string
    requires t.link.Some?
  {
    if t.titleText.Some? && t.titleText.value != "" then t.titleText.value else LinkName(t.link.value)
  }

  /** A relative product link is made absolute against the store URL. */
  function ProductUrl(base: string, href: string): (url: string)
    ensures StartsWith(href, "http") ==> url == href
    ensures !StartsWith(href, "http") ==> url == base + href
    ensures url[|url| - |href|..] == href
  {
    if StartsWith(href, "http") then href else base + href
  }

  /** `src` or else `data-src`, with a protocol-relative URL given `https:`. */
  function ImageUrl(img: Option<Image>): (url: string)
    ensures !StartsWith(url, "//")
    ensures url == "" <==> img.None? || (img.value.src.GetOr("") == "" && img.value.dataSrc.GetOr("") == "")
  {
    if img.None? then ""
    else
      var u := if img.value.src.GetOr("") != "" then img.value.src.value else img.value.dataSrc.GetOr("");
      if StartsWith(u, "//") then
        assert ("https:" + u)[0] == 'h';
        "https:" + u
      else u
  }

  /** The product object built from one tile, or `None` when the tile is
      skipped: it has no product link, or no name could be found. */
  function TileProduct(base: string, t: Tile): (r: Option<ShopifyProduct>)
    ensures r.Some? <==> t.link.Some? && TileName(t) != ""
    ensures r.Some? ==> r.value.title == Some(TileName(t)) && r.value.productType == Some("")
                        && r.value.bodyHtml == Some("") && |r.value.variants| == 1
                        && r.value.variants[0].Some?
                        && (forall i :: 0 <= i < |r.value.variants[0].value| ==> r.value.variants[0].value[i] != '$')
  {
    if t.link.None? then None
    else
      var name := TileName(t);
      if name == "" then None
      else
        var url := ProductUrl(base, t.link.value.href);
        var image := ImageUrl(t.image);
        var price := t.priceText.GetOr(PricingFallback);
        RemoveAllChar(price, '$');
        Some(ShopifyProduct(
          Some(name),
          Some(if Contains(url, ProductsPath) then AfterLast(url, ProductsPath) else ""),
          Some(""),
          Some(""),
          [Some(RemoveAll(price, "$"))],
          if image != "" then [Some(image)] else []))
  }

  /** A tile without a title whose link holds no image with an `alt` is
      skipped, whatever text the link has. */
  lemma TileWithoutTitleOrAltSkipped(base: string, t: Tile)
    requires t.link.Some? && t.link.value.imageAlt.None?
    requires t.titleText.None? || t.titleText.value == ""
    ensures TileProduct(base, t).None?
  {
  }

  /** A tile's handle is what follows the last `/products/` of its URL; the
      link was chosen for containing `/products/`, so the URL always has it. */
  lemma TileHandle(base: string, t: Tile)
    requires t.link.Some? && TileName(t) != "" && Contains(t.link.value.href, ProductsPath)
    ensures TileProduct(base, t).value.handle == Some(AfterLast(ProductUrl(base, t.link.value.href), ProductsPath))
  {
    var href := t.link.value.href;
    var url := ProductUrl(base, href);
    ContainsInSuffix(url, ProductsPath, |url| - |href|);
  }

  /** The products of the tiles that are not skipped, in page order. */
  function TileProducts(base: string, tiles: seq<Tile>): seq<ShopifyProduct>
    decreases |tiles|
  {
    if tiles == [] then []
    else
      var init := TileProducts(base, tiles[..|tiles| - 1]);
      match TileProduct(base, tiles[|tiles| - 1])
      case None => init
      case Some(p) => init + [p]
  }

  /** Every tile product comes from a tile of the page, in order. */
  lemma {:induction false} TileProductsFromTiles(base: string, tiles: seq<Tile>)
    ensures |TileProducts(base, tiles)| <= |tiles|
    ensures forall p :: p in TileProducts(base, tiles) ==> exists i :: 0 <= i < |tiles| && TileProduct(base, tiles[i]) == Some(p)
    decreases |tiles|
  {
    if tiles != [] {
      var init := tiles[..|tiles| - 1];
      TileProductsFromTiles(base, init);
      forall p | p in TileProducts(base, tiles)
        ensures exists i :: 0 <= i < |tiles| && TileProduct(base, tiles[i]) == Some(p)
      {
        if p in TileProducts(base, init) {
          var i :| 0 <= i < |init| && TileProduct(base, init[i]) == Some(p);
          assert tiles[i] == init[i];
        } else {
          assert TileProduct(base, tiles[|tiles| - 1]) == Some(p);
        }
      }
    }
  }

  /** `scrape_shopify_html`: `page` is `None` when the collection page could
      not be fetched. The result is `None` when nothing was found. */
  method ScrapeShopifyHtml(base: string, page: Option<seq<Tile>>) returns (r: Option<seq<ShopifyProduct>>)
    ensures page.None? ==> r.None?
    ensures page.Some? ==> r == (if TileProducts(base, page.value) == [] then None else Some(TileProducts(base, page.value)))
  {
    if page.None? {
      return None;
    }
    var tiles := page.value;
    var products: seq<ShopifyProduct> := [];
    for i := 0 to |tiles|
      invariant products == TileProducts(base, tiles[..i])
    {
      assert tiles[..i + 1][..i] == tiles[..i];
      var p := TileProduct(base, tiles[i]);
      if p.Some? {
        products := products + [p.value];
      }
    }
    assert tiles[..|tiles|] == tiles;
    r := if products == [] then None else Some(products);
  }

  // ===========================================================================
  // Transformation into store records

  datatype StoreProduct = StoreProduct(
    id: int,
    name: string,
    price: string,
    category: string,
    productType: string,
    image: string,
    link: string,
    description: string)

  /** A price that does not already start with `$` gets one. */
  function FormatPrice(price: string): (r: string)
    ensures StartsWith(r, "$")
    ensures StartsWith(price, "$") ==> r == price
    ensures !StartsWith(price, "$") ==> r[1..] == price
  {
    if StartsWith(price, "$") then price else "$" + price
  }

  lemma FormatPriceIdempotent(price: string)
    ensures FormatPrice(FormatPrice(price)) == FormatPrice(price)
  {
  }

  function FirstVariantPrice(p: ShopifyProduct): string {
    if p.variants != [] && p.variants[0].Some? then p.variants[0].value else "0.00"
  }

  function FirstImage(p: ShopifyProduct): string {
    if p.images != [] then p.images[0].GetOr("") else ""
  }

  /** The product page link, empty when the product has no handle. */
  function ProductLinkFor(base: string, handle: string): (link: string)
    ensures link == "" <==> handle == ""
    ensures link != "" ==> StartsWith(link, base + ProductsPath) && link[|base + ProductsPath|..] == handle
  {
    if handle != "" then base + ProductsPath + handle else ""
  }

  /** The category chain, matched against the lower-cased product type and title.
      The type is searched for `shirt` but the title is not, and the title is
      searched for `hoodie` but not for `sweatshirt`. */
  function ShopifyCategory(productType: string, title: string): string {
    var t := Lower(productType);
    var n := Lower(title);
    if Contains(t, "tee") || Contains(t, "t-shirt") || Contains(t, "shirt") || Contains(n, "tee") || Contains(n, "t-shirt") then TShirts
    else if Contains(t, "hoodie") || Contains(t, "sweatshirt") || Contains(n, "hoodie") then Hoodies
    else if Contains(t, "tank") || Contains(n, "tank") then TankTops
    else if Contains(t, "long sleeve") || Contains(n, "long sleeve") then LongSleeve
    else if AnyIn(t, ["mug", "cup", "bottle"]) || AnyIn(n, ["mug", "cup", "bottle"]) then Drinkware
    else if AnyIn(t, ["hat", "cap", "beanie"]) || AnyIn(n, ["hat", "cap", "beanie"]) then Headwear
    else Merch
  }

  /** The same chain as a keyword table whose first matching rule decides. */
  const ShopifyRules: seq<Rule> := [
    Rule(TShirts, ["tee", "t-shirt", "shirt"], ["tee", "t-shirt"]),
    Rule(Hoodies, ["hoodie", "sweatshirt"], ["hoodie"]),
    Rule(TankTops, ["tank"], ["tank"]),
    Rule(LongSleeve, ["long sleeve"], ["long sleeve"]),
    Rule(Drinkware, ["mug", "cup", "bottle"], ["mug", "cup", "bottle"]),
    Rule(Headwear, ["hat", "cap", "beanie"], ["hat", "cap", "beanie"])
  ]

  /** The chain decides exactly as the table does, so the category is the
      first matching rule's (`FirstMatchIsFirst`), or `Merch`. */
  lemma {:induction false} ShopifyCategoryIsFirstMatch(productType: string, title: string)
    ensures ShopifyCategory(productType, title) == FirstMatch(ShopifyRules, Lower(productType), Lower(title), Merch)
  {
    var t := Lower(productType);
    var n := Lower(title);
    var rs := ShopifyRules;
    AnyInThree(t, "tee", "t-shirt", "shirt");
    AnyInTwo(n, "tee", "t-shirt");
    AnyInTwo(t, "hoodie", "sweatshirt");
    AnyInOne(n, "hoodie");
    AnyInOne(t, "tank");
    AnyInOne(n, "tank");
    AnyInOne(t, "long sleeve");
    AnyInOne(n, "long sleeve");
    assert rs[1..] == [rs[1], rs[2], rs[3], rs[4], rs[5]];
    assert rs[1..][1..] == [rs[2], rs[3], rs[4], rs[5]];
    assert rs[1..][1..][1..] == [rs[3], rs[4], rs[5]];
    assert rs[1..][1..][1..][1..] == [rs[4], rs[5]];
    assert rs[1..][1..][1..][1..][1..] == [rs[5]];
    assert rs[1..][1..][1..][1..][1..][1..] == [];
    assert RuleMatches(rs[0], t, n) <==> Contains(t, "tee") || Contains(t, "t-shirt") || Contains(t, "shirt") || Contains(n, "tee") || Contains(n, "t-shirt");
    assert RuleMatches(rs[1], t, n) <==> Contains(t, "hoodie") || Contains(t, "sweatshirt") || Contains(n, "hoodie");
    assert RuleMatches(rs[2], t, n) <==> Contains(t, "tank") || Contains(n, "tank");
    assert RuleMatches(rs[3], t, n) <==> Contains(t, "long sleeve") || Contains(n, "long sleeve");
    assert RuleMatches(rs[4], t, n) <==> AnyIn(t, ["mug", "cup", "bottle"]) || AnyIn(n, ["mug", "cup", "bottle"]);
    assert RuleMatches(rs[5], t, n) <==> AnyIn(t, ["hat", "cap", "beanie"]) || AnyIn(n, ["hat", "cap", "beanie"]);
    var r5 := rs[1..][1..][1..][1..][1..];
    var r4 := rs[1..][1..][1..][1..];
    var r3 := rs[1..][1..][1..];
    var r2 := rs[1..][1..];
    assert FirstMatch(r5, t, n, Merch) == (if RuleMatches(rs[5], t, n) then Headwear else Merch);
    assert FirstMatch(r4, t, n, Merch) == (if RuleMatches(rs[4], t, n) then Drinkware else FirstMatch(r5, t, n, Merch));
    assert FirstMatch(r3, t, n, Merch) == (if RuleMatches(rs[3], t, n) then LongSleeve else FirstMatch(r4, t, n, Merch));
    assert FirstMatch(r2, t, n, Merch) == (if RuleMatches(rs[2], t, n) then TankTops else FirstMatch(r3, t, n, Merch));
    assert FirstMatch(rs[1..], t, n, Merch) == (if RuleMatches(rs[1], t, n) then Hoodies else FirstMatch(r2, t, n, Merch));
  }

  /** Every product lands in one of the seven categories. */
  lemma ShopifyCategoryKnown(productType: string, title: string)
    ensures KnownCategory(ShopifyCategory(productType, title))
  {
    ShopifyCategoryIsFirstMatch(productType, title);
    var c := FirstMatch(ShopifyRules, Lower(productType), Lower(title), Merch);
    if c != Merch {
      var k :| 0 <= k < |ShopifyRules| && c == ShopifyRules[k].category;
    }
  }

  /** A product type "Sweatshirt" is filed under T-Shirts, not under Hoodies
      & Sweatshirts: `shirt` occurs in it and the T-Shirts test comes first. */
  lemma SweatshirtTypeIsTShirt(title: string)
    ensures ShopifyCategory("sweatshirt", title) == TShirts
  {
    LowerUnchanged("sweatshirt");
    assert OccursAt("sweatshirt", "shirt", 5);
  }

  /** The body HTML without `<p>` and `</p>`, stripped of surrounding white
      space. */
  function CleanBody(bodyHtml: string): (c: string)
    ensures |c| <= |bodyHtml|
    ensures c == [] || (!IsSpace(c[0]) && !IsSpace(c[|c| - 1]))
  {
    Strip(RemoveAll(RemoveAll(bodyHtml, "<p>"), "</p>"))
  }

  /** The sentence used when the body holds no text. */
  function FallbackDescription(title: string): string {
    "Official " + title + " from the Dopamine Flow Energy collection."
  }

  /** The cleaned body cut to its first 200 characters; the fallback sentence
      when the cleaned body is empty. */
  function Description(bodyHtml: string, title: string): (d: string)
    ensures d != ""
    ensures CleanBody(bodyHtml) != "" ==>
              |d| == (if |CleanBody(bodyHtml)| <= 200 then |CleanBody(bodyHtml)| else 200)
              && d == CleanBody(bodyHtml)[..|d|]
    ensures CleanBody(bodyHtml) == "" ==> d == FallbackDescription(title)
  {
    var cleaned := Take(CleanBody(bodyHtml), 200);
    if cleaned != "" then cleaned else FallbackDescription(title)
  }

  /** A body of at most 200 characters with no paragraph tags and no white
      space at its ends is its own description. */
  lemma PlainBodyIsDescription(bodyHtml: string, title: string)
    requires bodyHtml != [] && |bodyHtml| <= 200
    requires !Contains(bodyHtml, "<p>") && !Contains(bodyHtml, "</p>")
    requires !IsSpace(bodyHtml[0]) && !IsSpace(bodyHtml[|bodyHtml| - 1])
    ensures Description(bodyHtml, title) == bodyHtml
  {
    RemoveAllAbsent(bodyHtml, "<p>");
    RemoveAllAbsent(bodyHtml, "</p>");
    assert TrimEnd(bodyHtml) == bodyHtml;
    assert TrimStart(bodyHtml) == bodyHtml;
  }

  /** The store record of the product at position `idx`. The name defaults
      to "Unknown Product", but the category and description read a missing
      title as empty. */
  function TransformOne(p: ShopifyProduct, idx: nat, base: string): (s: StoreProduct)
    ensures s.id == idx + 1
    ensures StartsWith(s.price, "$")
    ensures s.link == "" <==> p.handle.GetOr("") == ""
    ensures s.description != ""
  {
    StoreProduct(
      idx + 1,
      p.title.GetOr("Unknown Product"),
      FormatPrice(FirstVariantPrice(p)),
      ShopifyCategory(p.productType.GetOr(""), p.title.GetOr("")),
      p.productType.GetOr(""),
      FirstImage(p),
      ProductLinkFor(base, p.handle.GetOr("")),
      Description(p.bodyHtml.GetOr(""), p.title.GetOr("")))
  }

  /** `[f(x, i) for i, x in enumerate(xs)]`. */
  function MapIndexed<A, B>(xs: seq<A>, f: (A, nat) -> B): (ys: seq<B>)
    ensures |ys| == |xs|
    decreases |xs|
  {
    if xs == [] then []
    else MapIndexed(xs[..|xs| - 1], f) + [f(xs[|xs| - 1], |xs| - 1)]
  }

  lemma {:induction false} MapIndexedAt<A, B>(xs: seq<A>, f: (A, nat) -> B, i: nat)
    requires i < |xs|
    ensures MapIndexed(xs, f)[i] == f(xs[i], i)
    decreases |xs|
  {
    if i < |xs| - 1 {
      MapIndexedAt(xs[..|xs| - 1], f, i);
    }
  }

  /** The loop of an enumerate: one application per element, in order. */
  method MapIndexedLoop<A, B>(xs: seq<A>, f: (A, nat) -> B) returns (ys: seq<B>)
    ensures ys == MapIndexed(xs, f)
  {
    ys := [];
    for i := 0 to |xs|
      invariant ys == MapIndexed(xs[..i], f)
    {
      assert xs[..i + 1][..i] == xs[..i];
      ys := ys + [f(xs[i], i)];
    }
    assert xs[..|xs|] == xs;
  }

  function Transformer(base: string): (ShopifyProduct, nat) -> StoreProduct {
    (p: ShopifyProduct, idx: nat) => TransformOne(p, idx, base)
  }

  /** The records of the products in input order, numbered from 1. */
  function TransformAll(ps: seq<ShopifyProduct>, base: string): (out: seq<StoreProduct>)
    ensures |out| == |ps|
  {
    MapIndexed(ps, Transformer(base))
  }

  /** The record at position i is the transform of the i-th product with
      id i + 1: nothing is dropped, reordered or renumbered. */
  lemma TransformAllAt(ps: seq<ShopifyProduct>, base: string, i: nat)
    requires i < |ps|
    ensures TransformAll(ps, base)[i] == TransformOne(ps[i], i, base)
    ensures TransformAll(ps, base)[i].id == i + 1
  {
    MapIndexedAt(ps, Transformer(base), i);
  }

  /** `transform_shopify_products`: one record per product, numbered from 1
      in input order. */
  method TransformShopifyProducts(ps: seq<ShopifyProduct>, base: string) returns (out: seq<StoreProduct>)
    ensures out == TransformAll(ps, base)
  {
    out := MapIndexedLoop(ps, Transformer(base));
  }

  /** A tile product keeps its scraped price behind a single `$`, is
      categorised by its name alone, and gets the fallback description. */
  lemma {:induction false} TileRecord(base: string, t: Tile, idx: nat)
    requires TileProduct(base, t).Some?
    ensures var s := TransformOne(TileProduct(base, t).value, idx, base);
            var price := RemoveAll(t.priceText.GetOr(PricingFallback), "$");
            s.price == "$" + price
            && s.category == ShopifyCategory("", TileName(t))
            && s.description == "Official " + TileName(t) + " from the Dopamine Flow Energy collection."
  {
    var p := TileProduct(base, t).value;
    var price := RemoveAll(t.priceText.GetOr(PricingFallback), "$");
    assert FirstVariantPrice(p) == price;
    assert price != [] ==> price[0] != '$';
    assert !StartsWith(price, "$");
    assert RemoveAll(RemoveAll("", "<p>"), "</p>") == "";
  }

  /** `scrape_shopify_store`: the JSON walk when it yields products, else the
      HTML fallback, else nothing. */
  method ScrapeShopifyStore(base: string, pages: seq<PageResponse>, collection: Option<seq<Tile>>)
    returns (products: seq<StoreProduct>)
    ensures var json := Paginate(pages, 0);
            if json.Some? && json.value != [] then products == TransformAll(json.value, base)
            else if collection.Some? && TileProducts(base, collection.value) != [] then products == TransformAll(TileProducts(base, collection.value), base)
            else products == []
  {
    var shopify := ScrapeShopifyJson(pages);
    if shopify.Some? && shopify.value != [] {
      products := TransformShopifyProducts(shopify.value, base);
      return;
    }
    shopify := ScrapeShopifyHtml(base, collection);
    if shopify.Some? && shopify.value != [] {
      products := TransformShopifyProducts(shopify.value, base);
    } else {
      products := [];
    }
  }

  // ===========================================================================
  // The summary

  datatype Summary = Summary(storeUrl: string, totalProducts: nat, byCategory: map<string, nat>)

  function CategoryOf(s: StoreProduct): string {
    s.category
  }

  /** `display_results`: nothing for an empty catalogue; otherwise the
      summary with the size of every category group, which together account
      for every product. */
  method DisplayResults(products: seq<StoreProduct>, base: string) returns (summary: Option<Summary>)
    ensures summary.None? <==> products == []
    ensures summary.Some? ==>
      && summary.value.storeUrl == base
      && summary.value.totalProducts == |products|
      && summary.value.byCategory.Keys == set k | k in Keys(products, CategoryOf)
      && (forall k :: k in summary.value.byCategory ==> summary.value.byCategory[k] == |Filter(products, CategoryOf, k)|)
      && SumCounts(Keys(products, CategoryOf), products, CategoryOf) == summary.value.totalProducts
  {
    if products == [] {
      return None;
    }
    var order, groups := GroupByCategory(products, CategoryOf);
    var counts := map k | k in groups :: |groups[k]|;
    GroupSizesSum(products, CategoryOf);
    summary := Some(Summary(base, |products|, counts));
  }
}
