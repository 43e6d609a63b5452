/** The Spring storefront tile pipeline shared by the multi-page scrapers
    (`scrape_spring_store_complete.py` and `scrape_nori_lamour.py`, whose
    extraction code is the same): turning the `product-tile` elements of one
    page into product records, merging the pages with the first `name|link`
    winning, and numbering the result. The HTML parse is an input: a tile is
    given by the parts of it the scraper looks at. */
module SpringTiles {
  import opened Wrappers
  import opened Text
  import opened Catalog

  // ===========================================================================
  // Tiles and records

  /** The first `<img>` inside a listing link, with its `alt` and `src`. */
  datatype LinkImage = LinkImage(alt: Option<string>, src: Option<string>)

  /** The first `<a>` of a tile whose `href` matches `/listing/`, with the
      stripped text of its `sr-only` span and its first image. */
  datatype ListingLink = ListingLink(href: string, srOnly: Option<string>, image: Option<LinkImage>)

  /** One `data-testid="product-tile"` element: its listing link, the
      stripped text of its `productType` span, its `productPrice` span
      (`Some(None)` when that span holds no inner span, otherwise the
      stripped text of the inner span), and the stripped text of its first
      `price` paragraph. */
  datatype SpringTile = SpringTile(
    link: Option<ListingLink>,
    productType: Option<string>,
    priceSpan: Option<Option<string>>,
    priceParagraph: Option<string>)

  /** A product record. `id` and `description` are absent until the records
      of all pages are numbered. */
  datatype SpringProduct = SpringProduct(
    name: string,
    price: string,
    category: string,
    productType: string,
    image: string,
    link: string,
    id: Option<int>,
    description: Option<string>)

  const PricingFallback := "See store for pricing"

  /** The name from the `sr-only` span, else the stripped image `alt`; empty
      when neither gives one. */
  function ListingName(l: ListingLink): string {
    if l.srOnly.Some? && l.srOnly.value != "" then l.srOnly.value
    else if l.image.Some? then Strip(l.image.value.alt.GetOr(""))
    else ""
  }

  function FullLink(base: string, href: string): string {
    if href != "" then base + href else ""
  }

  /** The full link of a tile's listing link; the empty string for a tile
      without one (such a tile is skipped before its link is read). */
  function LinkOf(base: string, t: SpringTile): string {
    if t.link.Some? then FullLink(base, t.link.value.href) else ""
  }

  function TilePrice(t: SpringTile): string {
    if t.priceSpan.Some? && t.priceSpan.value.Some? then t.priceSpan.value.value else PricingFallback
  }

  /** The category chain, each rule matched against the lower-cased name and the
      lower-cased product type alike. */
  function SpringCategory(name: string, productType: string): string {
    var n := Lower(name);
    var t := Lower(productType);
    if AnyIn(n, ["tee", "t-shirt", "shirt"]) || AnyIn(t, ["tee", "t-shirt", "shirt"]) then TShirts
    else if AnyIn(n, ["hoodie", "sweatshirt"]) || AnyIn(t, ["hoodie", "sweatshirt"]) then Hoodies
    else if AnyIn(n, ["tank"]) || AnyIn(t, ["tank"]) then TankTops
    else if AnyIn(n, ["long sleeve"]) || AnyIn(t, ["long sleeve"]) then LongSleeve
    else if AnyIn(n, ["mug", "cup", "bottle"]) || AnyIn(t, ["mug", "cup", "bottle"]) then Drinkware
    else if AnyIn(n, ["hat", "cap", "beanie"]) || AnyIn(t, ["hat", "cap", "beanie"]) then Headwear
    else Merch
  }

  /** The same chain as a keyword table with the same words for type and
      name. */
  const SpringRules: seq<Rule> := [
    Rule(TShirts, ["tee", "t-shirt", "shirt"], ["tee", "t-shirt", "shirt"]),
    Rule(Hoodies, ["hoodie", "sweatshirt"], ["hoodie", "sweatshirt"]),
    Rule(TankTops, ["tank"], ["tank"]),
    Rule(LongSleeve, ["long sleeve"], ["long sleeve"]),
    Rule(Drinkware, ["mug", "cup", "bottle"], ["mug", "cup", "bottle"]),
    Rule(Headwear, ["hat", "cap", "beanie"], ["hat", "cap", "beanie"])
  ]

  /** The chain decides as the table does: the first rule matching the name
      or the type wins, `Merch` when none does. */
  lemma {:induction false} SpringCategoryIsFirstMatch(name: string, productType: string)
    ensures SpringCategory(name, productType) == FirstMatch(SpringRules, Lower(productType), Lower(name), Merch)
  {
    var t := Lower(productType);
    var n := Lower(name);
    var rs := SpringRules;
    var r5 := rs[1..][1..][1..][1..][1..];
    var r4 := rs[1..][1..][1..][1..];
    var r3 := rs[1..][1..][1..];
    var r2 := rs[1..][1..];
    assert rs[1..] == [rs[1], rs[2], rs[3], rs[4], rs[5]];
    assert r2 == [rs[2], rs[3], rs[4], rs[5]];
    assert r3 == [rs[3], rs[4], rs[5]];
    assert r4 == [rs[4], rs[5]];
    assert r5 == [rs[5]];
    assert r5[1..] == [];
    assert FirstMatch(r5, t, n, Merch) == (if RuleMatches(rs[5], t, n) then Headwear else Merch);
    assert FirstMatch(r4, t, n, Merch) == (if RuleMatches(rs[4], t, n) then Drinkware else FirstMatch(r5, t, n, Merch));
    assert FirstMatch(r3, t, n, Merch) == (if RuleMatches(rs[3], t, n) then LongSleeve else FirstMatch(r4, t, n, Merch));
    assert FirstMatch(r2, t, n, Merch) == (if RuleMatches(rs[2], t, n) then TankTops else FirstMatch(r3, t, n, Merch));
    assert FirstMatch(rs[1..], t, n, Merch) == (if RuleMatches(rs[1], t, n) then Hoodies else FirstMatch(r2, t, n, Merch));
  }

  /** Every tile lands in one of the seven categories. */
  lemma SpringCategoryKnown(name: string, productType: string)
    ensures KnownCategory(SpringCategory(name, productType))
  {
    SpringCategoryIsFirstMatch(name, productType);
    var c := FirstMatch(SpringRules, Lower(productType), Lower(name), Merch);
    if c != Merch {
      var k :| 0 <= k < |SpringRules| && c == SpringRules[k].category;
    }
  }

  /** A "Sweatshirt" is filed under T-Shirts: `shirt` occurs in it and the
      T-Shirts rule comes first. */
  lemma SweatshirtIsTShirt(productType: string)
    ensures SpringCategory("sweatshirt", productType) == TShirts
  {
    LowerUnchanged("sweatshirt");
    assert OccursAt("sweatshirt", "shirt", 5);
    AnyInThree("sweatshirt", "tee", "t-shirt", "shirt");
  }

  /** The record a tile with a listing link produces. */
  function TileRecord(base: string, t: SpringTile): SpringProduct
    requires t.link.Some?
  {
    var l := t.link.value;
    var productType := t.productType.GetOr("");
    SpringProduct(
      ListingName(l),
      TilePrice(t),
      SpringCategory(ListingName(l), productType),
      productType,
      if l.image.Some? then l.image.value.src.GetOr("") else "",
      FullLink(base, l.href),
      None,
      None)
  }

  // ===========================================================================
  // One page

  /** The set of full links seen so far and the records produced. */
  datatype Extraction = Extraction(seenLinks: set<string>, products: seq<SpringProduct>)

  /** One tile: skipped without a listing link or with an already seen full
      link; otherwise its link is marked seen, and then it is skipped when it
      has no name. */
  function ExtractStep(base: string, e: Extraction, t: SpringTile): Extraction {
    if t.link.None? then e
    else
      var full := FullLink(base, t.link.value.href);
      if full in e.seenLinks then e
      else if ListingName(t.link.value) == "" then Extraction(e.seenLinks + {full}, e.products)
      else Extraction(e.seenLinks + {full}, e.products + [TileRecord(base, t)])
  }

  function Extract(base: string, tiles: seq<SpringTile>): Extraction
    decreases |tiles|
  {
    if tiles == [] then Extraction({}, [])
    else ExtractStep(base, Extract(base, tiles[..|tiles| - 1]), tiles[|tiles| - 1])
  }

  /** `extract_products_from_html` over the tiles of one page. */
  method ExtractProductsFromHtml(base: string, tiles: seq<SpringTile>) returns (products: seq<SpringProduct>)
    ensures products == Extract(base, tiles).products
  {
    products := [];
    var seenLinks: set<string> := {};
    for i := 0 to |tiles|
      invariant Extraction(seenLinks, products) == Extract(base, tiles[..i])
    {
      assert tiles[..i + 1][..i] == tiles[..i];
      var tile := tiles[i];
      if tile.link.None? {
        continue;
      }
      var fullLink := FullLink(base, tile.link.value.href);
      if fullLink in seenLinks {
        continue;
      }
      seenLinks := seenLinks + {fullLink};
      var name := ListingName(tile.link.value);
      if name == "" {
        continue;
      }
      products := products + [TileRecord(base, tile)];
    }
    assert tiles[..|tiles|] == tiles;
  }

  /** The links seen are exactly the full links of the tiles that have a
      listing link. */
  lemma {:induction false} ExtractSeenLinks(base: string, tiles: seq<SpringTile>)
    ensures Extract(base, tiles).seenLinks == set i | 0 <= i < |tiles| && tiles[i].link.Some? :: LinkOf(base, tiles[i])
    decreases |tiles|
  {
    if tiles != [] {
      var init := tiles[..|tiles| - 1];
      ExtractSeenLinks(base, init);
      var last := tiles[|tiles| - 1];
      var whole := set i | 0 <= i < |tiles| && tiles[i].link.Some? :: LinkOf(base, tiles[i]);
      var prev := set i | 0 <= i < |init| && init[i].link.Some? :: LinkOf(base, init[i]);
      assert whole == prev + (if last.link.Some? then {LinkOf(base, last)} else {}) by {
        forall x | x in whole ensures x in prev + (if last.link.Some? then {LinkOf(base, last)} else {}) {
          var i :| 0 <= i < |tiles| && tiles[i].link.Some? && x == LinkOf(base, tiles[i]);
          if i < |init| {
            assert tiles[i] == init[i];
          }
        }
        forall x | x in prev ensures x in whole {
          var i :| 0 <= i < |init| && init[i].link.Some? && x == LinkOf(base, init[i]);
          assert tiles[i] == init[i];
        }
      }
    }
  }

  /** Within one page no two records share a link, and every record's link
      has been seen. */
  lemma {:induction false} ExtractLinksDistinct(base: string, tiles: seq<SpringTile>)
    ensures var e := Extract(base, tiles);
            (forall i, j :: 0 <= i < j < |e.products| ==> e.products[i].link != e.products[j].link)
            && (forall p :: p in e.products ==> p.link in e.seenLinks)
    decreases |tiles|
  {
    if tiles != [] {
      var init := tiles[..|tiles| - 1];
      ExtractLinksDistinct(base, init);
      var prev := Extract(base, init);
      var e := Extract(base, tiles);
      var t := tiles[|tiles| - 1];
      if e.products != prev.products {
        var r := TileRecord(base, t);
        assert e.products == prev.products + [r];
        forall i, j | 0 <= i < j < |e.products| ensures e.products[i].link != e.products[j].link {
          if j == |prev.products| {
            assert e.products[i] in prev.products;
          } else {
            assert e.products[i] == prev.products[i] && e.products[j] == prev.products[j];
          }
        }
      }
    }
  }

  /** Only tiles with a listing link and a name produce records. */
  lemma {:induction false} ExtractFromNamedTiles(base: string, tiles: seq<SpringTile>)
    ensures |Extract(base, tiles).products| <= |tiles|
    ensures forall p :: p in Extract(base, tiles).products ==>
              exists i :: 0 <= i < |tiles| && tiles[i].link.Some? && ListingName(tiles[i].link.value) != ""
                          && p == TileRecord(base, tiles[i])
    decreases |tiles|
  {
    if tiles != [] {
      var init := tiles[..|tiles| - 1];
      ExtractFromNamedTiles(base, init);
      forall p | p in Extract(base, tiles).products
        ensures exists i :: 0 <= i < |tiles| && tiles[i].link.Some? && ListingName(tiles[i].link.value) != ""
                            && p == TileRecord(base, tiles[i])
      {
        if p in Extract(base, init).products {
          var i :| 0 <= i < |init| && init[i].link.Some? && ListingName(init[i].link.value) != ""
                   && p == TileRecord(base, init[i]);
          assert tiles[i] == init[i];
        } else {
          assert tiles[|tiles| - 1].link.Some?;
        }
      }
    }
  }

  /** A nameless tile still consumes its link: when it is the first tile
      with that link, no record of the page carries the link, even if a
      later tile with the same link has a name. */
  lemma {:induction false} NamelessTileConsumesLink(base: string, tiles: seq<SpringTile>, k: nat)
    requires k < |tiles| && tiles[k].link.Some? && ListingName(tiles[k].link.value) == ""
    requires forall i :: 0 <= i < k && tiles[i].link.Some? ==> LinkOf(base, tiles[i]) != LinkOf(base, tiles[k])
    ensures LinkOf(base, tiles[k]) in Extract(base, tiles).seenLinks
    ensures forall p :: p in Extract(base, tiles).products ==> p.link != LinkOf(base, tiles[k])
    decreases |tiles|
  {
    var link := LinkOf(base, tiles[k]);
    var init := tiles[..|tiles| - 1];
    if |tiles| == k + 1 {
      ExtractSeenLinks(base, init);
      ExtractLinksDistinct(base, init);
    } else {
      forall i | 0 <= i <= k ensures init[i] == tiles[i] { }
      NamelessTileConsumesLink(base, init, k);
    }
  }

  // ===========================================================================
  // All pages

  /** The records of one page; a page whose fetch failed gives none. */
  function PageProducts(base: string, page: Option<seq<SpringTile>>): seq<SpringProduct> {
    if page.None? then [] else Extract(base, page.value).products
  }

  /** The records of all pages, in page order, before de-duplication. */
  function AllPageProducts(base: string, pages: seq<Option<seq<SpringTile>>>): seq<SpringProduct>
    decreases |pages|
  {
    if pages == [] then []
    else AllPageProducts(base, pages[..|pages| - 1]) + PageProducts(base, pages[|pages| - 1])
  }

  /** The key by which records from different pages are matched. */
  function ProductKey(p: SpringProduct): string {
    p.name + "|" + p.link
  }

  /** The merged catalogue: the first record of every key. */
  function Merged(base: string, pages: seq<Option<seq<SpringTile>>>): seq<SpringProduct> {
    FirstByKey(AllPageProducts(base, pages), ProductKey)
  }

  /** The records of the first pages come first among those of all pages. */
  lemma {:induction false} AllPageProductsPrefix(base: string, pages: seq<Option<seq<SpringTile>>>, n: nat)
    requires n <= |pages|
    ensures var part := AllPageProducts(base, pages[..n]);
            |part| <= |AllPageProducts(base, pages)| && AllPageProducts(base, pages)[..|part|] == part
    decreases |pages|
  {
    if n < |pages| {
      var init := pages[..|pages| - 1];
      assert init[..n] == pages[..n];
      AllPageProductsPrefix(base, init, n);
    } else {
      assert pages[..n] == pages;
    }
  }

  /** Later pages never displace what earlier pages contributed. */
  lemma MergedPrefix(base: string, pages: seq<Option<seq<SpringTile>>>, n: nat)
    requires n <= |pages|
    ensures var part := Merged(base, pages[..n]);
            |part| <= |Merged(base, pages)| && Merged(base, pages)[..|part|] == part
  {
    var all := AllPageProducts(base, pages);
    var part := AllPageProducts(base, pages[..n]);
    AllPageProductsPrefix(base, pages, n);
    FirstByKeyPrefix(all, |part|, ProductKey);
    assert all[..|part|] == part;
  }

  /** The inner loop over one page's records: a record whose key has not
      been seen is appended; `added` counts the appended records. */
  method AddUnseen(done: seq<SpringProduct>, products: seq<SpringProduct>, all0: seq<SpringProduct>, seen0: set<string>)
    returns (all: seq<SpringProduct>, seenKeys: set<string>, added: int)
    requires all0 == FirstByKey(done, ProductKey) && seen0 == KeySet(done, ProductKey)
    ensures all == FirstByKey(done + products, ProductKey)
    ensures seenKeys == KeySet(done + products, ProductKey)
    ensures added == |all| - |all0|
  {
    all, seenKeys, added := all0, seen0, 0;
    assert done + products[..0] == done;
    for j := 0 to |products|
      invariant all == FirstByKey(done + products[..j], ProductKey)
      invariant seenKeys == KeySet(done + products[..j], ProductKey)
      invariant added == |all| - |all0|
    {
      var p := products[j];
      var xs := done + products[..j];
      assert done + products[..j + 1] == xs + [p];
      assert (xs + [p])[..|xs|] == xs;
      KeySetSnoc(xs, p, ProductKey);
      if ProductKey(p) !in seenKeys {
        seenKeys := seenKeys + {ProductKey(p)};
        all := all + [p];
        added := added + 1;
      }
    }
    assert products[..|products|] == products;
  }

  /** The loop over pages, keeping the first record of each `name|link`
      key; `newCounts[i]` is the number of records page `i` added. */
  method MergePages(base: string, pages: seq<Option<seq<SpringTile>>>)
    returns (all: seq<SpringProduct>, newCounts: seq<int>)
    ensures all == Merged(base, pages)
    ensures |newCounts| == |pages|
    ensures forall i :: 0 <= i < |pages| ==> newCounts[i] == |Merged(base, pages[..i + 1])| - |Merged(base, pages[..i])|
  {
    all := [];
    newCounts := [];
    var seenKeys: set<string> := {};
    for i := 0 to |pages|
      invariant all == Merged(base, pages[..i])
      invariant seenKeys == KeySet(AllPageProducts(base, pages[..i]), ProductKey)
      invariant |newCounts| == i
      invariant forall m :: 0 <= m < i ==> newCounts[m] == |Merged(base, pages[..m + 1])| - |Merged(base, pages[..m])|
    {
      var products: seq<SpringProduct> := [];
      if pages[i].Some? {
        products := ExtractProductsFromHtml(base, pages[i].value);
      }
      assert pages[..i + 1][..i] == pages[..i];
      assert AllPageProducts(base, pages[..i + 1]) == AllPageProducts(base, pages[..i]) + products;
      var newProducts;
      all, seenKeys, newProducts := AddUnseen(AllPageProducts(base, pages[..i]), products, all, seenKeys);
      newCounts := newCounts + [newProducts];
    }
    assert pages[..|pages|] == pages;
  }

  /** No two merged records share a `name|link` key, and every key found on
      any page is represented. */
  lemma MergedKeysUnique(base: string, pages: seq<Option<seq<SpringTile>>>)
    ensures var m := Merged(base, pages);
            (forall i, j :: 0 <= i < j < |m| ==> ProductKey(m[i]) != ProductKey(m[j]))
            && KeySet(m, ProductKey) == KeySet(AllPageProducts(base, pages), ProductKey)
  {
    FirstByKeyUnique(AllPageProducts(base, pages), ProductKey);
  }

  /** Every record of every page carries one of the seven categories, so
      the merged catalogue does too. */
  lemma {:induction false} AllCategoriesKnown(base: string, pages: seq<Option<seq<SpringTile>>>)
    ensures forall p :: p in AllPageProducts(base, pages) ==> KnownCategory(p.category)
    ensures forall p :: p in Merged(base, pages) ==> KnownCategory(p.category)
    decreases |pages|
  {
    if pages != [] {
      var init := pages[..|pages| - 1];
      AllCategoriesKnown(base, init);
      var last := pages[|pages| - 1];
      if last.Some? {
        ExtractFromNamedTiles(base, last.value);
        forall p | p in PageProducts(base, last) ensures KnownCategory(p.category) {
          var i :| 0 <= i < |last.value| && last.value[i].link.Some? && ListingName(last.value[i].link.value) != ""
                   && p == TileRecord(base, last.value[i]);
          SpringCategoryKnown(p.name, p.productType);
        }
      }
    }
    FirstByKeySubset(AllPageProducts(base, pages), ProductKey);
  }

  // ===========================================================================
  // Numbering

  /** The records with ids `1..n` in list order and each description built
      from the record's own name; nothing else changes. */
  function Numbered(ps: seq<SpringProduct>, describe: string -> string): (r: seq<SpringProduct>)
    ensures |r| == |ps|
    ensures forall i :: 0 <= i < |r| ==> r[i].id == Some(i + 1) && r[i].description == Some(describe(ps[i].name))
    ensures forall i :: 0 <= i < |r| ==> r[i].(id := None, description := None) == ps[i].(id := None, description := None)
  {
    seq(|ps|, i requires 0 <= i < |ps| => ps[i].(id := Some(i + 1), description := Some(describe(ps[i].name))))
  }

  /** The final loop, which writes `id` and `description` into each record
      in place. */
  method AssignIds(products: array<SpringProduct>, describe: string -> string)
    modifies products
    ensures products[..] == Numbered(old(products[..]), describe)
  {
    for idx := 0 to products.Length
      invariant products[..idx] == Numbered(old(products[..]), describe)[..idx]
      invariant products[idx..] == old(products[..])[idx..]
    {
      products[idx] := products[idx].(id := Some(idx + 1), description := Some(describe(products[idx].name)));
    }
  }

  /** The whole multi-page scrape: `pages[i]` is the tile list of the i-th
      page, `None` when its fetch failed. */
  method ScrapeStorePages(base: string, pages: seq<Option<seq<SpringTile>>>, describe: string -> string)
    returns (products: seq<SpringProduct>, newCounts: seq<int>)
    ensures products == Numbered(Merged(base, pages), describe)
    ensures |newCounts| == |pages|
    ensures forall i :: 0 <= i < |pages| ==> newCounts[i] == |Merged(base, pages[..i + 1])| - |Merged(base, pages[..i])|
  {
    var all;
    all, newCounts := MergePages(base, pages);
    var records := new SpringProduct[|all|](i requires 0 <= i < |all| => all[i]);
    assert records[..] == all;
    AssignIds(records, describe);
    products := records[..];
  }
}
