/** The single-page Spring scraper that de-duplicates by name: records are
    numbered as they are appended and categorised from the name alone. */
module SpringFinal {
  import opened Wrappers
  import opened Text
  import opened Catalog
  import opened SpringTiles

  const StoreDomain := "https://dopamine-flow-energy.creator-spring.com"

  datatype FinalProduct = FinalProduct(
    id: int,
    name: string,
    price: string,
    category: string,
    image: string,
    link: string,
    description: string)

  /** The name-only chain: any clothing word gives "Apparel". */
  function FinalCategory(name: string): string {
    var n := Lower(name);
    if AnyIn(n, ["tee", "t-shirt", "shirt", "hoodie", "sweatshirt"]) then Apparel
    else if AnyIn(n, ["mug", "cup", "bottle"]) then Drinkware
    else if AnyIn(n, ["hat", "cap", "beanie"]) then Headwear
    else Merch
  }

  /** The chain as a keyword table that never looks at a product type. */
  const FinalRules: seq<Rule> := [
    Rule(Apparel, [], ["tee", "t-shirt", "shirt", "hoodie", "sweatshirt"]),
    Rule(Drinkware, [], ["mug", "cup", "bottle"]),
    Rule(Headwear, [], ["hat", "cap", "beanie"])
  ]

  /** The chain decides as the table does, whatever the product type, and
      yields one of four categories. */
  lemma {:induction false} FinalCategoryIsFirstMatch(name: string, productType: string)
    ensures FinalCategory(name) == FirstMatch(FinalRules, productType, Lower(name), Merch)
    ensures FinalCategory(name) in {Apparel, Drinkware, Headwear, Merch}
  {
    var n := Lower(name);
    var rs := FinalRules;
    assert rs[1..] == [rs[1], rs[2]];
    assert rs[1..][1..] == [rs[2]];
    assert rs[1..][1..][1..] == [];
    assert !AnyIn(productType, []);
    assert FirstMatch(rs[1..][1..], productType, n, Merch) == (if RuleMatches(rs[2], productType, n) then Headwear else Merch);
    assert FirstMatch(rs[1..], productType, n, Merch) == (if RuleMatches(rs[1], productType, n) then Drinkware else FirstMatch(rs[1..][1..], productType, n, Merch));
  }

  /** The record of a named tile appended when `count` records precede it. */
  function FinalRecord(t: SpringTile, count: nat): FinalProduct
    requires t.link.Some?
  {
    var l := t.link.value;
    var name := ListingName(l);
    FinalProduct(
      count + 1,
      name,
      t.priceParagraph.GetOr(PricingFallback),
      FinalCategory(name),
      if l.image.Some? then l.image.value.src.GetOr("") else "",
      if l.href != "" then StoreDomain + l.href else "",
      "Official " + name + " from the Dopamine Flow Energy collection.")
  }

  datatype NameScan = NameScan(seenNames: set<string>, products: seq<FinalProduct>)

  /** One tile: skipped without a listing link, without a name or with a
      name already seen; otherwise its name is marked seen and its record is
      appended with the next id. */
  function ScanStep(s: NameScan, t: SpringTile): NameScan {
    if t.link.None? then s
    else
      var name := ListingName(t.link.value);
      if name == "" || name in s.seenNames then s
      else NameScan(s.seenNames + {name}, s.products + [FinalRecord(t, |s.products|)])
  }

  function Scan(tiles: seq<SpringTile>): NameScan
    decreases |tiles|
  {
    if tiles == [] then NameScan({}, [])
    else ScanStep(Scan(tiles[..|tiles| - 1]), tiles[|tiles| - 1])
  }

  /** `scrape_spring_store`: `page` is the tile list of the store page, or
      `None` when the fetch failed, which gives no records. */
  method ScrapeSpringStore(page: Option<seq<SpringTile>>) returns (products: seq<FinalProduct>)
    ensures page.None? ==> products == []
    ensures page.Some? ==> products == Scan(page.value).products
  {
    if page.None? {
      return [];
    }
    var tiles := page.value;
    products := [];
    var seenNames: set<string> := {};
    for i := 0 to |tiles|
      invariant NameScan(seenNames, products) == Scan(tiles[..i])
    {
      assert tiles[..i + 1][..i] == tiles[..i];
      var tile := tiles[i];
      if tile.link.None? {
        continue;
      }
      var name := ListingName(tile.link.value);
      if name == "" || name in seenNames {
        continue;
      }
      seenNames := seenNames + {name};
      products := products + [FinalRecord(tile, |products|)];
    }
    assert tiles[..|tiles|] == tiles;
  }

  /** No two records share a name, every name is non-empty and marked seen,
      and the ids run 1..n in list order. */
  lemma {:induction false} ScanInvariant(tiles: seq<SpringTile>)
    ensures forall i, j :: 0 <= i < j < |Scan(tiles).products| ==> Scan(tiles).products[i].name != Scan(tiles).products[j].name
    ensures forall i :: 0 <= i < |Scan(tiles).products| ==>
              Scan(tiles).products[i].name != "" && Scan(tiles).products[i].name in Scan(tiles).seenNames
    ensures forall i :: 0 <= i < |Scan(tiles).products| ==> Scan(tiles).products[i].id == i + 1
    decreases |tiles|
  {
    if tiles != [] {
      var init := tiles[..|tiles| - 1];
      ScanInvariant(init);
      var prev := Scan(init);
      var s := Scan(tiles);
      var t := tiles[|tiles| - 1];
      if s != prev {
        var n := |prev.products|;
        var name := ListingName(t.link.value);
        assert name !in prev.seenNames;
        assert s == NameScan(prev.seenNames + {name}, prev.products + [FinalRecord(t, n)]);
        assert s.products[n].name == name && s.products[n].id == n + 1;
        forall i | 0 <= i < n ensures s.products[i] == prev.products[i] { }
      }
    }
  }

  /** Every record comes from a tile with a listing link, describes its own
      name, and has the link made from the store domain, or none when the
      `href` is empty. */
  lemma {:induction false} ScanRecordsFromTiles(tiles: seq<SpringTile>)
    ensures forall p :: p in Scan(tiles).products ==>
              p.description == "Official " + p.name + " from the Dopamine Flow Energy collection."
              && FinalCategory(p.name) == p.category
              && exists i :: 0 <= i < |tiles| && tiles[i].link.Some? && p.name == ListingName(tiles[i].link.value)
                             && p.link == (if tiles[i].link.value.href != "" then StoreDomain + tiles[i].link.value.href else "")
                             && p.price == tiles[i].priceParagraph.GetOr(PricingFallback)
    decreases |tiles|
  {
    if tiles != [] {
      var init := tiles[..|tiles| - 1];
      ScanRecordsFromTiles(init);
      forall p | p in Scan(tiles).products
        ensures exists i :: 0 <= i < |tiles| && tiles[i].link.Some? && p.name == ListingName(tiles[i].link.value)
                            && p.link == (if tiles[i].link.value.href != "" then StoreDomain + tiles[i].link.value.href else "")
                            && p.price == tiles[i].priceParagraph.GetOr(PricingFallback)
      {
        if p in Scan(init).products {
          var i :| 0 <= i < |init| && init[i].link.Some? && p.name == ListingName(init[i].link.value)
                   && p.link == (if init[i].link.value.href != "" then StoreDomain + init[i].link.value.href else "")
                   && p.price == init[i].priceParagraph.GetOr(PricingFallback);
          assert tiles[i] == init[i];
        } else {
          assert p == FinalRecord(tiles[|tiles| - 1], |Scan(init).products|);
        }
      }
    }
  }
}
