/** The comprehensive scraper of the Dopamine Flow Energy Spring store: seven
    listed pages scraped in order, merged by `name|link`, numbered, and
    summarised per category. */
module SpringComplete {
  import opened Wrappers
  import opened Catalog
  import opened SpringTiles

  const StoreBase := "https://dopamine-flow-energy.creator-spring.com"

  /** The store pages visited, in this order. */
  const PagePaths: seq<string> := ["/", "/apparel", "/unisex-men-s-t-shirts", "/hoodies-sweatshirts",
                                   "/tank-tops", "/long-sleeve-tees", "/women-s-athletic"]

  function Describe(name: string): string {
    "Official " + name + " from the Dopamine Flow Energy collection."
  }

  /** `scrape_spring_store_complete`: `pages[i]` is the tile list of the
      page at `PagePaths[i]`, or `None` when its fetch failed and it was
      skipped. The catalogue holds the first record of every `name|link`
      key in page order, numbered from 1, each described by its own name. */
  method ScrapeSpringStoreComplete(pages: seq<Option<seq<SpringTile>>>) returns (products: seq<SpringProduct>)
    requires |pages| == |PagePaths|
    ensures products == Numbered(Merged(StoreBase, pages), Describe)
    ensures forall i :: 0 <= i < |products| ==>
              products[i].id == Some(i + 1) && products[i].description == Some(Describe(products[i].name))
    ensures forall i, j :: 0 <= i < j < |products| ==> ProductKey(products[i]) != ProductKey(products[j])
  {
    var newCounts;
    products, newCounts := ScrapeStorePages(StoreBase, pages, Describe);
    MergedKeysUnique(StoreBase, pages);
    var m := Merged(StoreBase, pages);
    forall i, j | 0 <= i < j < |products| ensures ProductKey(products[i]) != ProductKey(products[j]) {
      assert ProductKey(products[i]) == ProductKey(m[i]) && ProductKey(products[j]) == ProductKey(m[j]);
    }
  }

  datatype Summary = Summary(totalProducts: nat, byCategory: map<string, nat>)

  function CategoryOf(p: SpringProduct): string {
    p.category
  }

  /** `display_complete_results`: nothing for an empty catalogue; otherwise
      the size of every category group, together accounting for every
      product. */
  method DisplayCompleteResults(products: seq<SpringProduct>) returns (summary: Option<Summary>)
    ensures summary.None? <==> products == []
    ensures summary.Some? ==>
      && summary.value.totalProducts == |products|
      && summary.value.byCategory.Keys == set k | k in Keys(products, CategoryOf)
      && (forall k :: k in summary.value.byCategory ==> summary.value.byCategory[k] == |Filter(products, CategoryOf, k)|)
      && SumCounts(Keys(products, CategoryOf), products, CategoryOf) == summary.value.totalProducts
  {
    if products == [] {
      return None;
    }
    var order, groups := GroupByCategory(products, CategoryOf);
    var counts := map k | k in groups :: |groups[k]|;
    GroupSizesSum(products, CategoryOf);
    summary := Some(Summary(|products|, counts));
  }
}
