/** The Nori L'Amour Spring store scraper: the same multi-page pipeline as
    the Dopamine Flow Energy one, on its own store, with its own description
    sentence and a category breakdown. */
module NoriLamour {
  import opened Wrappers
  import opened Catalog
  import opened SpringTiles

  const StoreBase := "https://nori-lamour.creator-spring.com"

  /** The store pages visited, in this order. */
  const PagePaths: seq<string> := ["/", "/apparel", "/unisex-men-s-t-shirts", "/hoodies-sweatshirts",
                                   "/tank-tops", "/long-sleeve-tees", "/women-s-athletic"]

  function Describe(name: string): string {
    "Refined " + name + " from the Nori L'Amour collection."
  }

  /** `scrape_nori_lamour_store`: the first record of every `name|link` key
      in page order, numbered from 1 with the Nori L'Amour description. The
      chain's initial "Apparel" is always overwritten, so every category is
      one of the seven of the chain. */
  method ScrapeNoriLamourStore(pages: seq<Option<seq<SpringTile>>>) returns (products: seq<SpringProduct>)
    requires |pages| == |PagePaths|
    ensures products == Numbered(Merged(StoreBase, pages), Describe)
    ensures forall i :: 0 <= i < |products| ==>
              products[i].id == Some(i + 1)
              && products[i].description == Some("Refined " + products[i].name + " from the Nori L'Amour collection.")
    ensures forall p :: p in products ==> KnownCategory(p.category) && p.category != Apparel
  {
    var newCounts;
    products, newCounts := ScrapeStorePages(StoreBase, pages, Describe);
    AllCategoriesKnown(StoreBase, pages);
    var m := Merged(StoreBase, pages);
    forall p | p in products ensures KnownCategory(p.category) && p.category != Apparel {
      var i :| 0 <= i < |products| && products[i] == p;
      assert p.category == m[i].category;
      assert m[i] in m;
    }
  }

  function CategoryOf(p: SpringProduct): string {
    p.category
  }

  /** The category breakdown of the main block: each category that occurs
      with its number of products; the counts add up to the total. */
  method CategoryBreakdown(products: seq<SpringProduct>) returns (counts: map<string, nat>)
    ensures counts.Keys == set k | k in Keys(products, CategoryOf)
    ensures forall k :: k in counts ==> counts[k] == |Filter(products, CategoryOf, k)|
    ensures SumCounts(Keys(products, CategoryOf), products, CategoryOf) == |products|
  {
    counts := CountByCategory(products, CategoryOf);
    GroupSizesSum(products, CategoryOf);
  }
}
