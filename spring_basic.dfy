/** The first Spring scraper: product cards found by a class selector, or by
    a test id when the class finds none, each turned into a record numbered
    by its card position. The records are the list the scraper prints; the
    Python function itself returns nothing. */
module SpringBasic {
  import opened Wrappers
  import opened Text

  const StoreDomain := "https://dopamine-flow-energy.creator-spring.com"
  const UnknownName := "Unknown Product"
  const PriceFallback := "Contact for Price"

  /** The first `<img>` of a card, with its `src` and `data-src`. */
  datatype CardImage = CardImage(src: Option<string>, dataSrc: Option<string>)

  /** One product card: the stripped texts of its first `h3` and of its
      first `p.product-card__title`, of its first `span` and first `p` with
      class `product-card__price`, its first image, and its first `<a>`
      (`Some(None)` when that anchor has no `href`). */
  datatype Card = Card(
    heading: Option<string>,
    titleParagraph: Option<string>,
    priceSpan: Option<string>,
    priceParagraph: Option<string>,
    image: Option<CardImage>,
    anchor: Option<Option<string>>)

  /** The store page: the cards matching `.product-card`, and those with
      `data-testid="product-card"`. */
  datatype StorePage = StorePage(classCards: seq<Card>, testIdCards: seq<Card>)

  /** A printed record; `image` is `None` where the JSON holds `null`. */
  datatype BasicProduct = BasicProduct(
    id: int,
    name: string,
    price: string,
    category: string,
    image: Option<string>,
    link: string,
    description: string)

  /** The test-id selector is consulted only when the class selector finds
      no card. */
  function SelectCards(page: StorePage): (cards: seq<Card>)
    ensures page.classCards != [] ==> cards == page.classCards
    ensures page.classCards == [] ==> cards == page.testIdCards
  {
    if page.classCards != [] then page.classCards else page.testIdCards
  }

  /** "Apparel" for a name holding "Tee" or "Hoodie", matched with case;
      "Merch" otherwise. */
  function BasicCategory(name: string): (c: string)
    ensures c == "Apparel" <==> Contains(name, "Tee") || Contains(name, "Hoodie")
    ensures c == "Apparel" || c == "Merch"
  {
    if Contains(name, "Tee") || Contains(name, "Hoodie") then "Apparel" else "Merch"
  }

  /** The match is case-sensitive: a name without the capitals `T` and `H`
      ("tee", "hoodie") is filed under Merch. */
  lemma LowerCaseNameIsMerch(name: string)
    requires forall i :: 0 <= i < |name| ==> name[i] != 'T' && name[i] != 'H'
    ensures BasicCategory(name) == "Merch"
  {
    forall i | 0 <= i <= |name| - 3 ensures !OccursAt(name, "Tee", i) {
      assert name[i] != "Tee"[0];
    }
    forall i | 0 <= i <= |name| - 6 ensures !OccursAt(name, "Hoodie", i) {
      assert name[i] != "Hoodie"[0];
    }
  }

  /** The domain is put in front of a root-relative `href` only; any other
      `href` is kept as it is. */
  function JoinLink(href: string): (link: string)
    ensures StartsWith(href, "/") ==> link == StoreDomain + href
    ensures !StartsWith(href, "/") ==> link == href
  {
    if StartsWith(href, "/") then StoreDomain + href else href
  }

  /** `src`, or `data-src` when `src` is missing or empty; the empty string
      for a card without an image. */
  function CardImageUrl(img: Option<CardImage>): Option<string> {
    if img.None? then Some("")
    else if img.value.src.Some? && img.value.src.value != "" then img.value.src
    else img.value.dataSrc
  }

  /** The record of the card at position `idx`, or `None` when the card is
      skipped: an anchor without `href` makes the `startswith` test raise. */
  function CardRecord(c: Card, idx: nat): (r: Option<BasicProduct>)
    ensures r.None? <==> c.anchor == Some(None)
    ensures r.Some? ==> r.value.id == idx + 1
    ensures r.Some? && c.heading.None? && c.titleParagraph.None? ==> r.value.name == UnknownName
    ensures r.Some? && c.priceSpan.None? && c.priceParagraph.None? ==> r.value.price == PriceFallback
    ensures r.Some? ==> r.value.description == "Official " + r.value.name + " from the Dopamine Flow collection."
  {
    if c.anchor == Some(None) then None
    else
      var name := if c.heading.Some? then c.heading.value
                  else if c.titleParagraph.Some? then c.titleParagraph.value
                  else UnknownName;
      var price := if c.priceSpan.Some? then c.priceSpan.value
                   else if c.priceParagraph.Some? then c.priceParagraph.value
                   else PriceFallback;
      var href := if c.anchor.Some? then c.anchor.value.value else "";
      Some(BasicProduct(idx + 1, name, price, BasicCategory(name), CardImageUrl(c.image), JoinLink(href),
                        "Official " + name + " from the Dopamine Flow collection."))
  }

  /** The records of the first cards, in card order. */
  function CardRecords(cards: seq<Card>): seq<BasicProduct>
    decreases |cards|
  {
    if cards == [] then []
    else
      var init := CardRecords(cards[..|cards| - 1]);
      match CardRecord(cards[|cards| - 1], |cards| - 1)
      case None => init
      case Some(p) => init + [p]
  }

  /** `scrape_spring_store`: `None` when the fetch failed, otherwise the
      records of the selected cards. */
  method ScrapeSpringStore(page: Option<StorePage>) returns (r: Option<seq<BasicProduct>>)
    ensures page.None? <==> r.None?
    ensures page.Some? ==> r.value == CardRecords(SelectCards(page.value))
  {
    if page.None? {
      return None;
    }
    var cards := page.value.classCards;
    if cards == [] {
      cards := page.value.testIdCards;
    }
    var products: seq<BasicProduct> := [];
    for idx := 0 to |cards|
      invariant products == CardRecords(cards[..idx])
    {
      assert cards[..idx + 1][..idx] == cards[..idx];
      var record := CardRecord(cards[idx], idx);
      if record.None? {
        continue;
      }
      products := products + [record.value];
    }
    assert cards[..|cards|] == cards;
    return Some(products);
  }

  /** The ids strictly increase in list order and stay within `1..n`; the
      cards that were skipped leave gaps. */
  lemma {:induction false} CardIdsIncrease(cards: seq<Card>)
    ensures var r := CardRecords(cards);
            |r| <= |cards|
            && (forall i :: 0 <= i < |r| ==> 1 <= r[i].id <= |cards|)
            && (forall i, j :: 0 <= i < j < |r| ==> r[i].id < r[j].id)
    decreases |cards|
  {
    if cards != [] {
      var init := cards[..|cards| - 1];
      CardIdsIncrease(init);
    }
  }

  /** With no skipped card the ids are exactly `1..n`. */
  lemma {:induction false} CardIdsConsecutive(cards: seq<Card>)
    requires forall i :: 0 <= i < |cards| ==> cards[i].anchor != Some(None)
    ensures |CardRecords(cards)| == |cards|
    ensures forall i :: 0 <= i < |cards| ==> CardRecords(cards)[i].id == i + 1
    decreases |cards|
  {
    if cards != [] {
      var init := cards[..|cards| - 1];
      CardIdsConsecutive(init);
      forall i | 0 <= i < |cards| - 1 ensures CardRecords(cards)[i] == CardRecords(init)[i] { }
    }
  }
}
