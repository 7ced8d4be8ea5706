/** TopZone: record building from product cards (macbook_scraper/scrapers/topzone_scraper.py). */
module TopZoneScraper {
  import opened Common
  import opened Text
  import opened Scraping

  const Base := "https://www.topzone.vn"
  const Shop := "topzone"

  /** The texts of the first name element (`h3`, `.name`, `.product-name`) and of the
      first price element (`.price`, `.product-price`), and the first link's href. */
  datatype Card = Card(name: Option<string>, price: Option<string>, href: Option<string>)

  /** `_parse_model_name`: None for a missing or empty name, else the stripped name. */
  function ParseModelName(name: Option<string>): (r: Option<string>)
    ensures r.None? <==> !Truthy(name)
    ensures r.Some? ==> r.value == Strip(name.value)
  {
    if !Truthy(name) then None else Some(Strip(name.value))
  }

  /** One iteration of the `parse_products` loop: None when the card is skipped. */
  function BuildRecord(card: Card): (r: Option<Product>)
    ensures r.None? <==> card.name.None? || !Contains(card.name.value, "MacBook")
    ensures r.Some? ==> && r.value.shop == Shop
                        && r.value.rawName == card.name.value
                        && r.value.model == ParseModelName(card.name)
                        && r.value.priceText == card.price
                        && r.value.priceVnd == CleanPrice(card.price)
                        && r.value.url == AbsoluteUrl(Base, card.href)
                        && r.value.productId.None? && r.value.imageUrl.None? && r.value.specs.None?
  {
    if card.name.None? || !Contains(card.name.value, "MacBook") then None
    else
      Some(Product(
        model := ParseModelName(card.name),
        rawName := card.name.value,
        priceVnd := CleanPrice(card.price),
        priceText := card.price,
        url := AbsoluteUrl(Base, card.href),
        productId := None,
        imageUrl := None,
        shop := Shop,
        specs := None))
  }

  /** `parse_products`, given the items of each selector in the order tried.
      FPT Shop's scraper has the same loop shape; it is a separate source file with its own
      card fields, selectors and record builder, so each module states its own method
      over the shared `SelectItems` and `CollectLoop`.
      Selectors: `.product-item`, `.product-card`, `.item`, `.product`. */
  method ParseProducts(selectorItems: seq<seq<Card>>) returns (products: seq<Product>)
    ensures products == Collect(FirstNonEmpty(selectorItems), BuildRecord)
    ensures forall p :: p in products ==> p.shop == Shop && Contains(p.rawName, "MacBook")
  {
    var items := SelectItems(selectorItems);
    products := CollectLoop(items, BuildRecord);
    forall p | p in products ensures p.shop == Shop && Contains(p.rawName, "MacBook") {
      var c :| c in items && BuildRecord(c) == Some(p);
    }
  }

  /** `scrape`: None stands for a page that could not be loaded. */
  method Scrape(page: Option<seq<seq<Card>>>) returns (result: ScrapeResult)
    ensures result.shop == Shop && result.count == |result.products|
    ensures result.success <==> page.Some?
    ensures page.Some? ==> result.products == Collect(FirstNonEmpty(page.value), BuildRecord)
    ensures page.None? ==> result == Failure(Shop, "Connection timeout or block")
  {
    if page.None? {
      return Failure(Shop, "Connection timeout or block");
    }
    var products := ParseProducts(page.value);
    result := Success(Shop, products);
  }
}
