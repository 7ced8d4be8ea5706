/** FPT Shop: record building from product cards (macbook_scraper/scrapers/fptshop_scraper.py). */
module FptShopScraper {
  import opened Common
  import opened Text
  import opened Scraping

  const Base := "https://fptshop.com.vn"
  const Shop := "fptshop"

  /** The first name element found: its `title` attribute and its text. */
  datatype NameElem = NameElem(title: Option<string>, text: string)

  /** The first price element found: its `data-price` attribute and its text. */
  datatype PriceElem = PriceElem(dataPrice: Option<string>, text: string)

  datatype Card = Card(name: Option<NameElem>, price: Option<PriceElem>, href: Option<string>)

  /** `_parse_model_name`: None for a missing or empty name; otherwise the stripped name
      cut before a trailing parenthesised group. */
  function ParseModelName(name: Option<string>): (r: Option<string>)
    ensures r.None? <==> !Truthy(name)
    ensures r.Some? ==> StartsWith(Strip(name.value), r.value)
  {
    if !Truthy(name) then None else Some(TrimParenTail(Strip(name.value)))
  }

  /** A name whose stripped text does not end with ')' is only stripped. */
  lemma ParseModelNameKeepsUnbracketed(name: string)
    requires var s := Strip(name); s != [] && s[|s| - 1] != ')'
    ensures ParseModelName(Some(name)) == Some(Strip(name))
  {
    var s := Strip(name);
    assert TrimEnd(s) == s;
    TrimParenTailNeedsClosing(s);
  }

  /** A one-line stripped name ending in ')' loses everything from the spaces before its
      first '(' onwards. */
  lemma ParseModelNameCutsAtFirstParen(name: string, q: nat)
    requires var s := Strip(name); |s| >= 2 && s[|s| - 1] == ')' && forall k :: 0 <= k < |s| ==> s[k] != '\n'
    requires var s := Strip(name); q < |s| - 1 && s[q] == '(' && forall k :: 0 <= k < q ==> s[k] != '('
    ensures ParseModelName(Some(name)) == Some(TrimEnd(Strip(name)[..q]))
  {
    TrimParenTailCutsAtFirstParen(Strip(name), q);
  }

  /** The raw name: the title attribute when it is non-empty, else the element text. */
  function RawName(e: NameElem): (r: string)
    ensures Truthy(e.title) ==> r == e.title.value
    ensures !Truthy(e.title) ==> r == e.text
  {
    OrElse(e.title, e.text)
  }

  /** The price text: `data-price` when non-empty, else the element text; None without an element. */
  function PriceText(price: Option<PriceElem>): (r: Option<string>)
    ensures r.None? <==> price.None?
    ensures price.Some? && Truthy(price.value.dataPrice) ==> r == price.value.dataPrice
    ensures price.Some? && !Truthy(price.value.dataPrice) ==> r == Some(price.value.text)
  {
    match price
    case None => None
    case Some(e) => Some(OrElse(e.dataPrice, e.text))
  }

  /** One iteration of the `parse_products` loop: None when the card is skipped. */
  function BuildRecord(card: Card): (r: Option<Product>)
    ensures r.None? <==> card.name.None? || !Contains(RawName(card.name.value), "MacBook")
    ensures r.Some? ==> && r.value.shop == Shop
                        && r.value.rawName == RawName(card.name.value)
                        && r.value.model == ParseModelName(Some(r.value.rawName))
                        && r.value.priceText == PriceText(card.price)
                        && r.value.priceVnd == CleanPrice(r.value.priceText)
                        && r.value.url == AbsoluteUrl(Base, card.href)
                        && r.value.productId.None? && r.value.imageUrl.None? && r.value.specs.None?
  {
    if card.name.None? || !Contains(RawName(card.name.value), "MacBook") then None
    else
      var raw := RawName(card.name.value);
      var priceText := PriceText(card.price);
      Some(Product(
        model := ParseModelName(Some(raw)),
        rawName := raw,
        priceVnd := CleanPrice(priceText),
        priceText := priceText,
        url := AbsoluteUrl(Base, card.href),
        productId := None,
        imageUrl := None,
        shop := Shop,
        specs := None))
  }

  /** `parse_products`, given the items of each selector in the order tried.
      TopZone's scraper has the same loop shape; it is a separate source file with its own
      card fields, selectors and record builder, so each module states its own method
      over the shared `SelectItems` and `CollectLoop`.
      Selectors: `.cdt-product`, `.product-item`, `[data-product]`, `.product-card`. */
  method ParseProducts(selectorItems: seq<seq<Card>>) returns (products: seq<Product>)
    ensures products == Collect(FirstNonEmpty(selectorItems), BuildRecord)
    ensures forall p :: p in products ==> p.shop == Shop && Contains(p.rawName, "MacBook")
  {
    var items := SelectItems(selectorItems);
    products := CollectLoop(items, BuildRecord);
    forall p | p in products ensures p.shop == Shop && Contains(p.rawName, "MacBook") {
      var c :| c in items && BuildRecord(c) == Some(p);
    }
  }

  /** `scrape`: None stands for a page that could not be loaded (blocked or timed out). */
  method Scrape(page: Option<seq<seq<Card>>>) returns (result: ScrapeResult)
    ensures result.shop == Shop && result.count == |result.products|
    ensures result.success <==> page.Some?
    ensures page.Some? ==> result.products == Collect(FirstNonEmpty(page.value), BuildRecord)
    ensures page.None? ==> result == Failure(Shop, "Cloudflare block or timeout")
  {
    if page.None? {
      return Failure(Shop, "Cloudflare block or timeout");
    }
    var products := ParseProducts(page.value);
    result := Success(Shop, products);
  }
}
