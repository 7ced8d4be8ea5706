/** ShopDunk: record building from product cards (macbook_scraper/scrapers/shopdunk_scraper.py).
    A card is what the page shows for one `.product-item`, already located and stripped. */
module ShopDunkScraper {
  import opened Common
  import opened Text
  import opened Scraping
  import opened Rewrite

  const Base := "https://shopdunk.com"
  const Shop := "shopdunk"

  /** "Cũ" (used), "Giảm" (discount). */
  const Used := "C\U{169}"
  const Discount := "Gi\U{1EA3}m"

  datatype Image = Image(src: Option<string>, dataSrc: Option<string>)

  /** The fields `parse_products` reads from one card: the text of the first name element
      (`h3`, `.product-name`), of the first price element, of `.old-price .price`, the
      first link's href, the `data-productid` attribute and the first image. */
  datatype Card = Card(
    name: Option<string>,
    price: Option<string>,
    oldPrice: Option<string>,
    href: Option<string>,
    productId: Option<string>,
    image: Option<Image>)

  // ---------------------------------------------------------------- model name

  /** `\s*-\s*Cũ.*` at `p`. */
  function UsedDashAt(s: string, p: nat): Option<nat> {
    MarkedTailAt(s, p, '-', Used)
  }

  /** `\s*Cũ.*` at `p`. */
  function UsedAt(s: string, p: nat): Option<nat> {
    TailAt(s, p, Used)
  }

  lemma UsedAtCatches(s: string)
    ensures CatchesLiteral(s, UsedAt, Used)
  {
    forall q | 0 <= q <= |s| && OccursAt(s, Used, q) ensures UsedAt(s, q).Some? {
      TailAtOccurrence(s, q, Used);
    }
    assert NoNewline(Used);
  }

  /** `_parse_model_name`: None for a missing or empty name; otherwise the stripped name
      without a trailing parenthesised group, and without " - Cũ…" or "Cũ…". */
  function ParseModelName(name: Option<string>): (r: Option<string>)
    ensures r.None? <==> !Truthy(name)
    ensures r.Some? ==> !Contains(r.value, Used)
  {
    if !Truthy(name) then None
    else
      var s1 := TrimParenTail(Strip(name.value));
      var s2 := Sub(s1, UsedDashAt);
      UsedAtCatches(s2);
      SubRemovesLiteral(s2, UsedAt, Used);
      Some(Sub(s2, UsedAt))
  }

  /** A name without the used-item marker only loses its surrounding spaces and its
      trailing parenthesised group. */
  lemma ParseModelNameWithoutMarker(name: string)
    requires name != [] && !Contains(TrimParenTail(Strip(name)), Used)
    ensures ParseModelName(Some(name)) == Some(TrimParenTail(Strip(name)))
  {
    var s1 := TrimParenTail(Strip(name));
    forall q | 0 <= q <= |s1| ensures UsedDashAt(s1, q).None? {
      TailAtNeedsLiteral(s1, q, Used);
    }
    SubNoMatch(s1, UsedDashAt);
    forall q | 0 <= q <= |s1| ensures UsedAt(s1, q).None? {
      TailAtNeedsLiteral(s1, q, Used);
    }
    SubNoMatch(s1, UsedAt);
  }

  lemma UsedMatchersEndLines(s: string)
    ensures EndsAtLineEnd(s, UsedDashAt) && EndsAtLineEnd(s, UsedAt)
  {
  }

  /** On a one-line name each substitution cuts the text at its leftmost match: first
      at " - Cũ", then at "Cũ" in what is left. */
  lemma ParseModelNameOneLine(name: string)
    requires name != [] && NoNewline(name)
    ensures var s1 := TrimParenTail(Strip(name));
            ParseModelName(Some(name)) == Some(CutAtFirst(CutAtFirst(s1, UsedDashAt), UsedAt))
  {
    var s1 := TrimParenTail(Strip(name));
    StripNoNewline(name);
    PrefixNoNewline(Strip(name), s1);
    UsedMatchersEndLines(s1);
    SubOneLine(s1, UsedDashAt);
    var s2 := CutAtFirst(s1, UsedDashAt);
    PrefixNoNewline(s1, s2);
    UsedMatchersEndLines(s2);
    SubOneLine(s2, UsedAt);
    assert ParseModelName(Some(name)) == Some(Sub(Sub(s1, UsedDashAt), UsedAt));
  }

  // ---------------------------------------------------------------- records

  /** The price text and value after the fallback: when the listed price gives no positive
      number or reads "Giảm …", the old price is used if the card shows one. */
  function ChoosePrice(price: Option<string>, oldPrice: Option<string>): (r: (Option<string>, Option<nat>))
    ensures var v := CleanPrice(price);
            v.Some? && v.value != 0 && !Contains(price.value, Discount) ==> r == (price, v)
    ensures var v := CleanPrice(price);
            (v.None? || v.value == 0 || Contains(price.value, Discount)) && oldPrice.Some?
            ==> r == (oldPrice, CleanPrice(oldPrice))
    ensures oldPrice.None? ==> r == (price, CleanPrice(price))
    ensures r.1 == CleanPrice(r.0)
    ensures r.0 == price || r.0 == oldPrice
  {
    var v := CleanPrice(price);
    if (v.None? || v.value == 0 || Contains(price.value, Discount)) && oldPrice.Some? then
      (oldPrice, CleanPrice(oldPrice))
    else (price, v)
  }

  /** `img.get('src') or img.get('data-src')`, None without an image: the `src` when it is
      non-empty, else the `data-src`. */
  function ImageUrl(image: Option<Image>): (r: Option<string>)
    ensures image.None? ==> r.None?
    ensures image.Some? && Truthy(image.value.src) ==> r == image.value.src
    ensures image.Some? && !Truthy(image.value.src) ==> r == image.value.dataSrc
    ensures Truthy(r) <==> image.Some? && (Truthy(image.value.src) || Truthy(image.value.dataSrc))
  {
    match image
    case None => None
    case Some(img) => if Truthy(img.src) then img.src else img.dataSrc
  }

  /** One iteration of the `parse_products` loop: None when the card is skipped. */
  function BuildRecord(card: Card): (r: Option<Product>)
    ensures r.None? <==> card.name.None? || !Contains(card.name.value, "MacBook")
    ensures r.Some? ==> && r.value.shop == Shop
                        && r.value.rawName == card.name.value
                        && r.value.model == ParseModelName(card.name)
                        && r.value.url == AbsoluteUrl(Base, card.href)
                        && r.value.productId == card.productId
                        && (r.value.priceText, r.value.priceVnd) == ChoosePrice(card.price, card.oldPrice)
                        && r.value.imageUrl == ImageUrl(card.image)
                        && r.value.specs.None?
  {
    if card.name.None? || !Contains(card.name.value, "MacBook") then None
    else
      var raw := card.name.value;
      var (priceText, priceVnd) := ChoosePrice(card.price, card.oldPrice);
      Some(Product(
        model := ParseModelName(Some(raw)),
        rawName := raw,
        priceVnd := priceVnd,
        priceText := priceText,
        url := AbsoluteUrl(Base, card.href),
        productId := card.productId,
        imageUrl := ImageUrl(card.image),
        shop := Shop,
        specs := None))
  }

  /** `parse_products`. */
  method ParseProducts(cards: seq<Card>) returns (products: seq<Product>)
    ensures products == Collect(cards, BuildRecord)
    ensures forall p :: p in products ==> p.shop == Shop && Contains(p.rawName, "MacBook")
  {
    products := CollectLoop(cards, BuildRecord);
    forall p | p in products ensures p.shop == Shop && Contains(p.rawName, "MacBook") {
      var c :| c in cards && BuildRecord(c) == Some(p);
    }
  }

  /** `scrape`: None stands for a page that could not be loaded. */
  method Scrape(page: Option<seq<Card>>) returns (result: ScrapeResult)
    ensures result.shop == Shop && result.count == |result.products|
    ensures result.success <==> page.Some?
    ensures page.Some? ==> result.products == Collect(page.value, BuildRecord) && result.error.None?
    ensures page.None? ==> result == Failure(Shop, "Failed to load page")
  {
    if page.None? {
      return Failure(Shop, "Failed to load page");
    }
    var products := ParseProducts(page.value);
    result := Success(Shop, products);
  }
}
