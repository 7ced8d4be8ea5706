/** CellphoneS: record building from product cards and the two-page scrape
    (macbook_scraper/scrapers/cellphones_scraper.py). */
module CellphonesScraper {
  import opened Common
  import opened Text
  import opened Scraping
  import opened Rewrite

  const Base := "https://cellphones.com.vn"
  const Shop := "cellphones"

  /** "Chính hãng" (official product). */
  const Official := "Ch\U{ED}nh h\U{E3}ng"

  /** The texts of `.product__name h3` and `.product__price--show`, the href of
      `a.product__link` and the src of `.product__image img`. */
  datatype Card = Card(name: Option<string>, price: Option<string>, href: Option<string>, imageSrc: Option<string>)

  /** `\s*\|\s*Chính hãng.*` at `p`. */
  function PipeOfficialAt(s: string, p: nat): Option<nat> {
    MarkedTailAt(s, p, '|', Official)
  }

  /** `\s*Chính hãng.*` at `p`. */
  function OfficialAt(s: string, p: nat): Option<nat> {
    TailAt(s, p, Official)
  }

  lemma OfficialAtCatches(s: string)
    ensures CatchesLiteral(s, OfficialAt, Official)
  {
    forall q | 0 <= q <= |s| && OccursAt(s, Official, q) ensures OfficialAt(s, q).Some? {
      TailAtOccurrence(s, q, Official);
    }
    assert NoNewline(Official);
  }

  /** `_parse_model_name`: None for a missing or empty name; otherwise the stripped name
      without a "| Chính hãng…" or "Chính hãng…" suffix. */
  function ParseModelName(name: Option<string>): (r: Option<string>)
    ensures r.None? <==> !Truthy(name)
    ensures r.Some? ==> !Contains(r.value, Official)
  {
    if !Truthy(name) then None
    else
      var s1 := Sub(Strip(name.value), PipeOfficialAt);
      OfficialAtCatches(s1);
      SubRemovesLiteral(s1, OfficialAt, Official);
      Some(Sub(s1, OfficialAt))
  }

  /** A name without "Chính hãng" is only stripped. */
  lemma ParseModelNameWithoutMarker(name: string)
    requires name != [] && !Contains(Strip(name), Official)
    ensures ParseModelName(Some(name)) == Some(Strip(name))
  {
    var s := Strip(name);
    forall q | 0 <= q <= |s| ensures PipeOfficialAt(s, q).None? && OfficialAt(s, q).None? {
      TailAtNeedsLiteral(s, q, Official);
    }
    SubNoMatch(s, PipeOfficialAt);
    SubNoMatch(s, OfficialAt);
  }

  lemma OfficialMatchersEndLines(s: string)
    ensures EndsAtLineEnd(s, PipeOfficialAt) && EndsAtLineEnd(s, OfficialAt)
  {
  }

  /** On a one-line name each substitution cuts the text at its leftmost match: first
      at " | Chính hãng", then at "Chính hãng" in what is left. */
  lemma ParseModelNameOneLine(name: string)
    requires name != [] && NoNewline(name)
    ensures ParseModelName(Some(name)) == Some(CutAtFirst(CutAtFirst(Strip(name), PipeOfficialAt), OfficialAt))
  {
    var s := Strip(name);
    StripNoNewline(name);
    OfficialMatchersEndLines(s);
    SubOneLine(s, PipeOfficialAt);
    var s1 := CutAtFirst(s, PipeOfficialAt);
    PrefixNoNewline(s, s1);
    OfficialMatchersEndLines(s1);
    SubOneLine(s1, OfficialAt);
    assert ParseModelName(Some(name)) == Some(Sub(Sub(s, PipeOfficialAt), OfficialAt));
  }

  /** One iteration of the `parse_products` loop: None when the card is skipped. */
  function BuildRecord(card: Card): (r: Option<Product>)
    ensures r.None? <==> card.name.None? || !Contains(card.name.value, "MacBook")
    ensures r.Some? ==> && r.value.shop == Shop
                        && r.value.rawName == card.name.value
                        && r.value.model == ParseModelName(card.name)
                        && r.value.priceText == card.price
                        && r.value.priceVnd == CleanPrice(card.price)
                        && r.value.url == AbsoluteUrl(Base, card.href)
                        && r.value.imageUrl == card.imageSrc
                        && r.value.productId.None? && r.value.specs.None?
  {
    if card.name.None? || !Contains(card.name.value, "MacBook") then None
    else
      Some(Product(
        model := ParseModelName(card.name),
        rawName := card.name.value,
        priceVnd := CleanPrice(card.price),
        priceText := card.price,
        url := AbsoluteUrl(Base, card.href),
        productId := None,
        imageUrl := card.imageSrc,
        shop := Shop,
        specs := None))
  }

  /** `parse_products`. */
  method ParseProducts(cards: seq<Card>) returns (products: seq<Product>)
    ensures products == Collect(cards, BuildRecord)
    ensures forall p :: p in products ==> p.shop == Shop && Contains(p.rawName, "MacBook")
  {
    products := CollectLoop(cards, BuildRecord);
    forall p | p in products ensures p.shop == Shop && Contains(p.rawName, "MacBook") {
      var c :| c in cards && BuildRecord(c) == Some(p);
    }
  }

  /** What one page adds: its records, or nothing when the page could not be fetched. */
  function PageProducts(page: Option<seq<Card>>): seq<Product> {
    if page.Some? then Collect(page.value, BuildRecord) else []
  }

  function AllPageProducts(pages: seq<Option<seq<Card>>>): seq<Product> {
    if pages == [] then [] else AllPageProducts(pages[..|pages| - 1]) + PageProducts(pages[|pages| - 1])
  }

  /** `scrape`: the MacBook Pro page, then the MacBook Air page; a page that could not be
      fetched (None) contributes nothing, and the scrape always reports success. */
  method Scrape(proPage: Option<seq<Card>>, airPage: Option<seq<Card>>) returns (result: ScrapeResult)
    ensures result == Success(Shop, PageProducts(proPage) + PageProducts(airPage))
  {
    var pages := [proPage, airPage];
    var all: seq<Product> := [];
    for i := 0 to |pages|
      invariant all == AllPageProducts(pages[..i])
    {
      assert pages[..i + 1][..i] == pages[..i];
      if pages[i].Some? {
        var products := ParseProducts(pages[i].value);
        all := all + products;
      }
    }
    assert pages[..2][..1][..0] == [];
    assert pages[..2] == pages;
    result := Success(Shop, all);
  }
}
