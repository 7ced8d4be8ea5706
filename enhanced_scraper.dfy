/** The Playwright-based scraper of all four retailers (macbook_scraper/enhanced_scraper.py):
    per-shop keep and limit rules, its own href rule, the reset of a shop's list when its
    scrape raises, and the summary total. A page is given as what the browser produced:
    `Ok` with the cards found, or `Err` with the text of the exception raised. */
module EnhancedScraper {
  import opened Common
  import opened Text
  import opened Scraping

  const Fpt := "fptshop"
  const ShopDunk := "shopdunk"
  const TopZone := "topzone"
  const Cellphones := "cellphones"

  /** The keys of `results`, in the order the summary visits them. */
  const ShopOrder := [Fpt, ShopDunk, TopZone, Cellphones]

  const FptBase := "https://fptshop.com.vn"
  const ShopDunkBase := "https://shopdunk.com"
  const TopZoneBase := "https://www.topzone.vn"

  const FptLimit := 10
  const ShopLimit := 50

  /** One product element: the stripped text of its name element (None when there is
      none) and that element's `title` attribute, the stripped text of its price
      element, and the href of its first link. */
  datatype Card = Card(name: Option<string>, title: Option<string>, priceText: Option<string>, href: Option<string>)

  /** The dictionary built for one product; keys never set are None. */
  datatype Record = Record(model: string, priceVnd: Option<nat>, priceText: Option<string>, url: Option<string>)

  /** This scraper's href rule: an href starting with '/' gets the base in front; any
      other href, relative or not, is kept as it is. */
  function PrefixUrl(base: string, href: Option<string>): (r: Option<string>)
    ensures r.None? <==> href.None?
    ensures href.Some? && StartsWith(href.value, "/") ==> r == Some(base + href.value)
    ensures href.Some? && !StartsWith(href.value, "/") ==> r == href
  {
    if href.Some? && StartsWith(href.value, "/") then Some(base + href.value) else href
  }

  /** The rule agrees with the per-shop scrapers' rule for "/x" and for http hrefs, and
      differs for a non-empty relative href without '/', which is kept here but joined with
      "/" there. */
  lemma PrefixUrlVersusAbsoluteUrl(base: string, href: string)
    ensures StartsWith(href, "/") || StartsWith(href, "http") ==> PrefixUrl(base, Some(href)) == AbsoluteUrl(base, Some(href))
    ensures href != [] && !StartsWith(href, "/") && !StartsWith(href, "http")
            ==> PrefixUrl(base, Some(href)) != AbsoluteUrl(base, Some(href))
  {
    if href != [] && !StartsWith(href, "/") && !StartsWith(href, "http") {
      var a := AbsoluteUrl(base, Some(href)).value;
      assert a == base + "/" + href;
      assert |a| > |href|;
    } else if StartsWith(href, "http") {
      assert href[0] == 'h';
    }
  }

  /** The dictionary for a product whose model text is `model`: kept only when the
      model is non-empty. */
  function MakeRecord(model: Option<string>, priceText: Option<string>, url: Option<string>): (r: Option<Record>)
    ensures r.Some? <==> Truthy(model)
    ensures r.Some? ==> r.value == Record(model.value, CleanPrice(priceText), priceText, url)
  {
    if Truthy(model) then Some(Record(model.value, CleanPrice(priceText), priceText, url)) else None
  }

  /** FPT Shop: the model is the name element's title, or its text when the title is empty. */
  function FptRecord(c: Card): (r: Option<Record>)
    ensures r.Some? <==> c.name.Some? && OrElse(c.title, c.name.value) != []
    ensures r.Some? ==> r.value.model == OrElse(c.title, c.name.value) && r.value.url == PrefixUrl(FptBase, c.href)
  {
    MakeRecord(if c.name.Some? then Some(OrElse(c.title, c.name.value)) else None, c.priceText, PrefixUrl(FptBase, c.href))
  }

  function ShopDunkRecord(c: Card): (r: Option<Record>)
    ensures r.Some? <==> Truthy(c.name)
    ensures r.Some? ==> r.value.model == c.name.value && r.value.url == PrefixUrl(ShopDunkBase, c.href)
  {
    MakeRecord(c.name, c.priceText, PrefixUrl(ShopDunkBase, c.href))
  }

  function TopZoneRecord(c: Card): (r: Option<Record>)
    ensures r.Some? <==> Truthy(c.name)
    ensures r.Some? ==> r.value.model == c.name.value && r.value.url == PrefixUrl(TopZoneBase, c.href)
  {
    MakeRecord(c.name, c.priceText, PrefixUrl(TopZoneBase, c.href))
  }

  /** CellphoneS: the href is copied untouched and the model must mention "MacBook". */
  function CellphonesRecord(c: Card): (r: Option<Record>)
    ensures r.Some? <==> Truthy(c.name) && Contains(c.name.value, "MacBook")
    ensures r.Some? ==> r.value.model == c.name.value && r.value.url == c.href
  {
    if Truthy(c.name) && Contains(c.name.value, "MacBook") then MakeRecord(c.name, c.priceText, c.href) else None
  }

  /** What `results['fptshop']` becomes: the first ten items of the first selector with
      matches, those with a model; nothing when the scrape raised. */
  function FptList(page: Result<seq<seq<Card>>>): (r: seq<Record>)
    ensures page.Err? ==> r == []
    ensures page.Ok? ==> r == Collect(Take(FirstNonEmpty(page.value), FptLimit), FptRecord)
    ensures |r| <= FptLimit
    ensures forall x :: x in r ==> x.model != []
  {
    if page.Err? then [] else Collect(Take(FirstNonEmpty(page.value), FptLimit), FptRecord)
  }

  function ShopDunkList(page: Result<seq<Card>>): (r: seq<Record>)
    ensures page.Err? ==> r == []
    ensures page.Ok? ==> r == Collect(Take(page.value, ShopLimit), ShopDunkRecord)
    ensures |r| <= ShopLimit
    ensures forall x :: x in r ==> x.model != []
  {
    if page.Err? then [] else Collect(Take(page.value, ShopLimit), ShopDunkRecord)
  }

  function TopZoneList(page: Result<seq<seq<Card>>>): (r: seq<Record>)
    ensures page.Err? ==> r == []
    ensures page.Ok? ==> r == Collect(Take(FirstNonEmpty(page.value), ShopLimit), TopZoneRecord)
    ensures |r| <= ShopLimit
    ensures forall x :: x in r ==> x.model != []
  {
    if page.Err? then [] else Collect(Take(FirstNonEmpty(page.value), ShopLimit), TopZoneRecord)
  }

  /** The Pro page, then the Air page, all items; an exception on either page leaves nothing. */
  function CellphonesList(proPage: Result<seq<Card>>, airPage: Result<seq<Card>>): (r: seq<Record>)
    ensures proPage.Err? || airPage.Err? ==> r == []
    ensures proPage.Ok? && airPage.Ok?
            ==> r == Collect(proPage.value, CellphonesRecord) + Collect(airPage.value, CellphonesRecord)
    ensures forall x :: x in r ==> x.model != [] && Contains(x.model, "MacBook")
  {
    if proPage.Err? || airPage.Err? then []
    else Collect(proPage.value, CellphonesRecord) + Collect(airPage.value, CellphonesRecord)
  }

  /** The sum of the list lengths of the given shops. */
  function CountOf(results: map<string, seq<Record>>, shops: seq<string>): nat
    requires forall k :: k in shops ==> k in results
  {
    if shops == [] then 0
    else CountOf(results, shops[..|shops| - 1]) + |results[shops[|shops| - 1]]|
  }

  /** The total over the four shops is the sum of their four counts. */
  lemma CountOfShops(results: map<string, seq<Record>>)
    requires forall k :: k in ShopOrder ==> k in results
    ensures CountOf(results, ShopOrder)
         == |results[Fpt]| + |results[ShopDunk]| + |results[TopZone]| + |results[Cellphones]|
  {
    var s3 := ShopOrder[..3];
    var s2 := s3[..2];
    var s1 := s2[..1];
    assert s1[..0] == [];
    assert CountOf(results, s1) == |results[Fpt]|;
    assert CountOf(results, s2) == |results[Fpt]| + |results[ShopDunk]|;
    assert CountOf(results, s3) == |results[Fpt]| + |results[ShopDunk]| + |results[TopZone]|;
  }

  class EnhancedMacBookScraper {
    /** `self.results`: the records of each shop. */
    var results: map<string, seq<Record>>

    ghost predicate Valid()
      reads this
    {
      forall k :: k in ShopOrder ==> k in results
    }

    constructor()
      ensures Valid()
      ensures results == map[Fpt := [], ShopDunk := [], TopZone := [], Cellphones := []]
    {
      results := map[Fpt := [], ShopDunk := [], TopZone := [], Cellphones := []];
    }

    /** `scrape_fptshop`: the selector loop stops at the first selector with matches. */
    method ScrapeFptShop(page: Result<seq<seq<Card>>>)
      modifies this
      ensures results == old(results)[Fpt := FptList(page)]
    {
      if page.Err? {
        results := results[Fpt := []];
        return;
      }
      var items := SelectItems(page.value);
      var found := CollectLoop(Take(items, FptLimit), FptRecord);
      results := results[Fpt := found];
    }

    /** `scrape_shopdunk`: the first fifty `.product-item` elements. */
    method ScrapeShopDunk(page: Result<seq<Card>>)
      modifies this
      ensures results == old(results)[ShopDunk := ShopDunkList(page)]
    {
      if page.Err? {
        results := results[ShopDunk := []];
        return;
      }
      var found := CollectLoop(Take(page.value, ShopLimit), ShopDunkRecord);
      results := results[ShopDunk := found];
    }

    /** `scrape_topzone`: the first fifty items of the first selector with matches. */
    method ScrapeTopZone(page: Result<seq<seq<Card>>>)
      modifies this
      ensures results == old(results)[TopZone := TopZoneList(page)]
    {
      if page.Err? {
        results := results[TopZone := []];
        return;
      }
      var items := SelectItems(page.value);
      var found := CollectLoop(Take(items, ShopLimit), TopZoneRecord);
      results := results[TopZone := found];
    }

    /** `scrape_cellphones`: both pages extend one list, which is stored only when
        neither page raised. */
    method ScrapeCellphones(proPage: Result<seq<Card>>, airPage: Result<seq<Card>>)
      modifies this
      ensures results == old(results)[Cellphones := CellphonesList(proPage, airPage)]
    {
      if proPage.Err? {
        results := results[Cellphones := []];
        return;
      }
      var found := CollectLoop(proPage.value, CellphonesRecord);
      if airPage.Err? {
        results := results[Cellphones := []];
        return;
      }
      var more := CollectLoop(airPage.value, CellphonesRecord);
      found := found + more;
      results := results[Cellphones := found];
    }

    /** `print_summary`: the total number of models over all shops. */
    method PrintSummary() returns (total: nat)
      requires Valid()
      ensures total == CountOf(results, ShopOrder)
    {
      total := 0;
      for i := 0 to |ShopOrder|
        invariant total == CountOf(results, ShopOrder[..i])
      {
        assert ShopOrder[..i + 1][..i] == ShopOrder[..i];
        total := total + |results[ShopOrder[i]]|;
      }
      assert ShopOrder[..|ShopOrder|] == ShopOrder;
    }

    /** `run`: the four shops in turn, then the summary. */
    method Run(fptPage: Result<seq<seq<Card>>>, shopDunkPage: Result<seq<Card>>,
               topZonePage: Result<seq<seq<Card>>>,
               cellphonesPro: Result<seq<Card>>, cellphonesAir: Result<seq<Card>>)
      returns (total: nat)
      requires Valid()
      modifies this
      ensures Valid()
      ensures results == old(results)[Fpt := FptList(fptPage)][ShopDunk := ShopDunkList(shopDunkPage)]
                                     [TopZone := TopZoneList(topZonePage)]
                                     [Cellphones := CellphonesList(cellphonesPro, cellphonesAir)]
      ensures total == |FptList(fptPage)| + |ShopDunkList(shopDunkPage)| + |TopZoneList(topZonePage)|
                     + |CellphonesList(cellphonesPro, cellphonesAir)|
    {
      ScrapeFptShop(fptPage);
      ScrapeShopDunk(shopDunkPage);
      ScrapeTopZone(topZonePage);
      ScrapeCellphones(cellphonesPro, cellphonesAir);
      total := PrintSummary();
      CountOfShops(results);
    }
  }
}
