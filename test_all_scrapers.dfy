/** The quick all-scrapers report (macbook_scraper/test_all_scrapers.py): CellphoneS is
    scraped, the other three shops get placeholders, and the summary counts only
    successful shops. */
module TestAllScrapers {
  import opened Common
  import opened Scraping

  /** `test_cellphones`: the scraper's result, or the failure record when it raised. */
  function TestCellphones(o: Outcome): (r: ScrapeResult)
    ensures o.Returned? ==> r == o.result
    ensures o.Raised? ==> !r.success && r.shop == "cellphones" && r.error == Some(o.message) && r.products == [] && r.count == 0
  {
    Settle("cellphones", o)
  }

  /** The placeholder of a shop that is not run: its `success` is None, which every
      reader takes as false (the `note` is not modelled). */
  function Placeholder(shop: string): (r: ScrapeResult)
    ensures !r.success && r.shop == shop && r.products == [] && r.count == 0
  {
    ScrapeResult(false, shop, [], 0, None)
  }

  /** The sum of the counts of the successful results. */
  function SuccessfulTotal(rs: seq<ScrapeResult>): int {
    if rs == [] then 0
    else SuccessfulTotal(rs[..|rs| - 1]) + (if rs[|rs| - 1].success then rs[|rs| - 1].count else 0)
  }

  /** The dictionary `generate_summary_report` returns (the timestamp is not modelled). */
  datatype Report = Report(totalProducts: int, successfulShops: nat, results: seq<ScrapeResult>)

  /** The truthy prices of the products, in order. */
  function PricesOf(ps: seq<Product>): (r: seq<int>)
    ensures |r| <= |ps|
    ensures forall v :: v in r <==> exists p :: p in ps && Priced(p.priceVnd) && p.priceVnd.value == v
  {
    if ps == [] then []
    else
      var last := ps[|ps| - 1];
      assert ps == ps[..|ps| - 1] + [last];
      PricesOf(ps[..|ps| - 1]) + (if Priced(last.priceVnd) then [last.priceVnd.value] else [])
  }

  /** The price range printed for a result: only for a successful one whose products
      include at least one with a price. */
  function PriceRange(r: ScrapeResult): (range: Option<(int, int)>)
    ensures range.Some? <==> r.success && exists p :: p in r.products && Priced(p.priceVnd)
    ensures range.Some? ==> && range.value.0 <= range.value.1
                            && (forall p :: p in r.products && Priced(p.priceVnd) ==> range.value.0 <= p.priceVnd.value <= range.value.1)
                            && (exists p :: p in r.products && Priced(p.priceVnd) && p.priceVnd.value == range.value.0)
                            && (exists p :: p in r.products && Priced(p.priceVnd) && p.priceVnd.value == range.value.1)
  {
    if !r.success || r.products == [] then None
    else
      var prices := PricesOf(r.products);
      if prices == [] then
        assert forall p :: p in r.products && Priced(p.priceVnd) ==> p.priceVnd.value in prices;
        None
      else
        var lo, hi := MinOf(prices).value, MaxOf(prices).value;
        assert lo in prices && hi in prices;
        assert forall p :: p in r.products && Priced(p.priceVnd) ==> p.priceVnd.value in prices;
        Some((lo, hi))
  }

  /** `generate_summary_report`: the loop over the results, also giving the price range
      it prints for each shop (the rest of the printing is not modelled). */
  method GenerateSummaryReport(results: seq<ScrapeResult>) returns (report: Report, ranges: seq<Option<(int, int)>>)
    ensures report == Report(SuccessfulTotal(results), SuccessfulShops(results), results)
    ensures |ranges| == |results| && forall i :: 0 <= i < |results| ==> ranges[i] == PriceRange(results[i])
  {
    var totalProducts := 0;
    var successfulShops := 0;
    ranges := [];
    for i := 0 to |results|
      invariant totalProducts == SuccessfulTotal(results[..i])
      invariant successfulShops == SuccessfulShops(results[..i])
      invariant |ranges| == i && forall k :: 0 <= k < i ==> ranges[k] == PriceRange(results[k])
    {
      assert results[..i + 1][..i] == results[..i];
      if results[i].success {
        successfulShops := successfulShops + 1;
        totalProducts := totalProducts + results[i].count;
      }
      ranges := ranges + [PriceRange(results[i])];
    }
    assert results[..|results|] == results;
    report := Report(totalProducts, successfulShops, results);
  }

  /** `main`: the report over CellphoneS and the three placeholders, and the exit code,
      0 exactly when CellphoneS succeeded. */
  method RunAllTests(cellphones: Outcome) returns (exitCode: int, report: Report)
    ensures var c := TestCellphones(cellphones);
            && report.results == [c, Placeholder("shopdunk"), Placeholder("fptshop"), Placeholder("topzone")]
            && report.successfulShops == (if c.success then 1 else 0)
            && report.totalProducts == (if c.success then c.count else 0)
            && (exitCode == 0 <==> c.success)
            && (exitCode == 0 || exitCode == 1)
  {
    var c := TestCellphones(cellphones);
    var results := [c, Placeholder("shopdunk"), Placeholder("fptshop"), Placeholder("topzone")];
    var ranges;
    report, ranges := GenerateSummaryReport(results);
    ReportOfPlaceholders(c, results);
    exitCode := if c.success then 0 else 1;
  }

  /** The placeholders add nothing to the counts. */
  lemma ReportOfPlaceholders(c: ScrapeResult, results: seq<ScrapeResult>)
    requires results == [c, Placeholder("shopdunk"), Placeholder("fptshop"), Placeholder("topzone")]
    ensures SuccessfulShops(results) == (if c.success then 1 else 0)
    ensures SuccessfulTotal(results) == (if c.success then c.count else 0)
  {
    var r1, r2, r3 := results[..1], results[..2], results[..3];
    assert r1[..0] == [] && r2[..1] == r1 && r3[..2] == r2 && results[..3] == r3;
    assert SuccessfulShops(r1) == (if c.success then 1 else 0);
    assert SuccessfulTotal(r1) == (if c.success then c.count else 0);
    assert SuccessfulShops(r3) == SuccessfulShops(r2) == SuccessfulShops(r1);
    assert SuccessfulTotal(r3) == SuccessfulTotal(r2) == SuccessfulTotal(r1);
  }
}
