/** The manager that runs all four scrapers and consolidates their products
    (macbook_scraper/run_all_scrapers.py). */
module RunAllScrapers {
  import opened Common
  import opened Scraping

  /** The scrapers in the order of the manager's dictionary. */
  const ShopOrder := ["cellphones", "shopdunk", "fptshop", "topzone"]

  /** The `summary` of the detailed output. */
  datatype Summary = Summary(totalProducts: int, successfulShops: nat, failedShops: nat)

  /** The sum of the reported counts, over every result. */
  function TotalCount(rs: seq<ScrapeResult>): int {
    if rs == [] then 0 else TotalCount(rs[..|rs| - 1]) + rs[|rs| - 1].count
  }

  /** The products of the successful results, in result order. */
  function Consolidated(rs: seq<ScrapeResult>): (r: seq<Product>)
    ensures forall p :: p in r <==> exists i :: 0 <= i < |rs| && rs[i].success && p in rs[i].products
  {
    if rs == [] then []
    else
      var front := rs[..|rs| - 1];
      var last := rs[|rs| - 1];
      var c := Consolidated(front);
      var r := c + (if last.success then last.products else []);
      assert forall p :: p in r <==> exists i :: 0 <= i < |rs| && rs[i].success && p in rs[i].products by {
        forall p ensures p in r <==> exists i :: 0 <= i < |rs| && rs[i].success && p in rs[i].products {
          if p in c {
            var i :| 0 <= i < |front| && front[i].success && p in front[i].products;
            assert rs[i] == front[i];
          }
          if exists i :: 0 <= i < |rs| && rs[i].success && p in rs[i].products {
            var i :| 0 <= i < |rs| && rs[i].success && p in rs[i].products;
            if i < |front| {
              assert front[i] == rs[i];
            }
          }
        }
      }
      r
  }

  /** Consolidation keeps the order of the results: the products of earlier shops come first. */
  lemma {:induction false} ConsolidatedAppend(a: seq<ScrapeResult>, b: seq<ScrapeResult>)
    ensures Consolidated(a + b) == Consolidated(a) + Consolidated(b)
    decreases |b|
  {
    if b == [] {
      assert a + b == a;
    } else {
      var front := b[..|b| - 1];
      assert (a + b)[..|a + b| - 1] == a + front;
      ConsolidatedAppend(a, front);
    }
  }

  function MakeSummary(rs: seq<ScrapeResult>): (r: Summary)
    ensures r.successfulShops + r.failedShops == |rs|
  {
    SuccessfulPlusFailed(rs);
    Summary(TotalCount(rs), SuccessfulShops(rs), FailedShops(rs))
  }

  /** When every result has the shape scrapers give it, the summed counts equal the number
      of consolidated products. */
  lemma {:induction false} TotalCountIsConsolidated(rs: seq<ScrapeResult>)
    requires forall i :: 0 <= i < |rs| ==> WellFormed(rs[i])
    ensures TotalCount(rs) == |Consolidated(rs)|
  {
    if rs != [] {
      TotalCountIsConsolidated(rs[..|rs| - 1]);
    }
  }

  /** A crash is recorded with that shape. */
  lemma SettleWellFormed(shop: string, o: Outcome)
    requires o.Returned? ==> WellFormed(o.result)
    ensures WellFormed(Settle(shop, o))
  {
  }

  /** The results in dictionary order. */
  function Ordered(results: map<string, ScrapeResult>): (rs: seq<ScrapeResult>)
    requires forall k :: k in ShopOrder ==> k in results
    ensures |rs| == |ShopOrder| && forall i :: 0 <= i < |ShopOrder| ==> rs[i] == results[ShopOrder[i]]
  {
    [results[ShopOrder[0]], results[ShopOrder[1]], results[ShopOrder[2]], results[ShopOrder[3]]]
  }

  class ScraperManager {
    var results: map<string, ScrapeResult>

    constructor()
      ensures results == map[]
    {
      results := map[];
    }

    /** `run_all`: one entry per scraper, in order, then the printed and the saved
        summaries and the consolidated products. Each argument is what calling that
        shop's scraper gave. */
    method RunAll(cellphones: Outcome, shopdunk: Outcome, fptshop: Outcome, topzone: Outcome)
      returns (printedTotal: int, printedSuccesses: nat, summary: Summary, allProducts: seq<Product>)
      modifies this
      ensures results == old(results)["cellphones" := Settle("cellphones", cellphones)]
                                     ["shopdunk" := Settle("shopdunk", shopdunk)]
                                     ["fptshop" := Settle("fptshop", fptshop)]
                                     ["topzone" := Settle("topzone", topzone)]
      ensures var rs := [Settle("cellphones", cellphones), Settle("shopdunk", shopdunk),
                         Settle("fptshop", fptshop), Settle("topzone", topzone)];
              && summary == MakeSummary(rs)
              && printedTotal == summary.totalProducts && printedSuccesses == summary.successfulShops
              && allProducts == Consolidated(rs)
    {
      var outcomes := [cellphones, shopdunk, fptshop, topzone];
      for i := 0 to |ShopOrder|
        invariant forall j :: 0 <= j < i ==> ShopOrder[j] in results && results[ShopOrder[j]] == Settle(ShopOrder[j], outcomes[j])
        invariant forall k :: k in results <==> k in old(results) || k in ShopOrder[..i]
        invariant forall k :: k in old(results) && k !in ShopOrder[..i] ==> results[k] == old(results)[k]
      {
        results := results[ShopOrder[i] := Settle(ShopOrder[i], outcomes[i])];
      }
      var rs := Ordered(results);
      assert rs == [Settle("cellphones", cellphones), Settle("shopdunk", shopdunk),
                    Settle("fptshop", fptshop), Settle("topzone", topzone)];
      printedTotal, printedSuccesses := PrintSummary(rs);
      summary, allProducts := SaveResults(rs);
    }
  }

  /** `_print_summary`: counts and successes over all results. */
  method PrintSummary(rs: seq<ScrapeResult>) returns (total: int, successes: nat)
    ensures total == TotalCount(rs) && successes == SuccessfulShops(rs)
  {
    total, successes := 0, 0;
    for i := 0 to |rs|
      invariant total == TotalCount(rs[..i]) && successes == SuccessfulShops(rs[..i])
    {
      assert rs[..i + 1][..i] == rs[..i];
      total := total + rs[i].count;
      if rs[i].success {
        successes := successes + 1;
      }
    }
    assert rs[..|rs|] == rs;
  }

  /** `_save_results`: the saved summary and the consolidated products (the files and the
      text report are not modelled). */
  method SaveResults(rs: seq<ScrapeResult>) returns (summary: Summary, allProducts: seq<Product>)
    ensures summary == MakeSummary(rs)
    ensures allProducts == Consolidated(rs)
  {
    allProducts := [];
    for i := 0 to |rs|
      invariant allProducts == Consolidated(rs[..i])
    {
      assert rs[..i + 1][..i] == rs[..i];
      if rs[i].success {
        allProducts := allProducts + rs[i].products;
      }
    }
    assert rs[..|rs|] == rs;
    summary := MakeSummary(rs);
  }
}
