/** The automated price update (macbook_scraper/update_prices.py): runs the scrapers,
    accumulates their products and the per-shop bookkeeping, and decides the exit code. */
module UpdatePrices {
  import opened Common
  import opened Scraping

  /** One entry of `summary.by_shop`. */
  datatype ShopInfo = ShopInfo(count: nat, success: bool, error: Option<string>)

  /** One entry of `summary.errors`. */
  datatype ShopError = ShopError(shop: string, error: string)

  /** A scraper run is accepted when it reports success with at least one product. */
  predicate Accepted(o: Outcome) {
    o.Returned? && o.result.success && o.result.products != []
  }

  /** The products an outcome contributes: all of them when accepted, none otherwise. */
  function Contributed(o: Outcome): (r: seq<Product>)
    ensures Accepted(o) ==> r == o.result.products && r != []
    ensures !Accepted(o) ==> r == []
  {
    if Accepted(o) then o.result.products else []
  }

  /** The error text of a rejected run: the exception text, the result's error, or
      "Unknown error" when the result carries none. */
  function ErrorText(o: Outcome): (r: string)
    ensures o.Raised? ==> r == o.message
    ensures o.Returned? && o.result.error.Some? ==> r == o.result.error.value
    ensures o.Returned? && o.result.error.None? ==> r == "Unknown error"
  {
    match o
    case Raised(message) => message
    case Returned(result) => result.error.GetOr("Unknown error")
  }

  /** What `by_shop[shop]` becomes. */
  function InfoFor(o: Outcome): (r: ShopInfo)
    ensures r.success <==> Accepted(o)
    ensures r.count == |Contributed(o)|
    ensures r.error.None? <==> Accepted(o)
    ensures !Accepted(o) ==> r.error == Some(ErrorText(o))
  {
    if Accepted(o) then ShopInfo(|o.result.products|, true, None)
    else ShopInfo(0, false, Some(ErrorText(o)))
  }

  /** What `summary.errors` gains. */
  function ErrorsFor(shop: string, o: Outcome): (r: seq<ShopError>)
    ensures Accepted(o) <==> r == []
    ensures !Accepted(o) ==> r == [ShopError(shop, ErrorText(o))]
  {
    if Accepted(o) then [] else [ShopError(shop, ErrorText(o))]
  }

  /** The exit code of `run`. */
  function ExitCode(totalProducts: nat): (r: int)
    ensures r == 0 <==> totalProducts > 0
    ensures r == 0 || r == 1
  {
    if totalProducts > 0 then 0 else 1
  }

  class PriceUpdater {
    var products: seq<Product>
    var totalProducts: nat
    var byShop: map<string, ShopInfo>
    var errors: seq<ShopError>

    constructor()
      ensures products == [] && totalProducts == 0 && byShop == map[] && errors == []
    {
      products := [];
      totalProducts := 0;
      byShop := map[];
      errors := [];
    }

    /** `run_scraper`: given what calling the scraper gave. */
    method RunScraper(o: Outcome, shop: string) returns (ok: bool)
      modifies this
      ensures ok == Accepted(o)
      ensures products == old(products) + Contributed(o)
      ensures byShop == old(byShop)[shop := InfoFor(o)]
      ensures errors == old(errors) + ErrorsFor(shop, o)
      ensures totalProducts == old(totalProducts)
    {
      if o.Returned? && o.result.success && o.result.products != [] {
        products := products + o.result.products;
        byShop := byShop[shop := ShopInfo(|o.result.products|, true, None)];
        return true;
      }
      var message := if o.Raised? then o.message else o.result.error.GetOr("Unknown error");
      errors := errors + [ShopError(shop, message)];
      byShop := byShop[shop := ShopInfo(0, false, Some(message))];
      return false;
    }

    /** `save_results`: the total is the number of accumulated products (the files are
        not modelled). */
    method SaveResults()
      modifies this
      ensures totalProducts == |products|
      ensures products == old(products) && byShop == old(byShop) && errors == old(errors)
    {
      totalProducts := |products|;
    }

    /** `run`: CellphoneS and ShopDunk always, FPT Shop only with `--all` and when its
        scraper could be imported; TopZone never, its availability flag being fixed to
        False. Given the outcomes of the scrapers, it yields the exit code. */
    method Run(includeAll: bool, fptAvailable: bool, cellphones: Outcome, shopdunk: Outcome, fptshop: Outcome)
      returns (exitCode: int)
      modifies this
      ensures var fpt := if includeAll && fptAvailable then Contributed(fptshop) else [];
              products == old(products) + Contributed(cellphones) + Contributed(shopdunk) + fpt
      ensures byShop == if includeAll && fptAvailable
                        then old(byShop)["cellphones" := InfoFor(cellphones)]["shopdunk" := InfoFor(shopdunk)]["fptshop" := InfoFor(fptshop)]
                        else old(byShop)["cellphones" := InfoFor(cellphones)]["shopdunk" := InfoFor(shopdunk)]
      ensures var fpt := if includeAll && fptAvailable then ErrorsFor("fptshop", fptshop) else [];
              errors == old(errors) + ErrorsFor("cellphones", cellphones) + ErrorsFor("shopdunk", shopdunk) + fpt
      ensures totalProducts == |products|
      ensures exitCode == ExitCode(totalProducts)
    {
      var _ := RunScraper(cellphones, "cellphones");
      var _ := RunScraper(shopdunk, "shopdunk");
      if includeAll && fptAvailable {
        var _ := RunScraper(fptshop, "fptshop");
      }
      SaveResults();
      exitCode := if totalProducts > 0 then 0 else 1;
    }
  }

  /** A fresh update exits with success exactly when some scraper it called was accepted. */
  lemma FreshRunExitCode(includeAll: bool, fptAvailable: bool, cellphones: Outcome, shopdunk: Outcome, fptshop: Outcome)
    ensures var fpt := if includeAll && fptAvailable then Contributed(fptshop) else [];
            ExitCode(|Contributed(cellphones) + Contributed(shopdunk) + fpt|) == 0
            <==> Accepted(cellphones) || Accepted(shopdunk) || (includeAll && fptAvailable && Accepted(fptshop))
  {
  }
}
