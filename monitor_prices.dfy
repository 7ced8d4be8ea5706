/** Price-change detection against a stored history (macbook_scraper/monitor_prices.py).
    The history file is the `history` field of the monitor; the latest scraped products
    are passed in. */
module MonitorPrices {
  import opened Common
  import opened Text
  import opened Sorting
  import opened Scraping

  /** What the history keeps for a key (the `last_updated` timestamp is not modelled). */
  datatype Entry = Entry(priceVnd: Option<nat>, model: Option<string>, shop: string)

  /** One entry of `price_drops` or `price_increases` (`change_pct` is not modelled). */
  datatype Change = Change(shop: string, model: Option<string>, oldPrice: nat, newPrice: nat, changeVnd: int, url: Option<string>)

  /** One entry of `new_products`. */
  datatype NewProduct = NewProduct(shop: string, model: Option<string>, price: nat, url: Option<string>)

  datatype Changes = Changes(drops: seq<Change>, increases: seq<Change>, newProducts: seq<NewProduct>)

  /** What one product does to the report. */
  datatype Event = Skipped | Unchanged | Drop(change: Change) | Increase(change: Change) | Added(entry: NewProduct)

  datatype State = State(history: map<string, Entry>, changes: Changes)

  const NoChanges := Changes([], [], [])

  /** How `{model}` formats the model inside the key: a missing one reads "None". */
  function ModelText(p: Product): string {
    if p.model.Some? then p.model.value else "None"
  }

  /** `f"{shop}_{model}"`: the shop and an underscore, then the model's text. */
  function Key(p: Product): (r: string)
    ensures StartsWith(r, p.shop + "_")
    ensures r[|p.shop| + 1..] == ModelText(p)
  {
    p.shop + "_" + ModelText(p)
  }

  /** Within one shop, two products share a history entry exactly when their models
      format the same. */
  lemma KeyWithinShop(p: Product, q: Product)
    requires p.shop == q.shop
    ensures Key(p) == Key(q) <==> ModelText(p) == ModelText(q)
  {
    if Key(p) == Key(q) {
      assert Key(p)[|p.shop| + 1..] == Key(q)[|q.shop| + 1..];
    }
  }

  /** How the loop body classifies a product against the history it has at that point. */
  function Classify(history: map<string, Entry>, p: Product): (e: Event)
    ensures e.Skipped? <==> !Priced(p.priceVnd)
    ensures e.Added? <==> Priced(p.priceVnd) && Key(p) !in history
    ensures e.Unchanged? <==> && Priced(p.priceVnd) && Key(p) in history
                              && (!Priced(history[Key(p)].priceVnd) || history[Key(p)].priceVnd.value == p.priceVnd.value)
    ensures e.Drop? <==> && Priced(p.priceVnd) && Key(p) in history && Priced(history[Key(p)].priceVnd)
                         && p.priceVnd.value < history[Key(p)].priceVnd.value
    ensures e.Increase? <==> && Priced(p.priceVnd) && Key(p) in history && Priced(history[Key(p)].priceVnd)
                             && p.priceVnd.value > history[Key(p)].priceVnd.value
    ensures (e.Drop? || e.Increase?) ==> && e.change.oldPrice == history[Key(p)].priceVnd.value
                                         && e.change.newPrice == p.priceVnd.value
                                         && e.change.changeVnd == e.change.newPrice - e.change.oldPrice
                                         && e.change.shop == p.shop && e.change.model == p.model && e.change.url == p.url
    ensures e.Added? ==> e.entry == NewProduct(p.shop, p.model, p.priceVnd.value, p.url)
  {
    if !Priced(p.priceVnd) then Skipped
    else
      var key := Key(p);
      var current := p.priceVnd.value;
      if key in history then
        var previous := history[key].priceVnd;
        if Priced(previous) && current != previous.value then
          var c := Change(p.shop, p.model, previous.value, current, current - previous.value, p.url);
          if current < previous.value then Drop(c) else Increase(c)
        else Unchanged
      else Added(NewProduct(p.shop, p.model, current, p.url))
  }

  function Report(c: Changes, e: Event): Changes {
    match e
    case Drop(x) => c.(drops := c.drops + [x])
    case Increase(x) => c.(increases := c.increases + [x])
    case Added(x) => c.(newProducts := c.newProducts + [x])
    case _ => c
  }

  function Size(c: Changes): nat {
    |c.drops| + |c.increases| + |c.newProducts|
  }

  /** One iteration of the `detect_changes` loop: a priced product adds at most one report
      entry and overwrites its history entry; an unpriced one changes nothing. */
  function Step(st: State, p: Product): (r: State)
    ensures !Priced(p.priceVnd) ==> r == st
    ensures Priced(p.priceVnd) ==> r.history == st.history[Key(p) := Entry(p.priceVnd, p.model, p.shop)]
    ensures Size(r.changes) <= Size(st.changes) + 1
    ensures var e := Classify(st.history, p);
            && (e.Drop? ==> r.changes == st.changes.(drops := st.changes.drops + [e.change]))
            && (e.Increase? ==> r.changes == st.changes.(increases := st.changes.increases + [e.change]))
            && (e.Added? ==> r.changes == st.changes.(newProducts := st.changes.newProducts + [e.entry]))
            && (e.Unchanged? ==> r.changes == st.changes)
  {
    var e := Classify(st.history, p);
    if e.Skipped? then st
    else State(st.history[Key(p) := Entry(p.priceVnd, p.model, p.shop)], Report(st.changes, e))
  }

  /** `detect_changes` as a left fold over the products. */
  function Detect(history: map<string, Entry>, products: seq<Product>): State {
    if products == [] then State(history, NoChanges)
    else Step(Detect(history, products[..|products| - 1]), products[|products| - 1])
  }

  /** The entries each report list may hold: drops lower the price by a negative
      `change_vnd`, increases raise it by a positive one, new products carry a price. */
  predicate WellFormed(c: Changes) {
    && (forall x :: x in c.drops ==> x.changeVnd == x.newPrice - x.oldPrice < 0 && x.oldPrice > 0)
    && (forall x :: x in c.increases ==> x.changeVnd == x.newPrice - x.oldPrice > 0 && x.newPrice > 0)
    && (forall x :: x in c.newProducts ==> x.price > 0)
  }

  lemma {:induction false} DetectWellFormed(history: map<string, Entry>, products: seq<Product>)
    ensures WellFormed(Detect(history, products).changes)
    ensures Size(Detect(history, products).changes) <= |products|
  {
    if products != [] {
      var front := products[..|products| - 1];
      DetectWellFormed(history, front);
    }
  }

  /** The last priced product of the batch with key `k`, if any. */
  function LastPriced(products: seq<Product>, k: string): Option<Product> {
    if products == [] then None
    else
      var p := products[|products| - 1];
      if Priced(p.priceVnd) && Key(p) == k then Some(p) else LastPriced(products[..|products| - 1], k)
  }

  /** Afterwards the history holds, for every key the batch priced, the last such price;
      every other key is as it was. */
  lemma {:induction false} DetectHistory(history: map<string, Entry>, products: seq<Product>, k: string)
    ensures var h := Detect(history, products).history;
            match LastPriced(products, k)
            case Some(p) => k in h && h[k] == Entry(p.priceVnd, p.model, p.shop)
            case None => (k in h <==> k in history) && (k in history ==> h[k] == history[k])
  {
    if products != [] {
      DetectHistory(history, products[..|products| - 1], k);
    }
  }

  /** A product whose key is new and that appears twice is reported new the first time and
      compared with its own earlier price the second time. */
  lemma RepeatedKeyComparesEarlier(history: map<string, Entry>, p: Product, q: Product)
    requires Key(p) == Key(q) && Key(p) !in history
    requires Priced(p.priceVnd) && Priced(q.priceVnd) && q.priceVnd.value < p.priceVnd.value
    ensures Detect(history, [p, q]).changes
         == Changes([Change(q.shop, q.model, p.priceVnd.value, q.priceVnd.value, q.priceVnd.value - p.priceVnd.value, q.url)],
                    [], [NewProduct(p.shop, p.model, p.priceVnd.value, p.url)])
  {
    assert [p, q][..1] == [p];
    assert [p][..0] == [];
    var s1 := Step(State(history, NoChanges), p);
    assert Detect(history, [p]) == s1;
    assert s1.history == history[Key(p) := Entry(p.priceVnd, p.model, p.shop)];
    assert s1.changes == Changes([], [], [NewProduct(p.shop, p.model, p.priceVnd.value, p.url)]);
    assert Classify(s1.history, q).Drop?;
  }

  /** The entries `generate_alert_email` renders; the HTML around them is not modelled. */
  datatype Alert = Alert(drops: seq<Change>, newProducts: seq<NewProduct>)

  const AlertNewLimit := 10

  /** `generate_alert_email`: None when there are no drops and no new products (increases
      alone do not alert); otherwise every drop and the first ten new products. */
  function AlertEmail(c: Changes): (r: Option<Alert>)
    ensures r.None? <==> c.drops == [] && c.newProducts == []
    ensures r.Some? ==> r.value.drops == c.drops && r.value.newProducts == Take(c.newProducts, AlertNewLimit)
    ensures r.Some? ==> |r.value.newProducts| <= AlertNewLimit
  {
    if c.drops == [] && c.newProducts == [] then None
    else Some(Alert(c.drops, Take(c.newProducts, AlertNewLimit)))
  }

  function Abs(x: int): nat {
    if x < 0 then -x else x
  }

  /** The order of `sorted(..., key=abs(change_vnd), reverse=True)`: larger savings first. */
  function BySavingDesc(a: Change, b: Change): bool {
    Abs(a.changeVnd) >= Abs(b.changeVnd)
  }

  const TopDropLimit := 5

  /** The drops `run` prints: the five largest by |change_vnd|, ties in report order. */
  function TopDrops(drops: seq<Change>): (r: seq<Change>)
    ensures |r| == if |drops| <= TopDropLimit then |drops| else TopDropLimit
    ensures forall i :: 0 <= i < |r| ==> r[i] in multiset(drops)
    ensures multiset(r) <= multiset(drops)
  {
    var sorted := InsertionSort(drops, BySavingDesc);
    var r := Take(sorted, TopDropLimit);
    assert r == sorted[..|r|];
    assert sorted == r + sorted[|r|..];
    assert multiset(sorted) == multiset(r) + multiset(sorted[|r|..]);
    assert forall i :: 0 <= i < |r| ==> r[i] in multiset(drops) by {
      forall i | 0 <= i < |r| ensures r[i] in multiset(drops) {
        assert r[i] in multiset(r);
      }
    }
    r
  }

  lemma BySavingDescIsTotalPreorder()
    ensures TotalPreorder(BySavingDesc)
  {
  }

  /** The top drops are in non-increasing |change_vnd| order, and none of the drops left
      out (counted with multiplicity) saves more than any shown. */
  lemma TopDropsAreLargest(drops: seq<Change>)
    ensures forall i, j :: 0 <= i < j < |TopDrops(drops)| ==> Abs(TopDrops(drops)[i].changeVnd) >= Abs(TopDrops(drops)[j].changeVnd)
    ensures var sorted := InsertionSort(drops, BySavingDesc);
            forall i, j :: 0 <= i < |TopDrops(drops)| <= j < |sorted| ==> Abs(TopDrops(drops)[i].changeVnd) >= Abs(sorted[j].changeVnd)
    ensures forall i, d :: 0 <= i < |TopDrops(drops)| && d in multiset(drops) - multiset(TopDrops(drops))
                           ==> Abs(TopDrops(drops)[i].changeVnd) >= Abs(d.changeVnd)
  {
    DropsSortedBySaving(drops);
    TopDropsIsPrefix(drops);
    SortedPrefixSavesMost(InsertionSort(drops, BySavingDesc), TopDrops(drops));
  }

  /** A prefix `p` of a list sorted by descending saving is itself in that order, and no
      later entry, nor anything the prefix leaves out, saves more than an entry of `p`. */
  lemma SortedPrefixSavesMost(s: seq<Change>, p: seq<Change>)
    requires |p| <= |s| && p == s[..|p|] && SortedBy(s, BySavingDesc)
    ensures forall i, j :: 0 <= i < j < |p| ==> Abs(p[i].changeVnd) >= Abs(p[j].changeVnd)
    ensures forall i, j :: 0 <= i < |p| <= j < |s| ==> Abs(p[i].changeVnd) >= Abs(s[j].changeVnd)
    ensures forall i, d :: 0 <= i < |p| && d in multiset(s) - multiset(p) ==> Abs(p[i].changeVnd) >= Abs(d.changeVnd)
  {
    forall i, j | 0 <= i < j < |p| ensures Abs(p[i].changeVnd) >= Abs(p[j].changeVnd) {
      assert BySavingDesc(s[i], s[j]);
    }
    forall i, j | 0 <= i < |p| <= j < |s| ensures Abs(p[i].changeVnd) >= Abs(s[j].changeVnd) {
      assert BySavingDesc(s[i], s[j]);
    }
    LeftOutSaveNoMore(s, |p|);
  }

  lemma TopDropsIsPrefix(drops: seq<Change>)
    ensures TopDrops(drops) == InsertionSort(drops, BySavingDesc)[..|TopDrops(drops)|]
  {
  }

  lemma DropsSortedBySaving(drops: seq<Change>)
    ensures SortedBy(InsertionSort(drops, BySavingDesc), BySavingDesc)
  {
    BySavingDescIsTotalPreorder();
    SortIsSorted(drops, BySavingDesc);
  }

  /** In a list sorted by descending saving, nothing a prefix leaves out saves more than
      an entry of the prefix. */
  lemma LeftOutSaveNoMore(s: seq<Change>, n: nat)
    requires n <= |s| && SortedBy(s, BySavingDesc)
    ensures forall i, d :: 0 <= i < n && d in multiset(s) - multiset(s[..n]) ==> Abs(s[i].changeVnd) >= Abs(d.changeVnd)
  {
    LeftOutComeLater(s, n);
    forall i, d | 0 <= i < n && d in multiset(s) - multiset(s[..n]) ensures Abs(s[i].changeVnd) >= Abs(d.changeVnd) {
      var j :| n <= j < |s| && s[j] == d;
      assert BySavingDesc(s[i], s[j]);
    }
  }

  /** What a prefix of `s` leaves out, counted with multiplicity, sits at a later position. */
  lemma LeftOutComeLater<T>(s: seq<T>, n: nat)
    requires n <= |s|
    ensures forall d :: d in multiset(s) - multiset(s[..n]) ==> exists j :: n <= j < |s| && s[j] == d
  {
    assert s == s[..n] + s[n..];
    assert multiset(s) - multiset(s[..n]) == multiset(s[n..]);
    forall d | d in multiset(s[n..]) ensures exists j :: n <= j < |s| && s[j] == d {
      var k :| 0 <= k < |s[n..]| && s[n..][k] == d;
      assert s[n + k] == d;
    }
  }

  /** Drops the comparator cannot tell apart keep their report order. */
  lemma TopDropsTiesKeepOrder(drops: seq<Change>, k: Change)
    ensures Equivalents(InsertionSort(drops, BySavingDesc), k, BySavingDesc) == Equivalents(drops, k, BySavingDesc)
  {
    BySavingDescIsTotalPreorder();
    SortIsStable(drops, k, BySavingDesc);
  }

  class PriceMonitor {
    /** The contents of the price history file. */
    var history: map<string, Entry>

    constructor(stored: map<string, Entry>)
      ensures history == stored
    {
      history := stored;
    }

    /** `detect_changes`: walks the latest products once, updating the history in place. */
    method DetectChanges(current: seq<Product>) returns (changes: Changes)
      modifies this
      ensures State(history, changes) == Detect(old(history), current)
    {
      var drops: seq<Change> := [];
      var increases: seq<Change> := [];
      var newProducts: seq<NewProduct> := [];
      for i := 0 to |current|
        invariant State(history, Changes(drops, increases, newProducts)) == Detect(old(history), current[..i])
      {
        assert current[..i + 1][..i] == current[..i];
        var product := current[i];
        var key := Key(product);
        var price := product.priceVnd;
        if !Priced(price) {
          continue;
        }
        if key in history {
          var oldPrice := history[key].priceVnd;
          if Priced(oldPrice) && price.value != oldPrice.value {
            var info := Change(product.shop, product.model, oldPrice.value, price.value, price.value as int - oldPrice.value, product.url);
            if price.value < oldPrice.value {
              drops := drops + [info];
            } else {
              increases := increases + [info];
            }
          }
        } else {
          newProducts := newProducts + [NewProduct(product.shop, product.model, price.value, product.url)];
        }
        history := history[key := Entry(price, product.model, product.shop)];
      }
      assert current[..|current|] == current;
      changes := Changes(drops, increases, newProducts);
    }

    /** `run`: the report, and the drops printed as the top ones. */
    method Run(current: seq<Product>) returns (changes: Changes, top: seq<Change>)
      modifies this
      ensures State(history, changes) == Detect(old(history), current)
      ensures top == TopDrops(changes.drops)
    {
      changes := DetectChanges(current);
      top := TopDrops(changes.drops);
    }
  }
}
