/** The selection logic of the price table (components/ui/macbook-prices-table.jsx):
    the currency symbol, the "All"-wildcard filters, the price sort on a copy of the rows,
    and the min/max highlighting. Rendering is not modelled. */
module PricesTable {
  import opened Common
  import opened Sorting

  /** The fields of a table row that the selection logic reads. `finalPrice` None stands
      for null or undefined. */
  datatype Item = Item(model: string, modelType: string, screenSize: string, category: string, finalPrice: Option<int>)

  /** The three dropdowns and the sort order. */
  datatype Selection = Selection(model: string, screenSize: string, chipset: string, sortOrder: string)

  const All := "All"

  /** `getCurrencySymbol`: the sign of the three known codes, otherwise the code itself. */
  function CurrencySymbol(currency: string): (r: string)
    ensures currency == "INR" ==> r == "\U{20B9}"
    ensures currency == "USD" ==> r == "$"
    ensures currency == "EUR" ==> r == "\U{20AC}"
    ensures currency !in {"INR", "USD", "EUR"} ==> r == currency
  {
    if currency == "INR" then "\U{20B9}"
    else if currency == "USD" then "$"
    else if currency == "EUR" then "\U{20AC}"
    else currency
  }

  /** Each dropdown is either "All" or equal to the row's field. */
  predicate Matches(sel: Selection, item: Item) {
    && (sel.model == All || item.modelType == sel.model)
    && (sel.screenSize == All || item.screenSize == sel.screenSize)
    && (sel.chipset == All || item.category == sel.chipset)
  }

  /** `data.filter(...)`: the matching rows in their order. */
  function Filtered(data: seq<Item>, sel: Selection): (r: seq<Item>)
    ensures |r| <= |data|
    ensures forall x :: x in r <==> x in data && Matches(sel, x)
    ensures (forall i :: 0 <= i < |data| ==> Matches(sel, data[i])) ==> r == data
  {
    if data == [] then []
    else
      var last := data[|data| - 1];
      assert data == data[..|data| - 1] + [last];
      Filtered(data[..|data| - 1], sel) + (if Matches(sel, last) then [last] else [])
  }

  /** Filtering keeps the matching rows in their order, each as often as it occurs. */
  lemma {:induction false} FilteredConcat(a: seq<Item>, b: seq<Item>, sel: Selection)
    ensures Filtered(a + b, sel) == Filtered(a, sel) + Filtered(b, sel)
    decreases |b|
  {
    if b == [] {
      assert a + b == a;
    } else {
      var front := b[..|b| - 1];
      var last := b[|b| - 1];
      assert (a + b)[..|a + b| - 1] == a + front;
      assert (a + b)[|a + b| - 1] == last;
      FilteredConcat(a, front, sel);
      FilteredLast(a + b, sel);
      FilteredLast(b, sel);
      var tail := if Matches(sel, last) then [last] else [];
      assert Filtered(a, sel) + Filtered(front, sel) + tail == Filtered(a, sel) + (Filtered(front, sel) + tail);
    }
  }

  lemma FilteredLast(d: seq<Item>, sel: Selection)
    requires d != []
    ensures Filtered(d, sel) == Filtered(d[..|d| - 1], sel) + (if Matches(sel, d[|d| - 1]) then [d[|d| - 1]] else [])
  {
  }

  lemma FilteredSingle(x: Item, sel: Selection)
    ensures Filtered([x], sel) == if Matches(sel, x) then [x] else []
  {
    assert [x][..0] == [];
  }

  /** `item.finalPrice || 0`: the price when there is one, else 0. */
  function PriceOrZero(item: Item): (r: int)
    ensures item.finalPrice.Some? ==> r == item.finalPrice.value
    ensures item.finalPrice.None? ==> r == 0
  {
    item.finalPrice.GetOr(0)
  }

  function LowToHigh(a: Item, b: Item): bool {
    PriceOrZero(a) <= PriceOrZero(b)
  }

  function HighToLow(a: Item, b: Item): bool {
    PriceOrZero(b) <= PriceOrZero(a)
  }

  /** `filterAndSortData`: the filtered rows, sorted by price when an order is chosen.
      Array sort is stable, so rows with equal prices keep their filtered order. */
  function FilterAndSort(data: seq<Item>, sel: Selection): (r: seq<Item>)
    ensures multiset(r) == multiset(Filtered(data, sel))
    ensures sel.sortOrder != "low-to-high" && sel.sortOrder != "high-to-low" ==> r == Filtered(data, sel)
    ensures sel.sortOrder == "low-to-high" ==> r == InsertionSort(Filtered(data, sel), LowToHigh)
    ensures sel.sortOrder == "high-to-low" ==> r == InsertionSort(Filtered(data, sel), HighToLow)
  {
    var filtered := Filtered(data, sel);
    if sel.sortOrder == "low-to-high" then InsertionSort(filtered, LowToHigh)
    else if sel.sortOrder == "high-to-low" then InsertionSort(filtered, HighToLow)
    else filtered
  }

  /** Every row shown matches the selection, and every matching row is shown. */
  lemma FilterAndSortSelects(data: seq<Item>, sel: Selection, x: Item)
    ensures x in FilterAndSort(data, sel) <==> x in data && Matches(sel, x)
  {
    var r := FilterAndSort(data, sel);
    assert x in r <==> x in multiset(r);
    assert x in Filtered(data, sel) <==> x in multiset(Filtered(data, sel));
  }

  /** "low-to-high" shows non-decreasing prices, "high-to-low" non-increasing ones,
      missing prices counting as 0. */
  lemma FilterAndSortOrders(data: seq<Item>, sel: Selection)
    ensures sel.sortOrder == "low-to-high" ==>
      forall i, j :: 0 <= i < j < |FilterAndSort(data, sel)| ==> PriceOrZero(FilterAndSort(data, sel)[i]) <= PriceOrZero(FilterAndSort(data, sel)[j])
    ensures sel.sortOrder == "high-to-low" ==>
      forall i, j :: 0 <= i < j < |FilterAndSort(data, sel)| ==> PriceOrZero(FilterAndSort(data, sel)[i]) >= PriceOrZero(FilterAndSort(data, sel)[j])
  {
    var f := Filtered(data, sel);
    if sel.sortOrder == "low-to-high" {
      assert TotalPreorder(LowToHigh);
      SortIsSorted(f, LowToHigh);
    } else if sel.sortOrder == "high-to-low" {
      assert TotalPreorder(HighToLow);
      SortIsSorted(f, HighToLow);
    }
  }

  /** Rows with the same price keep their order under either sort. */
  lemma FilterAndSortIsStable(data: seq<Item>, sel: Selection, k: Item)
    ensures Equivalents(InsertionSort(Filtered(data, sel), LowToHigh), k, LowToHigh) == Equivalents(Filtered(data, sel), k, LowToHigh)
    ensures Equivalents(InsertionSort(Filtered(data, sel), HighToLow), k, HighToLow) == Equivalents(Filtered(data, sel), k, HighToLow)
  {
    assert TotalPreorder(LowToHigh);
    assert TotalPreorder(HighToLow);
    SortIsStable(Filtered(data, sel), k, LowToHigh);
    SortIsStable(Filtered(data, sel), k, HighToLow);
  }

  /** `.map((item) => item.finalPrice).filter((price) => price != null)`. */
  function FinalPrices(rows: seq<Item>): (r: seq<int>)
    ensures |r| <= |rows|
    ensures forall v :: v in r <==> exists x :: x in rows && x.finalPrice == Some(v)
  {
    if rows == [] then []
    else
      var last := rows[|rows| - 1];
      var front := rows[..|rows| - 1];
      assert rows == front + [last];
      FinalPrices(front) + (if last.finalPrice.Some? then [last.finalPrice.value] else [])
  }

  const Green := "bg-green-50"
  const Red := "bg-red-50"

  /** `getPriceHighlightClass` over the prices of the rows shown: nothing for a missing or
      zero price or when no row has a price; green for the minimum, tested first; red for
      the maximum. */
  function Highlight(finalPrice: Option<int>, prices: seq<int>): (r: string)
    ensures r == Green <==> finalPrice.Some? && finalPrice.value != 0 && prices != [] && finalPrice == MinOf(prices)
    ensures r == Red <==> && finalPrice.Some? && finalPrice.value != 0 && prices != []
                          && finalPrice != MinOf(prices) && finalPrice == MaxOf(prices)
    ensures r in {"", Green, Red}
  {
    if finalPrice.None? || finalPrice.value == 0 || prices == [] then ""
    else if finalPrice == MinOf(prices) then Green
    else if finalPrice == MaxOf(prices) then Red
    else ""
  }

  /** When every shown price is the same, a priced row is green, never red. */
  lemma HighlightAllEqual(v: int, prices: seq<int>)
    requires v != 0 && prices != [] && forall i :: 0 <= i < |prices| ==> prices[i] == v
    ensures Highlight(Some(v), prices) == Green
  {
    var m := MinOf(prices);
    assert prices[0] in prices;
    assert m.value == v;
  }

  /** A price strictly between the minimum and the maximum is not highlighted. */
  lemma HighlightMiddle(v: int, prices: seq<int>)
    requires (exists a :: a in prices && a < v) && (exists b :: b in prices && v < b)
    ensures Highlight(Some(v), prices) == ""
  {
    var a :| a in prices && a < v;
    var b :| b in prices && v < b;
    assert MinOf(prices).value <= a;
    assert MaxOf(prices).value >= b;
  }
}
