/** The runner that scrapes CellphoneS and ShopDunk, attaches parsed specs to every product
    of a successful scrape, and summarises the products by chip
    (macbook_scraper/run_enhanced_scraper.py). */
module RunEnhancedScraper {
  import opened Common
  import opened Text
  import opened Sorting
  import opened Scraping
  import SpecParser

  // ---------------------------------------------------------------- spec attachment

  /** `product['specs'] = parser.parse(product['model'])`. */
  function Attach(p: Product): (r: Product)
    ensures r == p.(specs := Some(SpecParser.Parse(p.model)))
  {
    p.(specs := Some(SpecParser.Parse(p.model)))
  }

  function AttachAll(ps: seq<Product>): (r: seq<Product>)
    ensures |r| == |ps|
    ensures forall i :: 0 <= i < |ps| ==> r[i] == Attach(ps[i])
  {
    if ps == [] then [] else [Attach(ps[0])] + AttachAll(ps[1..])
  }

  /** The stored result after the run: the products of a successful scrape are the same
      dictionaries that received their specs, so the stored result shows them too. */
  function Enhanced(r: ScrapeResult): (e: ScrapeResult)
    ensures e.success == r.success && e.count == r.count && |e.products| == |r.products|
    ensures r.success ==> e.products == AttachAll(r.products)
    ensures !r.success ==> e == r
  {
    if r.success then r.(products := AttachAll(r.products)) else r
  }

  /** What a result adds to `all_products`. */
  function Contributed(r: ScrapeResult): (ps: seq<Product>)
    ensures r.success ==> ps == AttachAll(r.products)
    ensures !r.success ==> ps == []
    ensures forall p :: p in ps ==> p.specs.Some?
  {
    if r.success then AttachAll(r.products) else []
  }

  /** The attaching loop of `run_all`. */
  method AttachSpecs(products: seq<Product>) returns (attached: seq<Product>)
    ensures attached == AttachAll(products)
  {
    attached := [];
    for i := 0 to |products|
      invariant |attached| == i && forall j :: 0 <= j < i ==> attached[j] == Attach(products[j])
    {
      var a := Attach(products[i]);
      attached := attached + [a];
    }
  }

  // ---------------------------------------------------------------- chip groups

  /** The chip key of a spec record: "chip variant" when there is a variant, else the chip,
      which may be missing. A missing chip before a variant would be formatted "None". */
  function ChipKey(specs: SpecParser.ParseResult): (k: Option<string>)
    ensures specs.Empty? ==> k.None?
    ensures specs.Parsed? && !Truthy(specs.specs.chipVariant) ==> k == specs.specs.chip
    ensures specs.Parsed? && Truthy(specs.specs.chipVariant) && specs.specs.chip.Some?
            ==> k == Some(specs.specs.chip.value + " " + specs.specs.chipVariant.value)
  {
    match specs
    case Empty => None
    case Parsed(s) =>
      if Truthy(s.chipVariant) then Some((if s.chip.Some? then s.chip.value else "None") + " " + s.chipVariant.value)
      else s.chip
  }

  /** A parsed name has a chip key exactly when a chip was found, and the key starts with it. */
  lemma ChipKeyOfParse(r: SpecParser.ParseResult)
    requires r.Parsed? ==> (r.specs.chipVariant.Some? ==> r.specs.chip.Some?)
    ensures ChipKey(r).Some? <==> r.Parsed? && r.specs.chip.Some?
    ensures ChipKey(r).Some? ==> StartsWith(ChipKey(r).value, r.specs.chip.value)
  {
    if r.Parsed? && Truthy(r.specs.chipVariant) {
      var c := r.specs.chip.value;
      assert (c + " " + r.specs.chipVariant.value)[..|c|] == c;
    }
  }

  /** The chip key of a product that carries specs; a product reaching the summary always does. */
  function KeyOf(p: Product): Option<string> {
    if p.specs.Some? then ChipKey(p.specs.value) else None
  }

  /** The products with key `k`, in input order. */
  function Members(ps: seq<Product>, k: Option<string>): (r: seq<Product>)
    ensures |r| <= |ps|
  {
    if ps == [] then []
    else
      var last := ps[|ps| - 1];
      Members(ps[..|ps| - 1], k) + (if KeyOf(last) == k then [last] else [])
  }

  /** The members of `k` are exactly the products whose key is `k`. */
  lemma {:induction false} MembersAre(ps: seq<Product>, k: Option<string>)
    ensures forall p :: p in Members(ps, k) <==> p in ps && KeyOf(p) == k
  {
    if ps != [] {
      var last := ps[|ps| - 1];
      assert ps == ps[..|ps| - 1] + [last];
      MembersAre(ps[..|ps| - 1], k);
    }
  }

  /** The keys in order of first occurrence: the dictionary's keys. */
  function Keys(ps: seq<Product>): (ks: seq<Option<string>>)
    ensures forall i, j :: 0 <= i < j < |ks| ==> ks[i] != ks[j]
  {
    if ps == [] then []
    else
      var front := Keys(ps[..|ps| - 1]);
      var last := ps[|ps| - 1];
      if KeyOf(last) in front then front else front + [KeyOf(last)]
  }

  /** The keys are exactly the keys of the products. */
  lemma {:induction false} KeysAre(ps: seq<Product>)
    ensures forall k :: k in Keys(ps) <==> exists p :: p in ps && KeyOf(p) == k
  {
    if ps != [] {
      var last := ps[|ps| - 1];
      assert ps == ps[..|ps| - 1] + [last];
      KeysAre(ps[..|ps| - 1]);
    }
  }

  /** The total size of the groups of the given keys. */
  function SumSizes(ps: seq<Product>, ks: seq<Option<string>>): nat {
    if ks == [] then 0 else SumSizes(ps, ks[..|ks| - 1]) + |Members(ps, ks[|ks| - 1])|
  }

  /** Appending one product to the batch grows the group sum by one when its key is counted. */
  lemma {:induction false} SumSizesStep(ps: seq<Product>, p: Product, ks: seq<Option<string>>)
    requires forall i, j :: 0 <= i < j < |ks| ==> ks[i] != ks[j]
    ensures SumSizes(ps + [p], ks) == SumSizes(ps, ks) + (if KeyOf(p) in ks then 1 else 0)
  {
    assert (ps + [p])[..|ps|] == ps;
    if ks != [] {
      var front := ks[..|ks| - 1];
      SumSizesStep(ps, p, front);
      assert KeyOf(p) in ks <==> KeyOf(p) in front || KeyOf(p) == ks[|ks| - 1];
      assert KeyOf(p) == ks[|ks| - 1] ==> KeyOf(p) !in front;
    }
  }

  lemma KeysStep(ps: seq<Product>, p: Product)
    ensures Keys(ps + [p]) == if KeyOf(p) in Keys(ps) then Keys(ps) else Keys(ps) + [KeyOf(p)]
  {
    assert (ps + [p])[..|ps|] == ps;
  }

  lemma MembersStep(ps: seq<Product>, p: Product, k: Option<string>)
    ensures Members(ps + [p], k) == Members(ps, k) + (if KeyOf(p) == k then [p] else [])
  {
    assert (ps + [p])[..|ps|] == ps;
  }

  /** A key that no product has has no members. */
  lemma {:induction false} MembersOfAbsentKey(ps: seq<Product>, k: Option<string>)
    requires k !in Keys(ps)
    ensures Members(ps, k) == []
  {
    if ps != [] {
      var front := ps[..|ps| - 1];
      var last := ps[|ps| - 1];
      assert KeyOf(last) in Keys(ps);
      assert forall j :: j in Keys(front) ==> j in Keys(ps);
      MembersOfAbsentKey(front, k);
    }
  }

  /** Every product is in exactly one group: the group sizes add up to the batch size. */
  lemma {:induction false} GroupsPartition(ps: seq<Product>)
    ensures SumSizes(ps, Keys(ps)) == |ps|
  {
    if ps != [] {
      var front := ps[..|ps| - 1];
      var last := ps[|ps| - 1];
      assert ps == front + [last];
      GroupsPartition(front);
      var kf := Keys(front);
      SumSizesStep(front, last, kf);
      KeysStep(front, last);
      if KeyOf(last) !in kf {
        var k := KeyOf(last);
        assert (kf + [k])[..|kf|] == kf;
        assert SumSizes(ps, kf + [k]) == SumSizes(ps, kf) + |Members(ps, k)|;
        MembersOfAbsentKey(front, k);
        MembersStep(front, last, k);
      }
    }
  }

  /** One line of the chip summary: the key and the size of its group. */
  datatype ChipLine = ChipLine(key: Option<string>, count: nat)

  function LinesOf(ps: seq<Product>, ks: seq<Option<string>>): (r: seq<ChipLine>)
    ensures |r| == |ks| && forall i :: 0 <= i < |ks| ==> r[i] == ChipLine(ks[i], |Members(ps, ks[i])|)
  {
    if ks == [] then [] else LinesOf(ps, ks[..|ks| - 1]) + [ChipLine(ks[|ks| - 1], |Members(ps, ks[|ks| - 1])|)]
  }

  /** `key=lambda x: (x[0] is None, x[0] or '')`: named chips ascending, the missing chip last. */
  predicate LineLe(a: ChipLine, b: ChipLine) {
    if a.key.None? then b.key.None?
    else b.key.None? || StrLe(a.key.value, b.key.value)
  }

  lemma LineLeIsTotalPreorder()
    ensures TotalPreorder(LineLe)
  {
    forall a: ChipLine, b: ChipLine ensures LineLe(a, b) || LineLe(b, a) {
      if a.key.Some? && b.key.Some? {
        StrLeTotal(a.key.value, b.key.value);
      }
    }
    forall a: ChipLine, b: ChipLine, c: ChipLine | LineLe(a, b) && LineLe(b, c) ensures LineLe(a, c) {
      if a.key.Some? && b.key.Some? && c.key.Some? {
        StrLeTrans(a.key.value, b.key.value, c.key.value);
      }
    }
  }

  /** The lines as listed. */
  function ChipSummary(ps: seq<Product>): seq<ChipLine> {
    InsertionSort(LinesOf(ps, Keys(ps)), LineLe)
  }

  /** How a line is labelled: a missing (or empty) key reads "Unknown Chip". */
  function Label(line: ChipLine): (r: string)
    ensures line.key.None? ==> r == "Unknown Chip"
    ensures line.key.Some? && line.key.value != [] ==> r == line.key.value
    ensures line.key.Some? && line.key.value == [] ==> r == "Unknown Chip"
  {
    if line.key.Some? && line.key.value != [] then line.key.value else "Unknown Chip"
  }

  predicate DistinctKeys(ls: seq<ChipLine>) {
    forall i, j :: 0 <= i < j < |ls| ==> ls[i].key != ls[j].key
  }

  /** The summary lists every group once, as a reordering of the groups. */
  lemma ChipSummaryGroups(ps: seq<Product>)
    ensures multiset(ChipSummary(ps)) == multiset(LinesOf(ps, Keys(ps)))
    ensures DistinctKeys(ChipSummary(ps))
  {
    var lines := LinesOf(ps, Keys(ps));
    assert DistinctKeys(lines);
    PermutationKeepsDistinctKeys(lines, ChipSummary(ps));
  }

  /** Named chips are listed in ascending order, and only the last line may be the
      missing chip. */
  lemma ChipSummaryOrder(ps: seq<Product>)
    ensures var s := ChipSummary(ps);
            && (forall i, j :: 0 <= i < j < |s| && s[i].key.Some? && s[j].key.Some? ==> StrLe(s[i].key.value, s[j].key.value))
            && (forall i :: 0 <= i < |s| - 1 ==> s[i].key.Some?)
  {
    var s := ChipSummary(ps);
    LineLeIsTotalPreorder();
    SortIsSorted(LinesOf(ps, Keys(ps)), LineLe);
    ChipSummaryGroups(ps);
    forall i | 0 <= i < |s| - 1 ensures s[i].key.Some? {
      assert LineLe(s[i], s[|s| - 1]);
    }
  }

  lemma {:induction false} DistinctKeysOnce(ls: seq<ChipLine>, x: ChipLine)
    requires DistinctKeys(ls)
    ensures multiset(ls)[x] <= 1
  {
    if ls != [] {
      var front := ls[..|ls| - 1];
      var last := ls[|ls| - 1];
      assert ls == front + [last];
      DistinctKeysOnce(front, x);
      if x == last {
        forall j | 0 <= j < |front| ensures front[j] != x {
          assert ls[j].key != ls[|ls| - 1].key;
        }
        assert x !in front;
      }
    }
  }

  lemma TwoIndicesTwice<T>(s: seq<T>, i: nat, j: nat)
    requires i < j < |s| && s[i] == s[j]
    ensures multiset(s)[s[i]] >= 2
  {
    assert s == s[..j] + s[j..];
    assert s[i] in s[..j];
    assert s[j] in s[j..];
  }

  lemma PermutationKeepsDistinctKeys(ls: seq<ChipLine>, s: seq<ChipLine>)
    requires DistinctKeys(ls) && multiset(ls) == multiset(s)
    ensures DistinctKeys(s)
  {
    forall i, j | 0 <= i < j < |s| ensures s[i].key != s[j].key {
      if s[i] == s[j] {
        TwoIndicesTwice(s, i, j);
        DistinctKeysOnce(ls, s[i]);
      } else {
        assert s[i] in multiset(s) && s[j] in multiset(s);
        var a :| 0 <= a < |ls| && ls[a] == s[i];
        var b :| 0 <= b < |ls| && ls[b] == s[j];
        assert a != b;
        assert ls[a].key != ls[b].key;
      }
    }
  }

  /** The listed counts add up to the number of products. */
  lemma {:induction false} ChipSummaryCounts(ps: seq<Product>)
    ensures SumCounts(ChipSummary(ps)) == |ps|
  {
    var lines := LinesOf(ps, Keys(ps));
    SumCountsSort(lines);
    LinesSum(ps, Keys(ps));
    GroupsPartition(ps);
  }

  function SumCounts(ls: seq<ChipLine>): nat {
    if ls == [] then 0 else ls[0].count + SumCounts(ls[1..])
  }

  lemma {:induction false} LinesSum(ps: seq<Product>, ks: seq<Option<string>>)
    ensures SumCounts(LinesOf(ps, ks)) == SumSizes(ps, ks)
  {
    if ks != [] {
      var front := ks[..|ks| - 1];
      var line := ChipLine(ks[|ks| - 1], |Members(ps, ks[|ks| - 1])|);
      LinesSum(ps, front);
      SumCountsAppend(LinesOf(ps, front), [line]);
      assert SumCounts([line]) == line.count;
    }
  }

  lemma {:induction false} SumCountsAppend(a: seq<ChipLine>, b: seq<ChipLine>)
    ensures SumCounts(a + b) == SumCounts(a) + SumCounts(b)
  {
    if a != [] {
      assert (a + b)[1..] == a[1..] + b;
      SumCountsAppend(a[1..], b);
    } else {
      assert a + b == b;
    }
  }

  /** Inserting a line adds its count. */
  lemma {:induction false} SumCountsInsert(x: ChipLine, ys: seq<ChipLine>)
    ensures SumCounts(Insert(x, ys, LineLe)) == x.count + SumCounts(ys)
  {
    var r := Insert(x, ys, LineLe);
    if ys == [] {
      assert r[1..] == [];
    } else if LineLe(x, ys[0]) {
      assert r[1..] == ys;
    } else {
      SumCountsInsert(x, ys[1..]);
      assert r[1..] == Insert(x, ys[1..], LineLe);
    }
  }

  /** Sorting the lines keeps their total. */
  lemma {:induction false} SumCountsSort(xs: seq<ChipLine>)
    ensures SumCounts(InsertionSort(xs, LineLe)) == SumCounts(xs)
  {
    if xs != [] {
      SumCountsSort(xs[1..]);
      SumCountsInsert(xs[0], InsertionSort(xs[1..], LineLe));
    }
  }

  // ---------------------------------------------------------------- the manager

  class EnhancedScraperManager {
    var results: map<string, ScrapeResult>

    constructor()
      ensures results == map[]
    {
      results := map[];
    }

    /** `run_all`: CellphoneS, then ShopDunk; returns `all_products` and the chip summary
        it prints. Each argument is the result that shop's scraper returned. */
    method RunAll(cellphones: ScrapeResult, shopdunk: ScrapeResult) returns (allProducts: seq<Product>, chips: seq<ChipLine>)
      modifies this
      ensures results == old(results)["cellphones" := Enhanced(cellphones)]["shopdunk" := Enhanced(shopdunk)]
      ensures allProducts == Contributed(cellphones) + Contributed(shopdunk)
      ensures chips == ChipSummary(allProducts)
    {
      allProducts := [];
      var shops := ["cellphones", "shopdunk"];
      var scraped := [cellphones, shopdunk];
      for i := 0 to 2
        invariant allProducts == if i == 0 then [] else if i == 1 then Contributed(cellphones) else Contributed(cellphones) + Contributed(shopdunk)
        invariant results == if i == 0 then old(results)
                             else if i == 1 then old(results)["cellphones" := Enhanced(cellphones)]
                             else old(results)["cellphones" := Enhanced(cellphones)]["shopdunk" := Enhanced(shopdunk)]
      {
        var result := scraped[i];
        if result.success {
          var attached := AttachSpecs(result.products);
          results := results[shops[i] := result.(products := attached)];
          allProducts := allProducts + attached;
        } else {
          results := results[shops[i] := result];
        }
      }
      chips := PrintChipSummary(allProducts);
    }
  }

  /** The groups of a batch are exactly its keys, each mapped to its members. */
  ghost predicate GroupsOf(ps: seq<Product>, keys: seq<Option<string>>, groups: map<Option<string>, seq<Product>>) {
    && keys == Keys(ps)
    && (forall k :: k in groups <==> k in keys)
    && (forall k :: k in groups ==> groups[k] == Members(ps, k))
  }

  /** A product whose key already has a group joins the end of that group. */
  lemma GroupStepPresent(ps: seq<Product>, p: Product, keys: seq<Option<string>>, groups: map<Option<string>, seq<Product>>)
    requires GroupsOf(ps, keys, groups) && KeyOf(p) in groups
    ensures GroupsOf(ps + [p], keys, groups[KeyOf(p) := groups[KeyOf(p)] + [p]])
  {
    KeysStep(ps, p);
    assert Keys(ps + [p]) == keys;
    var g := groups[KeyOf(p) := groups[KeyOf(p)] + [p]];
    forall k | k in g ensures g[k] == Members(ps + [p], k) {
      MembersStep(ps, p, k);
    }
  }

  /** A product with a new key opens a new group, listed after the others. */
  lemma GroupStepAbsent(ps: seq<Product>, p: Product, keys: seq<Option<string>>, groups: map<Option<string>, seq<Product>>)
    requires GroupsOf(ps, keys, groups) && KeyOf(p) !in groups
    ensures GroupsOf(ps + [p], keys + [KeyOf(p)], groups[KeyOf(p) := [p]])
  {
    var key := KeyOf(p);
    KeysStep(ps, p);
    assert Keys(ps + [p]) == keys + [key];
    var g := groups[key := [p]];
    forall k ensures k in g <==> k in keys + [key] {
      assert k in keys + [key] <==> k in keys || k == key;
    }
    MembersOfAbsentKey(ps, key);
    forall k | k in g ensures g[k] == Members(ps + [p], k) {
      MembersStep(ps, p, k);
    }
  }

  /** The grouping loop of `_print_chip_summary`: the dictionary's keys in insertion
      order and its groups. */
  method GroupByChip(products: seq<Product>) returns (keys: seq<Option<string>>, groups: map<Option<string>, seq<Product>>)
    ensures keys == Keys(products)
    ensures forall k :: k in groups <==> k in keys
    ensures forall k :: k in groups ==> groups[k] == Members(products, k)
  {
    keys := [];
    groups := map[];
    for i := 0 to |products|
      invariant GroupsOf(products[..i], keys, groups)
    {
      var p := products[i];
      assert products[..i + 1] == products[..i] + [p];
      var key := KeyOf(p);
      if key !in groups {
        GroupStepAbsent(products[..i], p, keys, groups);
        groups := groups[key := []];
        keys := keys + [key];
        assert groups[key] + [p] == [p];
      } else {
        GroupStepPresent(products[..i], p, keys, groups);
      }
      groups := groups[key := groups[key] + [p]];
    }
    assert products[..|products|] == products;
  }

  /** `_print_chip_summary`: builds the groups in one pass, then lists them in key order.
      Every product must carry specs, as all products of `run_all` do. */
  method PrintChipSummary(products: seq<Product>) returns (chips: seq<ChipLine>)
    requires forall p :: p in products ==> p.specs.Some?
    ensures chips == ChipSummary(products)
  {
    var keys, groups := GroupByChip(products);
    var lines: seq<ChipLine> := [];
    for i := 0 to |keys|
      invariant lines == LinesOf(products, keys[..i])
    {
      assert keys[i] in groups;
      assert keys[..i + 1][..i] == keys[..i];
      lines := lines + [ChipLine(keys[i], |groups[keys[i]]|)];
    }
    assert keys[..|keys|] == keys;
    chips := InsertionSort(lines, LineLe);
  }
}
