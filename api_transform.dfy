/** The conversion of a scraped product into a price-table row, the CellphoneS
    filter-and-map pipeline and the loader's fallback (test_api_transform.js). Matching
    is on the lower-cased name. */
module ApiTransform {
  import opened Common
  import opened Text
  import opened Scraping

  /** The object `transformScrapedProduct` returns. */
  datatype Row = Row(
    model: string,
    modelType: string,
    screenSize: string,
    category: string,
    configuration: string,
    scraped: bool,
    shop: string)

  const Air := "MacBook Air"
  const Pro := "MacBook Pro"
  const Generic := "MacBook"

  /** The model type and screen size: "air" is tested before "pro"; an Air is 13" or 15",
      a Pro 14" or 16", whichever number occurs first in that order. */
  function ModelAndScreen(lower: string): (r: (string, string))
    ensures Contains(lower, "air") ==> r.0 == Air && r.1 in {"13\"", "15\"", ""}
    ensures !Contains(lower, "air") && Contains(lower, "pro") ==> r.0 == Pro && r.1 in {"14\"", "16\"", ""}
    ensures !Contains(lower, "air") && !Contains(lower, "pro") ==> r == (Generic, "")
    ensures r.1 == "13\"" <==> Contains(lower, "air") && Contains(lower, "13")
    ensures r.1 == "15\"" <==> Contains(lower, "air") && !Contains(lower, "13") && Contains(lower, "15")
    ensures r.1 == "14\"" <==> !Contains(lower, "air") && Contains(lower, "pro") && Contains(lower, "14")
    ensures r.1 == "16\"" <==> !Contains(lower, "air") && Contains(lower, "pro") && !Contains(lower, "14") && Contains(lower, "16")
  {
    if Contains(lower, "air") then
      (Air, if Contains(lower, "13") then "13\"" else if Contains(lower, "15") then "15\"" else "")
    else if Contains(lower, "pro") then
      (Pro, if Contains(lower, "14") then "14\"" else if Contains(lower, "16") then "16\"" else "")
    else (Generic, "")
  }

  /** The category rules in the order they are tried: each variant before its bare family. */
  const CategoryRules: seq<(string, string)> := [
    ("m4 max", "M4 Max"), ("m4 pro", "M4 Pro"), ("m4", "M4"),
    ("m3 max", "M3 Max"), ("m3 pro", "M3 Pro"), ("m3", "M3"),
    ("m2", "M2"), ("m1", "M1")]

  const Unknown := "Unknown"

  /** The nine labels a row can carry. */
  const CategoryLabels := {"M4 Max", "M4 Pro", "M4", "M3 Max", "M3 Pro", "M3", "M2", "M1", Unknown}

  /** An ordered rule list read as "the label of the first rule whose needle occurs". It is the
      same chain as `Category` written as a table, not an independent specification; the
      lemma below only shows that the two writings agree. */
  function FirstMatch(rules: seq<(string, string)>, lower: string): string {
    if rules == [] then Unknown
    else if Contains(lower, rules[0].0) then rules[0].1
    else FirstMatch(rules[1..], lower)
  }

  /** The category, tried as an else-if chain. */
  function Category(lower: string): (r: string)
    ensures r in CategoryLabels
    ensures r == "M4" ==> Contains(lower, "m4") && !Contains(lower, "m4 pro") && !Contains(lower, "m4 max")
    ensures r == "M3" ==> Contains(lower, "m3") && !Contains(lower, "m3 pro") && !Contains(lower, "m3 max") && !Contains(lower, "m4")
    ensures r == Unknown <==> !Contains(lower, "m4") && !Contains(lower, "m3") && !Contains(lower, "m2") && !Contains(lower, "m1")
  {
    assert Contains(lower, "m4 max") || Contains(lower, "m4 pro") ==> Contains(lower, "m4") by {
      if Contains(lower, "m4 max") { ContainsPrefix(lower, "m4", "m4 max"); }
      if Contains(lower, "m4 pro") { ContainsPrefix(lower, "m4", "m4 pro"); }
    }
    assert Contains(lower, "m3 max") || Contains(lower, "m3 pro") ==> Contains(lower, "m3") by {
      if Contains(lower, "m3 max") { ContainsPrefix(lower, "m3", "m3 max"); }
      if Contains(lower, "m3 pro") { ContainsPrefix(lower, "m3", "m3 pro"); }
    }
    if Contains(lower, "m4 max") then "M4 Max"
    else if Contains(lower, "m4 pro") then "M4 Pro"
    else if Contains(lower, "m4") then "M4"
    else if Contains(lower, "m3 max") then "M3 Max"
    else if Contains(lower, "m3 pro") then "M3 Pro"
    else if Contains(lower, "m3") then "M3"
    else if Contains(lower, "m2") then "M2"
    else if Contains(lower, "m1") then "M1"
    else Unknown
  }

  /** The else-if chain and its table form give the same label. */
  lemma CategoryIsFirstMatch(lower: string)
    ensures Category(lower) == FirstMatch(CategoryRules, lower)
  {
    var r1 := CategoryRules[1..];
    assert CategoryRules[0] == ("m4 max", "M4 Max");
    assert r1 == [("m4 pro", "M4 Pro"), ("m4", "M4"), ("m3 max", "M3 Max"), ("m3 pro", "M3 Pro"), ("m3", "M3"), ("m2", "M2"), ("m1", "M1")];
    var r2 := r1[1..];
    assert r2 == [("m4", "M4"), ("m3 max", "M3 Max"), ("m3 pro", "M3 Pro"), ("m3", "M3"), ("m2", "M2"), ("m1", "M1")];
    var r3 := r2[1..];
    assert r3 == [("m3 max", "M3 Max"), ("m3 pro", "M3 Pro"), ("m3", "M3"), ("m2", "M2"), ("m1", "M1")];
    var r4 := r3[1..];
    assert r4 == [("m3 pro", "M3 Pro"), ("m3", "M3"), ("m2", "M2"), ("m1", "M1")];
    var r5 := r4[1..];
    assert r5 == [("m3", "M3"), ("m2", "M2"), ("m1", "M1")];
    var r6 := r5[1..];
    assert r6 == [("m2", "M2"), ("m1", "M1")];
    var r7 := r6[1..];
    assert r7 == [("m1", "M1")];
    assert r7[1..] == [];
    assert FirstMatch(r7, lower) == if Contains(lower, "m1") then "M1" else Unknown;
    assert FirstMatch(r6, lower) == if Contains(lower, "m2") then "M2" else FirstMatch(r7, lower);
    assert FirstMatch(r5, lower) == if Contains(lower, "m3") then "M3" else FirstMatch(r6, lower);
    assert FirstMatch(r4, lower) == if Contains(lower, "m3 pro") then "M3 Pro" else FirstMatch(r5, lower);
    assert FirstMatch(r3, lower) == if Contains(lower, "m3 max") then "M3 Max" else FirstMatch(r4, lower);
    assert FirstMatch(r2, lower) == if Contains(lower, "m4") then "M4" else FirstMatch(r3, lower);
    assert FirstMatch(r1, lower) == if Contains(lower, "m4 pro") then "M4 Pro" else FirstMatch(r2, lower);
  }

  /** `transformScrapedProduct`. */
  function Transform(p: Product): (r: Row)
    ensures r.configuration == OrElse(p.model, "")
    ensures r.scraped && r.shop == p.shop
    ensures (r.modelType, r.screenSize) == ModelAndScreen(Lower(r.configuration))
    ensures r.category == Category(Lower(r.configuration)) && r.category in CategoryLabels
    ensures r.screenSize != [] ==> r.model == r.modelType + " " + r.screenSize
    ensures r.screenSize == [] ==> r.model == r.modelType
    ensures r.modelType in {Air, Pro, Generic}
  {
    var name := OrElse(p.model, "");
    var lower := Lower(name);
    var (modelType, screenSize) := ModelAndScreen(lower);
    Row(
      model := if screenSize != [] then modelType + " " + screenSize else modelType,
      modelType := modelType,
      screenSize := screenSize,
      category := Category(lower),
      configuration := name,
      scraped := true,
      shop := p.shop)
  }

  /** A generic name has no screen size; a named screen size belongs to an Air or a Pro. */
  lemma TransformScreenNeedsFamily(p: Product)
    ensures Transform(p).modelType == Generic ==> Transform(p).screenSize == [] && Transform(p).model == Generic
    ensures Transform(p).screenSize != [] ==> Transform(p).modelType != Generic
  {
  }

  /** `loadScrapedData`: the file's `products`, or nothing when the file cannot be read or
      parsed (Err) or carries no products (None). */
  function LoadScrapedData(file: Result<Option<seq<Product>>>): (r: seq<Product>)
    ensures file.Err? || file.value.None? ==> r == []
    ensures file.Ok? && file.value.Some? ==> r == file.value.value
  {
    match file
    case Err(_) => []
    case Ok(None) => []
    case Ok(Some(products)) => products
  }

  const CellphonesShop := "cellphones"

  /** `.filter((p) => p.shop === "cellphones")`. */
  function CellphonesOnly(ps: seq<Product>): (r: seq<Product>)
    ensures |r| <= |ps|
    ensures forall p :: p in r <==> p in ps && p.shop == CellphonesShop
  {
    if ps == [] then []
    else
      var front := CellphonesOnly(ps[..|ps| - 1]);
      var last := ps[|ps| - 1];
      assert ps == ps[..|ps| - 1] + [last];
      front + (if last.shop == CellphonesShop then [last] else [])
  }

  /** The filter keeps the CellphoneS products in their order, each as often as it occurs. */
  lemma {:induction false} CellphonesOnlyConcat(a: seq<Product>, b: seq<Product>)
    ensures CellphonesOnly(a + b) == CellphonesOnly(a) + CellphonesOnly(b)
    decreases |b|
  {
    if b == [] {
      assert a + b == a;
    } else {
      var front := b[..|b| - 1];
      var last := b[|b| - 1];
      assert a + b == (a + front) + [last];
      assert (a + b)[..|a + b| - 1] == a + front;
      CellphonesOnlyConcat(a, front);
      var tail := if last.shop == CellphonesShop then [last] else [];
      assert CellphonesOnly(a + b) == CellphonesOnly(a + front) + tail;
      assert CellphonesOnly(b) == CellphonesOnly(front) + tail;
      assert CellphonesOnly(a) + CellphonesOnly(front) + tail == CellphonesOnly(a) + (CellphonesOnly(front) + tail);
    }
  }

  lemma CellphonesOnlySingle(p: Product)
    ensures CellphonesOnly([p]) == if p.shop == CellphonesShop then [p] else []
  {
    assert [p][..0] == [];
  }

  /** `.map(transformScrapedProduct)`. */
  function TransformAll(ps: seq<Product>): (r: seq<Row>)
    ensures |r| == |ps|
    ensures forall i :: 0 <= i < |ps| ==> r[i] == Transform(ps[i])
  {
    if ps == [] then [] else [Transform(ps[0])] + TransformAll(ps[1..])
  }

  /** The pipeline keeps exactly the CellphoneS products and maps each one to a row. */
  function CellphonesRows(ps: seq<Product>): (r: seq<Row>)
    ensures |r| == |CellphonesOnly(ps)|
    ensures forall i :: 0 <= i < |r| ==> r[i] == Transform(CellphonesOnly(ps)[i])
    ensures forall x :: x in r ==> x.shop == CellphonesShop && x.scraped
  {
    TransformAll(CellphonesOnly(ps))
  }

  /** A batch with no CellphoneS product gives no rows. */
  lemma {:induction false} CellphonesRowsEmpty(ps: seq<Product>)
    requires forall i :: 0 <= i < |ps| ==> ps[i].shop != CellphonesShop
    ensures CellphonesRows(ps) == []
  {
    if ps != [] {
      CellphonesRowsEmpty(ps[..|ps| - 1]);
    }
  }
}
