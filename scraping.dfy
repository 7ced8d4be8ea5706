/** What the four retailer scrapers share: the product record, the result of a scrape,
    price-text cleaning, href absolutisation, the trailing-parenthesis rule and the
    "first selector with matches" rule (the files under macbook_scraper/scrapers). */
module Scraping {
  import opened Common
  import opened Text
  import SpecParser

  /** A scraped product. Keys a scraper does not set (FPT Shop and TopZone have no
      `product_id` or `image_url`) are None; `specs` is attached later by the
      enhanced runner. */
  datatype Product = Product(
    model: Option<string>,
    rawName: string,
    priceVnd: Option<nat>,
    priceText: Option<string>,
    url: Option<string>,
    productId: Option<string>,
    imageUrl: Option<string>,
    shop: string,
    specs: Option<SpecParser.ParseResult>)

  /** The dictionary a scraper's `scrape` returns. */
  datatype ScrapeResult = ScrapeResult(
    success: bool,
    shop: string,
    products: seq<Product>,
    count: int,
    error: Option<string>)

  /** What calling a scraper gives a runner: its result, or the text of the exception it raised. */
  datatype Outcome = Returned(result: ScrapeResult) | Raised(message: string)

  /** The result of a scrape that obtained no page. */
  function Failure(shop: string, error: string): (r: ScrapeResult)
    ensures !r.success && r.shop == shop && r.products == [] && r.count == 0 && r.error == Some(error)
  {
    ScrapeResult(false, shop, [], 0, Some(error))
  }

  /** The result of a scrape that obtained its page. */
  function Success(shop: string, products: seq<Product>): (r: ScrapeResult)
    ensures r.success && r.shop == shop && r.products == products && r.count == |products| && r.error.None?
  {
    ScrapeResult(true, shop, products, |products|, None)
  }

  /** What a runner records for a scraper it called: the result it returned, or, when it
      raised, a failure carrying the exception text. */
  function Settle(shop: string, o: Outcome): (r: ScrapeResult)
    ensures o.Returned? ==> r == o.result
    ensures o.Raised? ==> r == Failure(shop, o.message)
  {
    match o
    case Returned(result) => result
    case Raised(message) => Failure(shop, message)
  }

  /** The shape every scraper's result has: the count is the number of products, and a
      failed scrape has none. */
  predicate WellFormed(r: ScrapeResult) {
    r.count == |r.products| && (!r.success ==> r.products == [])
  }

  /** The number of results that report success. */
  function SuccessfulShops(rs: seq<ScrapeResult>): (n: nat)
    ensures n <= |rs|
  {
    if rs == [] then 0
    else SuccessfulShops(rs[..|rs| - 1]) + (if rs[|rs| - 1].success then 1 else 0)
  }

  /** The number of results that report failure. */
  function FailedShops(rs: seq<ScrapeResult>): (n: nat)
    ensures n <= |rs|
  {
    if rs == [] then 0
    else FailedShops(rs[..|rs| - 1]) + (if rs[|rs| - 1].success then 0 else 1)
  }

  /** Every shop is counted as successful iff every result succeeded, none iff none did;
      the failed count likewise. */
  lemma {:induction false} ShopCountsExtremes(rs: seq<ScrapeResult>)
    ensures SuccessfulShops(rs) == |rs| <==> forall i :: 0 <= i < |rs| ==> rs[i].success
    ensures SuccessfulShops(rs) == 0 <==> forall i :: 0 <= i < |rs| ==> !rs[i].success
    ensures FailedShops(rs) == |rs| <==> forall i :: 0 <= i < |rs| ==> !rs[i].success
    ensures FailedShops(rs) == 0 <==> forall i :: 0 <= i < |rs| ==> rs[i].success
  {
    if rs != [] {
      var init := rs[..|rs| - 1];
      ShopCountsExtremes(init);
      assert forall i :: 0 <= i < |init| ==> init[i] == rs[i];
    }
  }

  /** Every result is counted exactly once, as a success or as a failure. */
  lemma {:induction false} SuccessfulPlusFailed(rs: seq<ScrapeResult>)
    ensures SuccessfulShops(rs) + FailedShops(rs) == |rs|
  {
    if rs != [] {
      SuccessfulPlusFailed(rs[..|rs| - 1]);
    }
  }

  // ---------------------------------------------------------------- price text

  /** `_clean_price`: the integer spelled by all decimal digits of the text, in order;
      None for missing or empty text and for text without digits. */
  function CleanPrice(text: Option<string>): (r: Option<nat>)
    ensures r.None? <==> !Truthy(text) || forall k :: 0 <= k < |text.value| ==> !IsDigit(text.value[k])
    ensures r.Some? ==> r.value == DigitsValue(KeepDigits(text.value))
  {
    if !Truthy(text) then None
    else
      var digits := KeepDigits(text.value);
      if digits == [] then None else Some(DigitsValue(digits))
  }

  /** Whatever surrounds the digits (separators, currency sign), the price is read back. */
  lemma CleanPriceReadsNumber(text: string, n: nat)
    requires KeepDigits(text) == NatToString(n)
    ensures CleanPrice(Some(text)) == Some(n)
  {
    NatToStringRoundTrip(n);
  }

  // ---------------------------------------------------------------- urls

  /** The scrapers' href rule: a missing or empty href is kept as it is, as is one that
      starts with "http"; "/x" becomes base + "/x" and anything else base + "/" + href. */
  function AbsoluteUrl(base: string, href: Option<string>): (r: Option<string>)
    ensures r.None? <==> href.None?
    ensures !Truthy(href) || StartsWith(href.value, "http") ==> r == href
    ensures Truthy(href) && !StartsWith(href.value, "http") ==> StartsWith(r.value, base + "/")
    ensures Truthy(href) && !StartsWith(href.value, "http") && StartsWith(href.value, "/") ==> r == Some(base + href.value)
    ensures Truthy(href) && !StartsWith(href.value, "http") && !StartsWith(href.value, "/") ==> r == Some(base + "/" + href.value)
  {
    if Truthy(href) && !StartsWith(href.value, "http") then
      if StartsWith(href.value, "/") then
        assert (base + href.value)[..|base| + 1] == base + "/";
        Some(base + href.value)
      else Some(base + "/" + href.value)
    else href
  }

  /** The href survives as the tail of the url. */
  lemma AbsoluteUrlKeepsHref(base: string, href: string)
    ensures var r := AbsoluteUrl(base, Some(href)).value;
            |href| <= |r| && r[|r| - |href|..] == href
  {
    var r := AbsoluteUrl(base, Some(href)).value;
    if href != [] && !StartsWith(href, "http") {
      if StartsWith(href, "/") {
        assert r == base + href;
      } else {
        assert r == (base + "/") + href;
      }
    }
  }

  /** With an http base, absolutising twice is absolutising once. */
  lemma AbsoluteUrlIdempotent(base: string, href: Option<string>)
    requires StartsWith(base, "http")
    ensures AbsoluteUrl(base, AbsoluteUrl(base, href)) == AbsoluteUrl(base, href)
  {
    var r := AbsoluteUrl(base, href);
    if Truthy(href) && !StartsWith(href.value, "http") {
      assert r.value[..4] == base[..4];
    }
  }

  // ---------------------------------------------------------------- names

  /** `\s*\(.*?\)\s*$` matched at `p`: spaces, '(' , a run without newline, then the ')'
      that is the last non-space character. Such a match always runs to the end. */
  function ParenTailAt(s: string, p: nat): (r: Option<nat>)
    ensures r.Some? ==> r.value == |s| && p < |s|
  {
    var q := p + SpaceRun(s, p);
    var e := |TrimEnd(s)|;
    if q + 1 < e && s[q] == '(' && s[e - 1] == ')' && forall k :: q < k < e - 1 ==> s[k] != '\n'
    then Some(|s|) else None
  }

  /** `re.sub(r'\s*\(.*?\)\s*$', '', s)`: since every match reaches the end, the text is
      cut at the leftmost match. */
  function TrimParenTail(s: string): (r: string)
    ensures StartsWith(s, r)
    ensures r == s <==> forall p :: 0 <= p <= |s| ==> ParenTailAt(s, p).None?
    ensures r != s ==> ParenTailAt(s, |r|).Some? && forall p :: 0 <= p < |r| ==> ParenTailAt(s, p).None?
  {
    match Search(s, 0, ParenTailAt)
    case Some((p, _)) => s[..p]
    case None => s
  }

  /** A name that does not end with ')' after trimming keeps all of its text. */
  lemma TrimParenTailNeedsClosing(s: string)
    requires TrimEnd(s) == [] || TrimEnd(s)[|TrimEnd(s)| - 1] != ')'
    ensures TrimParenTail(s) == s
  {
  }

  /** A one-line name ending in a parenthesised group loses it, from the spaces before
      its first '(' on. */
  lemma TrimParenTailCutsAtFirstParen(s: string, q: nat)
    requires |s| >= 2 && s[|s| - 1] == ')' && forall k :: 0 <= k < |s| ==> s[k] != '\n'
    requires q < |s| - 1 && s[q] == '(' && forall k :: 0 <= k < q ==> s[k] != '('
    ensures TrimParenTail(s) == TrimEnd(s[..q])
  {
    var a := |TrimEnd(s[..q])|;
    ParenMatchBeforeFirstParen(s, q, a);
    forall p | 0 <= p < a ensures ParenTailAt(s, p).None? {
      NoParenMatchEarlier(s, q, a, p);
    }
    var r := TrimParenTail(s);
    assert |r| == a;
    assert TrimEnd(s[..q]) == s[..q][..a] == s[..a];
  }

  /** The match found at the start of the spaces that precede the first '('. */
  lemma ParenMatchBeforeFirstParen(s: string, q: nat, a: nat)
    requires |s| >= 2 && s[|s| - 1] == ')' && forall k :: 0 <= k < |s| ==> s[k] != '\n'
    requires q < |s| - 1 && s[q] == '('
    requires a == |TrimEnd(s[..q])|
    ensures ParenTailAt(s, a).Some?
  {
    TrimEndOfUnspacedEnd(s);
    SpacesCutByTrimEnd(s, q, a);
    SpaceRunToParen(s, a, q);
  }

  lemma TrimEndOfUnspacedEnd(s: string)
    requires s != [] && !IsSpace(s[|s| - 1])
    ensures TrimEnd(s) == s
  {
  }

  /** What `TrimEnd` cut from `s[..q]` is spaces. */
  lemma SpacesCutByTrimEnd(s: string, q: nat, a: nat)
    requires q <= |s| && a == |TrimEnd(s[..q])|
    ensures a <= q && forall k :: a <= k < q ==> IsSpace(s[k])
  {
    var spaces := s[..q][a..];
    assert AllSpace(spaces);
    forall k | a <= k < q ensures IsSpace(s[k]) {
      assert spaces[k - a] == s[k];
    }
  }

  /** No match starts before those spaces: the spaces a match would skip end before the first '('. */
  lemma NoParenMatchEarlier(s: string, q: nat, a: nat, p: nat)
    requires q < |s| && forall k :: 0 <= k < q ==> s[k] != '('
    requires a == |TrimEnd(s[..q])| && p < a
    ensures ParenTailAt(s, p).None?
  {
    var t := TrimEnd(s[..q]);
    assert t[a - 1] == s[a - 1];
    assert !IsSpace(s[a - 1]);
    var qp := p + SpaceRun(s, p);
    assert qp <= a - 1;
    assert s[qp] != '(';
  }

  lemma SpaceRunToParen(s: string, a: nat, q: nat)
    requires a <= q < |s| && s[q] == '('
    requires forall k :: a <= k < q ==> IsSpace(s[k])
    ensures a + SpaceRun(s, a) == q
    decreases q - a
  {
    if a < q {
      SpaceRunToParen(s, a + 1, q);
    }
  }

  // ---------------------------------------------------------------- item lists

  /** The records built from the cards, in card order; cards that give none are skipped. */
  function Collect<C, P>(cards: seq<C>, build: C -> Option<P>): (r: seq<P>)
    ensures |r| <= |cards|
    ensures forall p :: p in r ==> exists c :: c in cards && build(c) == Some(p)
  {
    if cards == [] then []
    else
      var last := cards[|cards| - 1];
      var front := Collect(cards[..|cards| - 1], build);
      assert forall p :: p in front ==> exists c :: c in cards && build(c) == Some(p) by {
        forall p | p in front ensures exists c :: c in cards && build(c) == Some(p) {
          var c :| c in cards[..|cards| - 1] && build(c) == Some(p);
          assert c in cards;
        }
      }
      front + (if build(last).Some? then [build(last).value] else [])
  }

  /** Each card that builds a record contributes exactly that record, in order. */
  lemma CollectAppend<C, P>(cards: seq<C>, c: C, build: C -> Option<P>)
    ensures Collect(cards + [c], build)
         == Collect(cards, build) + (if build(c).Some? then [build(c).value] else [])
  {
    assert (cards + [c])[..|cards|] == cards;
  }

  /** Every card that builds a record contributes it: with Collect's own contract, a
      record is collected iff some card builds it. */
  lemma {:induction false} CollectComplete<C, P>(cards: seq<C>, build: C -> Option<P>, i: nat)
    requires i < |cards| && build(cards[i]).Some?
    ensures build(cards[i]).value in Collect(cards, build)
    decreases |cards|
  {
    var front := cards[..|cards| - 1];
    if i < |cards| - 1 {
      assert front[i] == cards[i];
      CollectComplete(front, build, i);
    }
  }

  /** The loop every `parse_products` runs: build each card's record in turn and keep
      those that were built, in order. */
  method CollectLoop<C, P>(cards: seq<C>, build: C -> Option<P>) returns (found: seq<P>)
    ensures found == Collect(cards, build)
  {
    found := [];
    for i := 0 to |cards|
      invariant found == Collect(cards[..i], build)
    {
      CollectAppend(cards[..i], cards[i], build);
      assert cards[..i + 1] == cards[..i] + [cards[i]];
      var record := build(cards[i]);
      if record.Some? {
        found := found + [record.value];
      }
    }
    assert cards[..|cards|] == cards;
  }

  /** The item list of the first selector that matched anything, or nothing. */
  function FirstNonEmpty<C>(lists: seq<seq<C>>): (r: seq<C>)
    ensures r == [] <==> forall i :: 0 <= i < |lists| ==> lists[i] == []
    ensures r != [] ==> exists i :: 0 <= i < |lists| && r == lists[i] && forall j :: 0 <= j < i ==> lists[j] == []
  {
    if lists == [] then []
    else if lists[0] != [] then lists[0]
    else
      var r := FirstNonEmpty(lists[1..]);
      assert forall i :: 1 <= i < |lists| ==> lists[i] == lists[1..][i - 1];
      assert r != [] ==> exists i :: 0 <= i < |lists| && r == lists[i] && forall j :: 0 <= j < i ==> lists[j] == [] by {
        if r != [] {
          var i :| 0 <= i < |lists[1..]| && r == lists[1..][i] && forall j :: 0 <= j < i ==> lists[1..][j] == [];
          assert r == lists[i + 1] && forall j :: 0 <= j < i + 1 ==> lists[j] == [] by {
            forall j | 0 <= j < i + 1 ensures lists[j] == [] {
              if j > 0 { assert lists[j] == lists[1..][j - 1]; }
            }
          }
        }
      }
      r
  }

  /** The selector loop of `parse_products`: try each selector's items in turn and stop
      at the first non-empty list. */
  method SelectItems<C>(lists: seq<seq<C>>) returns (items: seq<C>)
    ensures items == FirstNonEmpty(lists)
  {
    items := [];
    var i := 0;
    while i < |lists|
      invariant 0 <= i <= |lists|
      invariant forall j :: 0 <= j < i ==> lists[j] == []
      invariant items == []
    {
      items := lists[i];
      if items != [] {
        FirstNonEmptySkips(lists, i);
        return;
      }
      i := i + 1;
    }
    assert FirstNonEmpty(lists) == [];
  }

  lemma {:induction false} FirstNonEmptySkips<C>(lists: seq<seq<C>>, i: nat)
    requires i < |lists| && lists[i] != [] && forall j :: 0 <= j < i ==> lists[j] == []
    ensures FirstNonEmpty(lists) == lists[i]
  {
    if i > 0 {
      FirstNonEmptySkips(lists[1..], i - 1);
    }
  }
}
