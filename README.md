# VietMac MacBook price aggregation, modelled in Dafny

VietMac collects MacBook prices from four Vietnamese retailers: CellphoneS, ShopDunk, FPT Shop and TopZone. Each retailer has a scraper that turns product cards into price records. Runner scripts then combine those records:

- they record each scraper's result or failure;
- they count, total and consolidate the products;
- they attach parsed specifications and group the products by chip;
- they compare prices against a stored history.

A web front end does two things with the records. It maps each one into a table row with a model family, a screen size and a chip category. It then filters, sorts and colours those rows.

This project models that record processing. The browser, HTTP and file work around it are not modelled.

The inputs are given as values:

- a product card is the handful of fields the scraper reads from its HTML element (name text, `title` attribute, price text, `data-price`, old price, href, image);
- a page that could not be loaded is `None` or an `Err`;
- what calling a scraper gave a runner is an `Outcome`: the result it returned, or the text of the exception it raised;
- the price history and the scraped data file are values too.

Modules, one per source file plus shared ones:

- `Common`: Option and Result, Python truthiness of strings, `xs[:n]`, min/max.
- `Text`: character classes, strip, lower-casing, substring tests, decimal digits, leftmost search, string order.
- `Sorting`: a stable insertion sort by a comparator. It stands in for JavaScript's `Array.prototype.sort` and for Python's `sorted`, with or without `reverse=True`.
- `Rewrite`: `re.sub(pattern, '', s)` for the "suffix to end of line" patterns used to shorten names.
- `Scraping`: the product record, the scrape-result dictionary and the helpers shared by the four scrapers. These are price cleaning, href absolutisation, trailing-parenthesis removal and first-non-empty selector choice.
- `SpecParser`, `ShopDunkScraper`, `FptShopScraper`, `CellphonesScraper`, `TopZoneScraper`, `EnhancedScraper`, `MonitorPrices`, `UpdatePrices`, `RunAllScrapers`, `RunEnhancedScraper`, `TestAllScrapers`, `ApiTransform`, `PricesTable`: one module per source file.

Where the source mutates an object, the model is a class with those fields. Examples are the price history, the updater's running totals and the managers' result dictionaries. Its methods loop as the source does and are proved against specification functions. Everything else is functions and lemmas.

## Model

| member | source | states |
|---|---|---|
| SpecParser.Parse | macbook_scraper/utils/spec_parser.py:25-87 | `{}` exactly for a missing or empty name. Otherwise: the raw name is kept; the model type is one of the three families; the clean name starts with it; a storage size always has a display that denotes it; a chip is one of M1–M5 and the id starts with it in lower case; a variant only comes with a chip; a year lies in 2000–2099 |
| SpecParser.ExtractModelType | macbook_scraper/utils/spec_parser.py:89-96 | "MacBook Air" iff the lower-cased name contains "air"; "MacBook Pro" iff it contains "pro" but not "air"; otherwise "MacBook" |
| SpecParser.ExtractChip | macbook_scraper/utils/spec_parser.py:98-106 | None iff no M1–M5 occurs (case-insensitively); otherwise the chip read at the leftmost such occurrence, upper-cased, with variant "Pro" exactly when spaces and "pro" (any case) follow it, "Max" when "max" follows instead, none otherwise |
| SpecParser.ChipAtMatch | macbook_scraper/utils/spec_parser.py:98-106 | a chip match reads "M" and the digit at that position, one of M1–M5, with the variant group that follows |
| SpecParser.ExtractScreenSize | macbook_scraper/utils/spec_parser.py:108-117 | None iff no screen pattern matches; otherwise the number of the leftmost match followed by a `"` |
| SpecParser.ExtractCores | macbook_scraper/utils/spec_parser.py:119-147 | None iff none of the three core-count forms matches anywhere; otherwise the count read at the leftmost match of the first form that matches anywhere, every earlier form matching nowhere |
| SpecParser.ExtractRam | macbook_scraper/utils/spec_parser.py:149-165 | None iff no "N GB" not followed by SSD exists; otherwise the leftmost "N GB RAM", else the leftmost "RAM N GB", else the leftmost "N GB" not followed by SSD |
| SpecParser.ExtractStorage | macbook_scraper/utils/spec_parser.py:167-212 | the leftmost TB size first (gb = value×1024, display "{v}TB"), then the leftmost "N GB SSD", then the leftmost "SSD N GB" or "SSD N TB" with its unit; with none of those, storage exists iff there are at least two GB/TB sizes not followed by RAM and is then the last of them; every storage's display denotes its gb |
| SpecParser.MakeStorage | macbook_scraper/utils/spec_parser.py:178-191 | a storage built from a value and a unit has display digits+"TB"/"GB" that scale back to its gb |
| SpecParser.ExtractYear | macbook_scraper/utils/spec_parser.py:214-219 | None iff no 20xx year occurs; otherwise the year at the leftmost match, in 2000–2099 |
| SpecParser.YearValue | macbook_scraper/utils/spec_parser.py:214-219 | a year match reads a value in 2000–2099 |
| SpecParser.GenerateCleanName | macbook_scraper/utils/spec_parser.py:221-250 | None iff no part is present (no model type, screen, chip, non-zero core counts or RAM, or storage display); with a model type set, the name starts with it |
| SpecParser.CleanNameAllParts | macbook_scraper/utils/spec_parser.py:221-250 | with every part present the name is family, screen, chip, "{n}C", "{n}G", "{n}GB" and storage, joined by spaces in that order |
| SpecParser.CleanNameWithoutScreenOrCores | macbook_scraper/utils/spec_parser.py:221-250 | without screen and core counts the name is family, chip, RAM and storage, joined by spaces in that order |
| SpecParser.GenerateId | macbook_scraper/utils/spec_parser.py:252-285 | None iff no part applies (no chip, no Air/Pro family, no screen, no RAM, no storage); with a chip the id starts with the lower-cased chip |
| SpecParser.IdAllParts | macbook_scraper/utils/spec_parser.py:252-285 | with every part present the id is lower-cased chip-variant, "air"/"pro", the screen without its quote, RAM and the storage part, joined by "-" in that order |
| SpecParser.StorageIdRoundTrip | macbook_scraper/utils/spec_parser.py:280-283 | the id's storage part ("{gb÷1024}tb" or "{gb}gb") reads back the same gb for sizes below 1024 or whole terabytes |
| SpecParser.TbStorageRoundTripsThroughId | macbook_scraper/utils/spec_parser.py:170-176 | a positive TB storage is ≥1024 GB and round-trips through the id's "tb" part |
| Text.Strip | macbook_scraper/scrapers/topzone_scraper.py:28-32 | `str.strip()`: a contiguous slice with only whitespace cut off either end, and no whitespace at its ends |
| Text.NatToStringRoundTrip | macbook_scraper/utils/spec_parser.py:271-273 | `str(n)` reads back as n |
| Text.StrLeTotal | macbook_scraper/run_enhanced_scraper.py:89-90 | Python string order is total |
| Text.StrLeTrans | macbook_scraper/run_enhanced_scraper.py:89-90 | Python string order is transitive |
| Text.StrLeAntisymmetric | macbook_scraper/run_enhanced_scraper.py:89-90 | Python string order is antisymmetric |
| Scraping.CleanPrice | macbook_scraper/scrapers/shopdunk_scraper.py:21-27 | None iff the text is missing, empty or has no digit; otherwise the number formed by all its digits in order |
| Scraping.CleanPriceReadsNumber | macbook_scraper/scrapers/fptshop_scraper.py:21-27 | a text whose digits spell n cleans to n |
| Scraping.AbsoluteUrl | macbook_scraper/scrapers/shopdunk_scraper.py:139-142 | None iff no href; an empty href or one starting with "http" is kept; "/x" becomes base + "/x"; any other href becomes base + "/" + href |
| Scraping.AbsoluteUrlKeepsHref | macbook_scraper/scrapers/cellphones_scraper.py:115-118 | the href always ends the resulting URL |
| Scraping.AbsoluteUrlIdempotent | macbook_scraper/scrapers/topzone_scraper.py:119-122 | absolutising an absolutised URL changes nothing |
| Scraping.TrimParenTail | macbook_scraper/scrapers/fptshop_scraper.py:29-38 | the name's prefix before the leftmost match of spaces + parenthesised tail + spaces at the end; the name unchanged iff nothing matches |
| Scraping.TrimParenTailNeedsClosing | macbook_scraper/scrapers/shopdunk_scraper.py:29-40 | a name that does not end in ')' after trimming is unchanged |
| Scraping.TrimParenTailCutsAtFirstParen | macbook_scraper/scrapers/shopdunk_scraper.py:29-40 | a one-line name ending in ')' is cut before the spaces that precede its first '(' |
| Scraping.FirstNonEmpty | macbook_scraper/scrapers/fptshop_scraper.py:106-122 | the first non-empty selector list; `[]` iff every list is empty |
| Scraping.SelectItems | macbook_scraper/scrapers/topzone_scraper.py:84-100 | the selector loop with `break` returns the first non-empty list |
| Scraping.FirstNonEmptySkips | macbook_scraper/scrapers/fptshop_scraper.py:106-122 | when the lists before i are empty and list i is not, list i is chosen |
| Scraping.Collect | macbook_scraper/scrapers/shopdunk_scraper.py:99-169 | every record kept comes from some card; the list is no longer than the cards |
| Scraping.CollectAppend | macbook_scraper/scrapers/cellphones_scraper.py:85-141 | one more card adds its record at the end, or nothing |
| Scraping.CollectComplete | macbook_scraper/scrapers/shopdunk_scraper.py:107-169 | every card that yields a record has that record in the result |
| Scraping.CollectLoop | macbook_scraper/scrapers/cellphones_scraper.py:94-141 | the `for card in cards` loop that appends each kept record gives exactly Collect of the cards |
| Scraping.Failure | macbook_scraper/scrapers/shopdunk_scraper.py:189-196 | a failure result: unsuccessful, no products, count 0, the given error |
| Scraping.Success | macbook_scraper/scrapers/shopdunk_scraper.py:198-204 | a success result: the products and their count |
| Scraping.Settle | macbook_scraper/run_all_scrapers.py:39-61 | a returned result is kept; a raised exception becomes a failure with its text |
| Scraping.SuccessfulShops | macbook_scraper/run_all_scrapers.py:106 | at most the number of results; the extremes are pinned by ShopCountsExtremes and the sum with the failed count by SuccessfulPlusFailed |
| Scraping.FailedShops | macbook_scraper/run_all_scrapers.py:107 | at most the number of results; the extremes are pinned by ShopCountsExtremes and the sum with the successful count by SuccessfulPlusFailed |
| Scraping.ShopCountsExtremes | macbook_scraper/run_all_scrapers.py:106-107 | the successful count is the number of results iff every result succeeded and 0 iff none did; the failed count likewise with the roles swapped |
| Scraping.SuccessfulPlusFailed | macbook_scraper/run_all_scrapers.py:105-107 | successful plus failed shops is the number of results |
| Rewrite.SubRemovesLiteral | macbook_scraper/scrapers/shopdunk_scraper.py:37-39 | after `re.sub` of a pattern `\s*LIT.*` that fires at every occurrence of LIT, the result no longer contains LIT |
| Rewrite.TailAtOccurrence | macbook_scraper/scrapers/cellphones_scraper.py:55-57 | `\s*LIT.*` matches wherever LIT occurs, when LIT starts with a non-space |
| Rewrite.SubNoMatch | macbook_scraper/scrapers/shopdunk_scraper.py:37-39 | `re.sub` with a pattern that matches nowhere leaves the text unchanged |
| Rewrite.CutAtFirst | macbook_scraper/scrapers/shopdunk_scraper.py:37-39 | the text before the leftmost match (the whole text without one) is a prefix of it |
| Rewrite.SubOneLine | macbook_scraper/scrapers/cellphones_scraper.py:55-57 | on a one-line text, `re.sub` of a pattern whose matches run to the end of the line cuts the text at its leftmost match |
| ShopDunkScraper.ParseModelName | macbook_scraper/scrapers/shopdunk_scraper.py:29-40 | None iff the name is missing or empty; the result never contains "Cũ"; its value is pinned by the two lemmas below |
| ShopDunkScraper.ParseModelNameWithoutMarker | macbook_scraper/scrapers/shopdunk_scraper.py:29-40 | a name without "Cũ" is stripped and loses its trailing parenthesis only |
| ShopDunkScraper.ParseModelNameOneLine | macbook_scraper/scrapers/shopdunk_scraper.py:29-40 | a one-line name is stripped, trimmed of its parenthesis tail, then cut where `\s*-\s*Cũ` first matches and then where `\s*Cũ` first matches |
| ShopDunkScraper.ChoosePrice | macbook_scraper/scrapers/shopdunk_scraper.py:131-136 | the listed price text and value when it cleans to a positive number and does not read "Giảm"; otherwise the old price text and its value when there is one; without an old price the listed price; the value is always the cleaned chosen text |
| ShopDunkScraper.ImageUrl | macbook_scraper/scrapers/shopdunk_scraper.py:149 | None without an image; the `src` when non-empty, else the `data-src`; the URL is non-empty iff the image has a non-empty src or data-src |
| ShopDunkScraper.BuildRecord | macbook_scraper/scrapers/shopdunk_scraper.py:111-160 | a card is skipped iff it has no name or the name lacks "MacBook"; a record has shop "shopdunk", the raw name, the parsed model, the absolutised URL, the product id, the price text and value ChoosePrice picks and the image's src, or its data-src when src is empty |
| ShopDunkScraper.ParseProducts | macbook_scraper/scrapers/shopdunk_scraper.py:99-169 | the loop yields the records of the cards in order, all ShopDunk MacBooks |
| ShopDunkScraper.Scrape | macbook_scraper/scrapers/shopdunk_scraper.py:171-204 | no page gives the "Failed to load page" failure; otherwise success with count = number of products |
| FptShopScraper.ParseModelName | macbook_scraper/scrapers/fptshop_scraper.py:29-38 | None iff the name is missing or empty; otherwise a prefix of the stripped name, whose value the two lemmas below pin: unchanged without a closing ')', cut at the spaces before the first '(' otherwise |
| FptShopScraper.ParseModelNameKeepsUnbracketed | macbook_scraper/scrapers/fptshop_scraper.py:29-38 | a name not ending in ')' is only stripped |
| FptShopScraper.ParseModelNameCutsAtFirstParen | macbook_scraper/scrapers/fptshop_scraper.py:29-38 | a one-line stripped name ending in ')' is cut before the spaces that precede its first '(' (the non-greedy `\s*\(.*?\)\s*$` matches from there to the end) |
| FptShopScraper.RawName | macbook_scraper/scrapers/fptshop_scraper.py:127-135 | the `title` attribute when non-empty, else the element text |
| FptShopScraper.PriceText | macbook_scraper/scrapers/fptshop_scraper.py:148-152 | None iff no price element; `data-price` when non-empty, else the element text |
| FptShopScraper.BuildRecord | macbook_scraper/scrapers/fptshop_scraper.py:127-170 | skipped iff no name or no "MacBook" in the raw name; a record has shop "fptshop", the parsed model, the chosen price text and its cleaned value, and the absolutised URL |
| FptShopScraper.ParseProducts | macbook_scraper/scrapers/fptshop_scraper.py:100-176 | records of the first non-empty selector's items, in order |
| FptShopScraper.Scrape | macbook_scraper/scrapers/fptshop_scraper.py:178-211 | no page gives the "Cloudflare block or timeout" failure; otherwise success with count = number of products |
| CellphonesScraper.ParseModelName | macbook_scraper/scrapers/cellphones_scraper.py:47-58 | None iff the name is missing or empty; the result never contains "Chính hãng"; its value is pinned by the two lemmas below |
| CellphonesScraper.ParseModelNameWithoutMarker | macbook_scraper/scrapers/cellphones_scraper.py:47-58 | a name without "Chính hãng" is only stripped |
| CellphonesScraper.ParseModelNameOneLine | macbook_scraper/scrapers/cellphones_scraper.py:47-58 | a one-line name is stripped, cut at the first "\|" followed by "Chính hãng" (spaces allowed between) and then at the first "Chính hãng" |
| CellphonesScraper.OfficialAtCatches | macbook_scraper/scrapers/cellphones_scraper.py:55-57 | the second substitution fires at every "Chính hãng" and runs to the end of the line |
| CellphonesScraper.BuildRecord | macbook_scraper/scrapers/cellphones_scraper.py:97-132 | skipped iff no name or no "MacBook"; a record has shop "cellphones", the raw name, the parsed model, the price text and its cleaned value, the absolutised URL and the image |
| CellphonesScraper.ParseProducts | macbook_scraper/scrapers/cellphones_scraper.py:85-141 | the loop yields the cards' records in order, all CellphoneS MacBooks |
| CellphonesScraper.Scrape | macbook_scraper/scrapers/cellphones_scraper.py:143-186 | always success: the Pro page's products, then the Air page's; a failed page adds nothing |
| TopZoneScraper.ParseModelName | macbook_scraper/scrapers/topzone_scraper.py:28-32 | None iff the name is missing or empty; otherwise the stripped name |
| TopZoneScraper.BuildRecord | macbook_scraper/scrapers/topzone_scraper.py:104-135 | skipped iff no name or no "MacBook"; a record has shop "topzone", the stripped model, the price text and its cleaned value, and the absolutised URL |
| TopZoneScraper.ParseProducts | macbook_scraper/scrapers/topzone_scraper.py:79-140 | records of the first non-empty selector's items, in order |
| TopZoneScraper.Scrape | macbook_scraper/scrapers/topzone_scraper.py:142-175 | no page gives the "Connection timeout or block" failure; otherwise success with count = number of products |
| EnhancedScraper.PrefixUrl | macbook_scraper/enhanced_scraper.py:93 | an href starting with '/' gets the base in front; any other href is kept |
| EnhancedScraper.PrefixUrlVersusAbsoluteUrl | macbook_scraper/enhanced_scraper.py:158 | the two URL rules agree on "/…" and "http…" hrefs and differ on every other non-empty href |
| EnhancedScraper.MakeRecord | macbook_scraper/enhanced_scraper.py:95-96 | a record exists iff the model is non-empty; it carries the cleaned price |
| EnhancedScraper.FptRecord | macbook_scraper/enhanced_scraper.py:78-98 | the model is the title or else the name text; kept iff that is non-empty; the URL is prefixed with FPT's base |
| EnhancedScraper.ShopDunkRecord | macbook_scraper/enhanced_scraper.py:145-161 | kept iff the name is non-empty; the URL is prefixed with ShopDunk's base |
| EnhancedScraper.TopZoneRecord | macbook_scraper/enhanced_scraper.py:208-225 | kept iff the name is non-empty; the URL is prefixed with TopZone's base |
| EnhancedScraper.CellphonesRecord | macbook_scraper/enhanced_scraper.py:276-293 | kept iff the name is non-empty and contains "MacBook"; the href is copied untouched |
| EnhancedScraper.FptList | macbook_scraper/enhanced_scraper.py:58-107 | an exception leaves `[]`; otherwise the records of the first 10 items of the first non-empty selector, in order; each has a non-empty model |
| EnhancedScraper.ShopDunkList | macbook_scraper/enhanced_scraper.py:130-170 | an exception leaves `[]`; otherwise the records of the first 50 cards, in order; each has a non-empty model |
| EnhancedScraper.TopZoneList | macbook_scraper/enhanced_scraper.py:192-236 | an exception leaves `[]`; otherwise the records of the first 50 items of the first non-empty selector, in order; each has a non-empty model |
| EnhancedScraper.CellphonesList | macbook_scraper/enhanced_scraper.py:258-302 | an exception on either page leaves `[]`; otherwise the Pro page's records then the Air page's, with no limit; every record names a MacBook |
| EnhancedScraper.CountOfShops | macbook_scraper/enhanced_scraper.py:317-330 | the summary total is the sum of the four shops' list lengths |
| EnhancedScraper.EnhancedMacBookScraper.ScrapeFptShop | macbook_scraper/enhanced_scraper.py:30-107 | only `results["fptshop"]` changes, to the FPT list |
| EnhancedScraper.EnhancedMacBookScraper.ScrapeShopDunk | macbook_scraper/enhanced_scraper.py:109-170 | only `results["shopdunk"]` changes |
| EnhancedScraper.EnhancedMacBookScraper.ScrapeTopZone | macbook_scraper/enhanced_scraper.py:172-236 | only `results["topzone"]` changes |
| EnhancedScraper.EnhancedMacBookScraper.ScrapeCellphones | macbook_scraper/enhanced_scraper.py:238-302 | only `results["cellphones"]` changes |
| EnhancedScraper.EnhancedMacBookScraper.PrintSummary | macbook_scraper/enhanced_scraper.py:311-330 | the printed total is the sum of the list lengths |
| EnhancedScraper.EnhancedMacBookScraper.Run | macbook_scraper/enhanced_scraper.py:332-350 | all four shops are scraped in order and the total is the sum of their list lengths |
| MonitorPrices.Classify | macbook_scraper/monitor_prices.py:53-85 | unpriced: skipped; unknown key: new product; known key with a stored price that differs: drop iff lower, else increase, with change = new − old; otherwise no event |
| MonitorPrices.Key | macbook_scraper/monitor_prices.py:53-54 | the key is the shop, an underscore, then the model as `{}` formats it ("None" when missing) |
| MonitorPrices.KeyWithinShop | macbook_scraper/monitor_prices.py:53-54 | within one shop, two products share a key iff their models format the same |
| MonitorPrices.Step | macbook_scraper/monitor_prices.py:53-93 | an unpriced product changes nothing; a priced one overwrites its history entry and appends its classification to the matching list: the change to drops or increases, the entry to new products, nothing when unchanged |
| MonitorPrices.DetectWellFormed | macbook_scraper/monitor_prices.py:53-93 | drops have negative change, increases positive, new products a positive price; at most one entry per product |
| MonitorPrices.DetectHistory | macbook_scraper/monitor_prices.py:87-93 | after the loop each key holds its last priced product, and keys absent from the batch keep their old entry |
| MonitorPrices.RepeatedKeyComparesEarlier | macbook_scraper/monitor_prices.py:53-93 | a key repeated in one batch makes the second occurrence compare against the first |
| MonitorPrices.AlertEmail | macbook_scraper/monitor_prices.py:100-136 | None iff there are no drops and no new products; otherwise every drop and at most the first ten new products |
| MonitorPrices.TopDrops | macbook_scraper/monitor_prices.py:201-205 | as many entries as there are drops, at most five, taken from the drops, each shown at most as often as it occurs among them (multiset inclusion) |
| MonitorPrices.TopDropsAreLargest | macbook_scraper/monitor_prices.py:201-205 | listed by descending saving; no drop left out (counted with multiplicity) saves more than any drop shown |
| MonitorPrices.TopDropsTiesKeepOrder | macbook_scraper/monitor_prices.py:201-205 | drops with equal saving keep their report order |
| MonitorPrices.BySavingDescIsTotalPreorder | macbook_scraper/monitor_prices.py:201-205 | the sort key with `reverse=True` is a total preorder |
| MonitorPrices.PriceMonitor.DetectChanges | macbook_scraper/monitor_prices.py:41-98 | the in-place loop leaves the history and the report that the fold over the batch gives |
| MonitorPrices.PriceMonitor.Run | macbook_scraper/monitor_prices.py:182-205 | detects the changes and gives the top drops shown |
| UpdatePrices.PriceUpdater.constructor | macbook_scraper/update_prices.py:37-45 | no products, total 0, no per-shop info, no errors |
| UpdatePrices.PriceUpdater.RunScraper | macbook_scraper/update_prices.py:47-92 | returns true iff the scraper succeeded with products; those are appended; the shop's info is set; one error is added otherwise |
| UpdatePrices.Contributed | macbook_scraper/update_prices.py:57-58 | an accepted run (returned, success, non-empty products) gives all its products, which are non-empty; any other run gives none |
| UpdatePrices.InfoFor | macbook_scraper/update_prices.py:57-92 | success iff accepted; count the number contributed; an error iff not accepted |
| UpdatePrices.ErrorText | macbook_scraper/update_prices.py:66-92 | the exception text, else the result's error, else "Unknown error" |
| UpdatePrices.ErrorsFor | macbook_scraper/update_prices.py:66-92 | no error iff accepted, else exactly one |
| UpdatePrices.PriceUpdater.SaveResults | macbook_scraper/update_prices.py:94-97 | the total becomes the number of products; nothing else changes |
| UpdatePrices.PriceUpdater.Run | macbook_scraper/update_prices.py:132-161 | CellphoneS, then ShopDunk, then FPT when asked for and available; the exit code is 0 iff products were collected |
| UpdatePrices.ExitCode | macbook_scraper/update_prices.py:158-161 | 0 iff the total is positive, else 1 |
| RunAllScrapers.ScraperManager.RunAll | macbook_scraper/run_all_scrapers.py:31-69 | one entry per shop in fixed order, crashes recorded as failures; the printed and saved summaries and the consolidated products computed from those results |
| RunAllScrapers.PrintSummary | macbook_scraper/run_all_scrapers.py:71-93 | the loop's total and successes are the total count and the successful shops |
| RunAllScrapers.SaveResults | macbook_scraper/run_all_scrapers.py:95-128 | the saved summary, and the products of the successful results in order |
| RunAllScrapers.MakeSummary | macbook_scraper/run_all_scrapers.py:105-107 | successful plus failed shops equals the number of results |
| RunAllScrapers.Consolidated | macbook_scraper/run_all_scrapers.py:117-120 | a product is consolidated iff it belongs to a successful result |
| RunAllScrapers.ConsolidatedAppend | macbook_scraper/run_all_scrapers.py:117-120 | consolidation keeps shop order |
| RunAllScrapers.TotalCountIsConsolidated | macbook_scraper/run_all_scrapers.py:105-128 | with well-formed results the summed counts equal the consolidated total |
| RunAllScrapers.SettleWellFormed | macbook_scraper/run_all_scrapers.py:53-61 | a crash record is well formed |
| RunEnhancedScraper.EnhancedScraperManager.RunAll | macbook_scraper/run_enhanced_scraper.py:29-71 | only successful results contribute, each product carrying its parsed specs (also inside the stored results); the chip summary of those products |
| RunEnhancedScraper.Attach | macbook_scraper/run_enhanced_scraper.py:46-47 | the product with its specs set to the parse of its own model and every other field unchanged |
| RunEnhancedScraper.AttachAll | macbook_scraper/run_enhanced_scraper.py:45-47 | the same number of products, the i-th being the i-th input with its specs attached |
| RunEnhancedScraper.Enhanced | macbook_scraper/run_enhanced_scraper.py:41-47 | the stored result keeps its success flag, count and number of products; a successful one shows its products with specs attached, a failed one is unchanged |
| RunEnhancedScraper.Contributed | macbook_scraper/run_enhanced_scraper.py:43-48 | a successful result adds all its products with specs attached, a failed one adds nothing |
| RunEnhancedScraper.AttachSpecs | macbook_scraper/run_enhanced_scraper.py:43-48 | the loop gives each product its specs, keeping order |
| RunEnhancedScraper.ChipKey | macbook_scraper/run_enhanced_scraper.py:77-80 | "chip variant" when a variant exists, else the chip, which may be None |
| RunEnhancedScraper.ChipKeyOfParse | macbook_scraper/run_enhanced_scraper.py:77-80 | a key exists iff a chip was parsed, and it starts with that chip |
| RunEnhancedScraper.Keys | macbook_scraper/run_enhanced_scraper.py:75-84 | the dictionary's keys are distinct |
| RunEnhancedScraper.KeysAre | macbook_scraper/run_enhanced_scraper.py:75-84 | the keys are exactly the products' keys |
| RunEnhancedScraper.MembersAre | macbook_scraper/run_enhanced_scraper.py:75-84 | a group holds exactly the products with its key |
| RunEnhancedScraper.GroupsPartition | macbook_scraper/run_enhanced_scraper.py:75-84 | the group sizes add up to the number of products |
| RunEnhancedScraper.GroupByChip | macbook_scraper/run_enhanced_scraper.py:75-84 | the loop builds those keys in first-seen order, each mapped to its members in input order |
| RunEnhancedScraper.LineLeIsTotalPreorder | macbook_scraper/run_enhanced_scraper.py:89-90 | the sort key (None last, then by name) is a total preorder |
| RunEnhancedScraper.ChipSummaryGroups | macbook_scraper/run_enhanced_scraper.py:86-94 | the summary lists each key once, with its group's size |
| RunEnhancedScraper.ChipSummaryOrder | macbook_scraper/run_enhanced_scraper.py:89-94 | named chips ascending; only the last line may be the missing chip |
| RunEnhancedScraper.ChipSummaryCounts | macbook_scraper/run_enhanced_scraper.py:86-94 | the listed counts add up to the number of products |
| RunEnhancedScraper.Label | macbook_scraper/run_enhanced_scraper.py:91-94 | a truthy key is printed as itself; a missing or empty key as "Unknown Chip" |
| RunEnhancedScraper.PrintChipSummary | macbook_scraper/run_enhanced_scraper.py:73-94 | the grouping loop and the sort give the chip summary |
| TestAllScrapers.TestCellphones | macbook_scraper/test_all_scrapers.py:10-28 | the scraper's result, or the "cellphones" failure with the exception text |
| TestAllScrapers.Placeholder | macbook_scraper/test_all_scrapers.py:113-135 | a placeholder is not successful and has no products |
| TestAllScrapers.PricesOf | macbook_scraper/test_all_scrapers.py:52 | at most one price per product; a value is listed iff some product carries it as a truthy price |
| TestAllScrapers.PriceRange | macbook_scraper/test_all_scrapers.py:46-56 | shown iff the result succeeded and some product has a price; then the least and greatest such price |
| TestAllScrapers.GenerateSummaryReport | macbook_scraper/test_all_scrapers.py:30-79 | total and shop count over successful results only, and each result's price range |
| TestAllScrapers.ReportOfPlaceholders | macbook_scraper/test_all_scrapers.py:113-138 | the placeholders add nothing to the counts |
| TestAllScrapers.RunAllTests | macbook_scraper/test_all_scrapers.py:90-145 | results in order CellphoneS then three placeholders; the counts are CellphoneS's alone; exit code 0 iff CellphoneS succeeded |
| ApiTransform.ModelAndScreen | test_api_transform.js:28-38 | "air" before "pro"; Air gives 13" iff "13" occurs, else 15" iff "15" occurs, else no screen; Pro gives 14" iff "14" occurs, else 16" iff "16" occurs, else no screen; otherwise "MacBook" and no screen |
| ApiTransform.Category | test_api_transform.js:40-48 | one of the nine labels; "M4" never for a name with "m4 pro" or "m4 max"; "Unknown" iff no m1–m4 occurs |
| ApiTransform.CategoryIsFirstMatch | test_api_transform.js:40-48 | the if-chain agrees with the same rules written as an ordered table read first-match; a restatement in table form, not an independent specification |
| ApiTransform.Transform | test_api_transform.js:24-59 | configuration is the original name or ""; matching is on its lower case; display model is family + screen when a screen is set; scraped and the shop are copied |
| ApiTransform.LoadScrapedData | test_api_transform.js:6-21 | `data.products`, or `[]` when it is missing or the file cannot be read or parsed |
| ApiTransform.CellphonesOnly | test_api_transform.js:65-66 | keeps exactly the CellphoneS records |
| ApiTransform.CellphonesOnlyConcat | test_api_transform.js:65-66 | the selection keeps order: a + b gives the selection of a followed by that of b |
| ApiTransform.TransformAll | test_api_transform.js:67 | maps each record, keeping the count |
| ApiTransform.CellphonesRows | test_api_transform.js:65-67 | one row per CellphoneS record: row i is the transform of the i-th CellphoneS record, in order, so each is a scraped CellphoneS row |
| ApiTransform.CellphonesRowsEmpty | test_api_transform.js:65-67 | no CellphoneS record gives no rows |
| PricesTable.CurrencySymbol | components/ui/macbook-prices-table.jsx:37-44 | INR ₹, USD $, EUR €, any other code itself |
| PricesTable.PriceOrZero | components/ui/macbook-prices-table.jsx:73-77 | the price when there is one, else 0 |
| PricesTable.Filtered | components/ui/macbook-prices-table.jsx:61-69 | a row is kept iff every selector is "All" or equals the row's field |
| PricesTable.FilteredConcat | components/ui/macbook-prices-table.jsx:61-69 | filtering keeps order: the filter of a + b is the filter of a followed by that of b |
| PricesTable.FilterAndSort | components/ui/macbook-prices-table.jsx:60-82 | a permutation of the filtered rows; unsorted ("default") exactly the filtered rows; otherwise the stable sort by price |
| PricesTable.FilterAndSortSelects | components/ui/macbook-prices-table.jsx:61-69 | a row is shown iff it is in the data and matches |
| PricesTable.FilterAndSortOrders | components/ui/macbook-prices-table.jsx:71-79 | low-to-high gives non-decreasing prices, high-to-low non-increasing, a missing price counting as 0 |
| PricesTable.FilterAndSortIsStable | components/ui/macbook-prices-table.jsx:71-79 | rows with equal price keep their filtered order |
| PricesTable.FinalPrices | components/ui/macbook-prices-table.jsx:87-89 | exactly the prices present |
| PricesTable.Highlight | components/ui/macbook-prices-table.jsx:93-98 | green iff there is a non-zero price equal to the minimum; red iff it is not the minimum but is the maximum; otherwise "" |
| PricesTable.HighlightAllEqual | components/ui/macbook-prices-table.jsx:93-98 | when all prices are equal, green wins |
| PricesTable.HighlightMiddle | components/ui/macbook-prices-table.jsx:93-98 | a price strictly between others is not highlighted |
| Common.MinOf | components/ui/macbook-prices-table.jsx:90 | None iff no values; otherwise a value present and below all |
| Common.MaxOf | components/ui/macbook-prices-table.jsx:91 | None iff no values; otherwise a value present and above all |
| Sorting.SortIsSorted | components/ui/macbook-prices-table.jsx:71-79 | the stable sort orders by any total preorder |
| Sorting.SortIsStable | macbook_scraper/monitor_prices.py:203-205 | elements the comparator cannot tell apart keep their order |
| Sorting.InsertionSort | components/ui/macbook-prices-table.jsx:72-77 | the output is a permutation of the input |

## Left out

- Page fetching is not modelled. This covers retries, Cloudflare waits, sleeps, Playwright/SeleniumBase/requests and CSS selection. A card is given as the fields the scraper reads, and each page outcome as an option or a result.
- File and database I/O is not modelled. This covers JSON loading and saving, history and report files, backups and directory creation. Histories and results are passed in and out as values.
- Timestamps (`datetime.now()`) are not modelled, nor the dictionary fields holding them.
- Printing is not modelled: banners, per-product lines, sample products, `{:,}` formatting and success-rate percentages. The values printed are modelled as outputs: counts, totals, price ranges, top drops and the chip summary.
- `change_pct` and every other floating-point figure are not modelled. `change_vnd` is integer and is modelled.
- The alert e-mail's HTML body and SMTP sending are not modelled. Only when an alert is produced, and which drops and new products it lists, are modelled.
- The currency-conversion and VAT-refund route is not part of this model. Its source is not among the files this model covers.
- `UpdatePrices.PriceUpdater.Run`: TopZone never runs, because its availability flag is the constant False. The model has no TopZone branch, and the FPT flag is a parameter.
- Scraper construction: `update_prices.py` and `test_all_scrapers.py` build the scraper inside the `try`, so a constructor exception is folded into the outcome like one raised by `scrape`. `run_all_scrapers.py` builds its scrapers in `__init__` (lines 21-29), outside any per-shop `try`; a construction failure there is not modelled. `run_enhanced_scraper.py` also builds its two scrapers in `__init__` (lines 21-27) and calls `scrape` with no `try`; the model takes their returned results only, so an exception raised there is not modelled.
- `Text.Lower`: lower-casing, IGNORECASE matching and `toLowerCase` are modelled for ASCII letters only. Unicode case pairs such as 'ſ' and 'K' (Kelvin sign) are not modelled. No needle here has a non-ASCII letter.
- `Text.IsDigit`: `\d` and the digit filter in price cleaning are modelled for ASCII digits. Python also accepts other Unicode decimal digits.
- `MonitorPrices.Key`: a missing `shop` or `model` raises KeyError in the source. The model assumes `shop` is always present and formats a missing model as "None".
- `MonitorPrices.Classify`: the stored entry's price is looked up with `.get`, so an entry without a price counts as falsy. A corrupt history entry that is not a dictionary is not modelled.
- `TestAllScrapers.Placeholder`: the placeholders' `success` is None. It is modelled as false, which every reader of the field treats it as. Their `note` text is not modelled.
- `UpdatePrices.ErrorText`: a result whose `error` key is present with the value None would give None in the source. The model treats it as a missing key, giving "Unknown error".
- `PricesTable.CurrencySymbol`: codes that name inherited object properties (such as "constructor") would return those properties in JavaScript. This is not modelled.
- `PricesTable.PriceOrZero`: JavaScript's `|| 0` also maps NaN to 0. Prices are integers in the model, so NaN does not arise.
- Record fields a scraper never sets (product id, image) are None in the model. In the source they are absent from the dictionary.
- No scraper's success result has an `error` key. The model gives it the error None, which every reader (`result.get('error', …)`) treats as a missing key.
- JavaScript `Math.min`/`Math.max` over no values give ±Infinity. The model gives None and never compares a price against a missing extreme, which matches the source's guard.
- `RunEnhancedScraper.EnhancedScraperManager.RunAll`: `_save_enhanced_data` (macbook_scraper/run_enhanced_scraper.py:126-134) slices `sample['url'][:70]`, which raises TypeError when the first product has no URL (a card without a link). `run_all` would then raise after saving. The model always returns the products and does not model that exception.

## Findings

None: each contract that was attempted holds of the code as written.
