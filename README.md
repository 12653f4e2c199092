# FutureTools.io tracker — a verified model of its scraper and dashboard logic

The FutureTools.io tracker scrapes the FutureTools.io AI-tool listing with a
headless browser and shows the results in a Streamlit dashboard. This
project models, in Dafny, the parts of it that carry logic:

- **Field extraction** (`Extraction`): a tool card becomes a record with
  name, description, categories, pricing, url and time stamp, through
  first-match-wins fallback chains. The HTML parser is not modelled; a card
  is the texts and link targets the parser would find in it.
- **Card location** (`Locator`): the first non-empty of five candidate card
  lists.
- **Browser session and scrolling** (`Browser`, `Scraper`): the browser is an
  oracle object answering height reads and load-more lookups in turn. The
  scroll-until-stable loop is a method proved to follow a step function,
  and properties of that function are proved as lemmas.
- **The scraper object** (`Scraper.FutureToolsScraper`): its `driver` field,
  set up and closed around each of the three scrape methods, and the
  category/pricing filter of `scrape_by_category`.
- **Dashboard computations** (`Dashboard`): the search, category and pricing
  filters, the option sets of the two multiselects, the free/paid counts,
  and the pagination arithmetic.

Files: `wrappers.dfy` (Option), `text.dfy` (Python's `in`, `split`, `join`,
`lower` on strings, with their round-trip lemmas), `seqs.dfy` (list
comprehension filtering and subsequences), `extraction.dfy`, `locator.dfy`,
`browser.dfy`, `scraper.dfy`, `dashboard.dfy`.

Two behaviours of the code are easy to misread, and the model keeps both:

- Pricing labels come out in the keyword dictionary's order: paid, free
  trial, freemium, open source, github (scraper.py:184-194). So a card whose
  text mentions "freemium" and then "free trial" gets the pricing
  "Free Trial, Freemium", not the order of mention. See
  `Extraction.FreemiumAndFreeTrial`.
- The name is the stripped text of the first name element found, and is
  never checked for emptiness (scraper.py:140-141). A record may therefore
  have the empty name. See `Extraction.EmptyNameKept`.

## Model

| member | source | states |
|---|---|---|
| Extraction.ExtractSpec | scraper.py:134-151 | a card yields no record iff it has no title link, no h3 and no h2; the name is the first of these found; the description is "" without a description box; categories and pricing are never ""; the record carries the given time stamp |
| Extraction.EmptyNameKept | scraper.py:140-141 | a title link with empty text still yields a record, named "" |
| Extraction.Unique | scraper.py:163-166 | the appended labels are exactly the input labels not excluded, each once |
| Extraction.UniqueFirstSeenOrder | scraper.py:163-166 | kept labels appear in the order of their first occurrence in the input |
| Extraction.UniqueExample | scraper.py:163-166 | labels Chat, Productivity, Chat give Chat, Productivity |
| Extraction.CategoryLabelsSpec | scraper.py:154-174 | categories are the non-blank labels of the first non-empty label variant; only if there are none, the `?tags=` link texts other than "" and "category"; never duplicated |
| Extraction.CategoriesFieldNonEmpty | scraper.py:176 | the categories field is never the empty string |
| Extraction.CategoriesFieldSplits | scraper.py:176 | splitting the field on ", " gives back the labels, or ["Uncategorized"] when there are none, provided no label contains a comma |
| Extraction.CollectCategories | scraper.py:154-174 | the two append loops compute exactly the category labels of the card |
| Extraction.KeywordStep | scraper.py:192-194 | each round of the keyword loop appends its label iff its keyword occurs; the "label not in pricing" test never rejects one |
| Extraction.KeywordLabelsInTableOrder | scraper.py:184-194 | the keyword loop yields the labels of the occurring keywords in the fixed order paid, free trial, freemium, open source, github |
| Extraction.KeywordLabelIff | scraper.py:192-194 | after n rounds, row k's label is present iff k < n and its keyword occurs |
| Extraction.KeywordLabelsDistinct | scraper.py:192-194 | the keyword loop yields distinct labels from the vocabulary, never "Free" |
| Extraction.NoKeywordNoLabel | scraper.py:192-194 | the keyword loop yields nothing iff no keyword occurs in the text |
| Extraction.PricingLabelIff | scraper.py:183-194 | Paid, Free Trial, Freemium, Open Source or GitHub is a label iff its lower-case keyword occurs in the lower-cased card text |
| Extraction.FreeRule | scraper.py:196-198 | "Free" is a label iff "free" occurs and no keyword does, and then it is the only label |
| Extraction.FreeGuardRedundant | scraper.py:197 | when no keyword matched, "free trial" cannot occur, so that guard never decides |
| Extraction.PricingLabelsDistinct | scraper.py:180-198 | pricing labels belong to the six-label vocabulary, each at most once |
| Extraction.FreemiumAndFreeTrial | scraper.py:184-200 | text with "freemium" and "free trial" and no other keyword gives "Free Trial, Freemium" |
| Extraction.FreeAlone | scraper.py:196-200 | text with "free" and no keyword gives "Free" |
| Extraction.PricingFieldSpec | scraper.py:200 | the pricing field is never ""; it is "Check tool page" iff there is no label; splitting it on ", " gives back the labels or the sentinel |
| Extraction.DetectPricing | scraper.py:180-198 | the keyword loop and the free rule compute exactly the pricing labels |
| Extraction.FirstToolLink | scraper.py:203 | the first link whose target starts with "/tools/", or none iff no link does |
| Extraction.UrlSpec | scraper.py:203-208 | the url is "" iff no link targets a tool page, else it is the site origin followed by the href of the first such link, so it starts with the origin and "/tools/" |
| Extraction.ParseToolCard | scraper.py:128-215 | parsing a card gives exactly the extraction function's result |
| Locator.FirstNonEmpty | scraper.py:243-249 | an `or` chain over lists is empty iff all lists are, else it is one whole candidate list whose predecessors are all empty |
| Locator.LocateCards | scraper.py:243-249 | the cards are the w-dyn-item list if non-empty, else tool-card, else tool-item, else collection-item, else article; never a merge |
| Browser.Driver.constructor | scraper.py:76 | a new session answers from the given oracles, with no read, lookup or click yet |
| Browser.Driver.ReadHeight | scraper.py:87 | a height read returns the next oracle height and counts one read |
| Browser.Driver.FindLoadMore | scraper.py:107-109 | a lookup returns the next oracle answer and counts one lookup |
| Browser.Driver.Click | scraper.py:110 | a click counts one click and changes nothing else |
| Browser.Driver.Quit | scraper.py:82 | quitting marks the session quit and changes nothing else |
| Browser.Step | scraper.py:91-122 | one iteration: it scrolls once; a changed height or a click resets the no-change count to 0, a click re-reads the height, an unchanged height without a click adds 1 to the count; the control is looked up, and clicked at most once, only when an unchanged read takes the count to 3, and otherwise no lookup happens; it stops exactly when the height is unchanged, the count reaches 3 and the control is not visible; a stopping iteration reads the height once, looks the control up once, clicks nothing and keeps the last height and the scroll count |
| Browser.RunSpec | scraper.py:85-122 | the loop never passes the scroll budget, does nothing with no budget left, and ends early iff the no-change count reached 3 and the last lookup found no visible control |
| Browser.NoBudgetNoScroll | scraper.py:88-91 | with a budget of 0 or less the loop body never runs |
| Browser.StableWithoutControlStops | scraper.py:99-117 | a page whose height never changes and has no visible control stops with the scroll counter at 2 (three scroll commands issued), on the third unchanged read |
| Scraper.ParseAllSpec | scraper.py:253-256 | every collected record is the extraction of one of the located cards, and there are at most as many records as cards |
| Scraper.ParseAllPrefix | scraper.py:253-256 | the records of the first k cards are a prefix of the records of all cards |
| Scraper.ParseAllStep | scraper.py:253-256 | one more card adds its record when it has a name and nothing otherwise |
| Scraper.ParseAllComplete | scraper.py:253-256 | every card with a name contributes its own record, placed after the records of the cards before it |
| Scraper.ParseAllOrder | scraper.py:253-256 | records keep the order of their cards: a named card's record comes before those of all later cards |
| Scraper.NoCardsNoRecords | scraper.py:243-256 | a page with no card under any of the five selectors scrapes to no record |
| Scraper.FilterRecordsSpec | scraper.py:306-321 | the output is an order-preserving subsequence of the parsed records, holding exactly those passing both tests; with the category test skipped (None, empty or the full list) and no pricing filter it is all of them |
| Scraper.PricingTestOnLabels | scraper.py:316-319 | on a parsed record the pricing test passes iff a requested value is a detected label, or, with no label, iff "Check tool page" was requested |
| Scraper.FutureToolsScraper.constructor | scraper.py:38-41 | a new scraper has no session |
| Scraper.FutureToolsScraper.SetupDriver | scraper.py:43-77 | a successful setup stores a fresh session on the site's oracles; a failed one leaves the field as it was |
| Scraper.FutureToolsScraper.CloseDriver | scraper.py:79-83 | closing quits the session if there is one and always leaves no session; with none it changes nothing |
| Scraper.FutureToolsScraper.ScrollToLoadAll | scraper.py:85-126 | the loop ends in the state the step function reaches from the first height read, and the session's counters agree with it |
| Scraper.FutureToolsScraper.ParseCards | scraper.py:253-256 | the card loop collects exactly the records of the cards with a name, in card order |
| Scraper.FutureToolsScraper.LoadCards | scraper.py:222-249 | setup, navigation and scrolling give the located cards, or nothing iff setup or navigation fails; a started session is fresh, stored in the field and still open |
| Scraper.FutureToolsScraper.ScrapeNewlyAdded | scraper.py:217-266 | the result is every parsed record after at most 10 scrolls, or none on failure; a started session is quit and the field cleared, when setup fails a session left in the field is quit, and when setup succeeds a session left in the field is overwritten untouched |
| Scraper.FutureToolsScraper.ScrapeAllTools | scraper.py:331-387 | the result is every parsed record after at most 100 scrolls, or none on failure; a started session is quit and the field cleared, when setup fails a session left in the field is quit, and when setup succeeds a session left in the field is overwritten untouched |
| Scraper.FutureToolsScraper.PassesFilters | scraper.py:309-319 | the two `continue` tests keep a record iff it passes the category and pricing tests |
| Scraper.FutureToolsScraper.ParseAndFilter | scraper.py:306-321 | the loop with `continue` collects exactly the filtered parsed records |
| Scraper.FutureToolsScraper.ScrapeByCategory | scraper.py:268-329 | the result is the filtered records of the scrape, with None categories meaning all categories; a started session is quit and the field cleared, when setup fails a session left in the field is quit, and when setup succeeds a session left in the field is overwritten untouched |
| Dashboard.EmptyQueryMatchesAll | app.py:293-297 | an empty query would match every tool, so skipping the search for it changes nothing |
| Dashboard.SearchFilterSpec | app.py:293-298 | the search keeps exactly the tools whose lower-cased name or description contains the lower-cased query, in order; an empty query keeps the list |
| Dashboard.CategoryPricingFilterSpec | app.py:300-310 | the category and pricing filters keep exactly the tools whose joined field contains some selected value as a substring, in order; an empty selection keeps the list |
| Dashboard.StagesAsFilters | app.py:291-310 | each of the three filters is a plain filter whose test always passes when the filter is inactive |
| Dashboard.ApplyFiltersSpec | app.py:291-310 | the combined filter is the original list restricted to the tools passing every active test, in original order |
| Dashboard.SubstringVersusSplitMatching | app.py:300-304 | selecting "Art" shows a "Generative Art" tool in the dashboard, while the scraper's split-based filter drops it |
| Dashboard.OptionSetSpec | app.py:232-238 | an option is a ", "-split piece of some tool's field other than "" and the excluded sentinel |
| Dashboard.CollectOptions | app.py:232-238 | the loop computes exactly the category options (without "Uncategorized") and the pricing options (without "Not specified") |
| Dashboard.SentinelOptions | app.py:235-238 | "Uncategorized" is never a category option, while "Check tool page" is a pricing option whenever a tool carries it |
| Dashboard.ScrapedPricingOptions | app.py:237-238 | on scraped records every pricing option is one of the six labels or "Check tool page" |
| Dashboard.FreeCount | app.py:249 | the free count is at most the number of tools |
| Dashboard.PaidCount | app.py:258 | the paid count is at most the number of tools |
| Dashboard.LabelContains | app.py:249-258 | among the pricing values, "Free" occurs in exactly Free, Free Trial and Freemium, and "Paid" only in Paid |
| Dashboard.FreeOnField | app.py:249 | a pricing field built from labels contains "Free" iff one of Free, Free Trial or Freemium is a label |
| Dashboard.PaidOnField | app.py:258 | a pricing field built from labels contains "Paid" iff Paid is a label |
| Dashboard.CountsOnLabels | app.py:249-258 | a scraped tool counts as free iff Free, Free Trial or Freemium was detected, and as paid iff Paid was |
| Dashboard.FreeAndPaidOverlap | app.py:249-258 | a tool priced "Paid, Free Trial" counts both as free and as paid |
| Dashboard.TotalPages | app.py:333 | for n ≥ 1 tools, (pages − 1)·10 < n ≤ pages·10 |
| Dashboard.PageBounds | app.py:343-344 | every allowed page is a non-empty slice of at most 10 tools inside the list |
| Dashboard.PagesTile | app.py:333-344 | page 1 starts at 0, the last page ends at n, and each page ends where the next begins |
| Dashboard.PageOfIndex | app.py:333-344 | each tool index lies on exactly one page, page i div 10 + 1 |
| Dashboard.FirstPagesPrefix | app.py:343-348 | the first k pages, read in order, are the list up to the end of page k |
| Dashboard.AllPages | app.py:343-348 | all pages read in order give back the whole list, each tool once |

## Left out

- Browser setup details are not modelled: Chrome options, chromedriver discovery and the `headless` flag (scraper.py:43-75). Setup is a success flag of the site, and the session is an oracle object.
- Navigation (`driver.get`) is a success flag. The two listing URLs are not told apart: the site passed in stands for the page navigated to.
- The scroll command itself, the `time.sleep` waits and the progress `print` calls have no observable effect in the model.
- ScrollToLoadAll: the scroll command at scraper.py:93 and the height reads at scraper.py:87 and 99 are assumed not to raise. In the source such a raise ends the scrape with no records; the model does not capture it.
- CloseDriver: `quit()` at scraper.py:82 is assumed not to raise. In the source a raising `quit()` skips `self.driver = None` (scraper.py:83), and the exception leaves the `finally` blocks at scraper.py:263, 326 and 384, so the scrape method raises instead of returning, with the field still set. The model does not capture this.
- Browser.Step: a failing lookup is modelled (`Control.Fails`), but a raise from `click` or from the height re-read after a click is not told apart from it.
- The page source and its parsing (BeautifulSoup, class matching, `get_text`) are inputs. The rendered page is a function of the state in which scrolling ended. A card is its extracted texts and link targets. The `except` branch of `_parse_tool_card` is not modelled, because the model's inputs cannot raise.
- Lower-casing is ASCII only; Python's Unicode `lower()` is not modelled.
- `datetime.now()` is a clock parameter, read once per card position.
- CSV and JSON persistence (`save_to_csv`, `load_from_csv`, the dashboard cache) and the cache-clearing file removal are file I/O, not modelled.
- The Streamlit UI is not modelled: rendering, CSS, session state, widgets and the CSV download.
- The dashboard's `tool.get(key, default)` defaults are not modelled. Every modelled record has all six fields.
- Dashboard.PageBounds: the page number is a precondition (1 to the page count); Streamlit's number input enforces that range.
- `PRICING_FILTERS` (scraper.py:36) is not used by any modelled operation, and neither is the unused `max_pages` parameter of `scrape_all_tools`.
