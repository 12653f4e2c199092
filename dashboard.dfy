/**
  The dashboard's in-memory computations over the scraped records: the
  search, category and pricing filters, the option sets offered by the two
  multiselects, the free/paid counts and the pagination arithmetic.
 */
module Dashboard {
  import opened Wrappers
  import opened Text
  import opened Seqs
  import opened Extraction
  import Scraper

  const NOT_SPECIFIED := "Not specified"
  const TOOLS_PER_PAGE := 10

  // ------------------------------------------------------------- filters

  /** The search test: the lower-cased query occurs in the lower-cased name or description. */
  predicate MatchesQuery(t: ToolRecord, query: string) {
    Contains(Lower(t.name), Lower(query)) || Contains(Lower(t.description), Lower(query))
  }

  /** The dashboard's category and pricing tests: some selected value is a substring of the joined field. */
  predicate AnySubstring(field: string, selected: seq<string>) {
    exists s :: s in selected && Contains(field, s)
  }

  function SearchTest(query: string): ToolRecord -> bool {
    t => MatchesQuery(t, query)
  }

  function CategoryTest(selected: seq<string>): ToolRecord -> bool {
    (t: ToolRecord) => AnySubstring(t.categories, selected)
  }

  function PricingTest(selected: seq<string>): ToolRecord -> bool {
    (t: ToolRecord) => AnySubstring(t.pricing, selected)
  }

  /** `if search_query:` then keep the matching tools. */
  function SearchFilter(tools: seq<ToolRecord>, query: string): seq<ToolRecord> {
    if query == "" then tools else Filter(tools, SearchTest(query))
  }

  /** `if filter_categories:` then keep the tools some selected category is a substring of. */
  function CategoryFilter(tools: seq<ToolRecord>, selected: seq<string>): seq<ToolRecord> {
    if selected == [] then tools else Filter(tools, CategoryTest(selected))
  }

  /** `if filter_pricing:` then keep the tools some selected pricing value is a substring of. */
  function PricingFilter(tools: seq<ToolRecord>, selected: seq<string>): seq<ToolRecord> {
    if selected == [] then tools else Filter(tools, PricingTest(selected))
  }

  /** The three filters in the order the dashboard applies them. */
  function ApplyFilters(tools: seq<ToolRecord>, query: string, categories: seq<string>, pricing: seq<string>)
    : seq<ToolRecord>
  {
    PricingFilter(CategoryFilter(SearchFilter(tools, query), categories), pricing)
  }

  /** A tool is shown iff it passes every active test. */
  predicate Shown(t: ToolRecord, query: string, categories: seq<string>, pricing: seq<string>) {
    (query != "" ==> MatchesQuery(t, query)) &&
    (categories != [] ==> AnySubstring(t.categories, categories)) &&
    (pricing != [] ==> AnySubstring(t.pricing, pricing))
  }

  function ShownTest(query: string, categories: seq<string>, pricing: seq<string>): ToolRecord -> bool {
    t => Shown(t, query, categories, pricing)
  }

  /** An empty query would match every tool anyway, so skipping the search filter for it changes nothing. */
  lemma EmptyQueryMatchesAll(t: ToolRecord)
    ensures MatchesQuery(t, "")
  {
    assert OccursAt(Lower(t.name), Lower(""), 0);
    ContainsIff(Lower(t.name), Lower(""));
  }

  /** The search filter keeps exactly the matching tools, in order; an empty query keeps the list. */
  lemma SearchFilterSpec(tools: seq<ToolRecord>, query: string)
    ensures var r := SearchFilter(tools, query);
      SubsequenceOf(r, tools) &&
      (forall t :: t in r <==> t in tools && MatchesQuery(t, query)) &&
      (query == "" ==> r == tools)
  {
    if query == "" {
      forall t | t in tools ensures MatchesQuery(t, query) {
        EmptyQueryMatchesAll(t);
      }
      FilterIsSubsequence(tools, All());
      FilterAll(tools, All());
    } else {
      FilterIsSubsequence(tools, SearchTest(query));
      FilterMembers(tools, SearchTest(query));
    }
  }

  /**
    The category and pricing filters keep exactly the tools some selected
    value is a substring of, in order; an empty selection keeps the list.
   */
  lemma CategoryPricingFilterSpec(tools: seq<ToolRecord>, categories: seq<string>, pricing: seq<string>)
    ensures var r := CategoryFilter(tools, categories);
      SubsequenceOf(r, tools) &&
      (categories != [] ==> forall t :: t in r <==> t in tools && AnySubstring(t.categories, categories)) &&
      (categories == [] ==> r == tools)
    ensures var r := PricingFilter(tools, pricing);
      SubsequenceOf(r, tools) &&
      (pricing != [] ==> forall t :: t in r <==> t in tools && AnySubstring(t.pricing, pricing)) &&
      (pricing == [] ==> r == tools)
  {
    FilterIsSubsequence(tools, CategoryTest(categories));
    FilterMembers(tools, CategoryTest(categories));
    FilterIsSubsequence(tools, PricingTest(pricing));
    FilterMembers(tools, PricingTest(pricing));
    FilterAll(tools, All());
    FilterIsSubsequence(tools, All());
  }

  function All(): ToolRecord -> bool {
    t => true
  }

  /** Each filter as a test that is `All()` when the filter is inactive. */
  function SearchStage(query: string): ToolRecord -> bool {
    if query == "" then All() else SearchTest(query)
  }

  function CategoryStage(selected: seq<string>): ToolRecord -> bool {
    if selected == [] then All() else CategoryTest(selected)
  }

  function PricingStage(selected: seq<string>): ToolRecord -> bool {
    if selected == [] then All() else PricingTest(selected)
  }

  function SearchAndCategory(query: string, categories: seq<string>): ToolRecord -> bool {
    t => SearchStage(query)(t) && CategoryStage(categories)(t)
  }

  lemma StagesAsFilters(tools: seq<ToolRecord>, query: string, categories: seq<string>, pricing: seq<string>)
    ensures SearchFilter(tools, query) == Filter(tools, SearchStage(query))
    ensures CategoryFilter(tools, categories) == Filter(tools, CategoryStage(categories))
    ensures PricingFilter(tools, pricing) == Filter(tools, PricingStage(pricing))
  {
    FilterAll(tools, All());
  }

  /** The combined filter is the original list restricted to the tools passing every active test, in order. */
  lemma ApplyFiltersSpec(tools: seq<ToolRecord>, query: string, categories: seq<string>, pricing: seq<string>)
    ensures ApplyFilters(tools, query, categories, pricing) == Filter(tools, ShownTest(query, categories, pricing))
    ensures SubsequenceOf(ApplyFilters(tools, query, categories, pricing), tools)
  {
    var searched := SearchFilter(tools, query);
    StagesAsFilters(tools, query, categories, pricing);
    StagesAsFilters(searched, query, categories, pricing);
    FilterCompose(tools, SearchStage(query), CategoryStage(categories), SearchAndCategory(query, categories));
    var both := CategoryFilter(searched, categories);
    assert both == Filter(tools, SearchAndCategory(query, categories));
    StagesAsFilters(both, query, categories, pricing);
    FilterCompose(tools, SearchAndCategory(query, categories), PricingStage(pricing),
                  ShownTest(query, categories, pricing));
    FilterIsSubsequence(tools, ShownTest(query, categories, pricing));
  }

  lemma ArtInGenerativeArt(field: string)
    requires field == "Generative Art"
    ensures Contains(field, "Art")
    ensures Split(field, SEP) == [field]
  {
    assert OccursAt(field, "Art", 11);
    ContainsIff(field, "Art");
    SplitNoSeparator(field, SEP);
  }

  /**
    The dashboard tests a selected category as a substring of the joined
    field, while `scrape_by_category` compares whole ", "-split labels:
    selecting "Art" shows a "Generative Art" tool here, where the scraper's
    filter drops it.
   */
  lemma SubstringVersusSplitMatching(t: ToolRecord)
    requires t.categories == "Generative Art"
    ensures CategoryFilter([t], ["Art"]) == [t]
    ensures Scraper.FilterRecords([t], ["Art"], []) == []
  {
    ArtShownByDashboard(t);
    ArtNotALabel(t);
    FilterSnoc([], t, Scraper.Keep(["Art"], []));
    assert [] + [t] == [t];
  }

  lemma ArtShownByDashboard(t: ToolRecord)
    requires t.categories == "Generative Art"
    ensures CategoryFilter([t], ["Art"]) == [t]
  {
    var selected := ["Art"];
    ArtInGenerativeArt(t.categories);
    assert selected[0] in selected && Contains(t.categories, selected[0]);
    assert AnySubstring(t.categories, selected);
    var p := CategoryTest(selected);
    assert p(t);
    FilterSnoc([], t, p);
    assert [] + [t] == [t];
    assert Filter([t], p) == [t];
  }

  lemma ArtNotALabel(t: ToolRecord)
    requires t.categories == "Generative Art"
    ensures !Scraper.Keep(["Art"], [])(t)
  {
    ArtInGenerativeArt(t.categories);
    assert Scraper.CATEGORIES[0] != "Art";
    assert !Scraper.AnyIn(Split(t.categories, SEP), ["Art"]);
  }

  // --------------------------------------------------------- option sets

  function CategoriesOf(t: ToolRecord): string { t.categories }
  function PricingOf(t: ToolRecord): string { t.pricing }

  /** The ", "-split pieces of a field offered as options: all but "" and `excluded`. */
  function Pieces(field: string, excluded: string): set<string> {
    set c | c in Split(field, SEP) && c != "" && c != excluded
  }

  /** The option set accumulated over the tools, one `set.update` per tool. */
  function OptionSet(tools: seq<ToolRecord>, field: ToolRecord -> string, excluded: string): set<string>
    decreases |tools|
  {
    if tools == [] then {}
    else
      var n := |tools| - 1;
      OptionSet(tools[..n], field, excluded) + Pieces(field(tools[n]), excluded)
  }

  /** An option is a non-empty, non-excluded ", "-split piece of some tool's field. */
  lemma {:induction false} OptionSetSpec(tools: seq<ToolRecord>, field: ToolRecord -> string, excluded: string)
    ensures forall c :: c in OptionSet(tools, field, excluded) <==>
      c != "" && c != excluded && exists i :: 0 <= i < |tools| && c in Split(field(tools[i]), SEP)
    decreases |tools|
  {
    if tools != [] {
      var n := |tools| - 1;
      OptionSetSpec(tools[..n], field, excluded);
      forall c ensures c in OptionSet(tools, field, excluded) <==>
        c != "" && c != excluded && exists i :: 0 <= i < |tools| && c in Split(field(tools[i]), SEP)
      {
        if c != "" && c != excluded && exists i :: 0 <= i < |tools| && c in Split(field(tools[i]), SEP) {
          var i :| 0 <= i < |tools| && c in Split(field(tools[i]), SEP);
          if i < n {
            assert tools[..n][i] == tools[i];
          }
        }
        if c in OptionSet(tools[..n], field, excluded) {
          var i :| 0 <= i < n && c in Split(field(tools[..n][i]), SEP);
          assert tools[..n][i] == tools[i];
        }
      }
    }
  }

  /** The loop of the statistics block that gathers the category and pricing options. */
  method CollectOptions(tools: seq<ToolRecord>) returns (allCategories: set<string>, allPricing: set<string>)
    ensures allCategories == OptionSet(tools, CategoriesOf, UNCATEGORIZED)
    ensures allPricing == OptionSet(tools, PricingOf, NOT_SPECIFIED)
  {
    allCategories := {};
    allPricing := {};
    for i := 0 to |tools|
      invariant allCategories == OptionSet(tools[..i], CategoriesOf, UNCATEGORIZED)
      invariant allPricing == OptionSet(tools[..i], PricingOf, NOT_SPECIFIED)
    {
      assert tools[..i + 1][..i] == tools[..i];
      var cats := Split(tools[i].categories, SEP);
      allCategories := allCategories + set c | c in cats && c != "" && c != UNCATEGORIZED;
      var prices := Split(tools[i].pricing, SEP);
      allPricing := allPricing + set p | p in prices && p != "" && p != NOT_SPECIFIED;
    }
    assert tools[..|tools|] == tools;
  }

  /** The "Uncategorized" sentinel is never offered, but "Check tool page" is whenever some tool carries it. */
  lemma SentinelOptions(tools: seq<ToolRecord>, i: nat)
    requires i < |tools| && tools[i].pricing == CHECK_TOOL_PAGE
    ensures UNCATEGORIZED !in OptionSet(tools, CategoriesOf, UNCATEGORIZED)
    ensures CHECK_TOOL_PAGE in OptionSet(tools, PricingOf, NOT_SPECIFIED)
  {
    OptionSetSpec(tools, CategoriesOf, UNCATEGORIZED);
    OptionSetSpec(tools, PricingOf, NOT_SPECIFIED);
    SplitNoSeparator(CHECK_TOOL_PAGE, SEP);
    assert CHECK_TOOL_PAGE in Split(PricingOf(tools[i]), SEP);
  }

  /** On scraped records every pricing option is one of the six labels or the sentinel. */
  lemma ScrapedPricingOptions(cards: seq<Card>, clock: nat -> string)
    ensures OptionSet(Scraper.ParseAll(cards, clock), PricingOf, NOT_SPECIFIED) <= PRICING_LABELS + {CHECK_TOOL_PAGE}
  {
    var tools := Scraper.ParseAll(cards, clock);
    Scraper.ParseAllSpec(cards, clock);
    OptionSetSpec(tools, PricingOf, NOT_SPECIFIED);
    forall c | c in OptionSet(tools, PricingOf, NOT_SPECIFIED) ensures c in PRICING_LABELS + {CHECK_TOOL_PAGE} {
      var i :| 0 <= i < |tools| && c in Split(PricingOf(tools[i]), SEP);
      assert tools[i] in tools;
      var j :| 0 <= j < |cards| && Extract(cards[j], clock(j)) == Some(tools[i]);
      ScrapedPricingPieces(cards[j], clock(j));
    }
  }

  /** Each ", "-split piece of a scraped record's pricing is a label or the sentinel. */
  lemma ScrapedPricingPieces(c: Card, scrapedAt: string)
    requires Extract(c, scrapedAt).Some?
    ensures forall p :: p in Split(Extract(c, scrapedAt).value.pricing, SEP) ==> p in PRICING_LABELS + {CHECK_TOOL_PAGE}
  {
    var t := Lower(c.text);
    assert Extract(c, scrapedAt).value.pricing == PricingField(PricingLabels(t));
    PricingFieldSpec(t);
    PricingLabelsDistinct(t);
  }

  // -------------------------------------------------------------- counts

  predicate IsFree(t: ToolRecord) { Contains(t.pricing, "Free") }
  predicate IsPaid(t: ToolRecord) { Contains(t.pricing, "Paid") }

  /** `len([t for t in tools if 'Free' in t['pricing']])`. */
  function FreeCount(tools: seq<ToolRecord>): (n: nat)
    ensures n <= |tools|
  {
    |Filter(tools, IsFree)|
  }

  /** `len([t for t in tools if 'Paid' in t['pricing']])`. */
  function PaidCount(tools: seq<ToolRecord>): (n: nat)
    ensures n <= |tools|
  {
    |Filter(tools, IsPaid)|
  }

  const FREE_LABELS: set<string> := {"Free", "Free Trial", "Freemium"}

  lemma StartsWithContains(l: string, sub: string)
    requires StartsWith(l, sub)
    ensures Contains(l, sub)
  {
    assert OccursAt(l, sub, 0);
    ContainsIff(l, sub);
  }

  /** A label beginning with "Free" contains it and not "Paid". */
  lemma FreeLabelContains(l: string)
    requires l == "Free" || l == "Free Trial" || l == "Freemium"
    ensures Contains(l, "Free") && !Contains(l, "Paid")
  {
    assert l[..4] == "Free";
    StartsWithContains(l, "Free");
    assert 'P' !in l;
    NotContainsFirstChar(l, "Paid");
  }

  /** A label containing neither 'F' nor 'P' contains neither word. */
  lemma OtherLabelContains(l: string)
    requires l == "Open Source" || l == "GitHub" || l == CHECK_TOOL_PAGE
    ensures !Contains(l, "Free") && !Contains(l, "Paid")
  {
    assert 'F' !in l && 'P' !in l;
    NotContainsFirstChar(l, "Free");
    NotContainsFirstChar(l, "Paid");
  }

  /** Among the pricing labels, exactly the three beginning with "Free" contain it, and only "Paid" contains "Paid". */
  lemma LabelContains(l: string)
    requires l in PRICING_LABELS + {CHECK_TOOL_PAGE}
    ensures Contains(l, "Free") <==> l in FREE_LABELS
    ensures Contains(l, "Paid") <==> l == "Paid"
  {
    if l == "Paid" {
      StartsWithContains(l, "Paid");
      assert 'F' !in l;
      NotContainsFirstChar(l, "Free");
    } else if l in FREE_LABELS {
      FreeLabelContains(l);
    } else {
      OtherLabelContains(l);
    }
  }

  /** On a pricing field built from labels, "Free" occurs iff one of Free, Free Trial or Freemium is a label. */
  lemma FreeOnField(labels: seq<string>)
    requires forall l :: l in labels ==> l in PRICING_LABELS
    ensures Contains(PricingField(labels), "Free") <==> exists l :: l in labels && l in FREE_LABELS
  {
    if labels == [] {
      LabelContains(CHECK_TOOL_PAGE);
    } else {
      ContainsJoinIff(labels, SEP, "Free");
      if Contains(PricingField(labels), "Free") {
        var k :| 0 <= k < |labels| && Contains(labels[k], "Free");
        assert labels[k] in labels;
        LabelContains(labels[k]);
      }
      if exists l :: l in labels && l in FREE_LABELS {
        var l :| l in labels && l in FREE_LABELS;
        var k :| 0 <= k < |labels| && labels[k] == l;
        LabelContains(l);
      }
    }
  }

  /** On a pricing field built from labels, "Paid" occurs iff Paid is a label. */
  lemma PaidOnField(labels: seq<string>)
    requires forall l :: l in labels ==> l in PRICING_LABELS
    ensures Contains(PricingField(labels), "Paid") <==> "Paid" in labels
  {
    if labels == [] {
      LabelContains(CHECK_TOOL_PAGE);
    } else {
      ContainsJoinIff(labels, SEP, "Paid");
      if Contains(PricingField(labels), "Paid") {
        var k :| 0 <= k < |labels| && Contains(labels[k], "Paid");
        assert labels[k] in labels;
        LabelContains(labels[k]);
      }
      if "Paid" in labels {
        var k :| 0 <= k < |labels| && labels[k] == "Paid";
        LabelContains("Paid");
      }
    }
  }

  /**
    On a scraped record the free count's substring test means one of Free,
    Free Trial or Freemium was detected, and the paid count's means Paid was.
   */
  lemma CountsOnLabels(c: Card, scrapedAt: string)
    requires Extract(c, scrapedAt).Some?
    ensures var t, labels := Extract(c, scrapedAt).value, PricingLabels(Lower(c.text));
      (IsFree(t) <==> exists l :: l in labels && l in FREE_LABELS) &&
      (IsPaid(t) <==> "Paid" in labels)
  {
    var labels := PricingLabels(Lower(c.text));
    assert Extract(c, scrapedAt).value.pricing == PricingField(labels);
    PricingLabelsDistinct(Lower(c.text));
    FreeOnField(labels);
    PaidOnField(labels);
  }

  /** A record priced "Paid, Free Trial" is counted both as free and as paid. */
  lemma FreeAndPaidOverlap(t: ToolRecord)
    requires t.pricing == "Paid, Free Trial"
    ensures FreeCount([t]) == 1 && PaidCount([t]) == 1
  {
    assert OccursAt(t.pricing, "Free", 6);
    assert OccursAt(t.pricing, "Paid", 0);
    ContainsIff(t.pricing, "Free");
    ContainsIff(t.pricing, "Paid");
    assert [t][..0] == [];
  }

  // ---------------------------------------------------------- pagination

  /** `(n - 1) // tools_per_page + 1`, for the non-empty list the pagination is shown for. */
  function TotalPages(n: nat): (pages: nat)
    requires n >= 1
    ensures pages >= 1
    ensures (pages - 1) * TOOLS_PER_PAGE < n <= pages * TOOLS_PER_PAGE
  {
    (n - 1) / TOOLS_PER_PAGE + 1
  }

  function PageStart(page: int): int {
    (page - 1) * TOOLS_PER_PAGE
  }

  function PageEnd(page: int, n: nat): int {
    if PageStart(page) + TOOLS_PER_PAGE < n then PageStart(page) + TOOLS_PER_PAGE else n
  }

  /** Every page the number input allows is a non-empty slice of at most ten tools. */
  lemma PageBounds(n: nat, page: int)
    requires n >= 1 && 1 <= page <= TotalPages(n)
    ensures 0 <= PageStart(page) < PageEnd(page, n) <= n
    ensures PageEnd(page, n) - PageStart(page) <= TOOLS_PER_PAGE
  {
  }

  /** Pages follow each other without gap or overlap, from index 0 to n. */
  lemma PagesTile(n: nat)
    requires n >= 1
    ensures PageStart(1) == 0 && PageEnd(TotalPages(n), n) == n
    ensures forall page :: 1 <= page < TotalPages(n) ==> PageEnd(page, n) == PageStart(page + 1)
  {
  }

  /** Each tool index lies on exactly one page. */
  lemma PageOfIndex(n: nat, i: nat)
    requires i < n
    ensures 1 <= i / TOOLS_PER_PAGE + 1 <= TotalPages(n)
    ensures forall page :: 1 <= page <= TotalPages(n) ==>
      (PageStart(page) <= i < PageEnd(page, n) <==> page == i / TOOLS_PER_PAGE + 1)
  {
  }

  /** `filtered_tools[start_idx:end_idx]`. */
  function Page<T>(tools: seq<T>, page: int): seq<T>
    requires |tools| >= 1 && 1 <= page <= TotalPages(|tools|)
  {
    PageBounds(|tools|, page);
    tools[PageStart(page)..PageEnd(page, |tools|)]
  }

  /** The first `k` pages, one after the other. */
  function FirstPages<T>(tools: seq<T>, k: nat): seq<T>
    requires |tools| >= 1 && k <= TotalPages(|tools|)
  {
    if k == 0 then [] else FirstPages(tools, k - 1) + Page(tools, k)
  }

  /** Reading the pages in order gives back the list, each tool once. */
  lemma {:induction false} FirstPagesPrefix<T>(tools: seq<T>, k: nat)
    requires |tools| >= 1 && 1 <= k <= TotalPages(|tools|)
    ensures FirstPages(tools, k) == tools[..PageEnd(k, |tools|)]
  {
    PagesTile(|tools|);
    PageBounds(|tools|, k);
    if k > 1 {
      FirstPagesPrefix(tools, k - 1);
      PageBounds(|tools|, k - 1);
      assert tools[..PageEnd(k - 1, |tools|)] + tools[PageStart(k)..PageEnd(k, |tools|)]
        == tools[..PageEnd(k, |tools|)];
    }
  }

  lemma AllPages<T>(tools: seq<T>)
    requires |tools| >= 1
    ensures FirstPages(tools, TotalPages(|tools|)) == tools
  {
    FirstPagesPrefix(tools, TotalPages(|tools|));
    PagesTile(|tools|);
  }
}
