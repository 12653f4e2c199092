/**
  The scraper object (`FutureToolsScraper`): its browser-session field, the
  scroll-until-stable loop, and the three scrape entry points with their
  post-hoc category/pricing filter.
 */
module Scraper {
  import opened Wrappers
  import opened Text
  import opened Seqs
  import opened Extraction
  import opened Locator
  import opened Browser

  /** The site's category vocabulary, in the source's order. */
  const CATEGORIES: seq<string> := [
    "AI Detection", "Aggregators", "Automation & Agents", "Avatar", "Chat",
    "Copywriting", "Finance", "For Fun", "Gaming", "Generative Art",
    "Generative Code", "Generative Video", "Image Improvement", "Image Scanning",
    "Inspiration", "Marketing", "Motion Capture", "Music", "Podcasting",
    "Productivity", "Prompt Guides", "Research", "Self-Improvement",
    "Social Media", "Speech-To-Text", "Text-To-Speech", "Translation",
    "Video Editing", "Voice Modulation"]

  /** Scroll budgets: `scrape_newly_added` passes 10, the other two use the default 100. */
  const NEWLY_ADDED_SCROLLS := 10
  const DEFAULT_SCROLLS := 100

  /** Everything the browser and the site do during one scrape. */
  datatype Site = Site(
    browserStarts: bool,               // false: creating the browser session raises
    pageLoads: bool,                   // false: navigating to the listing raises
    height: nat -> int,                // the height oracle of the session
    control: nat -> Control,           // the load-more oracle of the session
    render: ScrollState -> Document)   // the parsed page, once scrolling ended in the given state

  /** The records of the cards with a name, in card order; card `i` is stamped `clock(i)`. */
  function ParseAll(cards: seq<Card>, clock: nat -> string): seq<ToolRecord>
    decreases |cards|
  {
    if cards == [] then []
    else
      var n := |cards| - 1;
      ParseAll(cards[..n], clock) + match Extract(cards[n], clock(n)) { case None => [] case Some(r) => [r] }
  }

  /** Every parsed record is the extraction of one of the cards, and there are at most as many as cards. */
  lemma {:induction false} ParseAllSpec(cards: seq<Card>, clock: nat -> string)
    ensures |ParseAll(cards, clock)| <= |cards|
    ensures forall r :: r in ParseAll(cards, clock) ==>
      exists i :: 0 <= i < |cards| && Extract(cards[i], clock(i)) == Some(r)
    decreases |cards|
  {
    if cards != [] {
      var n := |cards| - 1;
      ParseAllSpec(cards[..n], clock);
      forall r | r in ParseAll(cards, clock)
        ensures exists i :: 0 <= i < |cards| && Extract(cards[i], clock(i)) == Some(r)
      {
        if r in ParseAll(cards[..n], clock) {
          var i :| 0 <= i < n && Extract(cards[..n][i], clock(i)) == Some(r);
          assert cards[..n][i] == cards[i];
        } else {
          assert Extract(cards[n], clock(n)) == Some(r);
        }
      }
    }
  }

  /** The records of the first `k` cards come first, in the same order. */
  lemma {:induction false} ParseAllPrefix(cards: seq<Card>, clock: nat -> string, k: nat)
    requires k <= |cards|
    ensures |ParseAll(cards[..k], clock)| <= |ParseAll(cards, clock)|
    ensures ParseAll(cards, clock)[..|ParseAll(cards[..k], clock)|] == ParseAll(cards[..k], clock)
    decreases |cards|
  {
    if k == |cards| {
      assert cards[..k] == cards;
    } else {
      var n := |cards| - 1;
      ParseAllPrefix(cards[..n], clock, k);
      assert cards[..n][..k] == cards[..k];
      var front := ParseAll(cards[..n], clock);
      assert ParseAll(cards, clock)[..|front|] == front;
    }
  }

  /** Where card `i`'s record lands: after the records of the cards before it. */
  function Position(cards: seq<Card>, clock: nat -> string, i: nat): nat
    requires i <= |cards|
  {
    |ParseAll(cards[..i], clock)|
  }

  /** Adding card `i` adds its record, if it has one, and nothing else. */
  lemma ParseAllStep(cards: seq<Card>, clock: nat -> string, i: nat)
    requires i < |cards|
    ensures Extract(cards[i], clock(i)).None? ==>
      ParseAll(cards[..i + 1], clock) == ParseAll(cards[..i], clock)
    ensures Extract(cards[i], clock(i)).Some? ==>
      ParseAll(cards[..i + 1], clock) == ParseAll(cards[..i], clock) + [Extract(cards[i], clock(i)).value]
  {
    var upto := cards[..i + 1];
    assert upto[..i] == cards[..i];
    assert upto[i] == cards[i];
  }

  /** Every card with a name contributes its own record, at its position. */
  lemma ParseAllComplete(cards: seq<Card>, clock: nat -> string, i: nat)
    requires i < |cards|
    ensures Extract(cards[i], clock(i)).Some? ==>
      Position(cards, clock, i) < |ParseAll(cards, clock)| &&
      ParseAll(cards, clock)[Position(cards, clock, i)] == Extract(cards[i], clock(i)).value
  {
    var before := ParseAll(cards[..i], clock);
    var upto := ParseAll(cards[..i + 1], clock);
    ParseAllStep(cards, clock, i);
    ParseAllPrefix(cards, clock, i + 1);
    if Extract(cards[i], clock(i)).Some? {
      assert upto[|before|] == Extract(cards[i], clock(i)).value;
      assert ParseAll(cards, clock)[..|upto|][|before|] == upto[|before|];
    }
  }

  /** Records keep the order of their cards: a later card's record comes after. */
  lemma ParseAllOrder(cards: seq<Card>, clock: nat -> string, i: nat, j: nat)
    requires i < j <= |cards|
    ensures Position(cards, clock, i) <= Position(cards, clock, j)
    ensures Extract(cards[i], clock(i)).Some? ==> Position(cards, clock, i) < Position(cards, clock, j)
  {
    ParseAllStep(cards, clock, i);
    ParseAllPrefix(cards[..j], clock, i + 1);
    assert cards[..j][..i + 1] == cards[..i + 1];
  }

  /** What any scrape method returns before filtering: nothing if the session or the page failed. */
  function Scraped(site: Site, maxScrolls: int, clock: nat -> string): seq<ToolRecord> {
    if !site.browserStarts || !site.pageLoads then []
    else
      var final := Run(site.height, site.control, maxScrolls, Start(site.height, 0, 0, 0));
      ParseAll(LocateCards(site.render(final)), clock)
  }

  /** A page on which no card is located scrapes to the empty sequence. */
  lemma NoCardsNoRecords(site: Site, maxScrolls: int, clock: nat -> string)
    requires site.browserStarts && site.pageLoads
    requires var d := site.render(Run(site.height, site.control, maxScrolls, Start(site.height, 0, 0, 0)));
      d.dynItems == [] && d.toolCards == [] && d.toolItems == [] && d.collectionItems == [] && d.articles == []
    ensures Scraped(site, maxScrolls, clock) == []
  {
  }

  // -------------------------------------------------------------- filter

  /** `categories is None` means every category; the filter then does not apply. */
  function RequestedCategories(categories: Option<seq<string>>): seq<string> {
    if categories.None? then CATEGORIES else categories.value
  }

  function RequestedPricing(pricingFilters: Option<seq<string>>): seq<string> {
    if pricingFilters.None? then [] else pricingFilters.value
  }

  /** Python's `any(x in ys for x in xs)`. */
  predicate AnyIn(xs: seq<string>, ys: seq<string>) {
    exists x :: x in xs && x in ys
  }

  /** `categories and categories != self.CATEGORIES`. */
  predicate CategoryTestApplies(categories: seq<string>) {
    categories != [] && categories != CATEGORIES
  }

  /** The two tests of `scrape_by_category`'s loop, on the ", "-split fields. */
  predicate KeepRecord(r: ToolRecord, categories: seq<string>, pricingFilters: seq<string>) {
    (CategoryTestApplies(categories) ==> AnyIn(Split(r.categories, SEP), categories)) &&
    (pricingFilters != [] ==> AnyIn(Split(r.pricing, SEP), pricingFilters))
  }

  function Keep(categories: seq<string>, pricingFilters: seq<string>): ToolRecord -> bool {
    r => KeepRecord(r, categories, pricingFilters)
  }

  function FilterRecords(records: seq<ToolRecord>, categories: seq<string>, pricingFilters: seq<string>): seq<ToolRecord> {
    Filter(records, Keep(categories, pricingFilters))
  }

  /**
    The filtered records are the parsed records that pass both tests, in their
    original order; with no active test nothing is dropped.
   */
  lemma FilterRecordsSpec(records: seq<ToolRecord>, categories: seq<string>, pricingFilters: seq<string>)
    ensures var kept := FilterRecords(records, categories, pricingFilters);
      SubsequenceOf(kept, records) &&
      (forall r :: r in kept <==> r in records && KeepRecord(r, categories, pricingFilters)) &&
      (!CategoryTestApplies(categories) && pricingFilters == [] ==> kept == records)
  {
    FilterIsSubsequence(records, Keep(categories, pricingFilters));
    FilterMembers(records, Keep(categories, pricingFilters));
    if !CategoryTestApplies(categories) && pricingFilters == [] {
      FilterAll(records, Keep(categories, pricingFilters));
    }
  }

  /**
    On an extracted record the pricing test reads the detected labels: it
    passes iff some label was requested, or, with no label, iff the sentinel
    "Check tool page" was requested.
   */
  lemma PricingTestOnLabels(c: Card, scrapedAt: string, pricingFilters: seq<string>)
    requires Extract(c, scrapedAt).Some?
    ensures var labels := PricingLabels(Lower(c.text));
      AnyIn(Split(Extract(c, scrapedAt).value.pricing, SEP), pricingFilters) <==>
      if labels == [] then CHECK_TOOL_PAGE in pricingFilters else AnyIn(labels, pricingFilters)
  {
    PricingFieldSpec(Lower(c.text));
  }

  // -------------------------------------------------------------- scraper

  class FutureToolsScraper {
    const headless: bool
    var driver: Driver?

    constructor (headless: bool)
      ensures this.headless == headless && driver == null
    {
      this.headless := headless;
      driver := null;
    }

    /** `_setup_driver`: a fresh session, or the exception when the browser does not start (`ok` false). */
    method SetupDriver(site: Site) returns (ok: bool)
      modifies this
      ensures ok == site.browserStarts
      ensures ok ==> (driver != null && fresh(driver) &&
                      driver.height == site.height && driver.control == site.control &&
                      driver.heightReads == 0 && driver.lookups == 0 && driver.clicks == 0 && !driver.quit)
      ensures !ok ==> driver == old(driver)
    {
      ok := site.browserStarts;
      if ok {
        driver := new Driver(site.height, site.control);
      }
    }

    /** `_close_driver`: quit and forget the session; nothing when there is none. */
    method CloseDriver()
      modifies this, driver
      ensures driver == null
      ensures old(driver) != null ==> (old(driver).quit &&
                                       old(driver).heightReads == old(driver.heightReads) &&
                                       old(driver).lookups == old(driver.lookups) &&
                                       old(driver).clicks == old(driver.clicks))
      ensures old(driver) == null ==> unchanged(this)
    {
      if driver != null {
        driver.Quit();
        driver := null;
      }
    }

    /** `_scroll_to_load_all`: the loop, proved to follow Run from the first height read. */
    method ScrollToLoadAll(maxScrolls: int) returns (final: ScrollState)
      requires driver != null
      modifies driver
      ensures final == Run(driver.height, driver.control, maxScrolls,
        Start(driver.height, old(driver.heightReads), old(driver.lookups), old(driver.clicks)))
      ensures driver.heightReads == final.heightReads && driver.lookups == final.lookups
      ensures driver.clicks == final.clicks && driver.quit == old(driver.quit)
    {
      var d := driver;
      ghost var h, ctl := d.height, d.control;
      ghost var start := Start(h, d.heightReads, d.lookups, d.clicks);
      var lastHeight := d.ReadHeight();
      var scrolls: nat := 0;
      var noChangeCount: nat := 0;
      while scrolls < maxScrolls
        invariant d.height == h && d.control == ctl && d.quit == old(d.quit)
        invariant noChangeCount < 3
        invariant Run(h, ctl, maxScrolls, ScrollState(scrolls, noChangeCount, lastHeight, d.heightReads, d.lookups, d.clicks))
          == Run(h, ctl, maxScrolls, start)
        decreases maxScrolls - scrolls
      {
        ghost var before := ScrollState(scrolls, noChangeCount, lastHeight, d.heightReads, d.lookups, d.clicks);
        var newHeight := d.ReadHeight();
        if newHeight == lastHeight {
          noChangeCount := noChangeCount + 1;
          if noChangeCount >= 3 {
            var loadMore := d.FindLoadMore();
            if loadMore == Visible {
              d.Click();
              newHeight := d.ReadHeight();
              noChangeCount := 0;
            } else {
              assert Step(h, ctl, before) ==
                Stop(ScrollState(scrolls, noChangeCount, lastHeight, d.heightReads, d.lookups, d.clicks));
              break;
            }
          }
        } else {
          noChangeCount := 0;
        }
        lastHeight := newHeight;
        scrolls := scrolls + 1;
        assert Step(h, ctl, before) ==
          Continue(ScrollState(scrolls, noChangeCount, lastHeight, d.heightReads, d.lookups, d.clicks));
      }
      final := ScrollState(scrolls, noChangeCount, lastHeight, d.heightReads, d.lookups, d.clicks);
    }

    /** The `for card in tool_cards` loop of `scrape_newly_added` and `scrape_all_tools`. */
    method ParseCards(cards: seq<Card>, clock: nat -> string) returns (tools: seq<ToolRecord>)
      ensures tools == ParseAll(cards, clock)
    {
      tools := [];
      for i := 0 to |cards|
        invariant tools == ParseAll(cards[..i], clock)
      {
        assert cards[..i + 1][..i] == cards[..i];
        var toolData := ParseToolCard(cards[i], clock(i));
        if toolData.Some? {
          tools := tools + [toolData.value];
        }
      }
      assert cards[..|cards|] == cards;
    }

    /**
      Session setup, navigation and scrolling, then the located cards; none
      when setup or navigation raises.
     */
    method LoadCards(site: Site, maxScrolls: int) returns (cards: Option<seq<Card>>, ghost session: Driver?)
      modifies this
      ensures cards.None? <==> !site.browserStarts || !site.pageLoads
      ensures cards.Some? ==>
        cards.value == LocateCards(site.render(Run(site.height, site.control, maxScrolls, Start(site.height, 0, 0, 0))))
      ensures !site.browserStarts ==> session == null && driver == old(driver)
      ensures site.browserStarts ==> session != null && fresh(session) && driver == session && !session.quit
    {
      var ok := SetupDriver(site);
      session := if ok then driver else null;
      if !ok || !site.pageLoads {
        cards := None;
        return;
      }
      var final := ScrollToLoadAll(maxScrolls);
      cards := Some(LocateCards(site.render(final)));
    }

    /**
      `scrape_newly_added`: short budget, every parsed record. The `finally`
      block quits the session it opened, or the one left in the field when
      setup raised, and clears the field. A session already in the field when
      setup succeeds is overwritten and never quit.
     */
    method ScrapeNewlyAdded(site: Site, clock: nat -> string) returns (tools: seq<ToolRecord>, ghost session: Driver?)
      modifies this, driver
      ensures tools == Scraped(site, NEWLY_ADDED_SCROLLS, clock)
      ensures driver == null
      ensures site.browserStarts ==> session != null && fresh(session) && session.quit
      ensures !site.browserStarts && old(driver) != null ==> old(driver).quit
      ensures site.browserStarts && old(driver) != null ==> unchanged(old(driver))
    {
      tools := [];
      var cards;
      cards, session := LoadCards(site, NEWLY_ADDED_SCROLLS);
      if cards.Some? {
        tools := ParseCards(cards.value, clock);
      }
      CloseDriver();
    }

    /**
      `scrape_all_tools`: default budget, every parsed record. The session is
      quit and the field cleared, as in `ScrapeNewlyAdded`.
     */
    method ScrapeAllTools(site: Site, clock: nat -> string) returns (allTools: seq<ToolRecord>, ghost session: Driver?)
      modifies this, driver
      ensures allTools == Scraped(site, DEFAULT_SCROLLS, clock)
      ensures driver == null
      ensures site.browserStarts ==> session != null && fresh(session) && session.quit
      ensures !site.browserStarts && old(driver) != null ==> old(driver).quit
      ensures site.browserStarts && old(driver) != null ==> unchanged(old(driver))
    {
      allTools := [];
      var cards;
      cards, session := LoadCards(site, DEFAULT_SCROLLS);
      if cards.Some? {
        allTools := ParseCards(cards.value, clock);
      }
      CloseDriver();
    }

    /** The two `continue` tests of `scrape_by_category`'s loop, on one record. */
    method PassesFilters(t: ToolRecord, cats: seq<string>, prices: seq<string>) returns (keep: bool)
      ensures keep == KeepRecord(t, cats, prices)
    {
      if cats != [] && cats != CATEGORIES {
        var toolCategories := Split(t.categories, SEP);
        if !AnyIn(toolCategories, cats) {
          return false;
        }
      }
      if prices != [] {
        var toolPricing := Split(t.pricing, SEP);
        if !AnyIn(toolPricing, prices) {
          return false;
        }
      }
      return true;
    }

    /** The loop of `scrape_by_category`: parse each card, keep the records that pass both tests. */
    method ParseAndFilter(cards: seq<Card>, cats: seq<string>, prices: seq<string>, clock: nat -> string)
      returns (allTools: seq<ToolRecord>)
      ensures allTools == FilterRecords(ParseAll(cards, clock), cats, prices)
    {
      allTools := [];
      for i := 0 to |cards|
        invariant allTools == FilterRecords(ParseAll(cards[..i], clock), cats, prices)
      {
        assert cards[..i + 1][..i] == cards[..i];
        var toolData := ParseToolCard(cards[i], clock(i));
        if toolData.Some? {
          var t := toolData.value;
          assert ParseAll(cards[..i + 1], clock) == ParseAll(cards[..i], clock) + [t];
          FilterSnoc(ParseAll(cards[..i], clock), t, Keep(cats, prices));
          var keep := PassesFilters(t, cats, prices);
          if keep {
            allTools := allTools + [t];
          }
        } else {
          assert ParseAll(cards[..i + 1], clock) == ParseAll(cards[..i], clock);
        }
      }
      assert cards[..|cards|] == cards;
    }

    /**
      `scrape_by_category`: default budget, then a record is kept only if it
      passes the category and pricing tests. The session is quit and the field
      cleared, as in `ScrapeNewlyAdded`.
     */
    method ScrapeByCategory(site: Site, categories: Option<seq<string>>, pricingFilters: Option<seq<string>>,
                            clock: nat -> string) returns (allTools: seq<ToolRecord>, ghost session: Driver?)
      modifies this, driver
      ensures allTools == FilterRecords(Scraped(site, DEFAULT_SCROLLS, clock),
                                        RequestedCategories(categories), RequestedPricing(pricingFilters))
      ensures driver == null
      ensures site.browserStarts ==> session != null && fresh(session) && session.quit
      ensures !site.browserStarts && old(driver) != null ==> old(driver).quit
      ensures site.browserStarts && old(driver) != null ==> unchanged(old(driver))
    {
      var cats := RequestedCategories(categories);
      var prices := RequestedPricing(pricingFilters);
      allTools := [];
      var found;
      found, session := LoadCards(site, DEFAULT_SCROLLS);
      if found.Some? {
        allTools := ParseAndFilter(found.value, cats, prices, clock);
      }
      CloseDriver();
    }
  }
}
