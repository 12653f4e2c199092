/**
  Field extraction for one tool card of the FutureTools.io listing
  (`FutureToolsScraper._parse_tool_card`).

  The HTML parser is not modelled: a card arrives as the texts and link
  targets the parser would find in it. Extraction follows a first-match-wins
  fallback chain per field and yields a record, or nothing when the card has
  no element to take a name from.
 */
module Extraction {
  import opened Wrappers
  import opened Text
  import opened Seqs

  const BASE_URL := "https://www.futuretools.io"
  /** Separator of the joined `categories` and `pricing` fields. */
  const SEP := ", "
  const UNCATEGORIZED := "Uncategorized"
  const CHECK_TOOL_PAGE := "Check tool page"
  const TOOL_PATH_PREFIX := "/tools/"
  const TAG_MARKER := "?tags="

  /** An anchor inside a card: its `href` attribute, if any, and its stripped text. */
  datatype Link = Link(href: Option<string>, text: string)

  /**
    One card as the parser sees it. All texts are already stripped, except
    `text`, the card's whole text as `get_text()` returns it.
   */
  datatype Card = Card(
    titleLink: Option<string>,       // text of the first anchor whose class names "tool-item-link" but not "tool-item-link-block"
    h3: Option<string>,              // text of the first h3
    h2: Option<string>,              // text of the first h2
    descriptionBox: Option<string>,  // text of the "tool-item-description-box" div
    primaryLabels: seq<string>,      // texts of the "text-block-53" labels in the category list ([] without a list)
    secondaryLabels: seq<string>,    // texts of the "black-text-db-gc" labels in the category list
    links: seq<Link>,                // every anchor of the card, in document order
    text: string)

  /** The scraper's output record, one per successfully parsed card. */
  datatype ToolRecord = ToolRecord(
    name: string,
    description: string,
    categories: string,
    pricing: string,
    url: string,
    scrapedAt: string)

  // ---------------------------------------------------------------- name

  /** The title link, else the first h3, else the first h2. */
  function Name(c: Card): Option<string> {
    if c.titleLink.Some? then c.titleLink
    else if c.h3.Some? then c.h3
    else c.h2
  }

  function Description(c: Card): string {
    if c.descriptionBox.Some? then c.descriptionBox.value else ""
  }

  // ---------------------------------------------------------- categories

  /**
    The loop `if text and text not in excluded and text not in acc: acc.append(text)`
    over `xs`, started from an empty list.
   */
  function Unique(xs: seq<string>, excluded: set<string>): (r: seq<string>)
    ensures forall x :: x in r <==> x in xs && x !in excluded
    ensures forall i, j :: 0 <= i < j < |r| ==> r[i] != r[j]
    decreases |xs|
  {
    if xs == [] then []
    else
      var n := |xs| - 1;
      var acc := Unique(xs[..n], excluded);
      assert xs == xs[..n] + [xs[n]];
      if xs[n] in excluded || xs[n] in acc then acc else acc + [xs[n]]
  }

  /** A list whose every element is excluded contributes nothing. */
  lemma {:induction false} UniqueAllExcluded(xs: seq<string>, excluded: set<string>)
    requires forall k :: 0 <= k < |xs| ==> xs[k] in excluded
    ensures Unique(xs, excluded) == []
    decreases |xs|
  {
    if xs != [] {
      UniqueAllExcluded(xs[..|xs| - 1], excluded);
    }
  }

  /** Unique keeps values in the order in which they are first seen. */
  lemma {:induction false} UniqueFirstSeenOrder(xs: seq<string>, excluded: set<string>)
    ensures forall i, j :: 0 <= i < j < |Unique(xs, excluded)| ==>
      FirstIndex(xs, Unique(xs, excluded)[i]) < FirstIndex(xs, Unique(xs, excluded)[j])
    decreases |xs|
  {
    if xs != [] {
      var n := |xs| - 1;
      var acc, r := Unique(xs[..n], excluded), Unique(xs, excluded);
      UniqueFirstSeenOrder(xs[..n], excluded);
      assert xs == xs[..n] + [xs[n]];
      forall i, j | 0 <= i < j < |r|
        ensures FirstIndex(xs, r[i]) < FirstIndex(xs, r[j])
      {
        assert r[i] == acc[i];
        FirstIndexSnoc(xs[..n], xs[n], acc[i]);
        if j < |acc| {
          assert r[j] == acc[j];
          FirstIndexSnoc(xs[..n], xs[n], acc[j]);
          assert FirstIndex(xs[..n], acc[i]) < FirstIndex(xs[..n], acc[j]);
        } else {
          assert r == acc + [xs[n]];
          assert r[j] == xs[n] && xs[n] !in xs[..n];
          assert FirstIndex(xs, r[j]) == n;
        }
      }
    }
  }

  /** The duplicate and blank labels of a category list are dropped, in first-seen order. */
  lemma UniqueExample()
    ensures Unique(["Chat", "Productivity", "Chat"], {""}) == ["Chat", "Productivity"]
  {
    assert ["Chat", "Productivity", "Chat"][..2] == ["Chat", "Productivity"];
    assert ["Chat", "Productivity"][..1] == ["Chat"];
    assert ["Chat"][..0] == [];
  }

  /** `find_all(text-block-53) or find_all(black-text-db-gc)`: the first variant if it found any label. */
  function ContainerLabels(c: Card): seq<string> {
    if |c.primaryLabels| > 0 then c.primaryLabels else c.secondaryLabels
  }

  predicate IsTagLink(l: Link) {
    l.href.Some? && Contains(l.href.value, TAG_MARKER)
  }

  function Texts(links: seq<Link>): (r: seq<string>)
    ensures |r| == |links| && forall k :: 0 <= k < |r| ==> r[k] == links[k].text
  {
    seq(|links|, k requires 0 <= k < |links| => links[k].text)
  }

  /** Texts of the card's links whose target contains `?tags=`, in document order. */
  function TagTexts(c: Card): seq<string> {
    Texts(Filter(c.links, IsTagLink))
  }

  /** Category labels: the category list's labels, else the tag links' texts. */
  function CategoryLabels(c: Card): seq<string> {
    var fromList := Unique(ContainerLabels(c), {""});
    if fromList != [] then fromList else Unique(TagTexts(c), {"", "category"})
  }

  function CategoriesField(labels: seq<string>): string {
    if labels == [] then UNCATEGORIZED else Join(labels, SEP)
  }

  /**
    The category labels are the non-blank labels of the chosen category-list
    variant; only when there are none, the tag links' texts other than "" and
    "category". Either way without duplicates and in first-seen order.
   */
  lemma CategoryLabelsSpec(c: Card)
    ensures var labels, listed := CategoryLabels(c), ContainerLabels(c);
      (forall x :: x in labels <==>
        if exists y :: y in listed && y != "" then x in listed && x != ""
        else x in TagTexts(c) && x != "" && x != "category") &&
      (forall i, j :: 0 <= i < j < |labels| ==> labels[i] != labels[j])
  {
    var listed := ContainerLabels(c);
    var fromList := Unique(listed, {""});
    if exists y :: y in listed && y != "" {
      var y :| y in listed && y != "";
      assert y in fromList;
    } else {
      assert forall k :: 0 <= k < |listed| ==> listed[k] in {""} by {
        forall k | 0 <= k < |listed| ensures listed[k] in {""} {
          assert listed[k] in listed;
        }
      }
      UniqueAllExcluded(listed, {""});
    }
  }

  /** The categories field is never the empty string. */
  lemma CategoriesFieldNonEmpty(c: Card)
    ensures CategoriesField(CategoryLabels(c)) != ""
  {
    var labels := CategoryLabels(c);
    if labels != [] {
      assert labels[0] in labels;
      JoinHead(labels, SEP);
    }
  }

  /**
    Splitting the categories field on ", " gives back the labels (or the
    sentinel), provided no label contains a comma.
   */
  lemma CategoriesFieldSplits(labels: seq<string>)
    requires forall k :: 0 <= k < |labels| ==> ',' !in labels[k]
    ensures Split(CategoriesField(labels), SEP) == if labels == [] then [UNCATEGORIZED] else labels
  {
    if labels == [] {
      SplitNoSeparator(UNCATEGORIZED, SEP);
    } else {
      SplitJoin(labels, SEP);
    }
  }

  // ------------------------------------------------------------- pricing

  /** Keyword to label, in the order the source's dictionary iterates. */
  const PRICING_KEYWORDS: seq<(string, string)> := [
    ("paid", "Paid"),
    ("free trial", "Free Trial"),
    ("freemium", "Freemium"),
    ("open source", "Open Source"),
    ("github", "GitHub")]

  /** Every label the pricing heuristic can produce. */
  const PRICING_LABELS: set<string> := {"Paid", "Free Trial", "Freemium", "Open Source", "GitHub", "Free"}

  /** The labels appended by the first `n` rounds of the keyword loop over the lower-cased text `t`. */
  function KeywordLabels(t: string, n: nat): seq<string>
    requires n <= |PRICING_KEYWORDS|
  {
    if n == 0 then []
    else
      var acc := KeywordLabels(t, n - 1);
      var keyword := PRICING_KEYWORDS[n - 1].0;
      var shown := PRICING_KEYWORDS[n - 1].1;
      if Contains(t, keyword) && shown !in acc then acc + [shown] else acc
  }

  /** The keyword labels, then "Free" when no keyword matched, "free" occurs and "free trial" does not. */
  function PricingLabels(t: string): seq<string> {
    var found := KeywordLabels(t, |PRICING_KEYWORDS|);
    if found == [] && Contains(t, "free") && !Contains(t, "free trial") then ["Free"] else found
  }

  function PricingField(labels: seq<string>): string {
    if labels == [] then CHECK_TOOL_PAGE else Join(labels, SEP)
  }

  function IfFound(t: string, keyword: string, shown: string): seq<string> {
    if Contains(t, keyword) then [shown] else []
  }

  /**
    The keyword loop yields each label whose keyword occurs, once, in the
    table's fixed order paid, free trial, freemium, open source, github; its
    "label not in pricing" test never rejects anything.
   */
  lemma KeywordLabelsInTableOrder(t: string)
    ensures KeywordLabels(t, 5) ==
      IfFound(t, "paid", "Paid") + IfFound(t, "free trial", "Free Trial") +
      IfFound(t, "freemium", "Freemium") + IfFound(t, "open source", "Open Source") +
      IfFound(t, "github", "GitHub")
  {
    var paid, trial := IfFound(t, "paid", "Paid"), IfFound(t, "free trial", "Free Trial");
    var freemium, open := IfFound(t, "freemium", "Freemium"), IfFound(t, "open source", "Open Source");
    var github := IfFound(t, "github", "GitHub");
    KeywordStep(t, 1);
    assert KeywordLabels(t, 1) == paid;
    KeywordStep(t, 2);
    assert KeywordLabels(t, 2) == paid + trial;
    KeywordStep(t, 3);
    assert KeywordLabels(t, 3) == paid + trial + freemium;
    KeywordStep(t, 4);
    assert KeywordLabels(t, 4) == paid + trial + freemium + open;
    KeywordStep(t, 5);
  }

  /** Only labels of the first `n` table rows are appended by the first `n` rounds. */
  lemma {:induction false} KeywordLabelsFrom(t: string, n: nat)
    requires n <= |PRICING_KEYWORDS|
    ensures forall l :: l in KeywordLabels(t, n) ==> exists k :: 0 <= k < n && l == PRICING_KEYWORDS[k].1
  {
    if n > 0 {
      KeywordLabelsFrom(t, n - 1);
    }
  }

  /** The table's labels are pairwise different and all in the vocabulary. */
  lemma TableLabels()
    ensures forall j, k :: 0 <= j < k < |PRICING_KEYWORDS| ==> PRICING_KEYWORDS[j].1 != PRICING_KEYWORDS[k].1
    ensures forall k :: 0 <= k < |PRICING_KEYWORDS| ==> PRICING_KEYWORDS[k].1 in PRICING_LABELS
  {
  }

  /** Round `n` appends its label exactly when its keyword occurs: no earlier round produced that label. */
  lemma KeywordStep(t: string, n: nat)
    requires 1 <= n <= |PRICING_KEYWORDS|
    ensures KeywordLabels(t, n) ==
      KeywordLabels(t, n - 1) + IfFound(t, PRICING_KEYWORDS[n - 1].0, PRICING_KEYWORDS[n - 1].1)
  {
    KeywordLabelsFrom(t, n - 1);
    TableLabels();
  }

  /** After `n` rounds, row `k`'s label is present iff `k < n` and its keyword occurs. */
  lemma {:induction false} KeywordLabelIff(t: string, n: nat, k: nat)
    requires n <= |PRICING_KEYWORDS| && k < |PRICING_KEYWORDS|
    ensures PRICING_KEYWORDS[k].1 in KeywordLabels(t, n) <==> k < n && Contains(t, PRICING_KEYWORDS[k].0)
  {
    if n > 0 {
      KeywordLabelIff(t, n - 1, k);
      KeywordStep(t, n);
      TableLabels();
    }
  }

  /** After `n` rounds the labels are distinct table labels. */
  lemma {:induction false} KeywordLabelsDistinct(t: string, n: nat)
    requires n <= |PRICING_KEYWORDS|
    ensures forall l :: l in KeywordLabels(t, n) ==> l in PRICING_LABELS - {"Free"}
    ensures forall i, j :: 0 <= i < j < |KeywordLabels(t, n)| ==> KeywordLabels(t, n)[i] != KeywordLabels(t, n)[j]
  {
    if n > 0 {
      KeywordLabelsDistinct(t, n - 1);
      KeywordLabelsFrom(t, n);
      TableLabels();
    }
  }

  /** No label comes out of the keyword loop iff no keyword occurs. */
  lemma NoKeywordNoLabel(t: string)
    ensures KeywordLabels(t, |PRICING_KEYWORDS|) == [] <==>
      forall k :: 0 <= k < |PRICING_KEYWORDS| ==> !Contains(t, PRICING_KEYWORDS[k].0)
  {
    var found := KeywordLabels(t, |PRICING_KEYWORDS|);
    forall k | 0 <= k < |PRICING_KEYWORDS|
      ensures PRICING_KEYWORDS[k].1 in found <==> Contains(t, PRICING_KEYWORDS[k].0)
    {
      KeywordLabelIff(t, |PRICING_KEYWORDS|, k);
    }
    KeywordLabelsFrom(t, |PRICING_KEYWORDS|);
    if found != [] {
      assert found[0] in found;
    }
  }

  /** Every pricing label has a first character other than 'C' and no comma. */
  lemma PricingLabelShape(l: string)
    requires l in PRICING_LABELS
    ensures |l| > 0 && l[0] != 'C' && ',' !in l
  {
  }

  /** A keyword's label is among the pricing labels iff the keyword occurs in the lower-cased text. */
  lemma PricingLabelIff(t: string, k: nat)
    requires k < |PRICING_KEYWORDS|
    ensures PRICING_KEYWORDS[k].1 in PricingLabels(t) <==> Contains(t, PRICING_KEYWORDS[k].0)
  {
    KeywordLabelIff(t, |PRICING_KEYWORDS|, k);
    TableLabels();
  }

  /**
    "Free" is among the pricing labels iff "free" occurs and no keyword does,
    and then it is the only label.
   */
  lemma FreeRule(t: string)
    ensures "Free" in PricingLabels(t) <==>
      Contains(t, "free") && forall k :: 0 <= k < |PRICING_KEYWORDS| ==> !Contains(t, PRICING_KEYWORDS[k].0)
    ensures "Free" in PricingLabels(t) ==> PricingLabels(t) == ["Free"]
  {
    NoKeywordNoLabel(t);
    KeywordLabelsDistinct(t, |PRICING_KEYWORDS|);
    if KeywordLabels(t, |PRICING_KEYWORDS|) == [] {
      FreeGuardRedundant(t);
    }
  }

  /** The pricing labels come from the fixed vocabulary, each at most once. */
  lemma PricingLabelsDistinct(t: string)
    ensures forall l :: l in PricingLabels(t) ==> l in PRICING_LABELS
    ensures forall i, j :: 0 <= i < j < |PricingLabels(t)| ==> PricingLabels(t)[i] != PricingLabels(t)[j]
  {
    KeywordLabelsDistinct(t, |PRICING_KEYWORDS|);
  }

  /**
    The guard "free trial not in text" of the Free rule is implied by "no
    keyword matched", since "free trial" is itself a keyword.
   */
  lemma FreeGuardRedundant(t: string)
    requires KeywordLabels(t, |PRICING_KEYWORDS|) == []
    ensures !Contains(t, "free trial")
  {
    KeywordLabelIff(t, |PRICING_KEYWORDS|, 1);
  }

  /** With "freemium" and "free trial" but no other keyword, the labels come in table order. */
  lemma FreemiumAndFreeTrial(t: string)
    requires Contains(t, "freemium") && Contains(t, "free trial")
    requires !Contains(t, "paid") && !Contains(t, "open source") && !Contains(t, "github")
    ensures PricingField(PricingLabels(t)) == "Free Trial, Freemium"
  {
    KeywordLabelsInTableOrder(t);
    assert PricingLabels(t) == ["Free Trial"] + ["Freemium"];
    JoinCons("Free Trial", ["Freemium"], SEP);
  }

  /** "free" alone, with no keyword, gives the single label Free. */
  lemma FreeAlone(t: string)
    requires Contains(t, "free")
    requires forall k :: 0 <= k < |PRICING_KEYWORDS| ==> !Contains(t, PRICING_KEYWORDS[k].0)
    ensures PricingField(PricingLabels(t)) == "Free"
  {
    NoKeywordNoLabel(t);
    FreeGuardRedundant(t);
  }

  /**
    The pricing field is never empty; it is the sentinel exactly when no label
    was found, and splitting it on ", " gives back the labels.
   */
  lemma PricingFieldSpec(t: string)
    ensures var labels := PricingLabels(t);
      var field := PricingField(labels);
      field != "" &&
      (field == CHECK_TOOL_PAGE <==> labels == []) &&
      Split(field, SEP) == if labels == [] then [CHECK_TOOL_PAGE] else labels
  {
    var labels := PricingLabels(t);
    PricingLabelsDistinct(t);
    if labels == [] {
      SplitNoSeparator(CHECK_TOOL_PAGE, SEP);
    } else {
      assert labels[0] in labels;
      PricingLabelShape(labels[0]);
      JoinHead(labels, SEP);
      assert PricingField(labels)[0] != CHECK_TOOL_PAGE[0];
      forall k | 0 <= k < |labels| ensures ',' !in labels[k] {
        assert labels[k] in labels;
        PricingLabelShape(labels[k]);
      }
      SplitJoin(labels, SEP);
    }
  }

  // ----------------------------------------------------------------- url

  predicate IsToolLink(l: Link) {
    l.href.Some? && StartsWith(l.href.value, TOOL_PATH_PREFIX)
  }

  /** `card.find("a", href=lambda x: x and x.startswith("/tools/"))`: the first link into the tool pages. */
  function FirstToolLink(links: seq<Link>): (r: Option<nat>)
    ensures r.Some? ==> r.value < |links| && IsToolLink(links[r.value])
    ensures r.Some? ==> forall j :: 0 <= j < r.value ==> !IsToolLink(links[j])
    ensures r.None? <==> forall j :: 0 <= j < |links| ==> !IsToolLink(links[j])
    decreases |links|
  {
    if links == [] then None
    else if IsToolLink(links[0]) then Some(0)
    else
      match FirstToolLink(links[1..])
      case None => None
      case Some(i) => Some(i + 1)
  }

  function Url(c: Card): string {
    match FirstToolLink(c.links)
    case None => ""
    case Some(i) => BASE_URL + c.links[i].href.value
  }

  /** The url is "" exactly when no link targets a tool page; otherwise it is the site origin followed by the href of the first link to a "/tools/" path. */
  lemma UrlSpec(c: Card)
    ensures Url(c) == "" <==> forall j :: 0 <= j < |c.links| ==> !IsToolLink(c.links[j])
    ensures Url(c) != "" ==> StartsWith(Url(c), BASE_URL + TOOL_PATH_PREFIX)
    ensures Url(c) != "" ==>
      (exists i :: 0 <= i < |c.links| && IsToolLink(c.links[i]) &&
        (forall j :: 0 <= j < i ==> !IsToolLink(c.links[j])) && Url(c) == BASE_URL + c.links[i].href.value)
  {
    match FirstToolLink(c.links)
    case None =>
    case Some(i) =>
      var h := c.links[i].href.value;
      assert (BASE_URL + h)[..|BASE_URL + TOOL_PATH_PREFIX|] == BASE_URL + h[..|TOOL_PATH_PREFIX|];
  }

  // -------------------------------------------------------------- record

  /** The record for a card, stamped `scrapedAt`; nothing when the card has no name element. */
  function Extract(c: Card, scrapedAt: string): Option<ToolRecord> {
    match Name(c)
    case None => None
    case Some(name) =>
      Some(ToolRecord(name, Description(c), CategoriesField(CategoryLabels(c)),
        PricingField(PricingLabels(Lower(c.text))), Url(c), scrapedAt))
  }

  /**
    A card yields no record iff it has no title link, no h3 and no h2; a
    record's categories and pricing are never empty, its description is ""
    without a description box, and it carries the given time stamp.
   */
  lemma ExtractSpec(c: Card, scrapedAt: string)
    ensures Extract(c, scrapedAt).None? <==> c.titleLink.None? && c.h3.None? && c.h2.None?
    ensures Extract(c, scrapedAt).Some? ==>
      var r := Extract(c, scrapedAt).value;
      r.name == Name(c).value &&
      (c.descriptionBox.None? ==> r.description == "") &&
      r.categories != "" && r.pricing != "" &&
      r.scrapedAt == scrapedAt
  {
    CategoriesFieldNonEmpty(c);
    PricingFieldSpec(Lower(c.text));
  }

  /** The name is never checked for emptiness: a title link with empty text gives a record named "". */
  lemma EmptyNameKept(c: Card, scrapedAt: string)
    requires c.titleLink == Some("")
    ensures Extract(c, scrapedAt).Some? && Extract(c, scrapedAt).value.name == ""
  {
  }

  /** The category loops of `_parse_tool_card`: list labels first, tag links only when those gave nothing. */
  method CollectCategories(card: Card) returns (categories: seq<string>)
    ensures categories == CategoryLabels(card)
  {
    categories := [];
    var categoryDivs := ContainerLabels(card);
    for i := 0 to |categoryDivs|
      invariant categories == Unique(categoryDivs[..i], {""})
    {
      assert categoryDivs[..i + 1][..i] == categoryDivs[..i];
      var catText := categoryDivs[i];
      if catText != "" && catText !in categories {
        categories := categories + [catText];
      }
    }
    assert categoryDivs[..|categoryDivs|] == categoryDivs;
    if categories == [] {
      var linkTexts := TagTexts(card);
      for i := 0 to |linkTexts|
        invariant categories == Unique(linkTexts[..i], {"", "category"})
      {
        assert linkTexts[..i + 1][..i] == linkTexts[..i];
        var catText := linkTexts[i];
        if catText != "" && catText != "category" && catText !in categories {
          categories := categories + [catText];
        }
      }
      assert linkTexts[..|linkTexts|] == linkTexts;
    }
  }

  /** The pricing loop of `_parse_tool_card` over the lower-cased card text, then the Free rule. */
  method DetectPricing(allText: string) returns (pricing: seq<string>)
    ensures pricing == PricingLabels(allText)
  {
    pricing := [];
    for i := 0 to |PRICING_KEYWORDS|
      invariant pricing == KeywordLabels(allText, i)
    {
      var keyword := PRICING_KEYWORDS[i].0;
      var shown := PRICING_KEYWORDS[i].1;
      if Contains(allText, keyword) && shown !in pricing {
        pricing := pricing + [shown];
      }
    }
    if pricing == [] && Contains(allText, "free") && !Contains(allText, "free trial") {
      pricing := pricing + ["Free"];
    }
  }

  /** `_parse_tool_card`: the name, description and url chains around the two loops. */
  method ParseToolCard(card: Card, scrapedAt: string) returns (r: Option<ToolRecord>)
    ensures r == Extract(card, scrapedAt)
  {
    var name: string;
    if card.titleLink.Some? {
      name := card.titleLink.value;
    } else if card.h3.Some? {
      name := card.h3.value;
    } else if card.h2.Some? {
      name := card.h2.value;
    } else {
      return None;
    }
    var description := if card.descriptionBox.Some? then card.descriptionBox.value else "";
    var categories := CollectCategories(card);
    var categoriesField := if categories != [] then Join(categories, SEP) else UNCATEGORIZED;
    var pricing := DetectPricing(Lower(card.text));
    var pricingField := if pricing != [] then Join(pricing, SEP) else CHECK_TOOL_PAGE;
    var url := "";
    var linkElem := FirstToolLink(card.links);
    if linkElem.Some? {
      url := BASE_URL + card.links[linkElem.value].href.value;
    }
    r := Some(ToolRecord(name, description, categoriesField, pricingField, url, scrapedAt));
  }
}
