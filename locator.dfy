/**
  The card locator of the three scrape methods: an `or` chain over five
  `find_all` queries, taking the first one that found anything.
 */
module Locator {
  import opened Extraction

  /** The five candidate card lists of a rendered page, in the order they are tried. */
  datatype Document = Document(
    dynItems: seq<Card>,         // divs whose class names both "tool" and "w-dyn-item"
    toolCards: seq<Card>,        // divs of class "tool-card"
    toolItems: seq<Card>,        // divs of class "tool-item"
    collectionItems: seq<Card>,  // divs of class "collection-item"
    articles: seq<Card>)         // article elements

  function Candidates(d: Document): seq<seq<Card>> {
    [d.dynItems, d.toolCards, d.toolItems, d.collectionItems, d.articles]
  }

  /** Python's `a or b or ...` over lists: the first non-empty one, else the empty list. */
  function FirstNonEmpty<T>(candidates: seq<seq<T>>): (r: seq<T>)
    ensures r == [] <==> forall i :: 0 <= i < |candidates| ==> candidates[i] == []
    ensures r != [] ==>
      exists i :: 0 <= i < |candidates| && r == candidates[i] && (forall j :: 0 <= j < i ==> candidates[j] == [])
    decreases |candidates|
  {
    if candidates == [] then []
    else if candidates[0] != [] then candidates[0]
    else
      var r := FirstNonEmpty(candidates[1..]);
      assert forall i :: 1 <= i < |candidates| ==> candidates[i] == candidates[1..][i - 1];
      r
  }

  /**
    The cards of a page: empty iff all five queries are empty; otherwise
    exactly one query's list (never a merge), every query before it empty.
   */
  function LocateCards(d: Document): (cards: seq<Card>)
    ensures cards == [] <==>
      d.dynItems == [] && d.toolCards == [] && d.toolItems == [] && d.collectionItems == [] && d.articles == []
    ensures cards != [] ==>
      cards == d.dynItems ||
      (d.dynItems == [] && cards == d.toolCards) ||
      (d.dynItems == [] && d.toolCards == [] && cards == d.toolItems) ||
      (d.dynItems == [] && d.toolCards == [] && d.toolItems == [] && cards == d.collectionItems) ||
      (d.dynItems == [] && d.toolCards == [] && d.toolItems == [] && d.collectionItems == [] && cards == d.articles)
  {
    var cs := Candidates(d);
    var r := FirstNonEmpty(cs);
    assert cs[0] == d.dynItems && cs[1] == d.toolCards && cs[2] == d.toolItems;
    assert cs[3] == d.collectionItems && cs[4] == d.articles;
    r
  }
}
