/**
  The browser as the scroll loop sees it, and the loop's specification.

  The browser is an oracle: the k-th read of the page's scroll height
  returns `height(k)`, the k-th lookup of a "Next Page"/"Load More" control
  returns `control(k)`. Scrolling the window and waiting are folded into the
  height oracle.
 */
module Browser {

  /** What one lookup of the load-more control finds. */
  datatype Control =
    | Missing   // no matching element
    | Hidden    // an element, not displayed
    | Visible   // a displayed element, which is clicked
    | Fails     // the lookup raised

  /** A browser session (the source's WebDriver), counting the oracle calls made so far. */
  class Driver {
    const height: nat -> int
    const control: nat -> Control
    var heightReads: nat
    var lookups: nat
    var clicks: nat
    var quit: bool

    constructor (height: nat -> int, control: nat -> Control)
      ensures this.height == height && this.control == control
      ensures heightReads == 0 && lookups == 0 && clicks == 0 && !quit
    {
      this.height, this.control := height, control;
      heightReads, lookups, clicks, quit := 0, 0, 0, false;
    }

    /** `execute_script("return document.body.scrollHeight")`. */
    method ReadHeight() returns (h: int)
      modifies this
      ensures h == height(old(heightReads)) && heightReads == old(heightReads) + 1
      ensures lookups == old(lookups) && clicks == old(clicks) && quit == old(quit)
    {
      h := height(heightReads);
      heightReads := heightReads + 1;
    }

    /** `find_elements(...)` for the load-more control, and whether the first one is displayed. */
    method FindLoadMore() returns (c: Control)
      modifies this
      ensures c == control(old(lookups)) && lookups == old(lookups) + 1
      ensures heightReads == old(heightReads) && clicks == old(clicks) && quit == old(quit)
    {
      c := control(lookups);
      lookups := lookups + 1;
    }

    method Click()
      modifies this
      ensures clicks == old(clicks) + 1
      ensures heightReads == old(heightReads) && lookups == old(lookups) && quit == old(quit)
    {
      clicks := clicks + 1;
    }

    method Quit()
      modifies this
      ensures quit
      ensures heightReads == old(heightReads) && lookups == old(lookups) && clicks == old(clicks)
    {
      quit := true;
    }
  }

  /**
    The variables of `_scroll_to_load_all` (`scrolls`, `no_change_count`,
    `last_height`) and the driver's call counters.
   */
  datatype ScrollState = ScrollState(
    scrolls: nat,
    noChange: nat,
    lastHeight: int,
    heightReads: nat,
    lookups: nat,
    clicks: nat)

  datatype StepResult = Continue(next: ScrollState) | Stop(last: ScrollState)

  /** The state after the initial height read. */
  function Start(height: nat -> int, heightReads: nat, lookups: nat, clicks: nat): ScrollState {
    ScrollState(0, 0, height(heightReads), heightReads + 1, lookups, clicks)
  }

  /**
    One iteration of the loop body. An unchanged height bumps the counter; at
    three a visible control is clicked, the counter reset and the height read
    again, while any other lookup outcome breaks out of the loop.
   */
  function Step(height: nat -> int, control: nat -> Control, s: ScrollState): (r: StepResult)
    ensures r.Continue? ==> r.next.scrolls == s.scrolls + 1 && r.next.noChange < 3
    ensures r.Continue? ==>
      (r.next.noChange == 0 <==> height(s.heightReads) != s.lastHeight || r.next.clicks == s.clicks + 1)
    ensures r.Continue? && r.next.clicks == s.clicks + 1 ==>
      control(s.lookups) == Visible && r.next.lastHeight == height(s.heightReads + 1)
    ensures r.Continue? && r.next.clicks == s.clicks ==>
      r.next.lastHeight == height(s.heightReads) && r.next.heightReads == s.heightReads + 1 &&
      (height(s.heightReads) == s.lastHeight ==> r.next.noChange == s.noChange + 1)
    ensures r.Continue? ==> r.next.clicks == s.clicks || r.next.clicks == s.clicks + 1
    ensures r.Continue? ==>
      (r.next.clicks == s.clicks + 1 <==> height(s.heightReads) == s.lastHeight && s.noChange + 1 >= 3)
    ensures r.Continue? && r.next.clicks == s.clicks ==> r.next.lookups == s.lookups
    ensures r.Continue? && r.next.clicks == s.clicks + 1 ==>
      r.next.lookups == s.lookups + 1 && r.next.heightReads == s.heightReads + 2
    ensures r.Stop? <==>
      height(s.heightReads) == s.lastHeight && s.noChange + 1 >= 3 && control(s.lookups) != Visible
    ensures r.Stop? ==>
      r.last.noChange >= 3 && r.last.scrolls == s.scrolls && r.last.lookups == s.lookups + 1
    ensures r.Stop? ==>
      r.last == s.(noChange := s.noChange + 1, heightReads := s.heightReads + 1, lookups := s.lookups + 1)
  {
    var newHeight := height(s.heightReads);
    if newHeight == s.lastHeight then
      if s.noChange + 1 >= 3 then
        if control(s.lookups) == Visible then
          Continue(ScrollState(s.scrolls + 1, 0, height(s.heightReads + 1), s.heightReads + 2, s.lookups + 1, s.clicks + 1))
        else
          Stop(s.(noChange := s.noChange + 1, heightReads := s.heightReads + 1, lookups := s.lookups + 1))
      else
        Continue(s.(scrolls := s.scrolls + 1, noChange := s.noChange + 1, lastHeight := newHeight, heightReads := s.heightReads + 1))
    else
      Continue(s.(scrolls := s.scrolls + 1, noChange := 0, lastHeight := newHeight, heightReads := s.heightReads + 1))
  }

  /** `while scrolls < max_scrolls`: iterate Step until the budget is spent or the loop breaks. */
  function Run(height: nat -> int, control: nat -> Control, maxScrolls: int, s: ScrollState): ScrollState
    decreases maxScrolls - s.scrolls
  {
    if s.scrolls >= maxScrolls then s
    else
      match Step(height, control, s)
      case Stop(t) => t
      case Continue(t) => Run(height, control, maxScrolls, t)
  }

  /**
    The loop never exceeds its budget and does nothing once it is spent. It
    ends before the budget only by breaking: three unchanged heights in a row
    and a lookup that did not find a visible control.
   */
  lemma {:induction false} RunSpec(height: nat -> int, control: nat -> Control, maxScrolls: int, s: ScrollState)
    requires s.noChange < 3
    ensures var r := Run(height, control, maxScrolls, s);
      s.scrolls <= r.scrolls &&
      (s.scrolls >= maxScrolls ==> r == s) &&
      (s.scrolls < maxScrolls ==> r.scrolls <= maxScrolls) &&
      (r.scrolls < maxScrolls <==> r.noChange >= 3) &&
      (r.scrolls < maxScrolls ==>
        r.lookups >= 1 && control(r.lookups - 1) != Visible &&
        r.heightReads >= 1 && height(r.heightReads - 1) == r.lastHeight)
    decreases maxScrolls - s.scrolls
  {
    if s.scrolls < maxScrolls {
      match Step(height, control, s)
      case Stop(t) =>
      case Continue(t) => RunSpec(height, control, maxScrolls, t);
    }
  }

  /** With no budget the loop body never runs: only the initial height read happens. */
  lemma NoBudgetNoScroll(height: nat -> int, control: nat -> Control, maxScrolls: int, heightReads: nat, lookups: nat, clicks: nat)
    requires maxScrolls <= 0
    ensures Run(height, control, maxScrolls, Start(height, heightReads, lookups, clicks)) == Start(height, heightReads, lookups, clicks)
  {
  }

  /**
    A page whose height never changes and that shows no load-more control
    stops after the third unchanged read, with the scroll counter at 2
    (three scroll commands issued),
    before any budget of three or more is spent.
   */
  lemma StableWithoutControlStops(height: nat -> int, control: nat -> Control, maxScrolls: int, heightReads: nat, lookups: nat, clicks: nat)
    requires maxScrolls >= 3
    requires height(heightReads + 1) == height(heightReads) && height(heightReads + 2) == height(heightReads) && height(heightReads + 3) == height(heightReads)
    requires control(lookups) != Visible
    ensures Run(height, control, maxScrolls, Start(height, heightReads, lookups, clicks)).scrolls == 2
  {
    var s0 := Start(height, heightReads, lookups, clicks);
    var s1 := Step(height, control, s0).next;
    var s2 := Step(height, control, s1).next;
    assert s1 == ScrollState(1, 1, height(heightReads), heightReads + 2, lookups, clicks);
    assert s2 == ScrollState(2, 2, height(heightReads), heightReads + 3, lookups, clicks);
    assert Run(height, control, maxScrolls, s0) == Run(height, control, maxScrolls, s1);
    assert Run(height, control, maxScrolls, s1) == Run(height, control, maxScrolls, s2);
    assert Step(height, control, s2).Stop?;
  }
}
