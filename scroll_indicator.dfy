/**
 * The floating scroll indicator (components/ScrollIndicator.tsx): on each scroll it works
 * out which page section the middle of the viewport has reached, whether the page is
 * near its bottom, and whether the footer has come into view; a click scrolls to the
 * next section, or back to the top once the page is near its bottom.
 */
module ScrollIndicator {
  import opened Wrappers

  /** `SECTIONS`: the section element ids, in page order. */
  const Sections: seq<string> := ["hero", "trabalhos", "testemunhos", "contacto"]

  /** How close (in pixels) the viewport's bottom must come to the document's end to count as the end. */
  const EndMargin: real := 200.0

  /** The page's vertical geometry at one scroll event. */
  datatype Viewport = Viewport(scrollY: real, innerHeight: real, documentHeight: real)

  /** `isNearBottom`. */
  predicate IsNearBottom(v: Viewport)
  {
    v.scrollY + v.innerHeight > v.documentHeight - EndMargin
  }

  /** The probe point: the vertical middle of the viewport, in document coordinates. */
  function ScrollPosition(v: Viewport): real
  {
    v.scrollY + v.innerHeight / 2.0
  }

  /** Document-coordinate section tops `scrollY + rect.top` from viewport-relative ones; a missing element stays missing. */
  function SectionTops(scrollY: real, rectTops: seq<Option<real>>): (tops: seq<Option<real>>)
    ensures |tops| == |rectTops|
    ensures forall i :: 0 <= i < |tops| ==>
      tops[i] == (if rectTops[i].Some? then Some(scrollY + rectTops[i].value) else None)
  {
    seq(|rectTops|, i requires 0 <= i < |rectTops| =>
      if rectTops[i].Some? then Some(scrollY + rectTops[i].value) else None)
  }

  /** The viewport-relative tops after the page scrolls down by `d`: every element moves up by `d`. */
  function ScrolledRectTops(rectTops: seq<Option<real>>, d: real): (moved: seq<Option<real>>)
    ensures |moved| == |rectTops|
    ensures forall i :: 0 <= i < |moved| ==> (moved[i].Some? <==> rectTops[i].Some?)
    ensures forall i :: 0 <= i < |moved| && moved[i].Some? ==> moved[i].value == rectTops[i].value - d
  {
    seq(|rectTops|, i requires 0 <= i < |rectTops| =>
      if rectTops[i].Some? then Some(rectTops[i].value - d) else None)
  }

  /**
   * The document tops do not depend on the scroll offset: scrolling by `d` raises `scrollY`
   * by `d` and lowers every viewport-relative top by `d`, which leaves `SectionTops` as it was.
   */
  lemma SectionTopsScrollInvariant(scrollY: real, d: real, rectTops: seq<Option<real>>)
    ensures SectionTops(scrollY + d, ScrolledRectTops(rectTops, d)) == SectionTops(scrollY, rectTops)
  {
    var after := SectionTops(scrollY + d, ScrolledRectTops(rectTops, d));
    var before := SectionTops(scrollY, rectTops);
    assert |after| == |before|;
    forall i | 0 <= i < |after|
      ensures after[i] == before[i]
    {
    }
  }

  /** Section `i` exists and its top is at or above the probe point. */
  predicate Reached(tops: seq<Option<real>>, i: int, pos: real)
    requires 0 <= i < |tops|
  {
    tops[i].Some? && pos >= tops[i].value
  }

  /** The current section: the last reached section, or 0 when none is reached. */
  function LastReached(tops: seq<Option<real>>, pos: real): (r: nat)
    ensures |tops| > 0 ==> r < |tops|
    ensures |tops| == 0 ==> r == 0
    ensures (exists i :: 0 <= i < |tops| && Reached(tops, i, pos)) ==>
      r < |tops| && Reached(tops, r, pos) && forall j :: r < j < |tops| ==> !Reached(tops, j, pos)
    ensures (forall i :: 0 <= i < |tops| ==> !Reached(tops, i, pos)) ==> r == 0
  {
    if |tops| == 0 then 0
    else if Reached(tops, |tops| - 1, pos) then |tops| - 1
    else
      var prefix := tops[..|tops| - 1];
      assert forall i :: 0 <= i < |prefix| ==> (Reached(prefix, i, pos) <==> Reached(tops, i, pos));
      LastReached(prefix, pos)
  }

  /** With the sections fixed, a probe point further down the page never selects an earlier section. */
  lemma {:induction false} LastReachedMonotonic(tops: seq<Option<real>>, p1: real, p2: real)
    requires p1 <= p2
    ensures LastReached(tops, p1) <= LastReached(tops, p2)
  {
    var r1 := LastReached(tops, p1);
    if r1 > 0 {
      assert Reached(tops, r1, p1);
      assert Reached(tops, r1, p2);
    }
  }

  /**
   * Scrolling down never moves the indicator back to an earlier section: with the page layout
   * fixed, the document tops stay put while the probe point moves down by the scrolled distance.
   */
  lemma ScrollingDownNeverMovesBack(v: Viewport, d: real, rectTops: seq<Option<real>>)
    requires d >= 0.0
    ensures var after := v.(scrollY := v.scrollY + d);
      LastReached(SectionTops(v.scrollY, rectTops), ScrollPosition(v))
      <= LastReached(SectionTops(after.scrollY, ScrolledRectTops(rectTops, d)), ScrollPosition(after))
  {
    var after := v.(scrollY := v.scrollY + d);
    var tops := SectionTops(v.scrollY, rectTops);
    assert SectionTops(after.scrollY, ScrolledRectTops(rectTops, d)) == tops by {
      SectionTopsScrollInvariant(v.scrollY, d, rectTops);
    }
    assert ScrollPosition(v) <= ScrollPosition(after);
    LastReachedMonotonic(tops, ScrollPosition(v), ScrollPosition(after));
  }

  /** The `forEach` loop of `handleScroll` that overwrites `foundIndex` with every reached section. */
  method FindSection(scrollY: real, rectTops: seq<Option<real>>, pos: real) returns (foundIndex: nat)
    ensures foundIndex == LastReached(SectionTops(scrollY, rectTops), pos)
  {
    ghost var tops := SectionTops(scrollY, rectTops);
    foundIndex := 0;
    var idx := 0;
    while idx < |rectTops|
      invariant 0 <= idx <= |rectTops|
      invariant foundIndex == LastReached(tops[..idx], pos)
    {
      assert tops[..idx + 1][..idx] == tops[..idx];
      if rectTops[idx].Some? {
        var sectionTop := scrollY + rectTops[idx].value;
        if pos >= sectionTop {
          foundIndex := idx;
        }
      }
      idx := idx + 1;
    }
    assert tops[..idx] == tops;
  }

  /** `Math.min(currentSectionIndex + 1, SECTIONS.length - 1)`: the next section, saturating at the last. */
  function NextIndex(current: nat, len: nat): (r: nat)
    requires current < len
    ensures current <= r < len
    ensures current < len - 1 ==> r == current + 1
    ensures current == len - 1 ==> r == current
  {
    if current + 1 <= len - 1 then current + 1 else len - 1
  }

  /** What a click on the indicator does. */
  datatype ClickAction = ScrollToTop | ScrollToSection(index: nat) | NoScroll

  /** The indicator's state. */
  class Indicator {
    var currentSectionIndex: nat
    var isAtEnd: bool
    var isVisible: bool

    ghost predicate Valid()
      reads this
    {
      currentSectionIndex < |Sections|
    }

    /** The three `useState` initial values. */
    constructor ()
      ensures Valid() && currentSectionIndex == 0 && !isAtEnd && isVisible
    {
      currentSectionIndex := 0;
      isAtEnd := false;
      isVisible := true;
    }

    /**
     * `handleScroll`, given the geometry it reads from the page: the viewport, each section's
     * `getBoundingClientRect().top` (None for a missing element) and the footer's, if the
     * page has a footer.
     */
    method HandleScroll(v: Viewport, rectTops: seq<Option<real>>, footerTop: Option<real>)
      requires Valid() && |rectTops| == |Sections|
      modifies this
      ensures Valid()
      ensures isAtEnd == IsNearBottom(v)
      ensures currentSectionIndex == LastReached(SectionTops(v.scrollY, rectTops), ScrollPosition(v))
      ensures footerTop.Some? ==> isVisible == (footerTop.value > v.innerHeight)
      ensures footerTop.None? ==> isVisible == old(isVisible)
    {
      var scrollPosition := v.scrollY + v.innerHeight / 2.0;
      isAtEnd := v.scrollY + v.innerHeight > v.documentHeight - EndMargin;
      currentSectionIndex := FindSection(v.scrollY, rectTops, scrollPosition);
      if footerTop.Some? {
        isVisible := footerTop.value > v.innerHeight;
      }
    }

    /**
     * `handleClick`: near the bottom, back to the top; otherwise to the next section,
     * if that section's element exists (`sectionPresent[i]`).
     */
    method HandleClick(sectionPresent: seq<bool>) returns (action: ClickAction)
      requires Valid() && |sectionPresent| == |Sections|
      ensures isAtEnd ==> action == ScrollToTop
      ensures !isAtEnd ==> action != ScrollToTop
      ensures !isAtEnd && sectionPresent[NextIndex(currentSectionIndex, |Sections|)] ==>
        action == ScrollToSection(NextIndex(currentSectionIndex, |Sections|))
      ensures !isAtEnd && !sectionPresent[NextIndex(currentSectionIndex, |Sections|)] ==> action == NoScroll
    {
      if isAtEnd {
        action := ScrollToTop;
      } else {
        var nextIndex := NextIndex(currentSectionIndex, |Sections|);
        action := if sectionPresent[nextIndex] then ScrollToSection(nextIndex) else NoScroll;
      }
    }

    /** The component renders nothing while the footer is in view. */
    predicate IsShown()
      reads this
    {
      isVisible
    }
  }
}
