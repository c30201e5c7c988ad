/** The first-launch pager: three slides, a "Next" button that scrolls to
    the following slide and, on the last slide, a "Get Started" button that
    leaves for the main tabs. */
module OnboardingScreen {
  import opened Remote

  /** One slide; its background image is not modelled. */
  datatype Slide = Slide(id: string, title: string, subtitle: string, icon: string)

  const Slides: seq<Slide> := [
    Slide("1", "Reliable Water,\nDelivered.",
          "Stop calling disconnected numbers. Find verified bulk water suppliers in your area instantly.",
          "water-pump"),
    Slide("2", "Upfront Pricing,\nNo Surprises.",
          "Compare prices for 2500L, 5000L, and 10000L loads. Pay Cash or USD upon delivery.",
          "cash-multiple"),
    Slide("3", "Track Your\nDelivery.",
          "Know exactly when the truck will arrive. Manage your orders and re-order with one tap.",
          "map-marker-path")
  ]

  /** There are three slides, with the distinct ids "1", "2" and "3". */
  lemma SlidesShape()
    ensures |Slides| == 3
    ensures Slides[0].id == "1" && Slides[1].id == "2" && Slides[2].id == "3"
    ensures forall i, j :: 0 <= i < j < |Slides| ==> Slides[i].id != Slides[j].id
  {
  }

  /** The index of the last slide. */
  function LastIndex(): int
  {
    |Slides| - 1
  }

  /** The footer button's text. */
  function ButtonLabel(currentIndex: nat): (text: string)
    ensures text == "Get Started" <==> currentIndex == LastIndex()
    ensures text == "Next" <==> currentIndex != LastIndex()
  {
    if currentIndex == LastIndex() then "Get Started" else "Next"
  }

  /** The footer button's icon. */
  function ButtonIcon(currentIndex: nat): (icon: string)
    ensures icon == "check" <==> currentIndex == LastIndex()
    ensures icon == "arrow-right" <==> currentIndex != LastIndex()
  {
    if currentIndex == LastIndex() then "check" else "arrow-right"
  }

  /** Label and icon always change together. */
  lemma LabelAndIconAgree(currentIndex: nat)
    ensures ButtonLabel(currentIndex) == "Get Started" <==> ButtonIcon(currentIndex) == "check"
  {
  }

  /** Whether the dot drawn for slide `dot` is the active one. */
  predicate DotActive(currentIndex: nat, dot: nat)
  {
    currentIndex == dot
  }

  /** The dots drawn as active. */
  function ActiveDots(currentIndex: nat): (dots: set<nat>)
    ensures forall d :: d in dots ==> d < |Slides| && DotActive(currentIndex, d)
  {
    set d: nat | d < |Slides| && DotActive(currentIndex, d)
  }

  /** For an index on a slide exactly one dot, that slide's, is active; an
      index past the slides (a layout rounding artefact) lights none. */
  lemma ExactlyOneActiveDot(currentIndex: nat)
    ensures currentIndex < |Slides| ==> ActiveDots(currentIndex) == {currentIndex}
    ensures currentIndex >= |Slides| ==> ActiveDots(currentIndex) == {}
  {
    if currentIndex < |Slides| {
      assert currentIndex in ActiveDots(currentIndex);
    }
  }

  /** What `goNext` asks for. */
  datatype PagerAction = ScrollToIndex(index: nat) | Finish(nav: Navigation)

  /** The pager's state: the index derived from the scroll offset. */
  class Pager {
    var currentIndex: nat

    constructor ()
      ensures currentIndex == 0
    {
      currentIndex := 0;
    }

    /** `updateIndex` at the end of a scroll; the offset-to-index rounding
        is taken as already done. */
    method UpdateIndex(index: nat)
      modifies this
      ensures currentIndex == index
    {
      currentIndex := index;
    }

    /** `goNext`: scroll to the next slide, or from the last slide (or any
        index past it) finish onboarding. Changes nothing itself. */
    method GoNext() returns (action: PagerAction)
      ensures currentIndex < LastIndex() ==> action == ScrollToIndex(currentIndex + 1)
      ensures currentIndex >= LastIndex() ==> action == Finish(Replace(MainTabs))
      ensures action.ScrollToIndex? ==> action.index < |Slides|
    {
      if currentIndex < |Slides| - 1 {
        action := ScrollToIndex(currentIndex + 1);
      } else {
        action := Finish(Replace(MainTabs));
      }
    }
  }
}
