/**
  The slideshow controller as the page runs it: module-level variables that
  the handlers update in place. Each method is proved to leave the fields as
  the matching function of `SlideshowSpec` says, and the handlers keep the
  invariant `Valid()`.
 */
module Slideshow {
  import opened SlideshowSpec

  class Controller {
    /** One entry per `.slide` element, in document order. */
    var slides: seq<SlideState>
    /** One entry per `.dot` element: whether it carries `active`. */
    var dots: seq<bool>
    var currentSlide: nat
    var paused: bool
    /** `slideInterval`: the handle the last startSlides stored (0 before any). */
    var slideInterval: nat
    /** Handles of the intervals started and not yet cleared. */
    var live: set<nat>
    /** Handles 1 .. issued have been handed out by the timer. */
    var issued: nat

    ghost function Model(): State
      reads this
    {
      State(slides, dots, currentSlide, paused, slideInterval, live, issued)
    }

    ghost predicate Valid()
      reads this
    {
      SlideshowSpec.Valid(Model())
    }

    /** Page load: the variables start at slide 0, running, no interval; then
        showSlide(0) and startSlides(). `active` and `dotsInMarkup` are the
        classes the markup gives the slides and dots. */
    constructor (active: seq<bool>, dotsInMarkup: seq<bool>)
      requires 0 < |active| == |dotsInMarkup|
      ensures Model() == PageLoad(active, dotsInMarkup)
      ensures Valid()
      ensures currentSlide == 0 && dots[0] && slides[0] == Shown
      ensures !paused && live == {slideInterval}
    {
      slides := FromMarkup(active);
      dots := dotsInMarkup;
      currentSlide := 0;
      slideInterval := 0;
      paused := false;
      live := {};
      issued := 0;
      new;
      ShowSlide(0);
      StartSlides();
      PageLoadEffect(active, dotsInMarkup);
    }

    /** showSlide(idx): visit every slide and its dot in order, then record
        the index. */
    method ShowSlide(idx: nat)
      requires idx < |slides| == |dots|
      modifies this
      ensures Model() == AfterShow(old(Model()), idx)
    {
      ghost var before := slides;
      var i := 0;
      while i < |slides|
        invariant 0 <= i <= |slides| == |before| == |dots|
        invariant forall j :: 0 <= j < i ==> slides[j] == SlideAfterShow(before[j], j == idx)
        invariant forall j :: i <= j < |slides| ==> slides[j] == before[j]
        invariant forall j :: 0 <= j < i ==> dots[j] == (j == idx)
        invariant currentSlide == old(currentSlide) && paused == old(paused)
        invariant slideInterval == old(slideInterval) && live == old(live) && issued == old(issued)
      {
        slides := slides[i := SlideAfterShow(slides[i], i == idx)];
        dots := dots[i := i == idx];
        i := i + 1;
      }
      assert slides == ShowSlides(before, idx);
      assert dots == DotsFor(|dots|, idx);
      currentSlide := idx;
    }

    /** nextSlide: show the following slide, wrapping to the first. */
    method NextSlide()
      requires 0 < |slides| == |dots|
      modifies this
      ensures Model() == AfterNext(old(Model()))
    {
      ShowSlide((currentSlide + 1) % |slides|);
    }

    /** startSlides: store the handle of a new interval. */
    method StartSlides()
      modifies this
      ensures Model() == AfterStart(old(Model()))
    {
      issued := issued + 1;
      slideInterval := issued;
      live := live + {slideInterval};
    }

    /** stopSlides: clear the interval `slideInterval` names. */
    method StopSlides()
      modifies this
      ensures Model() == AfterStop(old(Model()))
    {
      live := live - {slideInterval};
    }

    /** The interval with handle `h` fires. */
    method Tick(h: nat)
      requires Valid() && h in live
      modifies this
      ensures Model() == AfterNext(old(Model()))
      ensures Valid() && currentSlide == (old(currentSlide) + 1) % |slides|
    {
      ghost var c := Model();
      NextSlide();
      NextSlideEffect(c);
    }

    /** The click handler of dot `i`. */
    method DotClick(i: nat)
      requires Valid() && i < |dots|
      modifies this
      ensures Model() == AfterDotClick(old(Model()), i)
      ensures Valid() && currentSlide == i && paused == old(paused)
      ensures paused ==> live == old(live)
      ensures !paused ==> live == {slideInterval} && slideInterval !in old(live)
    {
      ghost var c := Model();
      ShowSlide(i);
      if !paused {
        StopSlides();
        StartSlides();
      }
      DotClickEffect(c, i);
    }

    /** The click handler of the pause button. */
    method PauseClick()
      requires Valid()
      modifies this
      ensures Model() == AfterPauseClick(old(Model()))
      ensures Valid() && paused == !old(paused)
      ensures slides == old(slides) && dots == old(dots) && currentSlide == old(currentSlide)
    {
      ghost var c := Model();
      paused := !paused;
      if paused {
        StopSlides();
      } else {
        StartSlides();
      }
      PauseClickEffect(c);
    }

    /** The completion callback of slide `i`'s exit animation. */
    method ExitComplete(i: nat)
      requires Valid() && i < |slides|
      modifies this
      ensures Model() == AfterExitComplete(old(Model()), i)
      ensures Valid() && currentSlide == old(currentSlide)
    {
      ghost var c := Model();
      if slides[i] == Exiting {
        slides := slides[i := Hidden];
      }
      ExitCompleteEffect(c, i);
    }
  }

  /** Four slides: three ticks reach the last slide, a fourth wraps to the
      first; after a pause click, a dot click still navigates but starts no
      interval. */
  method FourSlideScenario()
  {
    var show := new Controller([true, false, false, false], [false, false, false, false]);
    show.Tick(show.slideInterval);
    show.Tick(show.slideInterval);
    show.Tick(show.slideInterval);
    assert show.currentSlide == 3;
    show.Tick(show.slideInterval);
    assert show.currentSlide == 0;
    show.PauseClick();
    assert show.paused && show.live == {};
    show.DotClick(2);
    assert show.currentSlide == 2 && show.live == {};
    show.PauseClick();
    assert !show.paused && |show.live| == 1;
  }
}
