/** The landing page's image carousel: a slide index that wraps around the five
    images, advanced by a timer while autoplay is on, and manual controls that
    switch autoplay off. */
module LandingPage {
  import opened Common

  const SlideCount: nat := 5

  class Carousel {
    var currentSlide: int
    var isAutoPlaying: bool

    ghost predicate Valid()
      reads this
    {
      0 <= currentSlide < SlideCount
    }

    constructor ()
      ensures Valid() && currentSlide == 0 && isAutoPlaying
    {
      currentSlide := 0;
      isAutoPlaying := true;
    }

    /** The interval, which exists only while autoplay is on. */
    method Tick()
      requires Valid() && isAutoPlaying
      modifies this
      ensures Valid() && isAutoPlaying && currentSlide == Next(old(currentSlide), SlideCount)
    {
      NextPreviousInverse(currentSlide, SlideCount);
      currentSlide := Next(currentSlide, SlideCount);
    }

    method ShowPrevious()
      requires Valid()
      modifies this
      ensures Valid() && !isAutoPlaying && currentSlide == Previous(old(currentSlide), SlideCount)
    {
      NextPreviousInverse(currentSlide, SlideCount);
      isAutoPlaying := false;
      currentSlide := Previous(currentSlide, SlideCount);
    }

    method ShowNext()
      requires Valid()
      modifies this
      ensures Valid() && !isAutoPlaying && currentSlide == Next(old(currentSlide), SlideCount)
    {
      NextPreviousInverse(currentSlide, SlideCount);
      isAutoPlaying := false;
      currentSlide := Next(currentSlide, SlideCount);
    }

    /** A dot under the image, one per slide. */
    method ShowSlide(index: int)
      requires Valid() && 0 <= index < SlideCount
      modifies this
      ensures Valid() && !isAutoPlaying && currentSlide == index
    {
      isAutoPlaying := false;
      currentSlide := index;
    }
  }

  /** Next then previous returns to the same slide, with autoplay off. */
  method NextThenPrevious(c: Carousel)
    requires c.Valid()
    modifies c
    ensures c.Valid() && c.currentSlide == old(c.currentSlide) && !c.isAutoPlaying
  {
    c.ShowNext();
    c.ShowPrevious();
    NextPreviousInverse(old(c.currentSlide), SlideCount);
  }
}
