/**
 * The linking instructions carousel (apps/aira-web/components/whatsapp/instruction-steps.tsx):
 * three slides, a row of progress dots, and a caption that follow the carousel's selected
 * slide; a click on a card moves to the next slide and from the last one back to the first.
 *
 * The carousel library is reduced to what the component uses of it: the selected slide,
 * whether it can scroll further, scrolling one slide on or to a given slide, and the
 * "select" event it raises afterwards, which the component's listener turns into an update
 * of `current`. The carousel does not loop, so it can scroll on exactly when the selected
 * slide is not the last.
 */
module InstructionSteps {
  import opened Strings

  /** The titles of the three slides, in order. */
  const Titles: seq<string> := ["Go to Linked Devices", "Tap \"Link a Device\"", "Link with phone number"]

  /** The number of slides: the length of `Titles`. */
  const SlideCount := 3

  /** The slide a card click leads to: the next one, or the first after the last. */
  function Advance(i: nat): (r: nat)
    requires i < SlideCount
    ensures r < SlideCount
    ensures r == (i + 1) % SlideCount
  {
    if i + 1 < SlideCount then i + 1 else 0
  }

  /** `k` card clicks from slide `i`: the slide `k` places on, counting round; `SlideCount` clicks come back. */
  function AdvanceTimes(i: nat, k: nat): (r: nat)
    requires i < SlideCount
    ensures r < SlideCount
    ensures r == (i + k) % SlideCount
    decreases k
  {
    if k == 0 then i else Advance(AdvanceTimes(i, k - 1))
  }

  /** The carousel's state as the component sees it through its API. */
  class Carousel {
    const slideCount: nat
    var selected: nat

    ghost predicate Valid()
      reads this
    {
      selected < slideCount
    }

    constructor (slideCount: nat)
      requires slideCount > 0
      ensures Valid() && this.slideCount == slideCount && selected == 0
    {
      this.slideCount := slideCount;
      selected := 0;
    }

    /** `canScrollNext()`. */
    function CanScrollNext(): (r: bool)
      reads this
      ensures r <==> selected + 1 < slideCount
    {
      selected + 1 < slideCount
    }

    /** `scrollNext()`: one slide on, when there is one. */
    method ScrollNext()
      requires Valid()
      modifies this
      ensures Valid() && selected == if old(selected) + 1 < slideCount then old(selected) + 1 else old(selected)
    {
      if selected + 1 < slideCount {
        selected := selected + 1;
      }
    }

    /** `scrollTo(index)`. */
    method ScrollTo(index: nat)
      requires Valid() && index < slideCount
      modifies this
      ensures Valid() && selected == index
    {
      selected := index;
    }
  }

  /** `InstructionSteps`: the carousel API once it is set, and `current`. */
  class Instructions {
    var api: Carousel?
    var current: nat

    /** `current` is a slide, and once the API is set it is the carousel's selected slide. */
    ghost predicate Valid()
      reads this, api
    {
      current < SlideCount
      && (api != null ==> api.Valid() && api.slideCount == SlideCount && current == api.selected)
    }

    /** Mounting: no API yet, the first slide. */
    constructor ()
      ensures Valid() && api == null && current == 0
    {
      api := null;
      current := 0;
    }

    /** `setApi` and the effect it triggers: `current` takes the selected slide, then follows "select". */
    method SetApi(carousel: Carousel)
      requires carousel.Valid() && carousel.slideCount == SlideCount
      requires Valid()
      modifies this
      ensures Valid() && api == carousel && current == carousel.selected
    {
      api := carousel;
      current := carousel.selected;
    }

    /** The "select" listener: `current` becomes the selected slide. */
    method OnSelect()
      requires api != null && api.Valid() && api.slideCount == SlideCount
      modifies this
      ensures Valid() && api == old(api) && current == api.selected
    {
      current := api.selected;
    }

    /** `handleCardClick`: on to the next slide, or back to the first from the last; nothing without an API. */
    method HandleCardClick()
      requires Valid()
      modifies this, api
      ensures Valid() && api == old(api)
      ensures api == null ==> current == old(current)
      ensures api != null ==> current == Advance(old(current)) && api.selected == current
    {
      if api == null {
        return;
      }
      if api.CanScrollNext() {
        api.ScrollNext();
      } else {
        api.ScrollTo(0);
      }
      OnSelect();
    }

    /** `k` card clicks: with an API, `current` moves `k` slides on, counting round; without one, nothing changes. */
    method ClickTimes(k: nat)
      requires Valid()
      modifies this, api
      ensures Valid() && api == old(api)
      ensures api == null ==> current == old(current)
      ensures api != null ==> current == AdvanceTimes(old(current), k) && api.selected == current
    {
      var n := 0;
      while n < k
        invariant 0 <= n <= k
        invariant Valid() && api == old(api)
        invariant api == null ==> current == old(current)
        invariant api != null ==> current == AdvanceTimes(old(current), n)
      {
        HandleCardClick();
        n := n + 1;
      }
    }

    /** A click on dot `index`: that slide; nothing without an API. */
    method DotClick(index: nat)
      requires Valid() && index < SlideCount
      modifies this, api
      ensures Valid() && api == old(api)
      ensures current == if api == null then old(current) else index
    {
      if api != null {
        api.ScrollTo(index);
        OnSelect();
      }
    }

    /** The user drags the carousel to slide `index`; the carousel raises "select". */
    method UserSwipe(index: nat)
      requires Valid() && api != null && index < SlideCount
      modifies this, api
      ensures Valid() && api == old(api) && current == index
    {
      api.ScrollTo(index);
      OnSelect();
    }
  }

  /** The progress dots: exactly the one at `current` is active. */
  function Dots(current: nat): (dots: seq<bool>)
    requires current < SlideCount
    ensures |dots| == SlideCount
    ensures forall i :: 0 <= i < |dots| ==> (dots[i] <==> i == current)
  {
    seq(SlideCount, idx => idx == current)
  }

  /** `Step {current + 1}: {steps[current].title}`. */
  function Caption(current: nat): (caption: string)
    requires current < SlideCount
    ensures caption == "Step " + [DigitChar(current + 1)] + ": " + Titles[current]
  {
    NatToStringLength(current + 1);
    "Step " + NatToString(current + 1) + ": " + Titles[current]
  }
}
