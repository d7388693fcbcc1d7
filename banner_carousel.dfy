/**
 * The banner carousel: an index into a fixed list of three banners moved by
 * next, previous, the dots and a timer, and a dismiss button that hides the
 * carousel for good.
 */
module BannerCarousel {
  import opened Options

  datatype Banner = Banner(id: nat, title: string, subtitle: string, description: string, action: string)

  const Banners: seq<Banner> := [
    Banner(1, "Special Discount!", "Get 20% OFF on International Shipments",
           "Limited time offer for all corporate customers", "Learn More"),
    Banner(2, "New Partner Added", "Express Delivery Available",
           "Same-day delivery for selected routes", "View Details"),
    Banner(3, "Loyalty Rewards", "Earn Points with Every Shipment",
           "Join our loyalty program and get exclusive benefits", "Join Now")
  ]

  /** `(prev + 1) % banners.length`, used by the next button and the timer. */
  function NextIndex(i: nat): (r: nat)
    requires i < |Banners|
    ensures r < |Banners|
    ensures r == if i == |Banners| - 1 then 0 else i + 1
  {
    (i + 1) % |Banners|
  }

  /** `(prev - 1 + banners.length) % banners.length`, used by the previous button. */
  function PrevIndex(i: nat): (r: nat)
    requires i < |Banners|
    ensures r < |Banners|
    ensures r == if i == 0 then |Banners| - 1 else i - 1
  {
    (i - 1 + |Banners|) % |Banners|
  }

  lemma PrevUndoesNext(i: nat)
    requires i < |Banners|
    ensures PrevIndex(NextIndex(i)) == i && NextIndex(PrevIndex(i)) == i
  {
  }

  /** The index after `n` steps forward. */
  function Advance(i: nat, n: nat): (r: nat)
    requires i < |Banners|
    ensures r < |Banners|
  {
    if n == 0 then i else NextIndex(Advance(i, n - 1))
  }

  /** `n` steps forward move the index by `n` around the circle. */
  lemma {:induction false} AdvanceIsModular(i: nat, n: nat)
    requires i < |Banners|
    ensures Advance(i, n) == (i + n) % |Banners|
  {
    if n > 0 {
      AdvanceIsModular(i, n - 1);
    }
  }

  /** As many steps forward as there are banners come back to the start. */
  lemma FullCycle(i: nat)
    requires i < |Banners|
    ensures Advance(i, |Banners|) == i
  {
    AdvanceIsModular(i, |Banners|);
  }

  /** Dot `d` is drawn active when `index === currentIndex`. */
  predicate DotActive(d: nat, current: nat) {
    d == current
  }

  /** The dots that are drawn active for a current index. */
  function ActiveDots(current: nat): set<nat> {
    set d | 0 <= d < |Banners| && DotActive(d, current)
  }

  /** Exactly one dot is active: the current one. */
  lemma OneActiveDot(current: nat)
    requires current < |Banners|
    ensures ActiveDots(current) == {current}
  {
  }

  /** The carousel's state. */
  class Carousel {
    var currentIndex: nat
    var isVisible: bool

    ghost predicate Valid()
      reads this
    {
      currentIndex < |Banners|
    }

    constructor ()
      ensures Valid() && currentIndex == 0 && isVisible
    {
      currentIndex, isVisible := 0, true;
    }

    /** What is drawn: nothing once dismissed, otherwise the current banner. */
    function Render(): (r: Option<Banner>)
      requires Valid()
      reads this
      ensures r.None? <==> !isVisible
      ensures r.Some? ==> r.value == Banners[currentIndex]
    {
      if isVisible then Some(Banners[currentIndex]) else None
    }

    /** The next-arrow button (drawn only while visible). */
    method NextBanner()
      requires Valid() && isVisible
      modifies this`currentIndex
      ensures Valid() && currentIndex == NextIndex(old(currentIndex))
    {
      currentIndex := (currentIndex + 1) % |Banners|;
    }

    /** The previous-arrow button (drawn only while visible). */
    method PrevBanner()
      requires Valid() && isVisible
      modifies this`currentIndex
      ensures Valid() && currentIndex == PrevIndex(old(currentIndex))
    {
      currentIndex := (currentIndex - 1 + |Banners|) % |Banners|;
    }

    /** The five-second timer; it keeps running after the carousel is dismissed. */
    method AutoAdvance()
      requires Valid()
      modifies this`currentIndex
      ensures Valid() && currentIndex == NextIndex(old(currentIndex))
    {
      currentIndex := (currentIndex + 1) % |Banners|;
    }

    /** A dot button: jumps to that dot's banner (the dots are drawn only while visible). */
    method GoToBanner(index: nat)
      requires Valid() && isVisible && index < |Banners|
      modifies this`currentIndex
      ensures Valid() && currentIndex == index
    {
      currentIndex := index;
    }

    /** The close button: hides the carousel; no operation shows it again. */
    method Dismiss()
      modifies this`isVisible
      ensures !isVisible
    {
      isVisible := false;
    }
  }
}
