/**
 * The testimonial carousel of `initTestimonialCarousel`: a strip of `cardCount`
 * cards of which `visibleCards` are on screen, paged by arrows, dots, swipes and
 * the ArrowLeft/ArrowRight keys.
 *
 * DOM reads are parameters: `innerWidth` is the viewport width, `offsetWidth`
 * the rendered width of the first card (the card pitch adds a 30px gap) and
 * `clientX` the pointer position of a touch or mouse event, a fractional
 * number of CSS pixels.
 */
module Carousel {
  import opened Keys

  const MobileBreakpoint := 768
  const TabletBreakpoint := 1200
  /** Gap between two cards, added to the first card's width. */
  const CardGap := 30
  /** A drag must move further than this many pixels to change slide. */
  const SwipeThreshold: real := 50.0

  /** Number of cards on screen for a viewport width. */
  function VisibleCardsFor(innerWidth: int): (v: int)
    ensures 1 <= v <= 3
    ensures v == 1 <==> innerWidth < MobileBreakpoint
    ensures v == 2 <==> MobileBreakpoint <= innerWidth < TabletBreakpoint
    ensures v == 3 <==> TabletBreakpoint <= innerWidth
  {
    if innerWidth < MobileBreakpoint then 1
    else if innerWidth < TabletBreakpoint then 2
    else 3
  }

  /** A wider viewport never shows fewer cards. */
  lemma VisibleCardsMonotone(w1: int, w2: int)
    requires w1 <= w2
    ensures VisibleCardsFor(w1) <= VisibleCardsFor(w2)
  {
  }

  /** `Math.max(0, n - v)`: the largest index the carousel may rest on. */
  function MaxIndex(n: int, v: int): (m: int)
    ensures 0 <= m && n - v <= m
    ensures m == 0 || m == n - v
  {
    if n - v > 0 then n - v else 0
  }

  /** `Math.min(i, MaxIndex(n, v))`: the index `updateCarousel` keeps. */
  function Clamp(i: int, n: int, v: int): (r: int)
    ensures r <= i && r <= MaxIndex(n, v)
    ensures r == i || r == MaxIndex(n, v)
    ensures 0 <= i ==> 0 <= r
    ensures i <= MaxIndex(n, v) ==> r == i
  {
    if i <= MaxIndex(n, v) then i else MaxIndex(n, v)
  }

  /** The track's horizontal offset in pixels for index `i`, as the code renders it. */
  function Offset(i: int, cardWidth: int, v: int): int
  {
    -i * cardWidth * v
  }

  /** The first card on screen when the track sits at `Offset(i, _, v)`. */
  function FirstShownCard(i: int, v: int): int
  {
    i * v
  }

  /** The rendered offset is the first shown card's position, in card pitches, negated. */
  lemma OffsetIsFirstShownCard(i: int, cardWidth: int, v: int)
    ensures Offset(i, cardWidth, v) == -FirstShownCard(i, v) * cardWidth
  {
  }

  /**
   * The rendered offset moves by `visibleCards` cards per index step while the
   * index moves by one card: some resting index shows a window starting past the
   * last full page exactly when more than one card is visible and the cards do not
   * fit on one page.
   */
  lemma WindowOverrunIff(n: int, v: int)
    requires 1 <= v <= 3
    ensures (exists i :: 0 <= i <= MaxIndex(n, v) && FirstShownCard(i, v) > MaxIndex(n, v))
        <==> (v > 1 && n > v)
  {
    var m := MaxIndex(n, v);
    if v > 1 && n > v {
      assert m * v > m by {
        assert m * v == m * (v - 1) + m;
        assert m * (v - 1) >= m;
      }
      assert 0 <= m <= m && FirstShownCard(m, v) > m;
    } else {
      forall i | 0 <= i <= m
        ensures FirstShownCard(i, v) <= m
      {
        if v > 1 {
          assert m == 0 && i == 0;
        }
      }
    }
  }

  /** `Math.ceil(n / v)`: the number of dots `createDots` builds. */
  function DotCount(n: int, v: int): (d: int)
    requires 0 <= n && 1 <= v
    ensures 0 <= d
    ensures (d - 1) * v < n <= d * v
  {
    CeilDiv(n, v);
    (n + v - 1) / v
  }

  lemma CeilDiv(n: int, v: int)
    requires 0 <= n && 1 <= v
    ensures ((n + v - 1) / v - 1) * v < n <= ((n + v - 1) / v) * v
  {
    var q, r := (n + v - 1) / v, (n + v - 1) % v;
    assert n + v - 1 == q * v + r && 0 <= r < v;
    assert (q - 1) * v == q * v - v;
  }

  /** `Math.floor(i / v)`: the page, and so the dot, that index `i` belongs to. */
  function ActiveDot(i: int, v: int): int
    requires 1 <= v
  {
    i / v
  }

  /** The `active` class of `count` dots when dot `active` is the current one. */
  function DotStates(count: nat, active: int): seq<bool>
  {
    seq(count, k => k == active)
  }

  /**
   * For an index the carousel may rest on, the page it belongs to has a dot, so
   * after `updateDots` exactly one of the `createDots` dots is active.
   */
  lemma OneActiveDot(n: int, v: int, i: int)
    requires 1 <= n && 1 <= v && 0 <= i <= MaxIndex(n, v)
    ensures 0 <= ActiveDot(i, v) < DotCount(n, v)
    ensures DotStates(DotCount(n, v), ActiveDot(i, v))[ActiveDot(i, v)]
    ensures forall k :: 0 <= k < DotCount(n, v) && DotStates(DotCount(n, v), ActiveDot(i, v))[k]
              ==> k == ActiveDot(i, v)
  {
    var d, a := DotCount(n, v), ActiveDot(i, v);
    assert i == a * v + i % v && 0 <= i % v < v;
    MulCancel(-1, a, v);
    if n <= v {
      assert i == 0;
      MulCancel(0, d, v);
    } else {
      // a * v <= i <= n - v, so (a + 1) * v <= n <= d * v < (d + 1) * v
      assert (a + 1) * v == a * v + v;
      assert (d + 1) * v == d * v + v;
      MulCancel(a + 1, d + 1, v);
    }
  }

  /** Cancelling a positive factor on both sides of a strict inequality. */
  lemma MulCancel(x: int, y: int, v: int)
    requires 1 <= v && x * v < y * v
    ensures x < y
  {
    assert (y - x) * v == y * v - x * v;
  }

  /**
   * `cards.length - visibleCards <= currentIndex`: the next arrow's disabled flag.
   * On a resting index it is set exactly at the last index, and with no more
   * cards than fit on screen it is always set.
   */
  function NextDisabled(i: int, n: int, v: int): (b: bool)
    ensures 0 <= i <= MaxIndex(n, v) ==> (b <==> i == MaxIndex(n, v))
    ensures n <= v && 0 <= i ==> b
  {
    i >= n - v
  }

  /** The index after `nextSlide`: one card forward, and nothing past the last index. */
  function NextIndex(i: int, n: int, v: int): (r: int)
    ensures 0 <= i <= MaxIndex(n, v) ==> 0 <= r <= MaxIndex(n, v)
    ensures r == i || r == i + 1
    ensures r == i + 1 <==> i < MaxIndex(n, v)
  {
    if i < MaxIndex(n, v) then i + 1 else i
  }

  /** The index after `prevSlide`: one card back, and nothing before index 0. */
  function PrevIndex(i: int): (r: int)
    ensures 0 <= i ==> 0 <= r <= i
    ensures r == i || r == i - 1
    ensures r == i - 1 <==> i > 0
  {
    if i > 0 then i - 1 else i
  }

  /** Stepping back undoes a step forward that moved, and the converse. */
  lemma NextPrevUndo(i: int, n: int, v: int)
    requires 0 <= i <= MaxIndex(n, v)
    ensures i < MaxIndex(n, v) ==> PrevIndex(NextIndex(i, n, v)) == i
    ensures 0 < i ==> NextIndex(PrevIndex(i), n, v) == i
  {
  }

  /** The index after `k` calls of `nextSlide` (autoplay ticks, ArrowRight presses). */
  function Advance(i: int, n: int, v: int, k: nat): int
    decreases k
  {
    if k == 0 then i else Advance(NextIndex(i, n, v), n, v, k - 1)
  }

  /**
   * Repeated `nextSlide` moves one card per call and then stays at the last
   * index: no wrap-around.
   */
  lemma {:induction false} AdvanceSaturates(i: int, n: int, v: int, k: nat)
    requires 0 <= i <= MaxIndex(n, v)
    ensures Advance(i, n, v, k) == Clamp(i + k, n, v)
    decreases k
  {
    if k > 0 {
      AdvanceSaturates(NextIndex(i, n, v), n, v, k - 1);
      if i == MaxIndex(n, v) {
        assert Clamp(i + (k - 1), n, v) == i;
      }
    }
  }

  /** What `touchEnd` does with a finished drag. */
  datatype Swipe = ToPrev | ToNext | SnapBack

  /**
   * The decision of `touchEnd` for a drag of `movedBy` pixels: a drag of more
   * than 50px to the right goes back unless at the start, one of more than 50px
   * to the left goes forward unless at the end, everything else snaps back.
   */
  function SwipeFor(movedBy: real, i: int, n: int, v: int): (s: Swipe)
    ensures s == ToPrev <==> movedBy > SwipeThreshold && i > 0
    ensures s == ToNext <==> movedBy < -SwipeThreshold && i < n - v
    ensures -SwipeThreshold <= movedBy <= SwipeThreshold ==> s == SnapBack
  {
    var distance := if movedBy < 0.0 then -movedBy else movedBy;
    if distance > SwipeThreshold then
      if movedBy > 0.0 && i > 0 then ToPrev
      else if movedBy < 0.0 && i < n - v then ToNext
      else SnapBack
    else SnapBack
  }

  /** The closure state of one `initTestimonialCarousel` call and the styles it writes. */
  class Controller {
    /** `cards.length`, fixed once the carousel is built. */
    const cardCount: nat
    /** Both `.carousel-arrow.prev` and `.carousel-arrow.next` exist. */
    const hasArrows: bool

    var currentIndex: int
    var visibleCards: int
    /** Card pitch: the first card's width plus the gap. */
    var cardWidth: int
    /** The track's `translateX`, in pixels. */
    var currentTranslate: int
    var isDragging: bool
    /** Pointer x where the current drag began. */
    var startPos: real
    /** The track's transition is `transform 0.5s ease` (true) or `none` (false). */
    var transitionOn: bool
    /** The `active` class of each dot button, in order. */
    var dots: seq<bool>
    var prevDisabled: bool
    var nextDisabled: bool

    /** What holds between any two statements of the closure. */
    ghost predicate Coherent()
      reads this
    {
      1 <= cardCount && 1 <= visibleCards <= 3 && 0 <= currentIndex
    }

    /** The carousel rests on a valid index and every style matches it. */
    ghost predicate Settled()
      reads this
    {
      Coherent() &&
      currentIndex <= MaxIndex(cardCount, visibleCards) &&
      currentTranslate == Offset(currentIndex, cardWidth, visibleCards) &&
      dots == DotStates(|dots|, ActiveDot(currentIndex, visibleCards)) &&
      (hasArrows ==>
        prevDisabled == (currentIndex == 0) &&
        nextDisabled == NextDisabled(currentIndex, cardCount, visibleCards))
    }

    /** Between events: settled, and the transition is off exactly while dragging. */
    ghost predicate Valid()
      reads this
    {
      Settled() && (transitionOn <==> !isDragging)
    }

    /** The dots are those `createDots` built for the current `visibleCards`. */
    ghost predicate DotsComplete()
      reads this
    {
      1 <= visibleCards && |dots| == DotCount(cardCount, visibleCards)
    }

    /** On a settled carousel with its dots built, exactly the dot of the current page is active. */
    lemma ExactlyOneDotActive()
      requires Settled() && DotsComplete()
      ensures 0 <= ActiveDot(currentIndex, visibleCards) < |dots|
      ensures forall k :: 0 <= k < |dots| ==> (dots[k] <==> k == ActiveDot(currentIndex, visibleCards))
    {
      OneActiveDot(cardCount, visibleCards, currentIndex);
    }

    /** When all cards fit on one page, both arrows are disabled. */
    lemma OnePageDisablesArrows()
      requires Settled() && hasArrows && cardCount <= visibleCards
      ensures prevDisabled && nextDisabled
    {
    }

    /** The variables of `initTestimonialCarousel` followed by its `init()`. */
    constructor (cards: nat, offsetWidth: int, innerWidth: int, arrows: bool)
      requires 1 <= cards
      ensures Valid() && DotsComplete()
      ensures cardCount == cards && hasArrows == arrows
      ensures visibleCards == VisibleCardsFor(innerWidth)
      ensures cardWidth == offsetWidth + CardGap
      ensures currentIndex == 0 && currentTranslate == 0
      ensures !isDragging && transitionOn
      ensures dots == DotStates(DotCount(cards, visibleCards), 0)
      ensures hasArrows ==> prevDisabled && (nextDisabled <==> cards <= visibleCards)
    {
      cardCount := cards;
      hasArrows := arrows;
      currentIndex := 0;
      cardWidth := offsetWidth + CardGap;
      visibleCards := 3;
      isDragging := false;
      startPos := 0.0;
      currentTranslate := 0;
      transitionOn := true;
      dots := [];
      prevDisabled := false;
      nextDisabled := false;
      new;
      UpdateVisibleCards(innerWidth, offsetWidth);
      CreateDots();
      UpdateButtonStates();
    }

    /** Picks 1, 2 or 3 visible cards from the viewport width, then re-renders. */
    method UpdateVisibleCards(innerWidth: int, offsetWidth: int)
      requires Coherent()
      modifies this
      ensures Settled()
      ensures visibleCards == VisibleCardsFor(innerWidth)
      ensures currentIndex == Clamp(old(currentIndex), cardCount, visibleCards)
      ensures cardWidth == offsetWidth + CardGap && |dots| == |old(dots)|
      ensures isDragging == old(isDragging) && startPos == old(startPos)
      ensures transitionOn == old(transitionOn)
    {
      if innerWidth < MobileBreakpoint {
        visibleCards := 1;
      } else if innerWidth < TabletBreakpoint {
        visibleCards := 2;
      } else {
        visibleCards := 3;
      }
      UpdateCarousel(offsetWidth);
    }

    /** Rebuilds the dots: one per page, the first one active. */
    method CreateDots()
      requires Coherent()
      modifies this`dots
      ensures dots == DotStates(DotCount(cardCount, visibleCards), 0)
    {
      dots := [];
      var dotCount := (cardCount + visibleCards - 1) / visibleCards;
      var i := 0;
      while i < dotCount
        invariant 0 <= i <= dotCount
        invariant dots == DotStates(i, 0)
      {
        dots := dots + [i == 0];
        i := i + 1;
      }
    }

    /** Re-reads the card width, clamps the index and renders offset, dots and arrows. */
    method UpdateCarousel(offsetWidth: int)
      requires Coherent()
      modifies this
      ensures Settled()
      ensures currentIndex == Clamp(old(currentIndex), cardCount, visibleCards)
      ensures cardWidth == offsetWidth + CardGap
      ensures visibleCards == old(visibleCards) && |dots| == |old(dots)|
      ensures isDragging == old(isDragging) && startPos == old(startPos)
      ensures transitionOn == old(transitionOn)
      ensures !hasArrows ==> prevDisabled == old(prevDisabled) && nextDisabled == old(nextDisabled)
    {
      cardWidth := offsetWidth + CardGap;
      var maxIndex := if cardCount - visibleCards > 0 then cardCount - visibleCards else 0;
      currentIndex := if currentIndex <= maxIndex then currentIndex else maxIndex;
      currentTranslate := -currentIndex * cardWidth * visibleCards;
      UpdateDots();
      UpdateButtonStates();
    }

    /** Marks the dot of the current page active and every other dot inactive. */
    method UpdateDots()
      requires Coherent()
      modifies this`dots
      ensures dots == DotStates(|old(dots)|, ActiveDot(currentIndex, visibleCards))
    {
      var activeDotIndex := currentIndex / visibleCards;
      var index := 0;
      while index < |dots|
        invariant 0 <= index <= |dots| == |old(dots)|
        invariant forall k :: 0 <= k < index ==> dots[k] == (k == activeDotIndex)
      {
        dots := dots[index := index == activeDotIndex];
        index := index + 1;
      }
    }

    /** Disables prev at the first index and next from the last index on. */
    method UpdateButtonStates()
      modifies this`prevDisabled, this`nextDisabled
      ensures hasArrows ==> prevDisabled == (currentIndex == 0)
      ensures hasArrows ==> nextDisabled == NextDisabled(currentIndex, cardCount, visibleCards)
      ensures !hasArrows ==> prevDisabled == old(prevDisabled) && nextDisabled == old(nextDisabled)
    {
      if !hasArrows {
        return;
      }
      prevDisabled := currentIndex == 0;
      nextDisabled := currentIndex >= cardCount - visibleCards;
    }

    /** Dot `index` was clicked: jump to index `index * visibleCards`, then clamp. */
    method GoToSlide(index: nat, offsetWidth: int)
      requires Settled()
      modifies this
      ensures Settled()
      ensures currentIndex == Clamp(index * visibleCards, cardCount, visibleCards)
      ensures cardWidth == offsetWidth + CardGap
      ensures visibleCards == old(visibleCards) && |dots| == |old(dots)|
      ensures isDragging == old(isDragging) && startPos == old(startPos)
      ensures transitionOn == old(transitionOn)
    {
      currentIndex := index * visibleCards;
      UpdateCarousel(offsetWidth);
    }

    /** One card forward, or nothing at all at the last index. */
    method NextSlide(offsetWidth: int)
      requires Settled()
      modifies this
      ensures Settled()
      ensures currentIndex == NextIndex(old(currentIndex), cardCount, visibleCards)
      ensures old(currentIndex) == MaxIndex(cardCount, visibleCards) ==> unchanged(this)
      ensures old(currentIndex) < MaxIndex(cardCount, visibleCards) ==> cardWidth == offsetWidth + CardGap
      ensures visibleCards == old(visibleCards) && |dots| == |old(dots)|
      ensures isDragging == old(isDragging) && startPos == old(startPos)
      ensures transitionOn == old(transitionOn)
    {
      var maxIndex := if cardCount - visibleCards > 0 then cardCount - visibleCards else 0;
      if currentIndex < maxIndex {
        currentIndex := currentIndex + 1;
        UpdateCarousel(offsetWidth);
      }
    }

    /** One card back, or nothing at all at index 0. */
    method PrevSlide(offsetWidth: int)
      requires Settled()
      modifies this
      ensures Settled()
      ensures currentIndex == PrevIndex(old(currentIndex))
      ensures old(currentIndex) == 0 ==> unchanged(this)
      ensures old(currentIndex) > 0 ==> cardWidth == offsetWidth + CardGap
      ensures visibleCards == old(visibleCards) && |dots| == |old(dots)|
      ensures isDragging == old(isDragging) && startPos == old(startPos)
      ensures transitionOn == old(transitionOn)
    {
      if currentIndex > 0 {
        currentIndex := currentIndex - 1;
        UpdateCarousel(offsetWidth);
      }
    }

    /** Touch start or mouse down at `clientX`: begin a drag with the transition off. */
    method TouchStart(clientX: real)
      requires Valid()
      modifies this`isDragging, this`startPos, this`transitionOn
      ensures Valid()
      ensures isDragging && startPos == clientX && !transitionOn
    {
      isDragging := true;
      startPos := clientX;
      transitionOn := false;
    }

    /**
     * Touch end, mouse up or mouse leave at `clientX`. Outside a drag nothing
     * happens; otherwise the drag ends, the swipe is decided on the distance
     * moved, and the transition is turned back on.
     */
    method TouchEnd(clientX: real, offsetWidth: int)
      requires Valid()
      modifies this
      ensures Valid()
      ensures !old(isDragging) ==> unchanged(this)
      ensures old(isDragging) ==> !isDragging && transitionOn
      ensures old(isDragging) ==>
        var s := SwipeFor(clientX - old(startPos), old(currentIndex), cardCount, visibleCards);
        currentIndex == (match s
                          case ToPrev => old(currentIndex) - 1
                          case ToNext => old(currentIndex) + 1
                          case SnapBack => old(currentIndex))
      ensures old(isDragging) ==> cardWidth == offsetWidth + CardGap
      ensures visibleCards == old(visibleCards) && |dots| == |old(dots)|
      ensures startPos == old(startPos)
    {
      if !isDragging {
        return;
      }
      isDragging := false;
      var movedBy := clientX - startPos;
      var distance := if movedBy < 0.0 then -movedBy else movedBy;
      if distance > SwipeThreshold {
        if movedBy > 0.0 && currentIndex > 0 {
          PrevSlide(offsetWidth);
        } else if movedBy < 0.0 && currentIndex < cardCount - visibleCards {
          NextSlide(offsetWidth);
        } else {
          UpdateCarousel(offsetWidth);
        }
      } else {
        UpdateCarousel(offsetWidth);
      }
      transitionOn := true;
    }

    /** The document keydown listener: ArrowLeft goes back, ArrowRight forward. */
    method KeyDown(key: Key, offsetWidth: int)
      requires Valid()
      modifies this
      ensures Valid()
      ensures key == ArrowLeft ==> currentIndex == PrevIndex(old(currentIndex))
      ensures key == ArrowRight ==> currentIndex == NextIndex(old(currentIndex), cardCount, visibleCards)
      ensures key != ArrowLeft && key != ArrowRight ==> unchanged(this)
      ensures currentIndex == old(currentIndex) ==> unchanged(this)
      ensures currentIndex != old(currentIndex) ==> cardWidth == offsetWidth + CardGap
      ensures visibleCards == old(visibleCards) && |dots| == |old(dots)|
      ensures isDragging == old(isDragging) && startPos == old(startPos)
      ensures transitionOn == old(transitionOn)
    {
      if key == ArrowLeft {
        PrevSlide(offsetWidth);
      } else if key == ArrowRight {
        NextSlide(offsetWidth);
      }
    }
  }

  /**
   * `initTestimonialCarousel`: without a carousel and track, or without cards,
   * nothing is built; otherwise a controller at index 0 with prev disabled.
   */
  method InitTestimonialCarousel(hasTrack: bool, cards: nat, offsetWidth: int, innerWidth: int, arrows: bool)
    returns (c: Controller?)
    ensures c == null <==> !hasTrack || cards == 0
    ensures c != null ==> fresh(c) && c.Valid() && c.DotsComplete()
    ensures c != null ==> c.cardCount == cards && c.hasArrows == arrows
    ensures c != null ==> c.visibleCards == VisibleCardsFor(innerWidth)
    ensures c != null ==> c.cardWidth == offsetWidth + CardGap
    ensures c != null ==> c.currentIndex == 0 && c.currentTranslate == 0
    ensures c != null ==> !c.isDragging && c.transitionOn
    ensures c != null ==> c.dots == DotStates(DotCount(cards, c.visibleCards), 0)
    ensures c != null && arrows ==> c.prevDisabled && (c.nextDisabled <==> cards <= c.visibleCards)
  {
    if !hasTrack || cards == 0 {
      return null;
    }
    c := new Controller(cards, offsetWidth, innerWidth, arrows);
  }
}
