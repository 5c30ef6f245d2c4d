# Carousel, pricing filter and FAQ accordion of the InstaLiveView site scripts

This project models the stateful parts of the site's client-side scripts and proves
properties of them:

- **Testimonial carousel** (`initTestimonialCarousel` in `js/main.js`). This is the
  class `Carousel.Controller`. Its fields are the closure variables `currentIndex`,
  `visibleCards`, `cardWidth`, `currentTranslate`, `isDragging` and `startPos`. It
  also holds the styles the closure writes: whether the track has its transition,
  the `active` class of each dot, and the `disabled` flags of the arrows. DOM reads
  become parameters: the viewport width (`innerWidth`), the first card's
  `offsetWidth`, and the pointer's `clientX`, a `real` since touch and mouse
  coordinates are fractional CSS pixels. The invariant `Settled` says the index
  lies in `0 .. max(0, n - visibleCards)`. It also says the offset, the dots and the
  arrows all match that index. `Valid` adds that the transition is off exactly
  while a drag is in progress.
- **Pricing filter** (`initPricingFilters` in `js/main.js`). This is the class
  `PricingFilters.Filters`. It holds the `display` of each table row and the
  `active` class of each filter button. A button's `data-category` may be missing,
  so it is an `Option<string>`.
- **FAQ accordion** (`js/faq.js`). This is the class `Faq.Accordion`. It holds
  `aria-expanded` for each question, whether each answer is open, and the question
  the keyboard handler last focused. Initialisation collapses every answer but keeps
  the `aria-expanded` flags from the markup. The invariant is therefore "an open
  answer belongs to an expanded question", not equality of the two.

The model follows the carousel code as written:

- `nextSlide` and `prevSlide` move `currentIndex` by one card. The rendered offset,
  however, is `-currentIndex * cardWidth * visibleCards`, which moves by a whole
  page per index. `goToSlide(i)` sets the index to `i * visibleCards` before
  `updateCarousel` clamps it, so with `n` cards and `v = visibleCards` its offset is `Clamp(i * v, n, v) * v` cards: with
  `n = 5`, `v = 3` and `i = 1` the index becomes `min(3, 2) = 2` and the offset is 6
  cards. The model keeps this as written.
  `Carousel.WindowOverrunIff` characterises the consequence. Some resting index puts
  the first visible card past the last full page exactly when more than one card is
  visible and the cards do not fit on one page.
- The index is therefore not always a multiple of `visibleCards`. Repeated `nextSlide`
  calls (autoplay ticks, ArrowRight) advance one card each (`Carousel.AdvanceSaturates`).
- A window resize does not re-clamp the index of the running carousel. The resize
  handler calls `initTestimonialCarousel` again, which builds a fresh closure at
  index 0. That is `Carousel.InitTestimonialCarousel` again.

## Model

| member | source | states |
|---|---|---|
| `Carousel.VisibleCardsFor` | js/main.js:466-473 | 1 card below 768px, 2 below 1200px, 3 from 1200px; always in 1..3 |
| `Carousel.VisibleCardsMonotone` | js/main.js:466-473 | a wider viewport never shows fewer cards |
| `Carousel.MaxIndex` | js/main.js:497 | the last resting index is at least 0 and at least `n - visibleCards`, and is one of the two |
| `Carousel.Clamp` | js/main.js:497-498 | the clamped index never exceeds the old index or the last index, keeps an in-range index, stays non-negative |
| `Carousel.OffsetIsFirstShownCard` | js/main.js:501 | the rendered offset is minus the first shown card (`index * visibleCards`) times the card pitch |
| `Carousel.WindowOverrunIff` | js/main.js:496-501 | some resting index shows a window starting past the last full page iff `visibleCards > 1` and `n > visibleCards` |
| `Carousel.DotCount` | js/main.js:482 | the dot count `d` is the ceiling of `n / visibleCards`: `(d - 1) * v < n <= d * v` |
| `Carousel.OneActiveDot` | js/main.js:482-517 | for any resting index with n ≥ 1, the page `floor(index / visibleCards)` has a dot, and exactly that dot is active |
| `Carousel.NextDisabled` | js/main.js:526 | on a resting index, next is disabled exactly at the last index; with `n <= visibleCards` it is always disabled |
| `Carousel.NextIndex` | js/main.js:536-546 | `nextSlide` adds exactly 1 iff below the last index, else keeps the index; the range is preserved |
| `Carousel.PrevIndex` | js/main.js:549-558 | `prevSlide` subtracts exactly 1 iff above 0, else keeps the index; never goes below 0 |
| `Carousel.NextPrevUndo` | js/main.js:536-558 | a step back undoes a step forward that moved, and the converse |
| `Carousel.AdvanceSaturates` | js/main.js:536-546 | k calls of `nextSlide` from a resting index give `min(index + k, last index)`: no wrap-around |
| `Carousel.SwipeFor` | js/main.js:595-606 | for a drag of any real distance, one of more than 50px right goes back iff not at index 0; more than 50px left goes forward iff `index < n - visibleCards`; a drag of at most 50px either way snaps back |
| `Carousel.Controller.ExactlyOneDotActive` | js/main.js:512-519 | on a settled carousel with its dots built, the active dot exists and is the only active one |
| `Carousel.Controller.OnePageDisablesArrows` | js/main.js:522-527 | when all cards fit on one page, both arrows are disabled |
| `Carousel.Controller.constructor` | js/main.js:453-463 | initial state plus `init()`: index 0, offset 0, `visibleCards` from the width, `ceil(n / v)` dots with only dot 0 active, prev disabled, next disabled iff `n <= v` |
| `Carousel.Controller.UpdateVisibleCards` | js/main.js:466-475 | sets `visibleCards` from the viewport width, then re-renders with the index clamped |
| `Carousel.Controller.CreateDots` | js/main.js:478-492 | builds `ceil(n / visibleCards)` dots, only the first active |
| `Carousel.Controller.UpdateCarousel` | js/main.js:495-509 | re-reads the card pitch (width + 30), clamps the index (never increasing it), and leaves offset, dots and arrows matching it |
| `Carousel.Controller.UpdateDots` | js/main.js:512-519 | exactly the dot `floor(index / visibleCards)` is active; the dot count is unchanged |
| `Carousel.Controller.UpdateButtonStates` | js/main.js:522-527 | prev disabled iff index 0, next disabled iff `index >= n - visibleCards`; nothing happens without the arrows |
| `Carousel.Controller.GoToSlide` | js/main.js:530-533 | the index becomes `min(i * visibleCards, max(0, n - visibleCards))` |
| `Carousel.Controller.NextSlide` | js/main.js:536-546 | the index becomes `NextIndex` of the old one; at the last index nothing at all changes |
| `Carousel.Controller.PrevSlide` | js/main.js:549-558 | the index becomes `PrevIndex` of the old one; at index 0 nothing at all changes |
| `Carousel.Controller.TouchStart` | js/main.js:561-566 | starts a drag at the pointer's x and turns the transition off |
| `Carousel.Controller.TouchEnd` | js/main.js:587-609 | outside a drag it changes nothing; otherwise it ends the drag, moves the index by the `SwipeFor` decision, re-reads the card pitch on every branch and turns the transition back on; the drag start position is kept |
| `Carousel.Controller.KeyDown` | js/main.js:633-639 | ArrowLeft is `prevSlide`, ArrowRight is `nextSlide`, other keys change nothing; whenever the index stays (ArrowLeft at 0, ArrowRight at the last index) nothing at all changes; the card pitch is re-read when the index moves; the drag state, start position and transition are never touched |
| `Carousel.InitTestimonialCarousel` | js/main.js:437-451 | no carousel without a track or without cards; otherwise the controller of the constructor for these inputs: card count, arrows, `visibleCards` from the width, card pitch, index and offset 0, `ceil(n / v)` dots with only dot 0 active, prev disabled, next disabled iff `n <= v` |
| `PricingFilters.FilterSelectsCategory` | js/main.js:346-357 | filter "all" displays every row; any other filter displays a row iff the row's category equals it |
| `PricingFilters.FiltersAreDisjoint` | js/main.js:348-355 | two different filters other than "all" never display the same row; a button without a category hides every row |
| `PricingFilters.FirstAllButton` | js/main.js:378 | finds the first filter button whose category is "all", or reports that there is none |
| `PricingFilters.Filters.constructor` | js/main.js:377-387 | clicks the first "all" button if any, then every row is displayed |
| `PricingFilters.Filters.FilterTable` | js/main.js:346-357 | each row is displayed iff the filter is "all" or equals the row's category; buttons untouched |
| `PricingFilters.Filters.Click` | js/main.js:359-375 | exactly the clicked button is active and the rows are filtered by its category |
| `PricingFilters.InitPricingFilters` | js/main.js:317-344 | nothing is set up without buttons or rows; otherwise the filter holds the given rows and buttons, every row is displayed, and only the first "all" button is active (the markup's classes stay when there is none) |
| `Faq.AfterClick` | js/faq.js:15-41 | the clicked flag is negated; collapsing leaves the others unchanged; expanding collapses all others, so at most one is expanded; "at most one" is preserved |
| `Faq.FocusDown` | js/faq.js:53-54 | ArrowDown focuses the next question, wrapping from the last to the first; always a valid index |
| `Faq.FocusUp` | js/faq.js:55-57 | ArrowUp focuses the previous question, wrapping from the first to the last; always a valid index |
| `Faq.FocusMovesUndo` | js/faq.js:50-59 | ArrowUp undoes ArrowDown and ArrowDown undoes ArrowUp |
| `Faq.Dismissed` | js/faq.js:81-90 | after a page click, a question stays expanded iff it was expanded and the click was inside an FAQ item |
| `Faq.DismissedIdempotent` | js/faq.js:81-90 | a second identical outside click changes nothing more |
| `Faq.Accordion.constructor` | js/faq.js:6-13 | every answer collapsed, `aria-expanded` as in the markup, no focus |
| `Faq.Accordion.Click` | js/faq.js:15-41 | flags become `AfterClick`; the clicked answer follows its flag, and expanding collapses every other answer |
| `Faq.Accordion.CloseAllByClicking` | js/faq.js:66-72 | clicking each expanded question in turn leaves every question and answer collapsed |
| `Faq.Accordion.KeyDown` | js/faq.js:44-74 | Enter/Space click, with the answers as `Click` leaves them; ArrowDown/ArrowUp/Home/End move the focus to `FocusDown`/`FocusUp`/0/n-1 without touching any flag; Escape collapses all; other keys change nothing |
| `Faq.Accordion.DocumentClick` | js/faq.js:81-90 | flags and answers become `Dismissed` of the old ones: all collapsed for a click outside every item, unchanged inside |

## Left out

- The drag-move handler (`touchMove`) is not modelled. It only writes a transient transform and never changes `currentIndex`. It also reassigns a `const`, which throws at a boundary, and produces fractional pixel offsets.
- Autoplay and the hover pause are not modelled, because they are timers. Each tick is a `nextSlide` call, which `Carousel.AdvanceSaturates` covers.
- `prevTranslate`, `animationID` and `cancelAnimationFrame` are not modelled: no behaviour depends on them.
- Re-initialisation is not modelled: the clone-and-replace step, repeated `initTestimonialCarousel` calls, the debounced resize timer, and the document keydown listeners that accumulate across calls. Each call builds a fresh `Carousel.Controller`.
- A carousel without a dots container is not modelled. There, `updateDots` dereferences null and initialisation throws. The model assumes the container exists.
- `Carousel.Controller.constructor` treats the two arrows together as present or absent. A page with only one arrow is not modelled.
- The transform and transition strings become an integer offset and a boolean.
- The whole-document lookup of the "all" button is modelled as the first "all" button among the filter buttons.
- The console logging is not modelled.
- In the FAQ, the pixel heights from `scrollHeight`, the `.focus()` calls and the `tabindex` attribute are abstract state. A missing answer element would throw at initialisation; the model assumes every answer exists.
- The click that Enter, Space or Escape dispatches bubbles to the document listener. The model assumes the markup places every question inside an `.faq-item`, so that listener does nothing for it; the two calls are not chained.
- JavaScript's `%` truncates toward zero, but every operand of `%` here is non-negative, so Dafny's `%` agrees with it.
- The monthly/yearly pricing toggle (`updatePricing`) is left out: it only copies attribute strings into the page.
- The flip-card FAQ block is left out: it is malformed code that uses undefined names.
- The brackets of `js/main.js` do not balance inside that block: the `}` at line 284 closes an arrow body while the `faqCards.forEach(` of line 221 is still open, and `}, 300);` and `});` at lines 313-314 close the wrong brackets. As written the file is a syntax error, so none of it runs, `initTestimonialCarousel` and `initPricingFilters` included. The model describes the bodies of those two functions as they would behave if the file parsed.
- The mobile menu, smooth scrolling, the contact form, the scroll-reveal animations and the how-it-works step animations are left out. They are DOM, geometry and timer glue with no state to verify.
