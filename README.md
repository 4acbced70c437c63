# F Garage site logic in Dafny

F Garage is a React marketing site for a workshop that restores classic American cars.
Almost all of it is markup and framer-motion animation. This project models the small
pieces of logic with behaviour that can be stated, and proves properties of them:

- the two image carousels: the work gallery and the hero backdrop;
- the before/after drag slider;
- the scroll-section indicator;
- the testimonial star rating;
- the preloader's progress bar and phase machine;
- the tachometer's gauge arithmetic;
- the phone formatting, the contact links and the floating menu toggle;
- the word, character and line timings of the text animations.

There is one module per component file:

- `Gallery`, `Hero`, `BeforeAfter`, `ScrollIndicator` and `Preloader` hold classes. Their
  state fields change through methods, in the same way the component's `useState` setters
  change them. Most methods are specified by a pure function that the lemmas reason about;
  the dot clicks and the press handlers are specified by their new state directly.
- `FloatingContact` holds the `isOpen` flag as a class, and its links as functions.
- `Testimonials`, `Tachometer`, `ContactInfo` and `TextAnimations` are pure functions and
  lemmas, as the components are.
- `Wrappers` holds the `Option` type, used for a DOM element that may be absent.
- `Constants` holds the site data from constants.tsx that several components display, and
  `JsMath` holds `Math.min` and `Math.max`.

Numbers are Dafny `real`s. Randomness, timers and DOM geometry are parameters or explicit
method calls:

- `Math.random()` in the preloader is the argument `r`, with `0 <= r < 1`.
- Every interval tick, timeout and event handler is one method call.
- `getBoundingClientRect`, `scrollY`, `innerHeight`, the document height, the section tops,
  the footer's top and `getElementById`'s null result are arguments to those methods.

## Model

| member | source | states |
|---|---|---|
| Gallery.NextIndex | components/Gallery.tsx:10 | the `next` updater maps the last index to 0 and any other `i` to `i+1`, so it stays in `[0,N)` and equals `(i+1) mod N` |
| Gallery.PrevIndex | components/Gallery.tsx:11 | the `prev` updater maps 0 to `N-1` and any other `i` to `i-1`, so it stays in `[0,N)` and equals `(i-1) mod N` |
| Gallery.PrevUndoesNext | components/Gallery.tsx:10-11 | `prev(next(i)) == i` for every in-range index |
| Gallery.NextUndoesPrev | components/Gallery.tsx:10-11 | `next(prev(i)) == i` for every in-range index |
| Gallery.NextTimes | components/Gallery.tsx:10 | pressing `next` `k` times keeps the index in range |
| Gallery.NextTimesNoWrap | components/Gallery.tsx:10 | `k` presses that do not reach the end advance the index by exactly `k` |
| Gallery.NextTimesAdd | components/Gallery.tsx:10 | `a` presses followed by `b` presses are `a+b` presses |
| Gallery.NextCycle | components/Gallery.tsx:10 | `N` presses return to the starting index |
| Gallery.IsActiveDot | components/Gallery.tsx:105 | dot `idx` is drawn active exactly when `idx === currentIndex`; `ExactlyOneActiveDot` states its uniqueness |
| Gallery.ExactlyOneActiveDot | components/Gallery.tsx:101-107 | the set of dots drawn as active is exactly `{currentIndex}`, so it has one element |
| Gallery.DigitChar | components/Gallery.tsx:49 | a decimal digit becomes the character that has that digit's value |
| Gallery.NatToString | components/Gallery.tsx:49 | `String(k)` is a digit string whose value is `k`, with no leading zero, and it is one character long exactly when `k < 10` |
| Gallery.PadStart | components/Gallery.tsx:49 | `padStart` keeps the string as the suffix, fills the front with the fill character, and gives length `max(|s|, width)` |
| Gallery.PadTwoDigits | components/Gallery.tsx:49 | a one-digit number gets a single leading `'0'`; two or more digits are left unchanged |
| Gallery.CounterText | components/Gallery.tsx:49 | the counter: the padded position, ` / ` and the padded item count; `CounterOfFirstOfFour` gives an instance |
| Gallery.CounterOfFirstOfFour | components/Gallery.tsx:49 | with the four work items and the first one shown, the counter reads `01 / 04` |
| Gallery.LogbookLabel | components/Gallery.tsx:59 | the label is `LOGBOOK #` followed by `String(100 + id)`, the canonical decimal digits of `100 + id` |
| Gallery.Carousel.constructor | components/Gallery.tsx:8 | the index starts at 0 |
| Gallery.Carousel.Next | components/Gallery.tsx:10 | the index becomes `NextIndex` of the old index and stays in range |
| Gallery.Carousel.Prev | components/Gallery.tsx:11 | the index becomes `PrevIndex` of the old index and stays in range |
| Gallery.Carousel.SelectDot | components/Gallery.tsx:104-105 | clicking dot `idx` sets the index to exactly `idx`, and that dot is then the only active one |
| Gallery.Carousel.Counter | components/Gallery.tsx:49 | the counter text for the current index and the number of items |
| Gallery.Carousel.Label | components/Gallery.tsx:59 | the logbook label of the current item |
| Hero.TickIndex | components/Hero.tsx:21 | the interval updater `(i+1) % N` stays in `[0,N)` and agrees with the gallery's conditional `next` |
| Hero.TicksFrom | components/Hero.tsx:21 | any number of ticks keeps the index in range |
| Hero.TicksAreGalleryPresses | components/Hero.tsx:21 | `k` ticks land where `k` presses of the gallery's `next` land |
| Hero.TickCycle | components/Hero.tsx:21 | `N` ticks return to the starting background |
| Hero.Backdrop.constructor | components/Hero.tsx:17 | the background index starts at 0 |
| Hero.Backdrop.Tick | components/Hero.tsx:20-22 | one interval firing sets the index to `TickIndex` of the old index |
| Hero.Backdrop.SelectDot | components/Hero.tsx:114 | a dot click sets the index to exactly `idx` |
| Hero.Backdrop.ExactlyOneActive | components/Hero.tsx:37-38 | exactly one background image is active: the set of active ones is `{currentBg}` |
| Hero.Backdrop.IsActive | components/Hero.tsx:38 | `isActive`: background `idx` is the current one |
| BeforeAfter.Percentage | components/BeforeAfterSection.tsx:30-32 | the position lies in `[0,100]`; on the track it is exactly `(clientX-left)/width*100`; at or left of the track it is 0, and at or right of it 100 |
| JsMath.Min | components/BeforeAfterSection.tsx:32 | `Math.min` of two numbers: at most both and equal to one of them |
| JsMath.Max | components/BeforeAfterSection.tsx:32 | `Math.max` of two numbers: at least both and equal to one of them |
| BeforeAfter.PercentageMonotonic | components/BeforeAfterSection.tsx:31-32 | moving the pointer to the right never moves the handle to the left |
| BeforeAfter.ClipRightInset | components/BeforeAfterSection.tsx:77 | the clip inset `100 - position` lies in `[0,100]`, and it reveals a width of the "before" image equal to the handle offset |
| BeforeAfter.Card.constructor | components/BeforeAfterSection.tsx:24-25 | the card starts with no drag and the handle at 50 |
| BeforeAfter.Card.HandleMove | components/BeforeAfterSection.tsx:27-34 | with no container element nothing changes; otherwise the position becomes `Percentage` of the pointer |
| BeforeAfter.Card.HandleMouseMove | components/BeforeAfterSection.tsx:36-39 | a mouse move while not dragging leaves the position unchanged; while dragging it acts as `HandleMove` |
| BeforeAfter.Card.HandleTouchMove | components/BeforeAfterSection.tsx:41-44 | the same gating for touch moves, using only the first touch's x coordinate |
| BeforeAfter.Card.PressStart | components/BeforeAfterSection.tsx:59-63 | mouse-down and touch-start set the dragging flag and leave the position unchanged |
| BeforeAfter.Card.PressEnd | components/BeforeAfterSection.tsx:60-64 | mouse-up, mouse-leave and touch-end clear the dragging flag and leave the position unchanged |
| BeforeAfter.Card.ClipInset | components/BeforeAfterSection.tsx:77 | the clip inset of the current position, as `ClipRightInset` states it |
| BeforeAfter.TrackExamples | components/BeforeAfterSection.tsx:30-32 | on a 200-wide track at 0, a pointer at -50 gives 0, at 500 gives 100, and at 100 gives 50 |
| ScrollIndicator.SectionTops | components/ScrollIndicator.tsx:27-30 | each existing section's document top is `scrollY + rect.top`, and a missing section stays missing; its scroll invariance is stated by `SectionTopsScrollInvariant` |
| ScrollIndicator.ScrolledRectTops | components/ScrollIndicator.tsx:29 | the viewport-relative tops after the page scrolls by `d`: every existing element moves up by `d` and no element appears or disappears |
| ScrollIndicator.SectionTopsScrollInvariant | components/ScrollIndicator.tsx:29-30 | the document tops do not depend on the scroll offset: scrolling by `d` leaves `SectionTops` unchanged |
| ScrollIndicator.LastReached | components/ScrollIndicator.tsx:25-35 | the largest index whose section exists and whose top is at or above the probe point, or 0 when there is none; always in range |
| ScrollIndicator.LastReachedMonotonic | components/ScrollIndicator.tsx:25-35 | with the tops fixed, a lower probe point never yields a larger section index |
| ScrollIndicator.ScrollingDownNeverMovesBack | components/ScrollIndicator.tsx:16-35 | scrolling the page down never moves the indicator back to an earlier section |
| ScrollIndicator.FindSection | components/ScrollIndicator.tsx:24-36 | the `forEach` loop that overwrites `foundIndex` computes `LastReached` |
| ScrollIndicator.NextIndex | components/ScrollIndicator.tsx:57 | `min(current+1, len-1)` is in range and at least `current`; it is `current+1` before the last section and stays on the last one |
| ScrollIndicator.IsNearBottom | components/ScrollIndicator.tsx:21 | `isNearBottom`: `scrollY + innerHeight > documentHeight - 200`; `HandleScroll` sets `isAtEnd` to it |
| ScrollIndicator.ScrollPosition | components/ScrollIndicator.tsx:16 | the probe point `scrollY + innerHeight / 2` |
| ScrollIndicator.Indicator.constructor | components/ScrollIndicator.tsx:10-12 | the indicator starts at section 0, not at the end, and visible |
| ScrollIndicator.Indicator.HandleScroll | components/ScrollIndicator.tsx:15-43 | `isAtEnd` holds exactly when `scrollY + innerHeight > documentHeight - 200`; the section is the one the loop finds; with a footer, visibility is `footer.top > innerHeight`; without one, visibility is unchanged |
| ScrollIndicator.Indicator.HandleClick | components/ScrollIndicator.tsx:51-63 | at the end the click scrolls to the top and never to a section; otherwise it scrolls to section `NextIndex` if that element exists, and does nothing if it does not |
| ScrollIndicator.Indicator.IsShown | components/ScrollIndicator.tsx:65 | the component renders exactly while `isVisible` holds |
| Testimonials.Trunc | components/Testimonials.tsx:33 | rounding toward zero: the floor for non-negative values, and the least integer at or above the value for negative ones |
| Testimonials.FracPart | components/Testimonials.tsx:33 | `rating % 1` lies in `[0,1)` and is `rating - floor(rating)` for non-negative ratings, and lies in `(-1,0]` for negative ones |
| Testimonials.FullStars | components/Testimonials.tsx:32 | `fullStars = Math.floor(rating)` |
| Testimonials.HasHalfStar | components/Testimonials.tsx:33 | `hasHalfStar`: the fractional part `rating % 1` is at least 0.5 |
| Testimonials.IsFull | components/Testimonials.tsx:38 | `isFull`: the slot lies before `fullStars` |
| Testimonials.IsHalf | components/Testimonials.tsx:39 | `isHalf`: the slot is at `fullStars` and the rating has a half star |
| Testimonials.IsEmpty | components/Testimonials.tsx:40 | `isEmpty`: the slot is at or after `fullStars` and is not the half star |
| Testimonials.SlotKindsPartition | components/Testimonials.tsx:38-40 | every star position is exactly one of full, half and empty |
| Testimonials.SlotAt | components/Testimonials.tsx:37-40 | a position is drawn full, half or empty exactly when `isFull`, `isHalf` or `isEmpty` holds |
| Testimonials.Stars | components/Testimonials.tsx:37-40 | the five slots of a rating; the full prefix, the single half slot and the page examples are stated by the lemmas beside it |
| Testimonials.FullCountPrefix | components/Testimonials.tsx:32-38 | among the first `k` slots, `floor(rating)` clamped to `[0,k]` are full |
| Testimonials.FullSlots | components/Testimonials.tsx:32-38 | slot `i` is full exactly when `i < floor(rating)`, so the full slots form a prefix with `floor(rating)` clamped to `[0,5]` slots in it |
| Testimonials.HalfCountPrefix | components/Testimonials.tsx:33-39 | among the first `k` slots there is one half star, at `floor(rating)`, exactly when the fractional part is at least 0.5 and that position is among them |
| Testimonials.HalfSlot | components/Testimonials.tsx:33-39 | there is at most one half slot; it sits at `floor(rating)` and appears only when the fractional part is at least 0.5 |
| Testimonials.PageRatings | components/Testimonials.tsx:12-28 | the page's ratings 5, 4 and 4.5 render as five full; four full and one empty; and four full and one half |
| Preloader.Step | components/Preloader.tsx:74-83 | the progress updater never exceeds 100; from 100 or more it returns exactly 100; below 100 it strictly increases and adds less than 30 |
| Preloader.StepStaysInRange | components/Preloader.tsx:74-83 | starting from a progress in `[0,100]`, the next one is in `[0,100]` |
| Preloader.NoJitterNeverCompletes | components/Preloader.tsx:80-82 | with no random term, a progress below 100 never reaches 100 in one step |
| Preloader.Run | components/Preloader.tsx:73-84 | a run of ticks from a start in `[0,100]` ends in `[start,100]` |
| Preloader.DoneIsFixedPoint | components/Preloader.tsx:75-78 | once at 100, any further ticks stay at 100 |
| Preloader.AfterProgressEffect | components/Preloader.tsx:89-91 | the phase changes only from `loading` and only when progress is at least 100, and then to `revealing`; it never moves backwards |
| Preloader.AfterRevealTimeout | components/Preloader.tsx:92-93 | the timeout changes the phase only from `revealing`, and to `complete`; it never moves backwards |
| Preloader.OverlayShown | components/Preloader.tsx:101 | the overlay is rendered exactly while the phase is not `complete` |
| Preloader.DisplayedPercent | components/Preloader.tsx:340 | `Math.floor(progress)` lies in `[0,100]` and is the floor |
| Preloader.Loader.constructor | components/Preloader.tsx:69-73 | progress starts at 0, the phase at `loading`, and the interval is running |
| Preloader.Loader.Tick | components/Preloader.tsx:73-84 | one firing applies `Step` while the interval runs, and clears it when the old progress had reached 100 |
| Preloader.Loader.ProgressEffect | components/Preloader.tsx:89-92 | the phase becomes `AfterProgressEffect` and never moves back; the 600 ms timer is pending exactly while the phase is `revealing` |
| Preloader.Loader.RevealTimeout | components/Preloader.tsx:92-93 | the phase becomes `AfterRevealTimeout` and the timer is disarmed |
| Tachometer.NeedleRotation | components/Tachometer.tsx:11 | `needleRotation`, the `rotate` value of the needle group; its values and slope are stated by `NeedleEnds` and `NeedleSlope` |
| Tachometer.NeedleEnds | components/Tachometer.tsx:10-11 | the rotation value is -225 degrees at 0 rpm and 45 degrees at 8000 rpm |
| Tachometer.NeedleSlope | components/Tachometer.tsx:11 | the rotation value is linear with slope 270/8000 and strictly increasing in rpm |
| Tachometer.MarkAngle | components/Tachometer.tsx:50 | the polar angle of major mark `num`; related to the needle and the minor grid by the lemmas below |
| Tachometer.MinorAngle | components/Tachometer.tsx:89 | the polar angle of minor position `i` |
| Tachometer.MarkAngleIsRotationFormula | components/Tachometer.tsx:11-50 | the polar angle of major mark `num` equals, as a number, the rotation value at `num*1000` rpm, and marks 0 to 8 span exactly 270 degrees; the two are measured from different zeros |
| Tachometer.MarkOnMinorGrid | components/Tachometer.tsx:50-89 | major mark `num` has the angle of minor position `5*num` |
| Tachometer.NeedleDirection | components/Tachometer.tsx:116-126 | the on-screen polar direction of the needle as written: the polygon's upward rest angle, -90 degrees, plus the rotation |
| Tachometer.NeedleOffByQuarterTurn | components/Tachometer.tsx:116-126 | as written, the needle points at mark 8 at 0 rpm and is 90 degrees counter-clockwise of mark `num` at `num*1000` rpm |
| Tachometer.IntendedNeedleRotation | components/Tachometer.tsx:10-11 | the rotation that cancels the needle's upward rest angle: the written rotation plus 90 degrees |
| Tachometer.IntendedNeedleDirection | components/Tachometer.tsx:10-11 | the on-screen direction of the needle with the corrected rotation |
| Tachometer.NeedlePointsAtMarks | components/Tachometer.tsx:10-13 | with the corrected rotation the needle points at mark `num` at `num*1000` rpm, at mark 0 at rest and at mark 8 at full scale, and turns clockwise as rpm rises |
| Tachometer.RedZoneArc | components/Tachometer.tsx:44 | the red-zone arc runs from the angle of mark 6 to 45 degrees, the angle of mark 8; these are where the corrected needle points at 6000 rpm and at full scale |
| Tachometer.RedMarksPrefix | components/Tachometer.tsx:67-68 | among the first `k` marks, `max(0, k-6)` are red |
| Tachometer.Marks | components/Tachometer.tsx:49-68 | the nine major marks 0..8 with their angles and red flags; their red count is stated by `RedMarks` |
| Tachometer.RedMarks | components/Tachometer.tsx:67-73 | a major mark is red exactly when `num >= 6`, so 3 of the 9 are red |
| Tachometer.DrawnPrefix | components/Tachometer.tsx:87-88 | among the first `k` minor positions, every one except the multiples of 5 is drawn |
| Tachometer.RedDrawnPrefix | components/Tachometer.tsx:88-91 | among the first `k` minor positions, the drawn ones at or beyond 30 are red |
| Tachometer.MinorTickCounts | components/Tachometer.tsx:87-91 | a minor tick is drawn exactly when `i % 5 != 0` and is red exactly when `i >= 30`, so 32 are drawn and 8 of them are red |
| Tachometer.MinorTickAt | components/Tachometer.tsx:87-91 | minor position `i` is skipped when `i % 5 == 0` and otherwise drawn, red from 30 on; stated by `MinorTickCounts` |
| Tachometer.MinorTicks | components/Tachometer.tsx:87-104 | the 40 minor positions in order; their counts are stated by `MinorTickCounts` |
| ContactInfo.IndexFrom | components/ContactInfoSection.tsx:8 | the search finds the first occurrence at or after `from`, or reports that there is none |
| ContactInfo.IndexOf | components/ContactInfoSection.tsx:8 | `indexOf` finds the first occurrence of the pattern, or reports that there is none anywhere |
| ContactInfo.ReplaceFirst | components/ContactInfoSection.tsx:8 | `String.prototype.replace` with a string pattern: only the first occurrence is replaced, and no occurrence leaves the string unchanged |
| ContactInfo.FormatPhone | components/ContactInfoSection.tsx:8 | `formatPhone`; its behaviour is stated by the three lemmas below |
| ContactInfo.FormatStripsLeadingPrefix | components/ContactInfoSection.tsx:8 | a number that starts with `+351 ` is shown without those five characters |
| ContactInfo.FormatWithoutPrefix | components/ContactInfoSection.tsx:8 | a number without `+351 ` is shown unchanged |
| ContactInfo.FormatRemovesFirstOnly | components/ContactInfoSection.tsx:8 | when the prefix occurs, only its first occurrence is removed: the result is five characters shorter, and putting the prefix back at that position restores the input |
| ContactInfo.ShopPhoneShown | components/ContactInfoSection.tsx:65 | the shop's number `+351 912 345 678` is shown as `912 345 678` |
| FloatingContact.IsWhitespace | components/FloatingContact.tsx:32 | the characters matched by `\s`: ECMAScript's WhiteSpace and LineTerminator characters |
| FloatingContact.StripWhitespace | components/FloatingContact.tsx:32 | `replace(/\s/g, '')`; its properties are stated by the lemmas below |
| FloatingContact.StripIsClean | components/FloatingContact.tsx:32 | `replace(/\s/g, '')` leaves no whitespace character and never lengthens the string |
| FloatingContact.StripAppend | components/FloatingContact.tsx:32 | stripping distributes over concatenation, so the surviving characters keep their order |
| FloatingContact.StripOne | components/FloatingContact.tsx:32 | a single character survives exactly when it is not whitespace |
| FloatingContact.StripKeepsClean | components/FloatingContact.tsx:32 | a string without whitespace is left as it is |
| FloatingContact.StripIdempotent | components/FloatingContact.tsx:32 | stripping twice is the same as stripping once |
| FloatingContact.TelHref | components/FloatingContact.tsx:32 | the call link's address; `TelHrefClean` states its shape |
| FloatingContact.TelHrefClean | components/FloatingContact.tsx:32 | the call link is `tel:` followed by the stripped number, with no whitespace after the scheme |
| FloatingContact.WhatsAppHref | components/FloatingContact.tsx:23 | the chat link is exactly `https://wa.me/` followed by the number unchanged |
| FloatingContact.StripGroups | components/FloatingContact.tsx:32 | a number written as four whitespace-free groups separated by single whitespace characters strips to the groups put together |
| Constants.ShopPhone | constants.tsx:40 | the shop's configured number |
| FloatingContact.ShopPhoneLayout | constants.tsx:40 | the shop's number is the groups `+351`, `912`, `345` and `678` separated by spaces |
| FloatingContact.ShopPhoneStripped | components/FloatingContact.tsx:32 | the shop's number strips to `+351` `912` `345` `678` joined together |
| FloatingContact.ShopTelLink | components/FloatingContact.tsx:32 | the shop's call link is `tel:` followed by the joined groups, that is `tel:+351912345678` |
| FloatingContact.ShopWhatsAppLink | components/FloatingContact.tsx:23 | the shop's chat link is `https://wa.me/351912345678` |
| FloatingContact.Toggled | components/FloatingContact.tsx:10 | `toggleOpen` always changes the flag |
| FloatingContact.ToggleTwice | components/FloatingContact.tsx:10 | toggling twice restores the original state |
| FloatingContact.Widget.constructor | components/FloatingContact.tsx:8 | the menu starts closed |
| FloatingContact.Widget.ToggleOpen | components/FloatingContact.tsx:10 | the flag becomes its negation |
| FloatingContact.Widget.LinksShown | components/FloatingContact.tsx:15 | the two contact links are rendered exactly while the menu is open |
| TextAnimations.Split | components/TextAnimations.tsx:18 | splitting at a separator yields one more piece than there are separators, and no piece contains the separator |
| TextAnimations.JoinSplit | components/TextAnimations.tsx:18 | joining the pieces with the separator gives back the text, so no character is lost |
| TextAnimations.WordRange | components/TextAnimations.tsx:24-25 | the fade-in range of word `i` of `n`; stated by `WordRangeShape` and `WordRangesTile` |
| TextAnimations.WordRangeShape | components/TextAnimations.tsx:24-25 | word `i` of `n` has range `[i/n, (i+1)/n]`, of width `1/n` |
| TextAnimations.WordRangesTile | components/TextAnimations.tsx:24-25 | the first range starts at 0 and the last ends at 1; adjacent ranges meet; every range is a non-empty interval within `[0,1]` |
| TextAnimations.ScrollTextReveal | components/TextAnimations.tsx:18-31 | there is one revealed word per piece of the split text, each with no space in it and with its word range |
| TextAnimations.Typewriter | components/TextAnimations.tsx:84-95 | the animated characters of `TypewriterText`; stated by `TypewriterShape` |
| TextAnimations.TypewriterShape | components/TextAnimations.tsx:84-95 | there is one entry per character, in order; the first starts at `delay` and each later one strictly after; a space gets `pre` and every other character `normal` |
| TextAnimations.LineDelays | components/TextAnimations.tsx:115-122 | the per-line delays of `LineReveal`; stated by `LineDelaysShape` |
| TextAnimations.LineDelaysShape | components/TextAnimations.tsx:115-122 | there is one delay per line; the first is 0 and they strictly increase |

## Left out

- framer-motion values, easing, springs, `whileInView` and `AnimatePresence` are
  presentation handled by a library, so they are not modelled. This includes the
  Preloader's visualiser and dust particles, and TextAnimations' `MaskReveal`,
  `GlitchText` and `ScrollCounter`, which only configure animations.
- Timers are not modelled in wall-clock time. Each `setInterval` firing and each
  `setTimeout` callback is one method call. Cleanup on unmount is left out.
- The 400 ms `onComplete` callback of the Preloader (components/Preloader.tsx:94) is left
  out. It is a call into the parent component, which is not part of this model.
- DOM and window APIs (`getBoundingClientRect`, `getElementById`, `querySelector`,
  `scrollIntoView`, `scrollTo`) are not modelled. Their results are method arguments, and the
  scroll they trigger is returned as a `ClickAction` value.
- Numbers are Dafny reals, so IEEE rounding is not modelled. Neither is the NaN or Infinity
  that a zero-width track would produce.
- BeforeAfter.Percentage: requires a track width above zero. The source has no guard for a
  zero width, so the model states no result for that case.
- BeforeAfter.Card.HandleTouchMove: requires at least one touch while dragging, as a
  browser `touchmove` event always carries one. The source reads `touches[0]` without a check.
- The gallery does not track direction, advance automatically or pause on hover. The code has
  none of these, so the model has none either.
- Testimonials is a static grid, not a carousel. Only the star rating is modelled.
- Trigonometry in the tachometer (the `Math.cos`/`Math.sin` coordinates of ticks and of the arc)
  is not modelled. The model states the angles those coordinates are computed from.
- JavaScript strings are sequences of UTF-16 code units, while Dafny strings here are
  sequences of characters. The strings modelled contain only characters from the Basic
  Multilingual Plane, so the two agree on them.
- components/CustomCursor.tsx, components/Stats.tsx, components/FloatingParticles.tsx,
  components/Services.tsx, components/CinematicStory.tsx and App.tsx are not part of this
  model. They are DOM event plumbing, animation-frame easing, random particle layouts or
  static markup.

## Findings

| source | as written | input that shows it | evidently intended | confidence | as-written member | corrected member |
|---|---|---|---|---|---|---|
| components/Tachometer.tsx:11 | the needle polygon is drawn pointing up (lines 121-123) and turned by `-225 + rpm/8000*270`, a rotation computed as if the needle rested along the +x axis, the zero of the marks' polar angles (line 50) | rpm 0: the needle points along polar angle -315, which is 45, the angle of mark 8, while the comment on line 10 places 0 rpm at mark 0's -225 degrees | the needle points at mark `num` at `num*1000` rpm, which takes a rotation 90 degrees larger | medium; not executed | Tachometer.NeedleOffByQuarterTurn | Tachometer.NeedlePointsAtMarks |
