# Restaurant site interaction layer, modelled in Dafny

This project models the core of `script.js`, the interaction script of a
single-page restaurant site, as Dafny code with proofs. Five modules cover
the parts of the page that keep state:

- `Carousel` (`carousel.dfy`). The desktop menu carousel. Its track of
  cards is rotated by one position per "next" or "prev" click to fake an
  endless loop. The centre card carries the `spotlight` class, and an
  `isAnimating` flag drops clicks while the 400 ms transition runs. The
  track is a `seq` of slots (card, spotlight class) held by a
  `MenuCarousel` class. Its methods rotate the track in place. Each
  handler's timer is a separate method that the caller fires.
- `Gallery` (`gallery.dfy`). The expanded view of the art gallery: ten
  images, the index of the one shown, and circular next/prev stepping with
  JavaScript's `%`. Pending `changeImage` timers are a FIFO queue, because
  they all have the same 300 ms delay.
- `WordReveal` (`word_reveal.dfy`). The word-by-word text animation:
  - `wrapWords` splits on single spaces and alternates direction and colour.
  - `animateWords` accumulates start times from the interval table
    `[180, 200, 160, 190, 170, 210, 150, 180]`.
  - `exitWords` staggers exits by 50 ms.
- `Visibility` (`visibility.dfy`). The scroll handler:
  - the navbar background past 50 px;
  - the active nav link (the last section with `scrollTop >= offsetTop - 200`);
  - the band classes of the sections;
  - two edge-triggered blocks, the hero tagline and the gallery title. Each
    starts its enter or exit work only when its visibility flips. The hero
    block is also gated on the intro overlay being hidden.

  Geometry comes in as a `Sample` of numbers, and the work started is
  recorded as a sequence of `Effect`s.
- `FocusModal` (`focus_modal.dfy`). The mobile focus view of a menu card.
  A single `activeModal` slot guards against a second wrapper. Dismissal
  plays a closing animation, and a 300 ms removal timer finishes it.

`Wrappers` (`wrappers.dfy`) holds an `Option` type.

Timers are not run by a clock. Each `setTimeout` callback is a
`...TimerFired` method that the caller invokes, and its precondition says
that such a timer is pending.

### Where the model follows the code rather than the documented intent

- **The carousel on an empty track.**
  - "Next" sets `isAnimating`. Its timer then calls `appendChild(null)`,
    which throws before the flag is cleared, so the carousel stays locked.
    `Carousel.MenuCarousel.NextTimerFired` states this.
  - On "prev", `prepend(null)` inserts a text node, not an element, so
    the cards stay as they are.
- **The focus view.** Two dismissals in a row start two removal timers. A
  card opened after the first timer fires is removed by the second timer,
  which also unlocks the page scroll. `FocusModal.DoubleDismissRemovesNextCard`
  walks through this sequence.

## Model

| member | source | states |
|---|---|---|
| Carousel.RotateLeft | script.js:258 | Moving the first child to the end keeps the length and the multiset of children. Each child moves one place towards the front, and the first becomes the last. |
| Carousel.RotateRight | script.js:279 | Moving the last child to the front keeps the length and the multiset. The last child becomes the first, and each other child moves one place back. |
| Carousel.Spotlight | script.js:222-232 | `updateSpotlight(t)` keeps the cards and their order. The class ends up on index `t` and nowhere else. |
| Carousel.Initial | script.js:234-238 | Load is a completed "prev" without the transition. It keeps the number of cards, the markup's last card ends up unlit at slot 0 and its first card lit at slot 1. |
| Carousel.Advance | script.js:242-266 | A completed "next" keeps the number of cards. The card at slot 2 on the click ends up lit at slot 1, and the first card moves to the end. |
| Carousel.Retreat | script.js:271-298 | A completed "prev" keeps the number of cards. The last card ends up unlit at slot 0, and the card that was at slot 0 ends up lit at slot 1. |
| Carousel.RotationsCarryCards | script.js:236 | The class belongs to the card node, so the card order of a rotated track is the rotated card order. |
| Carousel.SpotlightForgetsClasses | script.js:222-232 | The result of `updateSpotlight` depends only on the card order, not on where the class was before. |
| Carousel.SpotlightSettled | script.js:222-232 | On a track already lit only at `t`, `updateSpotlight(t)` changes nothing (idempotence). |
| Carousel.RotateLeftOfRotation | script.js:258 | Moving the first child to the end of the rotation starting at `k` gives the rotation starting at `k + 1`, wrapping to 0. |
| Carousel.RotateRightOfRotation | script.js:279 | Moving the last child to the front of the rotation starting at `k` gives the rotation starting at `k - 1`, wrapping to the last index. |
| Carousel.SpotlightFollowsCard | script.js:256-262 | Lighting index `k` and then rotating left is the same as rotating left and then lighting index `k - 1`. The lit card travels with the rotation. |
| Carousel.AdvanceKeepsSpotlightedCard | script.js:249-262 | With at least three cards, a completed "next" is just the left rotation of the track lit at slot 2. The card lit on the click is the one at slot 1 after the timer, so the re-lighting at line 262 changes nothing. |
| Carousel.RotationsCancel | script.js:258 | Moving first-to-last and last-to-first undo each other, in both orders. |
| Carousel.TrackDeterminedByCards | script.js:222-232 | Two tracks with the same card order, each lit only at `t`, are equal. |
| Carousel.CompletedMovesRotate | script.js:234-298 | A completed "next" rotates the card order left, and a completed "prev" or the load rotates it right. Each leaves exactly slot 1 lit. |
| Carousel.AdvanceRetreatRoundTrip | script.js:242-298 | From a settled track, "next" followed by "prev" restores the track exactly, and so does "prev" followed by "next". |
| Carousel.NextOffset | script.js:258 | Moving the first child to the end advances the track's offset from the markup order by one, modulo the card count. |
| Carousel.PrevOffset | script.js:279 | Moving the last child to the front moves the track's offset from the markup order back by one, modulo the card count. |
| Carousel.LoadOffset | script.js:236 | The load-time move of the last card to the front leaves the track at offset `n - 1` from the markup order. |
| Carousel.MenuCarousel.constructor | script.js:234-238 | Load: a non-empty track has its last card moved to the front, then slot 1 is lit (the second lighting at line 303 changes nothing). Nothing is animating and no timer is pending. |
| Carousel.MenuCarousel.UpdateSpotlight | script.js:222-232 | The loop over the children leaves the track equal to `Spotlight(old track, t)` and touches no other field. |
| Carousel.MenuCarousel.Resize | script.js:208-212 | The resize handler re-lights slot 1 whether or not an animation runs, and keeps the flag and the pending timer. |
| Carousel.MenuCarousel.NextClick | script.js:242-254 | While animating, the click changes nothing. Otherwise it sets the flag, lights slot 2 and schedules the "next" timer. The track stays a rotation of the markup. |
| Carousel.MenuCarousel.NextTimerFired | script.js:256-265 | The track is rotated left, slot 1 is lit and the flag is cleared. On an empty track the flag stays set. |
| Carousel.MenuCarousel.PrevClick | script.js:271-292 | While animating, the click changes nothing. Otherwise the last card moves to the front at once, slot 1 is lit, the flag is set and the "prev" timer is scheduled. |
| Carousel.MenuCarousel.PrevTimerFired | script.js:295-298 | Slot 1 is lit again and the flag is cleared. |
| Carousel.ScenarioLoad | script.js:234-238 | Cards A..E load as [E, A, B, C, D] with A lit, so the visible window is [E, A, B]. |
| Carousel.ScenarioNextTwice | script.js:242-266 | "Next" twice from load gives the window [A, B, C] with B lit, then [B, C, D] with C lit. |
| Gallery.JsRem | script.js:762-764 | JavaScript `%` with a positive divisor: the result has the dividend's sign and is smaller than the divisor in magnitude. A dividend in [0, b) is its own remainder, and one in [b, 2b) loses one b. |
| Gallery.Step | script.js:760-765 | "next" goes from `i` to `i + 1` and wraps from the last image to the first. "prev" goes to `i - 1` and wraps from the first image to the last. The result is always a valid index. |
| Gallery.Steps | script.js:760-765 | Any number of steps in one direction keeps the index within the images. |
| Gallery.StepsCancel | script.js:760-765 | A "next" step followed by a "prev" step returns to the starting image, and so does the opposite order. |
| Gallery.StepsCompose | script.js:760-765 | `a` steps in one direction followed by `b` more are `a + b` steps. |
| Gallery.NextStepsAdd | script.js:762 | Before wrapping, `k` "next" steps add `k` to the index. |
| Gallery.PrevStepsSubtract | script.js:764 | Before wrapping, `k` "prev" steps subtract `k` from the index. |
| Gallery.NextWraps | script.js:762 | From image `i`, `m - i` "next" steps land on the first image. |
| Gallery.PrevWraps | script.js:764 | From image `i`, `i + 1` "prev" steps land on the last image. |
| Gallery.FullCycleNext | script.js:762 | `m` "next" steps over `m` images return to the start. |
| Gallery.FullCyclePrev | script.js:764 | `m` "prev" steps over `m` images return to the start. |
| Gallery.FullCycle | script.js:760-765 | Stepping as many times as there are images, in either direction, returns to the start. |
| Gallery.ThreeImagePrev | script.js:764 | With three images, "prev" from the first shows the last. |
| Gallery.SwipeSteps | script.js:875-885 | A swipe asks for at most one step. It asks for "next" exactly when the finger moved more than 50 px left, and for "prev" exactly when it moved more than 50 px right. |
| Gallery.GalleryView.constructor | script.js:699 | The index starts at 0 and no image change is pending. |
| Gallery.GalleryView.ExpandFrame | script.js:743-749 | Opening frame `index` stores that index, shows its image and unhides the expanded view. |
| Gallery.GalleryView.ChangeImage | script.js:752-759 | A navigation click only schedules the step: it is queued behind earlier ones, and the index and image stay as they are for now. |
| Gallery.GalleryView.ChangeImageTimerFired | script.js:759-766 | The oldest queued step fires. The index becomes `Step(old index, direction, 10)` and the shown image is the one at the new index. |
| Gallery.GalleryView.BackToGrid | script.js:842-846 | The expanded view is hidden. The index, image and queued steps are kept. |
| Gallery.GalleryView.HandleSwipe | script.js:875-885 | A finished swipe queues exactly `SwipeSteps(start, end)`. |
| WordReveal.Split | script.js:58 | `split(' ')` yields at least one piece, and no piece contains a space. |
| WordReveal.Join | script.js:63 | `join(' ')` starts with the first word, contains a space once there are two words, and has at least one character per separator. |
| WordReveal.JoinSplit | script.js:58-63 | Joining the pieces of a split with single spaces gives back the text. |
| WordReveal.SplitWord | script.js:58 | A space-free text splits into itself alone. |
| WordReveal.SplitAfterWord | script.js:58 | Splitting a word, a space and a rest gives the word followed by the pieces of the rest. |
| WordReveal.SplitJoin | script.js:58-63 | Splitting space-free words joined by single spaces gives back the words. |
| WordReveal.WrapWords | script.js:57-64 | There is one span per piece of the split, in order, holding that piece. Even positions are top-entering and brown, odd ones bottom-entering and white. |
| WordReveal.WrapAlternates | script.js:59-61 | Neighbouring spans differ in both direction and colour. |
| WordReveal.WrappedTextReadsBack | script.js:57-64 | For text without `<` or `&` (every text the script wraps is such a constant), the wrapped element reads back as the original text, and it has at least one span. |
| WordReveal.IntervalSum | script.js:73-80 | The accumulated delay is zero exactly before the first word, so every later word starts strictly after `startDelay`. |
| WordReveal.IntervalSumBounds | script.js:71-80 | After `i` words the accumulated delay lies between 150·i and 210·i ms. |
| WordReveal.IntervalSumGrows | script.js:71-80 | Between words `i` and `j`, the accumulated delay grows by at least 150 ms per word. |
| WordReveal.FirstCycle | script.js:71 | One pass over the interval table adds up to 1440 ms. |
| WordReveal.GapRepeats | script.js:74 | The gap after word `i + 8` equals the gap after word `i`, because the index is taken modulo the table length. |
| WordReveal.IntervalSumPeriod | script.js:71-80 | Every eight words add exactly 1440 ms. |
| WordReveal.AnimateWords | script.js:67-82 | Word `i` starts at `startDelay` plus the sum of the first `i` table intervals, cycled. Any two words start at least 150 ms per word apart. |
| WordReveal.ExitDelays | script.js:85-93 | The exit of the first word starts at once, and each later word leaves 50 ms after the one before it. |
| WordReveal.ExitOutpacesEntrance | script.js:71-92 | With a non-negative start delay, as every caller passes, each word from the second on has a shorter exit delay than entrance delay. |
| Visibility.InBandIffOverlap | script.js:538 | For a well-formed box and an exit line above the enter line, the band test (`InBand` with the lines at height·exit and height·enter) holds exactly when some point of the box lies strictly between the lines. |
| Visibility.HeroVisible | script.js:472 | With a positive viewport height, a hero whose top is at or below the top of the viewport counts as visible. One scrolled up by a full viewport height does not. |
| Visibility.InBand | script.js:538-594 | A box whose bottom is above the exit line, or whose top is below the enter line, is not shown. A box spanning the whole band is shown. |
| Visibility.GalleryTitleVisible | script.js:610 | A gallery spanning the 70%/20% band makes the title visible. A gallery whose bottom is above the 20% line, or whose top is below the 70% line, does not. |
| Visibility.MenuBandIsNarrower | script.js:538-552 | The menu's 65%/35% band lies inside the 75%/25% band of the other sections. |
| Visibility.LastReached | script.js:448-454 | No section is reached exactly when the result is `None`. Otherwise the result is a reached section and no later section is reached. |
| Visibility.ActiveTarget | script.js:447-461 | With no reached section the active target is empty. A non-empty target is the id of some reached section. |
| Visibility.FindActiveTarget | script.js:447-454 | The `forEach` that overwrites `current` leaves the id of the last reached section, or the empty string. |
| Visibility.HeroEdge | script.js:465-529 | The hero block runs only once the overlay is hidden. The tagline's enter work starts exactly when the hero becomes visible while the tagline is hidden, and its exit work exactly when the hero stops being visible while the tagline is shown. The tagline flag follows a flip. |
| Visibility.TitleEdge | script.js:610-638 | Enter work starts exactly when the title becomes visible and exit work exactly when it stops being visible. At most one of them starts. |
| Visibility.Scroll | script.js:433-641 | One run keeps the overlay state, stores the title's visibility and starts at most two pieces of work, never the intro reveal. |
| Visibility.ScrollStartsWork | script.js:465-638 | Each block's enter work starts exactly when its visibility turns on and its exit work exactly when it turns off. The hero's work needs the overlay hidden and is checked against the tagline flag. |
| Visibility.ScrollSetsClasses | script.js:436-599 | The navbar is `scrolled` past 50 px. The active link is the last reached section. Each section's class follows its band. |
| Visibility.ClassesForgetHistory | script.js:436-599 | The classes depend on the sample alone, not on the previous state. |
| Visibility.ScrollIdempotent | script.js:475-614 | Running the handler a second time on the same geometry starts no work and changes nothing. |
| Visibility.HeroGatedByOverlay | script.js:465 | While the overlay is up, any number of scroll events leave the hero flags alone and start no hero work. |
| Visibility.ScrollAll | script.js:643 | A run of scroll events never changes the overlay state, never starts the intro reveal, and starts at most two pieces of work per event. |
| Visibility.ScrollRecordsVisibility | script.js:465-476 | While the overlay is up, the hero flags are frozen. Once it is hidden, the stored visibility is the sampled one and the tagline follows a flip. The title flag records the sample. |
| Visibility.ScrollEffects.constructor | script.js:428-431 | The page starts with the overlay up, the hero counted visible and the tagline hidden, followed by one run of the handler. |
| Visibility.ScrollEffects.HandleScroll | script.js:433-641 | The new flags and classes are `Scroll(old view, sample)`, and its work is appended to what already started. |
| Visibility.ScrollEffects.HeroBlock | script.js:465-529 | The hero part of the handler updates its two flags and returns its work as `HeroEdge` says. |
| Visibility.ScrollEffects.TitleBlock | script.js:601-638 | The title part stores the sampled visibility and returns its work as `TitleEdge` says. |
| Visibility.ScrollEffects.DismissIntro | script.js:106-114 | An overlay click hides the overlay and schedules the first reveal. Nothing else changes. |
| Visibility.ScrollEffects.IntroTimerFired | script.js:114-134 | The 100 ms timer reveals the tagline and marks it as shown. |
| FocusModal.MobileFocus.constructor | script.js:317 | No wrapper is active or mounted and the overlay is off. The body overflow keeps the state the page gave it (hidden since line 12 while the intro overlay is up). |
| FocusModal.MobileFocus.CardClick | script.js:376-418 | On a viewport wider than 768 px, or with a wrapper already active, the click changes nothing. Otherwise exactly one fresh wrapper for the card is mounted and stored, the overlay is shown and the scroll is locked. |
| FocusModal.MobileFocus.Dismiss | script.js:320-344 | With an active wrapper: it gets the closing class, the overlay is hidden and a removal timer starts. Without one: the overlay is hidden and the scroll unlocked at once. The single-slot invariant holds either way. |
| FocusModal.MobileFocus.DismissTimerFired | script.js:332-338 | Whatever wrapper is active when the timer fires is unmounted and the slot cleared, and the scroll is unlocked in every case. |
| FocusModal.DoubleDismissRemovesNextCard | script.js:320-418 | Two dismissals, one timer, then a new card click: the new card is shown with the scroll locked. After the second timer fires, the new card is gone and the scroll is unlocked. |

## Left out

- DOM wiring is not modelled: element lookup, event listener registration, `innerHTML` strings, CSS transition and transform strings, and `clearAnimationClasses`. Every element the script looks up is assumed present, so its missing-element guards are not modelled.
- The carousel exists only when the viewport is wider than 768 px at load. That check happens before any state exists and is not modelled.
- Carousel layout is not modelled: `updateCarouselDimensions`, `getMoveAmount` and the pixel offsets work in floating point, and no state depends on them.
- Timers are not driven by a clock. Each callback is a method the caller fires. The model does not constrain the order of timers with different delays.
- The `changeImage` 50 ms fade-in timer and its opacity styles are left out, as are the 600 ms and 900 ms timers that show the hero button and stats. They only change styles.
- The intro overlay click also unlocks the page scroll and shows the navbar after 100 ms. Both are style changes and are not modelled.
- The effects record only which enter or exit work started. The delays inside that work (100/400, 0/400, 200/800) and the word-by-word timers are covered by `WordReveal.AnimateWords` and `WordReveal.ExitDelays`, not per effect.
- The mobile menu toggle, `addClickIcons`, `initGallery`, `openGallery`/`closeGallery`, smooth scrolling of nav links, video autoplay and `scrollRestoration` are not modelled. They are page wiring or browser calls.
- Geometry (`getBoundingClientRect`, `offsetTop`, `innerHeight`, `scrollTop`, touch `screenX`) arrives as parameters. Browser floating point is modelled as exact `real` arithmetic, and touch coordinates as integers.
- Gallery.GalleryView.ExpandFrame: it requires an index within the ten images. The only caller passes a frame's own position in the list, and the script has no guard for other indices.
- FocusModal.MobileFocus.constructor: the body overflow is shared with the intro overlay (script.js:12, 111) and the gallery (script.js:791, 832). The model takes its value at set-up as a parameter, and writes by those other parts afterwards are not modelled.
- The handler variable `lastScrollTop` (script.js:640) is written on every run and never read, so it is not modelled.
- Carousel.MenuCarousel.PrevClick: on an empty track, `prepend(null)` adds a text node. The model keeps the element children unchanged and does not record that text node.
