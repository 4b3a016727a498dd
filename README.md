# Portfolio lightbox carousel

A Dafny model of the portfolio lightbox of a small static website's
client-side script (`initPortfolioLightbox` in `public/js/main.js`). The
carousel holds a fixed, non-empty sequence of thumbnails and a current
index. It renders the current thumbnail into a modal (image source, alt text,
caption) and navigates in four ways: opening from a clicked thumbnail, the
previous/next buttons, the arrow keys while the modal is open, and
horizontal swipes on the modal image.

Files:

- `jsarith.dfy`, module `JsArith`: JavaScript's truncating `%`, and the
  wrap-around `(idx + n) % n` that `showImageByIndex` uses. It includes the
  lemmas about wrapping at both ends.
- `swipe.dfy`, modules `Wrappers` (an `Option` type) and `Swipe`: touch
  points, the two thresholds (40 px horizontal, 80 px vertical), and the
  classification of a finished touch sequence.
- `lightbox.dfy`, module `Lightbox`: thumbnail descriptors, the alt/caption
  fallback rules, `indexOf`, and the class `Carousel`. Its fields are the
  handlers' closure state: `currentIndex`, the rendered `src`/`alt`/`caption`,
  and the swipe tracker `startX`/`startY`/`isTracking`. Each event handler is
  one method. `SwipeScenarios` is a client that replays touch sequences
  against the contracts alone.

Modelling decisions:

- JavaScript `%` truncates toward zero; Dafny's is Euclidean. `JsRem` models
  the JavaScript operator. `showImageByIndex` therefore requires
  `idx >= -|thumbs|`. Every call site passes an index in `[-1, |thumbs|]`,
  and on that domain the result is the Euclidean residue. The doubly
  reduced form `((idx % n) + n) % n` would be normalised for every integer;
  the code uses the single `%`, and the model follows the code.
  `NormalizeFormulaBelowRange` shows that, below `-n`, the single `%` gives a
  negative index for every `idx` that is not a multiple of `n` (for a
  multiple it gives `-0`, which selects thumbnail 0). `DoubleReductionTotal`
  shows that the doubly reduced form is total and agrees with the code
  wherever the code is defined.
- A thumbnail element is a `Thumb` value. Its `node` field stands for the
  element's identity, so `indexOf`'s `===` becomes value equality. The
  carousel's invariant requires the `node` values of its thumbnails to be
  pairwise distinct, as the elements of a DOM query result are. An absent
  attribute is `None`. JavaScript's `||` fallback treats both `None` and `""`
  as missing.
- The modal's open state (`classList.contains("show")`) and the event's
  `relatedTarget` are method parameters. Touch lists are
  `Option<seq<Touch>>`, with `None` for a missing `touches` or
  `changedTouches`. Touch coordinates are integers.
- `touchmove` returns whether it calls `preventDefault()`. It changes no
  state.

## Model

| member | source | states |
|---|---|---|
| JsArith.JsRem | public/js/main.js:43 | JavaScript's `%`: the remainder lies strictly between `-b` and `b`, has the sign of the dividend, and `a == b * trunc(a / b) + r` |
| JsArith.Normalize | public/js/main.js:43 | for `idx >= -n`, `(idx + n) % n` with JavaScript's `%` lies in `[0, n)`, equals the Euclidean residue of `idx`, and leaves in-range indices unchanged |
| JsArith.NormalizePeriodic | public/js/main.js:43 | shifting the index by `n` does not change the normalised index |
| JsArith.PrevWraps | public/js/main.js:59 | `currentIndex - 1` normalises to `n - 1` from index 0, and otherwise to `currentIndex - 1` |
| JsArith.NextWraps | public/js/main.js:60 | `currentIndex + 1` normalises to 0 from index `n - 1`, and otherwise to `currentIndex + 1` |
| JsArith.PrevNextInverse | public/js/main.js:59-60 | next after previous, and previous after next, return to the starting index |
| JsArith.NormalizeFormulaBelowRange | public/js/main.js:43 | below `-n`, the single `%` maps every index that is not a multiple of `n` to a negative number, so the callers' range matters |
| JsArith.DoubleReductionTotal | public/js/main.js:43 | `((idx % n) + n) % n` is the Euclidean residue for every integer and agrees with the code's formula on `idx >= -n` |
| Swipe.ClassifyCases | public/js/main.js:119-131 | a finished touch sequence is discarded iff `abs(dy) > 80`; otherwise it means previous iff `dx > 40`, next iff `dx < -40`, and no action iff `abs(dx) <= 40` |
| Swipe.ClassifyBoundaries | public/js/main.js:123-128 | for every `dx` and `dy`: `abs(dy) == 80` is not discarded; `abs(dx) == 40` does not navigate |
| Swipe.Classify | public/js/main.js:123-131 | the touchend decision: a gesture navigates only within the vertical limit and beyond the horizontal threshold, previous for a rightward and next for a leftward move |
| Swipe.FirstTouch | public/js/main.js:115-117 | the touch used by touchend exists exactly when `changedTouches` is present and non-empty, and is its first element |
| Swipe.SingleTouch | public/js/main.js:83 | the touchstart guard passes exactly when `touches` is present and is a list of one touch, which it yields |
| Swipe.ClassifySymmetric | public/js/main.js:123-131 | negating `dx` swaps previous and next; the sign of `dy` does not matter |
| Lightbox.AltText | public/js/main.js:47 | the rendered alt text is never empty; it is the thumbnail's alt when that is present and non-empty, and "Portfolio image" otherwise |
| Lightbox.CaptionText | public/js/main.js:48 | the rendered caption is empty exactly when the thumbnail has no non-empty `data-caption`; otherwise it is that caption |
| Lightbox.IndexOf | public/js/main.js:54 | `indexOf`: -1 iff the trigger equals no thumbnail; otherwise the trigger is the thumbnail at the result and at no earlier position |
| Lightbox.Carousel.constructor | public/js/main.js:37-75 | the state after setup: the collected thumbnails, index 0, tracking off at (0, 0), and the modal as the markup left it |
| Lightbox.Carousel.Setup | public/js/main.js:37-40 | setup disables the carousel (no object) exactly when there is no thumbnail |
| Lightbox.Carousel.ShowImageByIndex | public/js/main.js:42-49 | for `idx >= -n`, sets `currentIndex` to the residue of `idx` modulo `n` (in range, and `idx` itself when in range) and renders that thumbnail's full URL, alt text and caption; the tracker is untouched |
| Lightbox.Carousel.Open | public/js/main.js:52-56 | opening shows the thumbnail equal to the trigger (the only one, since thumbnails are distinct elements), or thumbnail 0 when the trigger matches none, and renders it |
| Lightbox.Carousel.Prev | public/js/main.js:59 | the previous button moves the index back by one, from 0 to `n - 1`, and renders the new thumbnail |
| Lightbox.Carousel.Next | public/js/main.js:60 | the next button moves the index forward by one, from `n - 1` to 0, and renders the new thumbnail |
| Lightbox.Carousel.KeyDown | public/js/main.js:63-69 | with the modal closed, or for any key other than the two arrows, nothing changes; while open, ArrowLeft acts as previous and ArrowRight as next |
| Lightbox.Carousel.TouchStart | public/js/main.js:80-89 | exactly one touch turns tracking on and records its coordinates; any other touch list changes nothing, not even an `isTracking` that is already on |
| Lightbox.Carousel.TouchMove | public/js/main.js:91-107 | changes nothing; asks for `preventDefault` exactly when tracking, with one touch, and `abs(dx) > abs(dy)` |
| Lightbox.Carousel.TouchEnd | public/js/main.js:109-134 | when not tracking nothing changes; otherwise tracking is cleared. Without a changed touch nothing else changes. With one, the displacement from the start is classified: previous or next navigate with wrap-around, while too-vertical and tap leave the index and the modal unchanged |

## Left out

- The header and footer fragment loads (`loadPartial`, public/js/main.js:3-17). They are asynchronous `fetch` plus `innerHTML` with no logic of their own; the footer callback only writes the current year, which is clock I/O.
- `initRevealOnScroll` (public/js/main.js:137-154): a thin wrapper over `IntersectionObserver` and `classList`.
- The DOM lookups and the element-presence guard (public/js/main.js:26-35). The carousel assumes its elements exist; only the empty-thumbnail abort is modelled (`Setup`).
- Listener registration, the `passive` options, and the Bootstrap `show.bs.modal` event machinery. Each handler is a method that the environment calls.
- The effect of `preventDefault()` on scrolling; only the decision is modelled.
- Floating-point touch coordinates; they are integers here.
- Lightbox.Carousel.ShowImageByIndex: assigning `modalImage.src` in a browser resolves the URL against the document; the model stores the attribute text unchanged. It also requires `idx >= -|thumbs|`, which all callers satisfy, rather than modelling the `undefined` thumbnail that a more negative index would select when it is not a multiple of `|thumbs|`.
