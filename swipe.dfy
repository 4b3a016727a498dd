/** Optional values: a DOM attribute or event property that may be absent. */
module Wrappers {
  datatype Option<+T> = None | Some(value: T)
}

/** The swipe classification applied when a touch sequence on the modal
    image ends (public/js/main.js:77-78, 119-131). Touch coordinates are
    browser numbers; they are modelled as integers. */
module Swipe {
  import opened Wrappers

  /** Horizontal travel, in pixels, a swipe must exceed to navigate. */
  const SwipeThreshold: int := 40
  /** Vertical travel, in pixels, beyond which a gesture is discarded. */
  const VerticalLimit: int := 80

  /** One touch point of a touch event. */
  datatype Touch = Touch(clientX: int, clientY: int)

  /** What the end of a tracked touch sequence means. */
  datatype Gesture =
    | TooVertical   // discarded: moved too far vertically
    | SwipeRight    // finger moved right: show the previous image
    | SwipeLeft     // finger moved left: show the next image
    | Tap           // horizontal travel within the threshold: no action

  function Abs(x: int): nat {
    if x < 0 then -x else x
  }

  /** The decision of the touchend handler for the displacement `(dx, dy)`
      between the start and the end of a touch sequence. */
  function Classify(dx: int, dy: int): (g: Gesture)
    ensures g == SwipeRight || g == SwipeLeft ==> Abs(dy) <= VerticalLimit && Abs(dx) > SwipeThreshold
    ensures g == SwipeRight ==> dx > 0
    ensures g == SwipeLeft ==> dx < 0
  {
    if Abs(dy) > VerticalLimit then TooVertical
    else if dx > SwipeThreshold then SwipeRight
    else if dx < -SwipeThreshold then SwipeLeft
    else Tap
  }

  /** The gesture navigates exactly when it stays within the vertical limit
      and travels beyond the threshold horizontally; the direction is the
      sign of `dx`. */
  lemma ClassifyCases(dx: int, dy: int)
    ensures Classify(dx, dy) == TooVertical <==> Abs(dy) > VerticalLimit
    ensures Classify(dx, dy) == SwipeRight <==> Abs(dy) <= VerticalLimit && dx > SwipeThreshold
    ensures Classify(dx, dy) == SwipeLeft <==> Abs(dy) <= VerticalLimit && dx < -SwipeThreshold
    ensures Classify(dx, dy) == Tap <==> Abs(dy) <= VerticalLimit && Abs(dx) <= SwipeThreshold
  {
  }

  /** The boundary values are inclusive on the permissive side: a vertical
      travel of exactly the limit is not discarded, and a horizontal travel
      of exactly the threshold does not navigate. */
  lemma ClassifyBoundaries(dx: int, dy: int)
    ensures Abs(dy) == VerticalLimit ==> Classify(dx, dy) != TooVertical
    ensures Abs(dx) == SwipeThreshold ==> Classify(dx, dy) == TooVertical || Classify(dx, dy) == Tap
  {
  }

  /** The opposite direction of a gesture. */
  function Mirror(g: Gesture): Gesture {
    match g
    case SwipeRight => SwipeLeft
    case SwipeLeft => SwipeRight
    case _ => g
  }

  /** Mirroring the horizontal travel mirrors the gesture, and the sign of the
      vertical travel does not matter. */
  lemma ClassifySymmetric(dx: int, dy: int)
    ensures Classify(-dx, dy) == Mirror(Classify(dx, dy))
    ensures Classify(dx, -dy) == Classify(dx, dy)
  {
  }

  /** The first changed touch of a touchend event, when there is one. */
  function FirstTouch(changed: Option<seq<Touch>>): (t: Option<Touch>)
    ensures t.Some? <==> changed.Some? && |changed.value| > 0
    ensures t.Some? ==> changed.value == [t.value] + changed.value[1..]
  {
    if changed.Some? && |changed.value| > 0 then Some(changed.value[0]) else None
  }

  /** The single touch of a touchstart or touchmove event, when it carries
      exactly one. */
  function SingleTouch(touches: Option<seq<Touch>>): (t: Option<Touch>)
    ensures t.Some? <==> touches.Some? && |touches.value| == 1
    ensures t.Some? ==> touches.value == [t.value]
  {
    if touches.Some? && |touches.value| == 1 then Some(touches.value[0]) else None
  }
}
