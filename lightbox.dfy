/** The portfolio lightbox carousel of `initPortfolioLightbox`
    (public/js/main.js:25-135): a current index over a fixed, non-empty
    sequence of thumbnails, the modal fields the current thumbnail is
    rendered into, and the tracker of a touch sequence on the modal image. */
module Lightbox {
  import opened Wrappers
  import opened JsArith
  import opened Swipe

  /** The alt text shown when a thumbnail carries none. */
  const DefaultAlt: string := "Portfolio image"

  /** A thumbnail element `img[data-full]` of the portfolio grid. `node`
      stands for the element's identity (what `===` compares); `full` is its
      `data-full` attribute, which the selector guarantees is present;
      `alt` and `caption` are its `alt` and `data-caption` attributes, or
      `None` when absent. */
  datatype Thumb = Thumb(node: nat, full: string, alt: Option<string>, caption: Option<string>)

  /** JavaScript truthiness of an attribute value: present and non-empty. */
  predicate Present(a: Option<string>) {
    a.Some? && a.value != ""
  }

  /** JavaScript's `a || fallback` on an attribute value. */
  function OrElse(a: Option<string>, fallback: string): string {
    if Present(a) then a.value else fallback
  }

  /** The alt text rendered for a thumbnail: never empty. */
  function AltText(t: Thumb): (s: string)
    ensures s != ""
    ensures Present(t.alt) ==> s == t.alt.value
    ensures !Present(t.alt) ==> s == DefaultAlt
  {
    OrElse(t.alt, DefaultAlt)
  }

  /** The caption rendered for a thumbnail: empty exactly when the thumbnail
      has no non-empty caption. */
  function CaptionText(t: Thumb): (s: string)
    ensures s == "" <==> !Present(t.caption)
    ensures s != "" ==> t.caption == Some(s)
  {
    OrElse(t.caption, "")
  }

  /** `thumbs.indexOf(trigger)`: the position of the first thumbnail equal to
      the trigger, or -1 when the trigger is absent or not a thumbnail. */
  function IndexOf(thumbs: seq<Thumb>, trigger: Option<Thumb>): (r: int)
    ensures -1 <= r < |thumbs|
    ensures r == -1 <==> forall j :: 0 <= j < |thumbs| ==> trigger != Some(thumbs[j])
    ensures r >= 0 ==> trigger == Some(thumbs[r])
    ensures r >= 0 ==> forall j :: 0 <= j < r ==> trigger != Some(thumbs[j])
  {
    if |thumbs| == 0 then -1
    else if trigger == Some(thumbs[0]) then 0
    else
      var k := IndexOf(thumbs[1..], trigger);
      if k < 0 then -1 else k + 1
  }

  /** Distinct elements: no two thumbnails share a node. */
  predicate DistinctNodes(thumbs: seq<Thumb>) {
    forall i, j :: 0 <= i < j < |thumbs| ==> thumbs[i].node != thumbs[j].node
  }

  class Carousel {
    /** The thumbnails, collected once at setup and never changed. */
    const thumbs: seq<Thumb>
    var currentIndex: int
    /** The rendered modal: `modalImage.src`, `modalImage.alt`, `modalCaption.textContent`. */
    var src: string
    var alt: string
    var caption: string
    /** The swipe tracker. */
    var startX: int
    var startY: int
    var isTracking: bool

    ghost predicate Valid()
      reads this
    {
      |thumbs| > 0 && DistinctNodes(thumbs) && 0 <= currentIndex < |thumbs|
    }

    /** The modal shows thumbnail `i`. */
    ghost predicate Displays(i: int)
      reads this
      requires 0 <= i < |thumbs|
    {
      src == thumbs[i].full && alt == AltText(thumbs[i]) && caption == CaptionText(thumbs[i])
    }

    /** The state right after setup; `src0`, `alt0` and `caption0` are what
        the page's markup puts in the modal before anything is shown. */
    constructor (thumbs: seq<Thumb>, src0: string, alt0: string, caption0: string)
      requires |thumbs| > 0 && DistinctNodes(thumbs)
      ensures Valid() && this.thumbs == thumbs && currentIndex == 0
      ensures src == src0 && alt == alt0 && caption == caption0
      ensures startX == 0 && startY == 0 && !isTracking
    {
      this.thumbs := thumbs;
      currentIndex := 0;
      src, alt, caption := src0, alt0, caption0;
      startX, startY, isTracking := 0, 0, false;
    }

    /** Setup: with no thumbnail the carousel disables itself. */
    static method Setup(thumbs: seq<Thumb>, src0: string, alt0: string, caption0: string)
      returns (c: Carousel?)
      requires DistinctNodes(thumbs)
      ensures c == null <==> |thumbs| == 0
      ensures c != null ==> fresh(c) && c.Valid() && c.thumbs == thumbs && c.currentIndex == 0
      ensures c != null ==> c.src == src0 && c.alt == alt0 && c.caption == caption0
      ensures c != null ==> c.startX == 0 && c.startY == 0 && !c.isTracking
    {
      if |thumbs| == 0 {
        c := null;
      } else {
        c := new Carousel(thumbs, src0, alt0, caption0);
      }
    }

    /** `showImageByIndex(idx)`: wraps `idx` into range and renders that
        thumbnail. Every caller passes an index in `[-1, |thumbs|]`. */
    method ShowImageByIndex(idx: int)
      requires Valid() && idx >= -|thumbs|
      modifies this`currentIndex, this`src, this`alt, this`caption
      ensures Valid()
      ensures currentIndex == idx % |thumbs|
      ensures 0 <= idx < |thumbs| ==> currentIndex == idx
      ensures Displays(currentIndex)
    {
      currentIndex := Normalize(idx, |thumbs|);
      var t := thumbs[currentIndex];
      src := t.full;
      alt := OrElse(t.alt, DefaultAlt);
      caption := OrElse(t.caption, "");
    }

    /** The modal's `show.bs.modal` event, `trigger` being its `relatedTarget`:
        show the clicked thumbnail, or the first one when the trigger is not
        a thumbnail. */
    method Open(trigger: Option<Thumb>)
      requires Valid()
      modifies this`currentIndex, this`src, this`alt, this`caption
      ensures Valid() && Displays(currentIndex)
      ensures trigger == Some(thumbs[currentIndex])
              || (currentIndex == 0 && forall j :: 0 <= j < |thumbs| ==> trigger != Some(thumbs[j]))
      ensures forall j :: 0 <= j < |thumbs| && j != currentIndex ==> trigger != Some(thumbs[j])
    {
      var idx := IndexOf(thumbs, trigger);
      ShowImageByIndex(if idx >= 0 then idx else 0);
    }

    /** The previous-button click: one image back, wrapping to the last. */
    method Prev()
      requires Valid()
      modifies this`currentIndex, this`src, this`alt, this`caption
      ensures Valid() && Displays(currentIndex)
      ensures currentIndex == if old(currentIndex) == 0 then |thumbs| - 1 else old(currentIndex) - 1
    {
      PrevWraps(currentIndex, |thumbs|);
      ShowImageByIndex(currentIndex - 1);
    }

    /** The next-button click: one image forward, wrapping to the first. */
    method Next()
      requires Valid()
      modifies this`currentIndex, this`src, this`alt, this`caption
      ensures Valid() && Displays(currentIndex)
      ensures currentIndex == if old(currentIndex) == |thumbs| - 1 then 0 else old(currentIndex) + 1
    {
      NextWraps(currentIndex, |thumbs|);
      ShowImageByIndex(currentIndex + 1);
    }

    /** The document's keydown listener; `isOpen` is whether the modal
        carries its `show` class. */
    method KeyDown(isOpen: bool, key: string)
      requires Valid()
      modifies this`currentIndex, this`src, this`alt, this`caption
      ensures Valid()
      ensures !isOpen || (key != "ArrowLeft" && key != "ArrowRight") ==> unchanged(this)
      ensures isOpen && key == "ArrowLeft" ==>
        Displays(currentIndex) &&
        currentIndex == if old(currentIndex) == 0 then |thumbs| - 1 else old(currentIndex) - 1
      ensures isOpen && key == "ArrowRight" ==>
        Displays(currentIndex) &&
        currentIndex == if old(currentIndex) == |thumbs| - 1 then 0 else old(currentIndex) + 1
    {
      if !isOpen {
        return;
      }
      if key == "ArrowLeft" {
        Prev();
      }
      if key == "ArrowRight" {
        Next();
      }
    }

    /** touchstart: a single touch starts tracking at its coordinates; any
        other touch list (or none) is ignored. */
    method TouchStart(touches: Option<seq<Touch>>)
      modifies this`startX, this`startY, this`isTracking
      ensures SingleTouch(touches).None? ==> unchanged(this)
      ensures SingleTouch(touches).Some? ==>
        isTracking && startX == touches.value[0].clientX && startY == touches.value[0].clientY
    {
      if touches.None? || |touches.value| != 1 {
        return;
      }
      isTracking := true;
      startX := touches.value[0].clientX;
      startY := touches.value[0].clientY;
    }

    /** touchmove: changes nothing; returns whether the handler calls
        `preventDefault()`, which it does for a tracked single touch that has
        moved further horizontally than vertically. */
    method TouchMove(touches: Option<seq<Touch>>) returns (preventDefault: bool)
      ensures preventDefault <==>
        isTracking && touches.Some? && |touches.value| == 1 &&
        Abs(touches.value[0].clientX - startX) > Abs(touches.value[0].clientY - startY)
    {
      if !isTracking || touches.None? || |touches.value| != 1 {
        return false;
      }
      var dx := touches.value[0].clientX - startX;
      var dy := touches.value[0].clientY - startY;
      preventDefault := Abs(dx) > Abs(dy);
    }

    /** touchend: ends tracking and, for the first changed touch, applies
        the swipe classification to its displacement from the start. */
    method TouchEnd(changed: Option<seq<Touch>>)
      requires Valid()
      modifies this`isTracking, this`currentIndex, this`src, this`alt, this`caption
      ensures Valid() && !isTracking
      ensures !old(isTracking) ==> unchanged(this)
      ensures old(isTracking) && FirstTouch(changed).None? ==>
        currentIndex == old(currentIndex) && src == old(src) && alt == old(alt) && caption == old(caption)
      ensures old(isTracking) && FirstTouch(changed).Some? ==>
        var g := Classify(changed.value[0].clientX - startX, changed.value[0].clientY - startY);
        (g == SwipeRight ==>
          Displays(currentIndex) &&
          currentIndex == if old(currentIndex) == 0 then |thumbs| - 1 else old(currentIndex) - 1) &&
        (g == SwipeLeft ==>
          Displays(currentIndex) &&
          currentIndex == if old(currentIndex) == |thumbs| - 1 then 0 else old(currentIndex) + 1) &&
        (g == TooVertical || g == Tap ==>
          currentIndex == old(currentIndex) && src == old(src) && alt == old(alt) && caption == old(caption))
    {
      if !isTracking {
        return;
      }
      isTracking := false;
      var touch := FirstTouch(changed);
      if touch.None? {
        return;
      }
      var dx := touch.value.clientX - startX;
      var dy := touch.value.clientY - startY;
      if Abs(dy) > VerticalLimit {
        return;
      }
      if dx > SwipeThreshold {
        Prev();
      } else if dx < -SwipeThreshold {
        Next();
      }
    }
  }

  /** A client of the carousel: touch sequences on three thumbnails, starting
      from the second one. */
  method SwipeScenarios(a: Thumb, b: Thumb, d: Thumb)
    requires a.node != b.node && b.node != d.node && a.node != d.node
  {
    var c := new Carousel([a, b, d], "", "", "");
    c.Open(Some(b));
    assert c.thumbs[1] == b;
    assert c.currentIndex == 1;

    // A swipe right by 50 with a vertical drift of 10 shows the previous image.
    c.TouchStart(Some([Touch(100, 200)]));
    var pd := c.TouchMove(Some([Touch(150, 210)]));
    assert pd;
    c.TouchEnd(Some([Touch(150, 210)]));
    assert c.currentIndex == 0 && c.src == a.full;

    // A swipe left by 50 that drifts 100 vertically is discarded.
    c.TouchStart(Some([Touch(100, 200)]));
    c.TouchEnd(Some([Touch(50, 300)]));
    assert c.currentIndex == 0;

    // A tap (5, 2) does not navigate.
    c.TouchStart(Some([Touch(100, 200)]));
    c.TouchEnd(Some([Touch(105, 202)]));
    assert c.currentIndex == 0;

    // A second touchend without a touchstart is ignored; a two-finger start is too.
    c.TouchEnd(Some([Touch(0, 0)]));
    c.TouchStart(Some([Touch(1, 1), Touch(2, 2)]));
    assert !c.isTracking;

    // Previous from the first image wraps to the last; next wraps back.
    c.KeyDown(true, "ArrowLeft");
    assert c.currentIndex == 2;
    c.KeyDown(false, "ArrowRight");
    assert c.currentIndex == 2;
    c.Next();
    assert c.currentIndex == 0;

    // A trigger that is not a thumbnail opens on the first image.
    c.Open(None);
    assert c.currentIndex == 0 && c.alt == AltText(a);
  }
}
