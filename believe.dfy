/**
 * The "Ver para creer" carousel: a horizontally scrolling viewport whose
 * active slide is driven by programmatic navigation (arrows, dots, keys),
 * by the user's own scrolling and by an autoplay frame loop.
 *
 * The viewport is modelled by integers (its width and scroll offset in
 * pixels, frame timestamps in milliseconds); the autoplay progress is an
 * exact rational in [0, 1].
 */
module Believe {
  import opened Common

  /** Dwell time of one slide under autoplay, in milliseconds. */
  const AUTOPLAY_DURATION: int := 6500

  datatype Slide = Slide(id: string, title: string, description: string, imageAlt: string)

  /** The three imported carousel pictures, in import order. */
  datatype SlideImage = Carousel1 | Carousel2 | Carousel3

  datatype SlideWithMedia = SlideWithMedia(slide: Slide, image: SlideImage)

  const SLIDE_IMAGES: seq<SlideImage> := [Carousel1, Carousel2, Carousel3]

  /** The shipped slide set. */
  const SLIDES: seq<Slide> := [
    Slide("hover", "Nebula One en suspensión",
          "Nebula One suspendido en un campo de luz cinética que responde a cada gesto.",
          "Nebula One suspendido en un campo de luz cinética."),
    Slide("haptics", "Módulo háptico vivo",
          "Detalle del módulo háptico con pulsos luminosos que sincronizan audio y tacto.",
          "Detalle del módulo háptico con pulsos luminosos."),
    Slide("ambient", "Interfaz ambiental",
          "Interfaz ambiental adaptándose al ritmo circadiano con capas de brillo contextual.",
          "Interfaz ambiental adaptándose al ritmo circadiano.")
  ]

  /** Scroll behaviours a `scrollTo` command can carry. */
  datatype Behavior = Auto | Smooth | Instant

  /** Pairs slide `i` with picture `i mod 3`. */
  function SlidesWithMedia(slides: seq<Slide>): (r: seq<SlideWithMedia>)
    ensures |r| == |slides|
    ensures forall i :: 0 <= i < |r| ==> r[i].slide == slides[i]
    ensures forall i :: 0 <= i < |r| && i + 3 < |r| ==> r[i + 3].image == r[i].image
  {
    seq(|slides|, i requires 0 <= i < |slides| => SlideWithMedia(slides[i], SLIDE_IMAGES[i % |SLIDE_IMAGES|]))
  }

  /** With the shipped slides, every slide shows its own picture. */
  lemma ShippedSlidesHaveDistinctImages()
    ensures |SlidesWithMedia(SLIDES)| == 3
    ensures SlidesWithMedia(SLIDES)[0].image == Carousel1
    ensures SlidesWithMedia(SLIDES)[1].image == Carousel2
    ensures SlidesWithMedia(SLIDES)[2].image == Carousel3
  {
  }

  /** Non-looping target: the request clamped into `[0, count - 1]`. */
  function ClampIndex(index: int, count: nat): (r: int)
    requires count >= 1
    ensures 0 <= r < count
    ensures 0 <= index < count ==> r == index
    ensures index < 0 ==> r == 0
    ensures index >= count ==> r == count - 1
  {
    Max(0, Min(index, count - 1))
  }

  /**
   * Looping target: a request before the first slide jumps to the last one
   * and a request past the last slide jumps to the first one. This is an end
   * jump, not a reduction modulo `count`.
   */
  function WrapIndex(index: int, count: nat): (r: int)
    requires count >= 1
    ensures 0 <= r < count
    ensures 0 <= index < count ==> r == index
    ensures index < 0 ==> r == count - 1
    ensures index >= count ==> r == 0
  {
    if index < 0 then count - 1
    else if index > count - 1 then 0
    else index
  }

  /** The target `scrollToIndex` computes for a request. */
  function TargetIndex(index: int, count: nat, allowLoop: bool): (r: int)
    requires count >= 1
    ensures 0 <= r < count
    ensures 0 <= index < count ==> r == index
  {
    if allowLoop then WrapIndex(index, count) else ClampIndex(index, count)
  }

  /** Reduction modulo `n` leaves an index below `n` alone. */
  lemma ModBelow(x: int, n: int)
    requires 0 <= x < n
    ensures x % n == x
  {
  }

  /** Reduction modulo `n` subtracts `n` once from a value in `[n, 2n)`. */
  lemma ModOnce(x: int, n: int)
    requires 0 < n <= x < 2 * n
    ensures x % n == x - n
  {
    var q, m := x / n, x % n;
    assert x == q * n + m && 0 <= m < n;
  }

  /**
   * Every request the component makes in loop mode is one step away from a
   * valid index (previous/next) or is itself valid (a dot): for those the end
   * jump agrees with reduction modulo `count`.
   */
  lemma WrapAgreesWithModuloOnSteps(a: int, count: nat)
    requires count >= 1 && 0 <= a < count
    ensures WrapIndex(a + 1, count) == (a + 1) % count
    ensures WrapIndex(a - 1, count) == (a - 1 + count) % count
    ensures WrapIndex(a, count) == a % count
  {
    ModBelow(a, count);
    if a + 1 == count {
      ModOnce(a + 1, count);
    } else {
      ModBelow(a + 1, count);
    }
    if a == 0 {
      ModBelow(a - 1 + count, count);
    } else {
      ModOnce(a - 1 + count, count);
    }
  }

  /** For requests further away the end jump and the modulo disagree. */
  lemma WrapIsNotModulo()
    ensures WrapIndex(-2, 3) == 2 && (-2 % 3 + 3) % 3 == 1
    ensures WrapIndex(5, 3) == 0 && (5 % 3 + 3) % 3 == 2
  {
  }

  /** Multiplying by a positive width keeps order; used by `NearestIndexUnique`. */
  lemma MulMonotone(a: int, b: int, w: int)
    requires a <= b && w > 0
    ensures a * w <= b * w
  {
    assert b * w - a * w == (b - a) * w;
  }

  /**
   * `Math.round(scrollLeft / width)`: the index whose slide centre band
   * contains the offset, ties going up.
   */
  function NearestIndex(scrollLeft: int, width: int): (r: int)
    requires width > 0
    ensures (2 * r - 1) * width <= 2 * scrollLeft < (2 * r + 1) * width
  {
    var q := (2 * scrollLeft + width) / (2 * width);
    var m := (2 * scrollLeft + width) % (2 * width);
    assert 2 * scrollLeft + width == q * (2 * width) + m;
    assert q * (2 * width) == 2 * q * width;
    assert (2 * q - 1) * width == 2 * q * width - width;
    assert (2 * q + 1) * width == 2 * q * width + width;
    q
  }

  /** The rounding band determines the index uniquely. */
  lemma NearestIndexUnique(scrollLeft: int, width: int, k: int)
    requires width > 0
    requires (2 * k - 1) * width <= 2 * scrollLeft < (2 * k + 1) * width
    ensures NearestIndex(scrollLeft, width) == k
  {
    var r := NearestIndex(scrollLeft, width);
    if r > k {
      MulMonotone(2 * k + 1, 2 * r - 1, width);
    } else if r < k {
      MulMonotone(2 * r + 1, 2 * k - 1, width);
    }
  }

  /** A viewport resting exactly on slide `k` reports index `k`. */
  lemma NearestIndexOfSlideOffset(k: int, width: int)
    requires width > 0
    ensures NearestIndex(k * width, width) == k
  {
    assert (2 * k - 1) * width == 2 * (k * width) - width;
    assert (2 * k + 1) * width == 2 * (k * width) + width;
    NearestIndexUnique(k * width, width, k);
  }

  /** `Math.min(elapsed / AUTOPLAY_DURATION, 1)`. */
  function ProgressRatio(elapsed: int): (r: real)
    ensures r <= 1.0
    ensures elapsed >= 0 ==> 0.0 <= r
    ensures r == 1.0 <==> elapsed >= AUTOPLAY_DURATION
    ensures elapsed < AUTOPLAY_DURATION ==> r * AUTOPLAY_DURATION as real == elapsed as real
  {
    if elapsed >= AUTOPLAY_DURATION then 1.0 else elapsed as real / AUTOPLAY_DURATION as real
  }

  /**
   * The component's state: React state (`activeIndex`, `progress`), the
   * three refs, the autoplay loop's start time, and the viewport element.
   */
  class Carousel {
    const count: nat
    const reducedMotion: bool

    // the viewport element, when mounted
    var mounted: bool
    var clientWidth: nat
    var scrollLeft: int
    var lastBehavior: Option<Behavior>

    var activeIndex: int
    var progress: real
    var targetIndexRef: Option<int>
    var isAnimatingRef: bool
    var activeIndexRef: int
    // start time of the running autoplay frame loop, None until its first frame
    var startTime: Option<int>

    /** Autoplay runs unless motion is reduced or there is at most one slide. */
    predicate AutoplayEnabled() {
      !reducedMotion && count > 1
    }

    ghost predicate Valid()
      reads this
    {
      && count >= 1
      && 0 <= activeIndex < count
      && activeIndexRef == activeIndex
      && (targetIndexRef.Some? ==> 0 <= targetIndexRef.value < count)
      && 0.0 <= progress <= 1.0
      && (!AutoplayEnabled() ==> progress == 0.0 && startTime.None?)
    }

    /**
     * The state `scrollToIndex` leaves on a mounted viewport: slide `t` is
     * active and targeted, the viewport is at its offset with the chosen
     * behaviour, progress is reset, and the autoplay start time is cleared
     * when the index changed (`prevIndex`, `prevStart` are the values before).
     */
    ghost predicate LandedOn(t: int, behavior: Option<Behavior>, prevIndex: int, prevStart: Option<int>)
      reads this
    {
      && activeIndex == t && activeIndexRef == t && targetIndexRef == Some(t)
      && scrollLeft == t * clientWidth
      && lastBehavior == Some(behavior.GetOr(if reducedMotion then Auto else Smooth))
      && progress == 0.0
      && isAnimatingRef == !(reducedMotion || behavior == Some(Auto))
      && startTime == (if t != prevIndex then None else prevStart)
    }

    /**
     * The state `handleScroll` leaves on a mounted viewport of positive width
     * whose offset rounds to slide `c`: the animating flag is cleared, `c` is
     * targeted and active, and progress and start time are reset only when
     * the index changed.
     */
    ghost predicate Settled(c: int, prevIndex: int, prevProgress: real, prevStart: Option<int>)
      reads this
    {
      && !isAnimatingRef
      && targetIndexRef == Some(c)
      && activeIndex == c && activeIndexRef == c
      && (c != prevIndex ==> progress == 0.0 && startTime.None?)
      && (c == prevIndex ==> progress == prevProgress && startTime == prevStart)
    }

    constructor (count: nat, reducedMotion: bool)
      requires count >= 1
      ensures Valid()
      ensures this.count == count && this.reducedMotion == reducedMotion
      ensures !mounted && activeIndex == 0 && progress == 0.0
      ensures targetIndexRef.None? && !isAnimatingRef && startTime.None?
    {
      this.count := count;
      this.reducedMotion := reducedMotion;
      mounted := false;
      clientWidth := 0;
      scrollLeft := 0;
      lastBehavior := None;
      activeIndex := 0;
      progress := 0.0;
      targetIndexRef := None;
      isAnimatingRef := false;
      activeIndexRef := 0;
      startTime := None;
    }

    /** The viewport element is rendered with the given width. */
    method AttachViewport(width: nat)
      requires Valid()
      modifies this`mounted, this`clientWidth, this`scrollLeft
      ensures Valid()
      ensures mounted && clientWidth == width && scrollLeft == 0
    {
      mounted, clientWidth, scrollLeft := true, width, 0;
    }

    /**
     * Sets the active index (state and ref) and resets progress. When the
     * index actually changes, the autoplay effect is torn down and started
     * again, so its start time is cleared.
     */
    method Commit(target: int)
      requires Valid() && 0 <= target < count
      modifies this`activeIndex, this`activeIndexRef, this`progress, this`startTime
      ensures Valid()
      ensures activeIndex == target && activeIndexRef == target && progress == 0.0
      ensures startTime == if target != old(activeIndex) then None else old(startTime)
    {
      if target != activeIndex {
        startTime := None;
      }
      activeIndexRef := target;
      activeIndex := target;
      progress := 0.0;
    }

    method ScrollToIndex(index: int, allowLoop: bool, behavior: Option<Behavior>)
      requires Valid()
      modifies this
      ensures Valid()
      ensures !old(mounted) ==> unchanged(this)
      ensures mounted == old(mounted) && clientWidth == old(clientWidth)
      ensures old(mounted) ==>
        LandedOn(TargetIndex(index, count, allowLoop), behavior, old(activeIndex), old(startTime))
      ensures old(mounted) && clientWidth > 0 ==> NearestIndex(scrollLeft, clientWidth) == activeIndex
    {
      if !mounted {
        return;
      }
      var target := TargetIndex(index, count, allowLoop);
      var offset := target * clientWidth;
      targetIndexRef := Some(target);
      isAnimatingRef := true;
      scrollLeft := offset;
      lastBehavior := Some(behavior.GetOr(if reducedMotion then Auto else Smooth));
      if reducedMotion || behavior == Some(Auto) {
        isAnimatingRef := false;
      }
      Commit(target);
      if clientWidth > 0 {
        NearestIndexOfSlideOffset(target, clientWidth);
      }
    }

    /** The viewport's scroll listener. */
    method HandleScroll()
      requires Valid()
      modifies this
      ensures Valid()
      ensures !old(mounted) || old(clientWidth) == 0 ==> unchanged(this)
      ensures mounted == old(mounted) && clientWidth == old(clientWidth)
      ensures scrollLeft == old(scrollLeft) && lastBehavior == old(lastBehavior)
      ensures old(mounted) && old(clientWidth) > 0 ==>
        Settled(ClampIndex(NearestIndex(scrollLeft, clientWidth), count),
                old(activeIndex), old(progress), old(startTime))
    {
      if !mounted || clientWidth == 0 {
        return;
      }
      var index := NearestIndex(scrollLeft, clientWidth);
      var clamped := ClampIndex(index, count);
      if isAnimatingRef {
        isAnimatingRef := false;
      }
      targetIndexRef := Some(clamped);
      if clamped != activeIndexRef {
        Commit(clamped);
      }
    }

    /** The user (or a running smooth scroll) moves the viewport. */
    method NativeScroll(left: int)
      requires Valid()
      modifies this
      ensures Valid()
      ensures !old(mounted) ==> unchanged(this)
      ensures mounted == old(mounted) && clientWidth == old(clientWidth)
      ensures old(mounted) ==> scrollLeft == left && lastBehavior == old(lastBehavior)
      ensures old(mounted) && clientWidth == 0 ==>
        && activeIndex == old(activeIndex) && activeIndexRef == old(activeIndexRef)
        && targetIndexRef == old(targetIndexRef) && isAnimatingRef == old(isAnimatingRef)
        && progress == old(progress) && startTime == old(startTime)
      ensures old(mounted) && clientWidth > 0 ==>
        Settled(ClampIndex(NearestIndex(left, clientWidth), count),
                old(activeIndex), old(progress), old(startTime))
    {
      if !mounted {
        return;
      }
      scrollLeft := left;
      HandleScroll();
    }

    /** The previous-slide arrow: a looping step back. */
    method ShowPrevious()
      requires Valid()
      modifies this
      ensures Valid()
      ensures !old(mounted) ==> unchanged(this)
      ensures mounted == old(mounted) && clientWidth == old(clientWidth)
      ensures old(mounted) ==>
        LandedOn((old(activeIndex) - 1 + count) % count, None, old(activeIndex), old(startTime))
      ensures old(mounted) && old(activeIndex) == 0 ==> activeIndex == count - 1
    {
      WrapAgreesWithModuloOnSteps(activeIndex, count);
      ScrollToIndex(activeIndex - 1, true, None);
    }

    /** The next-slide arrow: a looping step forward. */
    method ShowNext()
      requires Valid()
      modifies this
      ensures Valid()
      ensures !old(mounted) ==> unchanged(this)
      ensures mounted == old(mounted) && clientWidth == old(clientWidth)
      ensures old(mounted) ==>
        LandedOn((old(activeIndex) + 1) % count, None, old(activeIndex), old(startTime))
      ensures old(mounted) && old(activeIndex) == count - 1 ==> activeIndex == 0
    {
      WrapAgreesWithModuloOnSteps(activeIndex, count);
      ScrollToIndex(activeIndex + 1, true, None);
    }

    /** Arrow keys step through the slides; other keys are ignored. */
    method HandleKeyDown(key: string) returns (preventDefault: bool)
      requires Valid()
      modifies this
      ensures Valid()
      ensures preventDefault <==> key == "ArrowLeft" || key == "ArrowRight"
      ensures !preventDefault || !old(mounted) ==> unchanged(this)
      ensures mounted == old(mounted) && clientWidth == old(clientWidth)
      ensures old(mounted) && key == "ArrowLeft" ==>
        LandedOn((old(activeIndex) - 1 + count) % count, None, old(activeIndex), old(startTime))
      ensures old(mounted) && key == "ArrowRight" ==>
        LandedOn((old(activeIndex) + 1) % count, None, old(activeIndex), old(startTime))
    {
      preventDefault := false;
      if key == "ArrowLeft" {
        preventDefault := true;
        ShowPrevious();
      }
      if key == "ArrowRight" {
        preventDefault := true;
        ShowNext();
      }
    }

    /**
     * One animation frame of the autoplay loop. Without autoplay no frame
     * loop is scheduled at all. Frame timestamps never run backwards.
     */
    method Tick(timestamp: int)
      requires Valid()
      requires startTime.Some? ==> startTime.value <= timestamp
      modifies this
      ensures Valid()
      ensures !AutoplayEnabled() ==> unchanged(this) && progress == 0.0
      ensures mounted == old(mounted) && clientWidth == old(clientWidth)
      ensures AutoplayEnabled() ==>
        var elapsed := timestamp - old(startTime).GetOr(timestamp);
        && (elapsed < AUTOPLAY_DURATION || !old(mounted) ==>
              && activeIndex == old(activeIndex) && activeIndexRef == old(activeIndexRef)
              && scrollLeft == old(scrollLeft) && targetIndexRef == old(targetIndexRef)
              && isAnimatingRef == old(isAnimatingRef) && lastBehavior == old(lastBehavior))
        && (elapsed < AUTOPLAY_DURATION ==>
              progress == ProgressRatio(elapsed) && startTime == Some(old(startTime).GetOr(timestamp)))
        && (elapsed >= AUTOPLAY_DURATION && old(mounted) ==>
              LandedOn((old(activeIndex) + 1) % count, None, old(activeIndex), Some(timestamp))
              && startTime.None?)
        && (elapsed >= AUTOPLAY_DURATION && !old(mounted) ==>
              progress == 1.0 && startTime == Some(timestamp))
    {
      if !AutoplayEnabled() {
        return;
      }
      if startTime.None? {
        startTime := Some(timestamp);
      }
      var elapsed := timestamp - startTime.value;
      progress := ProgressRatio(elapsed);
      if elapsed >= AUTOPLAY_DURATION {
        startTime := Some(timestamp);
        WrapAgreesWithModuloOnSteps(activeIndex, count);
        ScrollToIndex(activeIndex + 1, true, None);
      }
    }
  }
}
