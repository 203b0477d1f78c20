/**
 * The scroll mapper of the hero animation: the scroll offset inside the
 * scroll-tracking container becomes a progress value in [0, 1], and the
 * progress becomes a frame index by flooring. Arithmetic is on exact reals.
 */
module ScrollMapping {
  import opened RealArith

  /** Progress beyond which the scroll hint is hidden. */
  const HINT_THRESHOLD: real := 0.05

  function Max(a: real, b: real): real { if a >= b then a else b }
  function Min(a: real, b: real): real { if a <= b then a else b }

  /** Math.max(0, Math.min(1, x)). */
  function Clamp01(x: real): (r: real)
    ensures 0.0 <= r <= 1.0
    ensures x <= 0.0 ==> r == 0.0
    ensures x >= 1.0 ==> r == 1.0
    ensures 0.0 <= x <= 1.0 ==> r == x
  {
    Max(0.0, Min(1.0, x))
  }

  /** (scrollY - containerTop) / containerHeight, clamped to [0, 1]. */
  function Progress(scrollY: real, containerTop: int, containerHeight: nat): (p: real)
    requires containerHeight > 0
    ensures 0.0 <= p <= 1.0
    ensures scrollY <= containerTop as real ==> p == 0.0
    ensures scrollY >= (containerTop + containerHeight) as real ==> p == 1.0
    ensures containerTop as real <= scrollY <= (containerTop + containerHeight) as real ==>
              p * containerHeight as real == scrollY - containerTop as real
  {
    var h := containerHeight as real;
    var d := scrollY - containerTop as real;
    var x := d / h;
    DivMul(d, h);
    ScaleStrict(x, 1.0, h);
    ScaleStrict(x, 0.0, h);
    Clamp01(x)
  }

  /** Math.floor(progress * (frameCount - 1)). */
  function FrameIndex(progress: real, frameCount: nat): (i: nat)
    requires 0.0 <= progress <= 1.0
    requires frameCount >= 1
    ensures i < frameCount
    ensures progress == 0.0 ==> i == 0
    ensures progress == 1.0 ==> i == frameCount - 1
  {
    (progress * (frameCount - 1) as real).Floor
  }

  /** (imagesLoaded / frameCount) * 100. */
  function LoadingPercent(loaded: nat, frameCount: nat): (r: real)
    requires 0 < frameCount
    requires loaded <= frameCount
    ensures 0.0 <= r <= 100.0
    ensures r == 0.0 <==> loaded == 0
    ensures r == 100.0 <==> loaded == frameCount
    ensures r * frameCount as real == 100.0 * loaded as real
  {
    var n := frameCount as real;
    var q := loaded as real / n;
    DivMul(loaded as real, n);
    ScaleStrict(q, 1.0, n);
    ScaleStrict(1.0, q, n);
    ScaleStrict(0.0, q, n);
    q * 100.0
  }

  /** The scroll-progress bar carries the class 'visible' strictly inside the animation. */
  predicate BarVisible(progress: real) {
    0.0 < progress < 1.0
  }

  /** The scroll hint is hidden once progress passes the threshold. */
  predicate HintHides(progress: real) {
    progress > HINT_THRESHOLD
  }

  /** Scrolling further down never moves the progress back. */
  lemma ProgressMonotone(y1: real, y2: real, containerTop: int, containerHeight: nat)
    requires containerHeight > 0
    requires y1 <= y2
    ensures Progress(y1, containerTop, containerHeight) <= Progress(y2, containerTop, containerHeight)
  {
    var h := containerHeight as real;
    var d1, d2 := y1 - containerTop as real, y2 - containerTop as real;
    DivMul(d1, h);
    DivMul(d2, h);
    ScaleStrict(d2 / h, d1 / h, h);
    assert d1 / h <= d2 / h;
    assert Progress(y1, containerTop, containerHeight) == Clamp01(d1 / h);
    assert Progress(y2, containerTop, containerHeight) == Clamp01(d2 / h);
    Clamp01Monotone(d1 / h, d2 / h);
  }

  /** The clamp is monotone. */
  lemma Clamp01Monotone(x: real, y: real)
    requires x <= y
    ensures Clamp01(x) <= Clamp01(y)
  {
  }

  /** A larger progress never selects an earlier frame. */
  lemma FrameIndexMonotone(p: real, q: real, frameCount: nat)
    requires 0.0 <= p <= q <= 1.0
    requires frameCount >= 1
    ensures FrameIndex(p, frameCount) <= FrameIndex(q, frameCount)
  {
    var n := (frameCount - 1) as real;
    ScaleWeak(p, q, n);
    FloorMonotone(p * n, q * n);
  }

  /** Frame i's own progress value i / (frameCount - 1) maps back to frame i. */
  lemma FrameIndexOfGridPoint(i: nat, frameCount: nat)
    requires frameCount >= 2
    requires i < frameCount
    ensures 0.0 <= i as real / (frameCount - 1) as real <= 1.0
    ensures FrameIndex(i as real / (frameCount - 1) as real, frameCount) == i
  {
    var n := (frameCount - 1) as real;
    DivMul(i as real, n);
    ScaleStrict(1.0, i as real / n, n);
    ScaleStrict(i as real / n, 0.0, n);
    FloorIs(i as real, i);
  }

  /**
   * Frame i below the last one is shown exactly for the progress values in
   * [i / (frameCount - 1), (i + 1) / (frameCount - 1)).
   */
  lemma FrameIndexInterval(p: real, frameCount: nat, i: nat)
    requires 0.0 <= p <= 1.0
    requires frameCount >= 2
    requires i < frameCount - 1
    ensures FrameIndex(p, frameCount) == i <==>
              i as real / (frameCount - 1) as real <= p < (i + 1) as real / (frameCount - 1) as real
  {
    var n := (frameCount - 1) as real;
    DivCompare(i as real, p, n);
    DivCompare((i + 1) as real, p, n);
    FloorIs(p * n, i);
  }

  /** The percentage only grows as more frames load. */
  lemma LoadingPercentMonotone(a: nat, b: nat, frameCount: nat)
    requires 0 < frameCount
    requires a <= b <= frameCount
    ensures LoadingPercent(a, frameCount) <= LoadingPercent(b, frameCount)
  {
    DivMonotone(a as real, b as real, frameCount as real);
  }

  /** Half-way through a 1000-pixel container with 163 frames shows frame 81. */
  lemma HalfwayScenario(containerTop: int)
    ensures Progress((containerTop + 500) as real, containerTop, 1000) == 0.5
    ensures FrameIndex(0.5, 163) == 81
  {
    FloorIs(0.5 * 162.0, 81);
  }

  /** Fifty pixels above the container: progress 0, frame 0, the hint stays. */
  lemma AboveContainerScenario(containerTop: int, containerHeight: nat)
    requires containerHeight > 0
    ensures Progress((containerTop - 50) as real, containerTop, containerHeight) == 0.0
    ensures FrameIndex(0.0, 163) == 0
    ensures !HintHides(0.0) && !BarVisible(0.0)
  {
  }
}
