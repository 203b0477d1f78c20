/**
 * The viewport fitter and the renderer's geometry: the canvas backing store
 * is the viewport scaled by the device pixel ratio, and a frame is drawn with
 * a "cover" fit (aspect ratio kept, canvas fully covered, image centred).
 */
module Viewport {
  import opened RealArith

  /** A positive pixel count (an image's natural size). */
  type Dim = n: nat | n > 0 witness 1

  /** window.devicePixelRatio || 1: a ratio of zero (falsy) falls back to 1. */
  function EffectiveRatio(reported: real): (r: real)
    requires reported >= 0.0
    ensures r > 0.0
    ensures reported > 0.0 ==> r == reported
    ensures reported == 0.0 ==> r == 1.0
  {
    if reported == 0.0 then 1.0 else reported
  }

  /**
   * canvas.width = innerWidth * dpr. The canvas attribute is an unsigned long,
   * so a fractional product is truncated.
   */
  function BackingSize(cssPixels: nat, ratio: real): (n: nat)
    requires ratio > 0.0
    ensures n as real <= cssPixels as real * ratio < n as real + 1.0
  {
    var x := cssPixels as real * ratio;
    assert 0.0 <= x;
    x.Floor
  }

  /** canvas.width / dpr: the size drawing code works in after ctx.scale(dpr, dpr). */
  function LogicalSize(backing: nat, ratio: real): (l: real)
    requires ratio > 0.0
    ensures l * ratio == backing as real
    ensures backing > 0 <==> l > 0.0
  {
    DivMul(backing as real, ratio);
    ScaleStrict(0.0, backing as real / ratio, ratio);
    backing as real / ratio
  }

  /**
   * The logical size never exceeds the viewport and falls short of it by less
   * than one physical pixel; it is exactly the viewport when the scaled size
   * is a whole number of pixels.
   */
  lemma LogicalSizeBounds(cssPixels: nat, ratio: real)
    requires ratio > 0.0
    ensures cssPixels as real - 1.0 / ratio < LogicalSize(BackingSize(cssPixels, ratio), ratio)
    ensures LogicalSize(BackingSize(cssPixels, ratio), ratio) <= cssPixels as real
    ensures BackingSize(cssPixels, ratio) as real == cssPixels as real * ratio ==>
              LogicalSize(BackingSize(cssPixels, ratio), ratio) == cssPixels as real
  {
    var css := cssPixels as real;
    var b := BackingSize(cssPixels, ratio) as real;
    var l := b / ratio;
    var lower := css - 1.0 / ratio;
    DivMul(b, ratio);
    DivMul(1.0, ratio);
    assert lower * ratio == css * ratio - 1.0;
    ScaleStrict(lower, l, ratio);
    ScaleStrict(css, l, ratio);
    if b == css * ratio {
      ScaleStrict(l, css, ratio);
    }
  }

  /** With a whole-number pixel ratio (1, 2, 3, ...) the logical size is the viewport. */
  lemma WholeRatioIsExact(cssPixels: nat, ratio: nat)
    requires ratio > 0
    ensures LogicalSize(BackingSize(cssPixels, ratio as real), ratio as real) == cssPixels as real
  {
    assert (cssPixels * ratio) as real == cssPixels as real * ratio as real;
    FloorIs((cssPixels * ratio) as real, cssPixels * ratio);
    LogicalSizeBounds(cssPixels, ratio as real);
  }

  datatype Rect = Rect(x: real, y: real, width: real, height: real)

  /** Fitting to the height: the width at the image's aspect ratio, and that it overflows. */
  lemma FitToHeight(imgW: real, imgH: real, canvasW: real, canvasH: real, imgAspect: real, canvasAspect: real)
    requires imgH > 0.0 && canvasH > 0.0
    requires imgAspect * imgH == imgW && canvasAspect * canvasH == canvasW
    requires imgAspect > canvasAspect
    ensures (canvasH * imgAspect) * imgH == canvasH * imgW
    ensures canvasH * imgAspect > canvasW
  {
    ScaleStrict(canvasAspect, imgAspect, canvasH);
  }

  /** Fitting to the width: the height at the image's aspect ratio, and that it covers the canvas height. */
  lemma FitToWidth(imgW: real, imgH: real, canvasW: real, canvasH: real,
                   imgAspect: real, canvasAspect: real, drawHeight: real)
    requires imgH > 0.0 && canvasH > 0.0 && imgAspect > 0.0
    requires imgAspect * imgH == imgW && canvasAspect * canvasH == canvasW
    requires imgAspect <= canvasAspect
    requires drawHeight * imgAspect == canvasW
    ensures canvasW * imgH == drawHeight * imgW
    ensures drawHeight >= canvasH
  {
    assert drawHeight * imgW == (drawHeight * imgAspect) * imgH;
    ScaleWeak(imgAspect, canvasAspect, canvasH);
    ScaleStrict(drawHeight, canvasH, imgAspect);
  }

  /**
   * drawFrame's fit: if the image is relatively wider than the canvas it is
   * fitted to the canvas height, otherwise to the canvas width; the other
   * side overflows and is centred.
   */
  function CoverFit(imgW: real, imgH: real, canvasW: real, canvasH: real): (r: Rect)
    requires imgW > 0.0 && imgH > 0.0 && canvasW > 0.0 && canvasH > 0.0
    ensures r.width * imgH == r.height * imgW
    ensures r.width >= canvasW && r.height >= canvasH
    ensures r.width == canvasW || r.height == canvasH
    ensures r.x == (canvasW - r.width) / 2.0 && r.y == (canvasH - r.height) / 2.0
    ensures r.x <= 0.0 && r.y <= 0.0
  {
    var imgAspect := imgW / imgH;
    var canvasAspect := canvasW / canvasH;
    DivMul(imgW, imgH);
    DivMul(canvasW, canvasH);
    if imgAspect > canvasAspect then
      // Image is wider: fit to height.
      var drawHeight := canvasH;
      var drawWidth := drawHeight * imgAspect;
      FitToHeight(imgW, imgH, canvasW, canvasH, imgAspect, canvasAspect);
      Rect((canvasW - drawWidth) / 2.0, 0.0, drawWidth, drawHeight)
    else
      // Image is taller: fit to width.
      var drawWidth := canvasW;
      var drawHeight := drawWidth / imgAspect;
      DivMul(drawWidth, imgAspect);
      FitToWidth(imgW, imgH, canvasW, canvasH, imgAspect, canvasAspect, drawHeight);
      Rect(0.0, (canvasH - drawHeight) / 2.0, drawWidth, drawHeight)
  }

  /** The image scaled uniformly by `scale` and centred on the canvas. */
  function ScaledCentred(imgW: real, imgH: real, canvasW: real, canvasH: real, scale: real): Rect {
    Rect((canvasW - imgW * scale) / 2.0, (canvasH - imgH * scale) / 2.0, imgW * scale, imgH * scale)
  }

  /** At scale s the image covers the canvas and touches it on one side. */
  predicate IsTightCover(imgW: real, imgH: real, canvasW: real, canvasH: real, s: real) {
    imgW * s >= canvasW && imgH * s >= canvasH && (imgW * s == canvasW || imgH * s == canvasH)
  }

  /** Only one scale covers the canvas tightly. */
  lemma TightCoverUnique(imgW: real, imgH: real, canvasW: real, canvasH: real, s: real, t: real)
    requires imgW > 0.0 && imgH > 0.0
    requires IsTightCover(imgW, imgH, canvasW, canvasH, s)
    requires IsTightCover(imgW, imgH, canvasW, canvasH, t)
    ensures s == t
  {
    ScaleStrict(s, t, imgW);
    ScaleStrict(s, t, imgH);
    ScaleStrict(t, s, imgW);
    ScaleStrict(t, s, imgH);
  }

  /** The smallest uniform scale at which the image covers the canvas. */
  function CoverScale(imgW: real, imgH: real, canvasW: real, canvasH: real): (s: real)
    requires imgW > 0.0 && imgH > 0.0
    ensures IsTightCover(imgW, imgH, canvasW, canvasH, s)
  {
    var sw, sh := canvasW / imgW, canvasH / imgH;
    DivMul(canvasW, imgW);
    DivMul(canvasH, imgH);
    ScaleStrict(sw, sh, imgH);
    ScaleStrict(sh, sw, imgW);
    if sw >= sh then sw else sh
  }

  /** Any uniform scale that covers the canvas is at least CoverScale. */
  lemma CoverScaleIsLeast(imgW: real, imgH: real, canvasW: real, canvasH: real, s: real)
    requires imgW > 0.0 && imgH > 0.0
    requires imgW * s >= canvasW && imgH * s >= canvasH
    ensures s >= CoverScale(imgW, imgH, canvasW, canvasH)
  {
    var c := CoverScale(imgW, imgH, canvasW, canvasH);
    ScaleStrict(s, c, imgW);
    ScaleStrict(s, c, imgH);
  }

  /** A rectangle with drawFrame's properties is the image at a tight scale, centred. */
  lemma CoverRectIsScaled(imgW: real, imgH: real, canvasW: real, canvasH: real, r: Rect)
    requires imgW > 0.0 && imgH > 0.0
    requires r.width * imgH == r.height * imgW
    requires r.width >= canvasW && r.height >= canvasH
    requires r.width == canvasW || r.height == canvasH
    requires r.x == (canvasW - r.width) / 2.0 && r.y == (canvasH - r.height) / 2.0
    ensures IsTightCover(imgW, imgH, canvasW, canvasH, r.width / imgW)
    ensures r == ScaledCentred(imgW, imgH, canvasW, canvasH, r.width / imgW)
  {
    var s := r.width / imgW;
    DivMul(r.width, imgW);
    assert r.height * imgW == (imgH * s) * imgW;
    Cancel(r.height, imgH * s, imgW);
  }

  /** drawFrame's rectangle is the image at its smallest covering scale, centred. */
  lemma CoverFitIsSmallestCover(imgW: real, imgH: real, canvasW: real, canvasH: real)
    requires imgW > 0.0 && imgH > 0.0 && canvasW > 0.0 && canvasH > 0.0
    ensures CoverFit(imgW, imgH, canvasW, canvasH) ==
              ScaledCentred(imgW, imgH, canvasW, canvasH, CoverScale(imgW, imgH, canvasW, canvasH))
  {
    var r := CoverFit(imgW, imgH, canvasW, canvasH);
    CoverRectIsScaled(imgW, imgH, canvasW, canvasH, r);
    TightCoverUnique(imgW, imgH, canvasW, canvasH, r.width / imgW, CoverScale(imgW, imgH, canvasW, canvasH));
  }

  /**
   * Unlike a "contain" fit, the drawn image never leaves bars: when the two
   * aspect ratios differ, one side of the image is cropped by the canvas.
   */
  lemma CoverFitCrops(imgW: real, imgH: real, canvasW: real, canvasH: real)
    requires imgW > 0.0 && imgH > 0.0 && canvasW > 0.0 && canvasH > 0.0
    requires imgW * canvasH != imgH * canvasW
    ensures CoverFit(imgW, imgH, canvasW, canvasH).width > canvasW ||
            CoverFit(imgW, imgH, canvasW, canvasH).height > canvasH
  {
  }
}
