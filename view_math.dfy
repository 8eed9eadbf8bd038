/**
 * View-transform arithmetic (imagura/view_math.py): fit scale, centring,
 * the centre-deviation pan clamp, anchor-preserving zoom and the heuristic
 * repair of stored views. Pixel sizes are integers; all arithmetic is over
 * exact reals.
 */
module ViewMath {
  import opened MathUtils
  import opened Types

  /** Default fraction of the screen an image is fitted to. */
  const FitDefaultScale: real := 0.95

  /** Smallest scale a zoom can produce. */
  const MinZoomScale: real := 0.01

  /** Floor applied to the old scale before dividing by it. */
  const MinOldScale: real := 0.000001

  lemma DivFacts(a: real, b: real)
    requires 0.0 < b
    ensures (a / b) * b == a
  {
  }

  lemma MulLeRight(x: real, y: real, b: real)
    requires x <= y && 0.0 <= b
    ensures x * b <= y * b
  {
  }

  /**
   * Scale that fits the image into `frac` of the screen: the smaller of the
   * two axis ratios, or 1.0 for an image with a zero dimension.
   */
  function ComputeFitScale(imgW: int, imgH: int, screenW: int, screenH: int, frac: real := 1.0): (r: real)
    ensures imgW == 0 || imgH == 0 ==> r == 1.0
    ensures imgW != 0 && imgH != 0 ==>
      r == screenW as real * frac / imgW as real || r == screenH as real * frac / imgH as real
  {
    if imgW == 0 || imgH == 0 then 1.0
    else MathUtils.Min(screenW as real * frac / imgW as real, screenH as real * frac / imgH as real)
  }

  /**
   * For positive image sizes the fitted image is no larger than `frac` of the
   * screen on either axis and exactly that size on at least one.
   */
  lemma FitScaleFits(imgW: int, imgH: int, screenW: int, screenH: int, frac: real)
    requires imgW > 0 && imgH > 0
    ensures var s := ComputeFitScale(imgW, imgH, screenW, screenH, frac);
      imgW as real * s <= screenW as real * frac && imgH as real * s <= screenH as real * frac
    ensures var s := ComputeFitScale(imgW, imgH, screenW, screenH, frac);
      imgW as real * s == screenW as real * frac || imgH as real * s == screenH as real * frac
  {
    var s := ComputeFitScale(imgW, imgH, screenW, screenH, frac);
    var x, y := screenW as real * frac, screenH as real * frac;
    var w, h := imgW as real, imgH as real;
    RatioFit(x, w, y, h, s);
  }

  lemma RatioFit(x: real, w: real, y: real, h: real, s: real)
    requires 0.0 < w && 0.0 < h
    requires s <= x / w && s <= y / h
    requires s == x / w || s == y / h
    ensures w * s <= x && h * s <= y
    ensures w * s == x || h * s == y
  {
    DivFacts(x, w);
    DivFacts(y, h);
    MulLeRight(s, x / w, w);
    MulLeRight(s, y / h, h);
  }

  /** The view at `scale` whose image centre is the screen centre. */
  function CenterViewFor(scale: real, imgW: int, imgH: int, screenW: int, screenH: int): (r: ViewParams)
    ensures r.scale == scale
    ensures IsCentered(r, imgW, imgH, screenW, screenH)
  {
    ViewParams(scale, (screenW as real - imgW as real * scale) / 2.0, (screenH as real - imgH as real * scale) / 2.0)
  }

  /** Width of the drawn image. */
  function ExtentW(v: ViewParams, imgW: int): real {
    imgW as real * v.scale
  }

  /** Height of the drawn image. */
  function ExtentH(v: ViewParams, imgH: int): real {
    imgH as real * v.scale
  }

  /** The scaled image's centre coincides with the screen centre. */
  predicate IsCentered(v: ViewParams, imgW: int, imgH: int, screenW: int, screenH: int) {
    v.offx + ExtentW(v, imgW) / 2.0 == screenW as real / 2.0 &&
    v.offy + ExtentH(v, imgH) / 2.0 == screenH as real / 2.0
  }

  /** A centred view is determined by its scale. */
  lemma CenteredUnique(v: ViewParams, imgW: int, imgH: int, screenW: int, screenH: int)
    requires IsCentered(v, imgW, imgH, screenW, screenH)
    ensures v == CenterViewFor(v.scale, imgW, imgH, screenW, screenH)
  {
  }

  /** The fit scale, centred. */
  function ComputeFitView(imgW: int, imgH: int, screenW: int, screenH: int, frac: real := 1.0): (r: ViewParams)
    ensures r.scale == ComputeFitScale(imgW, imgH, screenW, screenH, frac)
    ensures IsCentered(r, imgW, imgH, screenW, screenH)
  {
    var scale := ComputeFitScale(imgW, imgH, screenW, screenH, frac);
    CenterViewFor(scale, imgW, imgH, screenW, screenH)
  }

  /** A full-screen image fitted at 0.95 leaves a 2.5% margin on every side. */
  lemma FitViewExample()
    ensures ComputeFitView(1920, 1080, 1920, 1080, FitDefaultScale) == ViewParams(0.95, 48.0, 27.0)
  {
    assert ComputeFitScale(1920, 1080, 1920, 1080, FitDefaultScale) == 0.95;
  }

  /**
   * One axis of `clamp_pan`: the image centre may deviate from the screen
   * centre by at most |screen - extent| / 2.
   */
  function ClampAxis(off: real, extent: real, screen: real): (r: real)
    ensures Abs(r + extent / 2.0 - screen / 2.0) <= Abs(screen - extent) / 2.0
    ensures extent <= screen ==> 0.0 <= r <= screen - extent
    ensures screen <= extent ==> screen - extent <= r <= 0.0
  {
    var center := off + extent / 2.0;
    var screenCenter := screen / 2.0;
    var maxDev := Abs(screen - extent) / 2.0;
    Clamp(center, screenCenter - maxDev, screenCenter + maxDev) - extent / 2.0
  }

  /** An offset already inside the allowed band is kept. */
  lemma ClampAxisKeeps(off: real, extent: real, screen: real)
    requires Abs(off + extent / 2.0 - screen / 2.0) <= Abs(screen - extent) / 2.0
    ensures ClampAxis(off, extent, screen) == off
  {
  }

  lemma ClampAxisIdempotent(off: real, extent: real, screen: real)
    ensures ClampAxis(ClampAxis(off, extent, screen), extent, screen) == ClampAxis(off, extent, screen)
  {
    ClampAxisKeeps(ClampAxis(off, extent, screen), extent, screen);
  }

  /**
   * `clamp_pan`: keeps the scale and clamps each offset so that the image
   * centre stays within |screen - extent| / 2 of the screen centre.
   */
  function ClampPan(view: ViewParams, imgW: int, imgH: int, screenW: int, screenH: int): (r: ViewParams)
    ensures r.scale == view.scale
    ensures Abs(r.offx + ExtentW(view, imgW) / 2.0 - screenW as real / 2.0) <= Abs(screenW as real - ExtentW(view, imgW)) / 2.0
    ensures Abs(r.offy + ExtentH(view, imgH) / 2.0 - screenH as real / 2.0) <= Abs(screenH as real - ExtentH(view, imgH)) / 2.0
    ensures ExtentW(view, imgW) <= screenW as real ==> 0.0 <= r.offx <= screenW as real - ExtentW(view, imgW)
    ensures screenW as real <= ExtentW(view, imgW) ==> screenW as real - ExtentW(view, imgW) <= r.offx <= 0.0
    ensures ExtentH(view, imgH) <= screenH as real ==> 0.0 <= r.offy <= screenH as real - ExtentH(view, imgH)
    ensures screenH as real <= ExtentH(view, imgH) ==> screenH as real - ExtentH(view, imgH) <= r.offy <= 0.0
  {
    var result := view.Copy();
    var vw := ExtentW(view, imgW);
    var vh := ExtentH(view, imgH);
    result.(offx := ClampAxis(view.offx, vw, screenW as real), offy := ClampAxis(view.offy, vh, screenH as real))
  }

  /** `clamp_pan` clamps each axis on its own. */
  lemma ClampPanByAxis(view: ViewParams, imgW: int, imgH: int, screenW: int, screenH: int)
    ensures ClampPan(view, imgW, imgH, screenW, screenH)
         == ViewParams(view.scale, ClampAxis(view.offx, ExtentW(view, imgW), screenW as real),
                       ClampAxis(view.offy, ExtentH(view, imgH), screenH as real))
  {
  }

  /** Clamping twice is clamping once. */
  lemma ClampPanIdempotent(view: ViewParams, imgW: int, imgH: int, screenW: int, screenH: int)
    ensures ClampPan(ClampPan(view, imgW, imgH, screenW, screenH), imgW, imgH, screenW, screenH)
         == ClampPan(view, imgW, imgH, screenW, screenH)
  {
    var c := ClampPan(view, imgW, imgH, screenW, screenH);
    var vw, vh := ExtentW(view, imgW), ExtentH(view, imgH);
    assert ExtentW(c, imgW) == vw && ExtentH(c, imgH) == vh;
    assert c.offx == ClampAxis(view.offx, vw, screenW as real);
    assert c.offy == ClampAxis(view.offy, vh, screenH as real);
    ClampAxisIdempotent(view.offx, vw, screenW as real);
    ClampAxisIdempotent(view.offy, vh, screenH as real);
  }

  /** A centred view is left as it is. */
  lemma ClampPanCentered(view: ViewParams, imgW: int, imgH: int, screenW: int, screenH: int)
    requires IsCentered(view, imgW, imgH, screenW, screenH)
    ensures ClampPan(view, imgW, imgH, screenW, screenH) == view
  {
    var vw, vh := ExtentW(view, imgW), ExtentH(view, imgH);
    ClampAxisKeeps(view.offx, vw, screenW as real);
    ClampAxisKeeps(view.offy, vh, screenH as real);
  }

  /**
   * Zoom to `newScale` (floored at 0.01) keeping the image point under the
   * anchor fixed on screen; the old scale is floored at 1e-6 before dividing.
   */
  function RecomputeViewAnchorZoom(view: ViewParams, newScale: real, ax: real, ay: real, imgW: int, imgH: int): (r: ViewParams)
    ensures r.scale == Max(MinZoomScale, newScale)
    ensures view.scale > MinOldScale ==>
      (ax - r.offx) / r.scale == (ax - view.offx) / view.scale &&
      (ay - r.offy) / r.scale == (ay - view.offy) / view.scale
  {
    var oldScale := if view.scale > MinOldScale then view.scale else MinOldScale;
    var wx := (ax - view.offx) / oldScale;
    var wy := (ay - view.offy) / oldScale;
    var scale := Max(MinZoomScale, newScale);
    AnchorKept(ax, wx, scale);
    AnchorKept(ay, wy, scale);
    ViewParams(scale, ax - wx * scale, ay - wy * scale)
  }

  lemma AnchorKept(a: real, w: real, s: real)
    requires 0.0 < s
    ensures (a - (a - w * s)) / s == w
  {
  }

  /** The 1:1 view, centred. */
  function ViewFor1to1Centered(imgW: int, imgH: int, screenW: int, screenH: int): (r: ViewParams)
    ensures r.scale == 1.0
    ensures IsCentered(r, imgW, imgH, screenW, screenH)
  {
    CenterViewFor(1.0, imgW, imgH, screenW, screenH)
  }

  /** Rule 1 of `sanitize_view`: both offsets within 5 pixels of the origin. */
  predicate NearZeroOffsets(view: ViewParams) {
    Abs(view.offx) < 5.0 && Abs(view.offy) < 5.0
  }

  /** Rule 2: one offset within 5 pixels of the origin and the other more than 50 away. */
  predicate AsymmetricOffsets(view: ViewParams) {
    (Abs(view.offx) < 5.0 && Abs(view.offy) > 50.0) || (Abs(view.offy) < 5.0 && Abs(view.offx) > 50.0)
  }

  /** Rule 3: a view within 0.01 of 1:1 whose offsets are more than 50 pixels from the centred 1:1 ones. */
  predicate BadOneToOne(view: ViewParams, imgW: int, imgH: int, screenW: int, screenH: int) {
    var c1 := ViewFor1to1Centered(imgW, imgH, screenW, screenH);
    Abs(view.scale - 1.0) < 0.01 && (Abs(view.offx - c1.offx) > 50.0 || Abs(view.offy - c1.offy) > 50.0)
  }

  /**
   * `sanitize_view`: near-zero offsets and one-near-zero/one-large offsets
   * re-centre at the same scale, a 1:1 view far from its centred offsets is
   * re-centred at 1:1, anything else is pan-clamped.
   */
  function SanitizeView(view: ViewParams, imgW: int, imgH: int, screenW: int, screenH: int): (r: ViewParams)
    ensures NearZeroOffsets(view) || AsymmetricOffsets(view) ==> r == CenterViewFor(view.scale, imgW, imgH, screenW, screenH)
    ensures !NearZeroOffsets(view) && !AsymmetricOffsets(view) && BadOneToOne(view, imgW, imgH, screenW, screenH) ==>
      r == ViewFor1to1Centered(imgW, imgH, screenW, screenH)
    ensures !NearZeroOffsets(view) && !AsymmetricOffsets(view) && !BadOneToOne(view, imgW, imgH, screenW, screenH) ==>
      r == ClampPan(view, imgW, imgH, screenW, screenH)
    ensures IsCentered(r, imgW, imgH, screenW, screenH) || r == ClampPan(view, imgW, imgH, screenW, screenH)
    ensures r.scale == view.scale || (r.scale == 1.0 && Abs(view.scale - 1.0) < 0.01)
  {
    var v := view.Copy();
    var centered := CenterViewFor(v.scale, imgW, imgH, screenW, screenH);
    if Abs(v.offx) < 5.0 && Abs(v.offy) < 5.0 then
      centered
    else if (Abs(v.offx) < 5.0 && Abs(v.offy) > 50.0) || (Abs(v.offy) < 5.0 && Abs(v.offx) > 50.0) then
      centered
    else if Abs(v.scale - 1.0) < 0.01 && (
        var c1 := ViewFor1to1Centered(imgW, imgH, screenW, screenH);
        Abs(v.offx - c1.offx) > 50.0 || Abs(v.offy - c1.offy) > 50.0) then
      ViewFor1to1Centered(imgW, imgH, screenW, screenH)
    else
      ClampPan(v, imgW, imgH, screenW, screenH)
  }

  /** Whatever rule fires, the result is a fixed point of the pan clamp. */
  lemma SanitizeThenClamp(view: ViewParams, imgW: int, imgH: int, screenW: int, screenH: int)
    ensures var s := SanitizeView(view, imgW, imgH, screenW, screenH);
      ClampPan(s, imgW, imgH, screenW, screenH) == s
  {
    var s := SanitizeView(view, imgW, imgH, screenW, screenH);
    if IsCentered(s, imgW, imgH, screenW, screenH) {
      ClampPanCentered(s, imgW, imgH, screenW, screenH);
    } else {
      ClampPanIdempotent(view, imgW, imgH, screenW, screenH);
    }
  }

  /** A view stuck at the origin is re-centred: 800x600 at 1:1 on 1920x1080. */
  lemma SanitizeExample()
    ensures SanitizeView(ViewParams(1.0, 0.0, 0.0), 800, 600, 1920, 1080) == ViewParams(1.0, 560.0, 240.0)
  {
  }

  /**
   * Rule 3 also fires on a view that is already centred: a 30000x100 strip
   * centred at 0.995 on 1920x1080 is moved to the centred 1:1 view, so
   * sanitising can change the scale of a well-formed view.
   */
  lemma SanitizeSnapsCentredNearOneToOne()
    ensures SanitizeView(CenterViewFor(0.995, 30000, 100, 1920, 1080), 30000, 100, 1920, 1080)
      == ViewFor1to1Centered(30000, 100, 1920, 1080)
    ensures SanitizeView(CenterViewFor(0.995, 30000, 100, 1920, 1080), 30000, 100, 1920, 1080).scale == 1.0
  {
    var v := CenterViewFor(0.995, 30000, 100, 1920, 1080);
    var c1 := ViewFor1to1Centered(30000, 100, 1920, 1080);
    assert v.offx == -13965.0 && v.offy == 490.25;
    assert c1.offx == -14040.0;
    assert BadOneToOne(v, 30000, 100, 1920, 1080);
  }
}
