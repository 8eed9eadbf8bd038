/**
 * The pure helpers of the single-file viewer (imagura2.py): its own pan
 * clamp, its easing curve, the zoom-state cycle and the background opacity
 * step. Its fit scale, centring and anchor zoom are the same computations
 * as in ViewMath and are used from there.
 */
module ViewerMath {
  import opened Wrappers
  import opened MathUtils
  import opened Types
  import ViewMath

  /** One axis of the legacy `clamp_pan`: centred when the image fits, else covering the screen. */
  function LegacyClampAxis(off: real, extent: real, screen: real): (r: real)
    ensures extent <= screen ==> r == (screen - extent) / 2.0
    ensures screen < extent ==> screen - extent <= r <= 0.0
    ensures screen < extent && screen - extent <= off <= 0.0 ==> r == off
  {
    if extent <= screen then (screen - extent) / 2.0 else Clamp(off, screen - extent, 0.0)
  }

  /**
   * The legacy `clamp_pan`: keeps the scale; on each axis a smaller image is
   * centred and a larger one is kept covering the screen.
   */
  function LegacyClampPan(view: ViewParams, imgW: int, imgH: int, screenW: int, screenH: int): (r: ViewParams)
    ensures r.scale == view.scale
    ensures var vw := imgW as real * view.scale;
      (vw <= screenW as real ==> r.offx + vw / 2.0 == screenW as real / 2.0) &&
      (screenW as real < vw ==> screenW as real - vw <= r.offx <= 0.0)
    ensures var vh := imgH as real * view.scale;
      (vh <= screenH as real ==> r.offy + vh / 2.0 == screenH as real / 2.0) &&
      (screenH as real < vh ==> screenH as real - vh <= r.offy <= 0.0)
  {
    var vw := imgW as real * view.scale;
    var vh := imgH as real * view.scale;
    ViewParams(view.scale, LegacyClampAxis(view.offx, vw, screenW as real), LegacyClampAxis(view.offy, vh, screenH as real))
  }

  /** Clamping twice is clamping once. */
  lemma LegacyClampPanIdempotent(view: ViewParams, imgW: int, imgH: int, screenW: int, screenH: int)
    ensures LegacyClampPan(LegacyClampPan(view, imgW, imgH, screenW, screenH), imgW, imgH, screenW, screenH)
         == LegacyClampPan(view, imgW, imgH, screenW, screenH)
  {
    var l := LegacyClampPan(view, imgW, imgH, screenW, screenH);
    var vw := imgW as real * view.scale;
    var vh := imgH as real * view.scale;
    assert imgW as real * l.scale == vw && imgH as real * l.scale == vh;
    assert LegacyClampAxis(l.offx, vw, screenW as real) == l.offx;
    assert LegacyClampAxis(l.offy, vh, screenH as real) == l.offy;
    var ll := LegacyClampPan(l, imgW, imgH, screenW, screenH);
    assert ll.offx == l.offx;
    assert ll.offy == l.offy;
    assert ll.scale == l.scale;
  }

  /**
   * The legacy clamp is stricter than the centre-deviation clamp of
   * ViewMath: its results are left alone by that clamp, and on an axis where
   * the image is larger than the screen the two agree.
   */
  lemma LegacyClampWithinModernClamp(view: ViewParams, imgW: int, imgH: int, screenW: int, screenH: int)
    ensures var l := LegacyClampPan(view, imgW, imgH, screenW, screenH);
      ViewMath.ClampPan(l, imgW, imgH, screenW, screenH) == l
    ensures var l := LegacyClampPan(view, imgW, imgH, screenW, screenH);
            var m := ViewMath.ClampPan(view, imgW, imgH, screenW, screenH);
      (screenW as real < imgW as real * view.scale ==> l.offx == m.offx) &&
      (screenH as real < imgH as real * view.scale ==> l.offy == m.offy)
  {
    LegacyClampKeptByModernClamp(view, imgW, imgH, screenW, screenH);
    LegacyClampAgreesOnWideImage(view, imgW, imgH, screenW, screenH);
    LegacyClampAgreesOnTallImage(view, imgW, imgH, screenW, screenH);
  }

  /** The first half of `LegacyClampWithinModernClamp`: the legacy result is already clamped. */
  lemma LegacyClampKeptByModernClamp(view: ViewParams, imgW: int, imgH: int, screenW: int, screenH: int)
    ensures var l := LegacyClampPan(view, imgW, imgH, screenW, screenH);
      ViewMath.ClampPan(l, imgW, imgH, screenW, screenH) == l
  {
    LegacyClampKeptOnX(view, imgW, imgH, screenW, screenH);
    LegacyClampKeptOnY(view, imgW, imgH, screenW, screenH);
  }

  /** The horizontal offset of the legacy result is kept by `clamp_pan`. */
  lemma LegacyClampKeptOnX(view: ViewParams, imgW: int, imgH: int, screenW: int, screenH: int)
    ensures var l := LegacyClampPan(view, imgW, imgH, screenW, screenH);
      ViewMath.ClampPan(l, imgW, imgH, screenW, screenH).offx == l.offx
  {
    var vw := imgW as real * view.scale;
    var l := LegacyClampPan(view, imgW, imgH, screenW, screenH);
    assert ViewMath.ExtentW(l, imgW) == vw;
    assert l.offx == LegacyClampAxis(view.offx, vw, screenW as real);
    LegacyAxisWithinClampAxis(view.offx, vw, screenW as real);
    ViewMath.ClampPanByAxis(l, imgW, imgH, screenW, screenH);
  }

  /** The vertical offset of the legacy result is kept by `clamp_pan`. */
  lemma LegacyClampKeptOnY(view: ViewParams, imgW: int, imgH: int, screenW: int, screenH: int)
    ensures var l := LegacyClampPan(view, imgW, imgH, screenW, screenH);
      ViewMath.ClampPan(l, imgW, imgH, screenW, screenH).offy == l.offy
  {
    var vh := imgH as real * view.scale;
    var l := LegacyClampPan(view, imgW, imgH, screenW, screenH);
    assert ViewMath.ExtentH(l, imgH) == vh;
    assert l.offy == LegacyClampAxis(view.offy, vh, screenH as real);
    LegacyAxisWithinClampAxis(view.offy, vh, screenH as real);
    ViewMath.ClampPanByAxis(l, imgW, imgH, screenW, screenH);
  }

  /** The horizontal half of the agreement in `LegacyClampWithinModernClamp`. */
  lemma LegacyClampAgreesOnWideImage(view: ViewParams, imgW: int, imgH: int, screenW: int, screenH: int)
    ensures screenW as real < imgW as real * view.scale ==>
      LegacyClampPan(view, imgW, imgH, screenW, screenH).offx == ViewMath.ClampPan(view, imgW, imgH, screenW, screenH).offx
  {
    LegacyAxisWithinClampAxis(view.offx, imgW as real * view.scale, screenW as real);
    ViewMath.ClampPanByAxis(view, imgW, imgH, screenW, screenH);
  }

  /** The vertical half of the agreement in `LegacyClampWithinModernClamp`. */
  lemma LegacyClampAgreesOnTallImage(view: ViewParams, imgW: int, imgH: int, screenW: int, screenH: int)
    ensures screenH as real < imgH as real * view.scale ==>
      LegacyClampPan(view, imgW, imgH, screenW, screenH).offy == ViewMath.ClampPan(view, imgW, imgH, screenW, screenH).offy
  {
    LegacyAxisWithinClampAxis(view.offy, imgH as real * view.scale, screenH as real);
    ViewMath.ClampPanByAxis(view, imgW, imgH, screenW, screenH);
  }

  /** One axis of `LegacyClampWithinModernClamp`. */
  lemma LegacyAxisWithinClampAxis(off: real, extent: real, screen: real)
    ensures var l := LegacyClampAxis(off, extent, screen);
      ViewMath.ClampAxis(l, extent, screen) == l && (screen < extent ==> l == ViewMath.ClampAxis(off, extent, screen))
  {
    ViewMath.ClampAxisKeeps(LegacyClampAxis(off, extent, screen), extent, screen);
  }

  /**
   * `ease_log_in_out`: despite its name a pair of quadratics, rising fast,
   * flattening at the midpoint and rising fast again.
   */
  function EaseLogInOut(t: real): (r: real)
    ensures t <= 0.0 ==> r == 0.0
    ensures t >= 1.0 ==> r == 1.0
    ensures 0.0 <= r <= 1.0
    ensures t < 0.5 ==> r <= 0.5
    ensures t >= 0.5 ==> r >= 0.5
  {
    if t <= 0.0 then 0.0
    else if t >= 1.0 then 1.0
    else if t < 0.5 then
      var x := 1.0 - 2.0 * t;
      UnitSquare(x);
      0.5 * (1.0 - x * x)
    else
      var x := 2.0 * t - 1.0;
      UnitSquare(x);
      0.5 * (1.0 + x * x)
  }

  lemma UnitSquare(x: real)
    requires 0.0 <= x <= 1.0
    ensures 0.0 <= x * x <= x
  {
  }

  /** The curve is point-symmetric about (0.5, 0.5). */
  lemma EaseLogInOutSymmetric(t: real)
    ensures EaseLogInOut(1.0 - t) == 1.0 - EaseLogInOut(t)
  {
    if 0.0 < t < 1.0 && t != 0.5 {
      var u := 1.0 - 2.0 * t;
      NegSquare(u);
      assert 2.0 * (1.0 - t) - 1.0 == u;
    }
  }

  /** The curve never decreases. */
  lemma EaseLogInOutMonotone(s: real, t: real)
    requires s <= t
    ensures EaseLogInOut(s) <= EaseLogInOut(t)
  {
    if 0.0 < s && t < 1.0 {
      if t < 0.5 {
        SquareMonotone(1.0 - 2.0 * t, 1.0 - 2.0 * s);
      } else if s >= 0.5 {
        SquareMonotone(2.0 * s - 1.0, 2.0 * t - 1.0);
      }
    }
  }

  /** The zoom states of the toggle: 1:1, fit, the last user view. */
  const ZoomOneToOne: int := 0
  const ZoomFit: int := 1
  const ZoomLastUser: int := 2

  /** The next state of `cycle_zoom_state`; any other value has no successor. */
  function NextZoomState(s: int): (r: Option<int>)
    ensures r.Some? <==> s in {ZoomOneToOne, ZoomFit, ZoomLastUser}
    ensures r.Some? ==> r.value in {ZoomOneToOne, ZoomFit, ZoomLastUser} && r.value != s
  {
    if s == ZoomOneToOne then Some(ZoomFit)
    else if s == ZoomFit then Some(ZoomLastUser)
    else if s == ZoomLastUser then Some(ZoomOneToOne)
    else None
  }

  /** Three toggles return to the starting state. */
  lemma ZoomCycleReturns(s: int)
    requires s in {ZoomOneToOne, ZoomFit, ZoomLastUser}
    ensures NextZoomState(NextZoomState(NextZoomState(s).value).value).value == s
  {
  }

  /**
   * The view `cycle_zoom_state` moves to: the 1:1 view, the last fit view, or
   * the last user view when there is one (else the last fit view).
   */
  function ZoomTarget(next: int, oneToOne: ViewParams, lastFit: ViewParams, lastUser: Option<ViewParams>): (v: ViewParams)
    ensures next == ZoomOneToOne ==> v == oneToOne
    ensures next == ZoomFit ==> v == lastFit
    ensures next == ZoomLastUser ==> v == lastUser.GetOr(lastFit)
  {
    if next == ZoomOneToOne then oneToOne
    else if next == ZoomFit then lastFit
    else lastUser.GetOr(lastFit)
  }

  /** Length of the zoom toggle animation in milliseconds. */
  const AnimToggleZoomMs: real := 150.0

  /** The progress of the toggle animation begun at `t0`, at time `now`, capped at 1. */
  function ZoomProgress(t0: real, now: real): (t: real)
    ensures t <= 1.0
    ensures t == 1.0 <==> now - t0 >= AnimToggleZoomMs / 1000.0
    ensures now <= t0 ==> t <= 0.0
  {
    var t := (now - t0) / (AnimToggleZoomMs / 1000.0);
    if t >= 1.0 then 1.0 else t
  }

  /**
   * One frame of the toggle animation at progress `t`: the eased
   * interpolation from `from` to `target`, pan-clamped. It starts at the
   * clamped `from`, ends at the clamped target, and its scale stays between
   * the two.
   */
  function ZoomCycleFrameView(from: ViewParams, target: ViewParams, t: real, imgW: int, imgH: int,
                              screenW: int, screenH: int): (v: ViewParams)
    ensures t <= 0.0 ==> v == LegacyClampPan(from, imgW, imgH, screenW, screenH)
    ensures t >= 1.0 ==> v == LegacyClampPan(target, imgW, imgH, screenW, screenH)
    ensures from.scale <= target.scale ==> from.scale <= v.scale <= target.scale
    ensures target.scale <= from.scale ==> target.scale <= v.scale <= from.scale
  {
    var e := EaseLogInOut(t);
    var cur := ViewParams(Lerp(from.scale, target.scale, e), Lerp(from.offx, target.offx, e), Lerp(from.offy, target.offy, e));
    LegacyClampPan(cur, imgW, imgH, screenW, screenH)
  }

  /** Frames per second the background fade assumes, and the fade's length in milliseconds. */
  const TargetFps: real := 60.0
  const BgFadeMs: real := 150.0

  /** The largest opacity change of one frame: a full fade takes 150 ms. */
  function BgOpacityStep(): (s: real)
    ensures 0.0 < s && s * 9.0 == 1.0
  {
    (1.0 / (BgFadeMs / 1000.0)) / TargetFps
  }

  /**
   * `apply_bg_opacity_anim`: within 0.001 of the target nothing moves;
   * otherwise one step of at most `BgOpacityStep()` toward the target.
   */
  function BgOpacityTick(current: real, target: real): (r: real)
    ensures Abs(target - current) < 0.001 ==> r == current
    ensures current <= target ==> current <= r <= target
    ensures target <= current ==> target <= r <= current
    ensures Abs(r - current) <= BgOpacityStep()
    ensures Abs(target - current) >= 0.001 ==>
      Abs(target - r) == if Abs(target - current) <= BgOpacityStep() then 0.0 else Abs(target - current) - BgOpacityStep()
  {
    var delta := target - current;
    if Abs(delta) < 0.001 then current
    else
      var step := BgOpacityStep();
      current + Clamp(delta, -step, step)
  }

  /** Ticking repeatedly from opacity `current`. */
  function BgOpacityAfter(current: real, target: real, frames: nat): real
    decreases frames
  {
    if frames == 0 then current else BgOpacityAfter(BgOpacityTick(current, target), target, frames - 1)
  }

  /**
   * A fade no further from its target than `frames` steps settles within
   * `frames` frames; a switch between two modes' opacities (at most 1 apart)
   * thus settles in nine frames.
   */
  lemma {:induction false} BgFadeSettles(current: real, target: real, frames: nat)
    requires Abs(target - current) <= frames as real * BgOpacityStep()
    decreases frames
    ensures BgOpacityAfter(current, target, frames) == target || Abs(target - BgOpacityAfter(current, target, frames)) < 0.001
  {
    if frames > 0 {
      var next := BgOpacityTick(current, target);
      if Abs(target - current) >= 0.001 {
        BgFadeSettles(next, target, frames - 1);
      } else {
        BgFadeStays(current, target, frames);
      }
    }
  }

  /** Once within 0.001 of the target, the fade no longer moves. */
  lemma {:induction false} BgFadeStays(current: real, target: real, frames: nat)
    requires Abs(target - current) < 0.001
    decreases frames
    ensures BgOpacityAfter(current, target, frames) == current
  {
    if frames > 0 {
      BgFadeStays(BgOpacityTick(current, target), target, frames - 1);
    }
  }
}
