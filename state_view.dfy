/**
 * The current view, the last fit view and the zoom classification
 * (imagura/state/view.py).
 */
module StateView {
  import opened MathUtils
  import opened Types

  /** Tolerance of the "at fit" and "at 1:1" tests. */
  const ZoomTolerance: real := 0.01

  /** Zoom states of the toggle cycle. */
  const ZoomOneToOne: int := 0
  const ZoomFit: int := 1
  const ZoomUser: int := 2

  /** `is_at_fit`: strictly within the tolerance of the fit scale. */
  predicate IsAtFit(scale: real, fitScale: real, tolerance: real := ZoomTolerance) {
    Abs(scale - fitScale) < tolerance
  }

  /** `is_at_1to1`: strictly within the tolerance of scale 1. */
  predicate IsAtOneToOne(scale: real, tolerance: real := ZoomTolerance) {
    Abs(scale - 1.0) < tolerance
  }

  /**
   * The state `update_zoom_state` assigns: 1:1 takes precedence over fit,
   * anything else is a user zoom.
   */
  function ZoomStateFor(scale: real, fitScale: real): (z: int)
    ensures z == ZoomOneToOne || z == ZoomFit || z == ZoomUser
    ensures z == ZoomOneToOne <==> IsAtOneToOne(scale)
    ensures z == ZoomFit <==> !IsAtOneToOne(scale) && IsAtFit(scale, fitScale)
  {
    if IsAtOneToOne(scale) then ZoomOneToOne
    else if IsAtFit(scale, fitScale) then ZoomFit
    else ZoomUser
  }

  /** When the fit scale is itself near 1, a view at exactly 1:1 counts as 1:1, not fit. */
  lemma OneToOneBeatsFit(fitScale: real)
    requires IsAtFit(1.0, fitScale)
    ensures ZoomStateFor(1.0, fitScale) == ZoomOneToOne
  {
  }

  /** A scale strictly between the two tolerance bands is a user zoom. */
  lemma UserZoomBetween(scale: real, fitScale: real)
    requires fitScale + ZoomTolerance <= scale && scale <= 1.0 - ZoomTolerance
    ensures ZoomStateFor(scale, fitScale) == ZoomUser
  {
  }

  /** The view state. */
  class ViewState {
    var view: ViewParams
    var lastFitView: ViewParams
    var zoomStateCycle: int
    var isZoomed: bool

    constructor ()
      ensures view == DefaultView() && lastFitView == DefaultView()
      ensures zoomStateCycle == ZoomFit && !isZoomed
    {
      view, lastFitView := DefaultView(), DefaultView();
      zoomStateCycle, isZoomed := ZoomFit, false;
    }

    /** `update_zoom_state`: classifies the current scale; the views are not touched. */
    method UpdateZoomState()
      modifies this`isZoomed, this`zoomStateCycle
      ensures isZoomed <==> view.scale > lastFitView.scale
      ensures zoomStateCycle == ZoomStateFor(view.scale, lastFitView.scale)
      ensures zoomStateCycle in {ZoomOneToOne, ZoomFit, ZoomUser}
    {
      isZoomed := view.scale > lastFitView.scale;
      if IsAtOneToOne(view.scale) {
        zoomStateCycle := ZoomOneToOne;
      } else if IsAtFit(view.scale, lastFitView.scale) {
        zoomStateCycle := ZoomFit;
      } else {
        zoomStateCycle := ZoomUser;
      }
    }
  }
}
