/**
 * The thumbnail strip at the bottom of the screen (imagura/state/gallery.py):
 * its height, its resting positions and its pending scroll target.
 */
module StateGallery {
  import opened Wrappers
  import opened MathUtils

  /** Fraction of the screen height the strip takes. */
  const GalleryHeightFrac: real := 0.12

  /** `get_height`: `int(screen_h * 0.12)`, truncated toward zero. */
  function GalleryHeight(screenH: int): (h: int)
    ensures screenH >= 0 ==> 0 <= h <= screenH
    ensures screenH >= 0 ==> h as real <= screenH as real * GalleryHeightFrac < h as real + 1.0
  {
    Trunc(screenH as real * GalleryHeightFrac)
  }

  /** `get_y_visible`: the top of the strip when it is shown. */
  function YVisible(screenH: int): (y: int)
    ensures y == screenH - GalleryHeight(screenH)
    ensures screenH >= 0 ==> 0 <= y <= YHidden(screenH)
  {
    screenH - GalleryHeight(screenH)
  }

  /** `get_y_hidden`: the strip sits just below the screen. */
  function YHidden(screenH: int): (y: int)
    ensures y == screenH
  {
    screenH
  }

  /** On a 1080-pixel screen the strip is 129 pixels high and rests at y = 951. */
  lemma GalleryHeightExample()
    ensures GalleryHeight(1080) == 129 && YVisible(1080) == 951
  {
    assert 1080 as real * GalleryHeightFrac == 129.6;
  }

  /** The gallery state. */
  class GalleryState {
    var centerIndex: real
    var yPosition: real
    var visible: bool
    var targetIndex: Option<int>
    var lastWheelTime: real

    constructor ()
      ensures centerIndex == 0.0 && yPosition == 0.0 && !visible
      ensures targetIndex == None && lastWheelTime == 0.0
    {
      centerIndex, yPosition, visible := 0.0, 0.0, false;
      targetIndex, lastWheelTime := None, 0.0;
    }

    /** `is_fully_visible`. */
    function IsFullyVisible(screenH: int): (r: bool)
      reads this
      ensures r <==> yPosition <= YVisible(screenH) as real
    {
      yPosition <= YVisible(screenH) as real
    }

    /** `is_fully_hidden`. */
    function IsFullyHidden(screenH: int): (r: bool)
      reads this
      ensures r <==> yPosition >= screenH as real
      ensures screenH > 0 && GalleryHeight(screenH) > 0 ==> !(r && IsFullyVisible(screenH))
    {
      yPosition >= YHidden(screenH) as real
    }

    /** `has_pending_target`. */
    predicate HasPendingTarget()
      reads this
    {
      targetIndex.Some?
    }

    /** `clear_target`: no target afterwards; no other field changes. */
    method ClearTarget()
      modifies this`targetIndex
      ensures !HasPendingTarget()
    {
      targetIndex := None;
    }
  }
}
