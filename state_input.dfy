/**
 * Mouse panning and double-click detection (imagura/state/input.py). The
 * clock reading of `check_double_click` is a parameter, in seconds.
 */
module StateInput {

  /** Longest gap, in milliseconds, between the clicks of a double click. */
  const DoubleClickTimeMs: int := 300

  /** `abs` on integers. */
  function IntAbs(x: int): (r: nat)
    ensures r == x || r == -x
  {
    if x < 0 then -x else x
  }

  /** `get_pan_delta`: how far the mouse moved since the pan started. */
  function PanDelta(startMouse: (real, real), mouseX: real, mouseY: real): (d: (real, real))
    ensures startMouse.0 + d.0 == mouseX && startMouse.1 + d.1 == mouseY
  {
    (mouseX - startMouse.0, mouseY - startMouse.1)
  }

  /** `get_panned_offset`: the start offset moved by the mouse delta. */
  function PannedOffset(startMouse: (real, real), startOffset: (real, real), mouseX: real, mouseY: real): (o: (real, real))
    ensures o.0 - startOffset.0 == mouseX - startMouse.0
    ensures o.1 - startOffset.1 == mouseY - startMouse.1
  {
    var d := PanDelta(startMouse, mouseX, mouseY);
    (startOffset.0 + d.0, startOffset.1 + d.1)
  }

  /** At the start position the panned offset is the start offset. */
  lemma PannedOffsetAtStart(startMouse: (real, real), startOffset: (real, real))
    ensures PannedOffset(startMouse, startOffset, startMouse.0, startMouse.1) == startOffset
  {
  }

  /** Panning composes: moving to one point and then to another is one move. */
  lemma PannedOffsetCompose(startMouse: (real, real), startOffset: (real, real), m1: (real, real), m2: (real, real))
    ensures PannedOffset(m1, PannedOffset(startMouse, startOffset, m1.0, m1.1), m2.0, m2.1) ==
            PannedOffset(startMouse, startOffset, m2.0, m2.1)
  {
  }

  /** The double-click test: soon enough after the last click and close enough on both axes. */
  predicate IsDoubleClick(now: real, lastTime: real, lastPos: (int, int), x: int, y: int, maxDistance: int) {
    now - lastTime < DoubleClickTimeMs as real / 1000.0 &&
    IntAbs(x - lastPos.0) < maxDistance && IntAbs(y - lastPos.1) < maxDistance
  }

  /**
   * After a double click has reset the last click time to 0, a further click
   * at any clock reading of 0.3 s or later is not a double click.
   */
  lemma NoTripleClick(now: real, lastPos: (int, int), x: int, y: int, maxDistance: int)
    requires now >= DoubleClickTimeMs as real / 1000.0
    ensures !IsDoubleClick(now, 0.0, lastPos, x, y, maxDistance)
  {
  }

  /** The panning and click state. */
  class InputState {
    var isPanning: bool
    var panStartMouse: (real, real)
    var panStartOffset: (real, real)
    var lastClickTime: real
    var lastClickPos: (int, int)

    constructor ()
      ensures !isPanning && panStartMouse == (0.0, 0.0) && panStartOffset == (0.0, 0.0)
      ensures lastClickTime == 0.0 && lastClickPos == (0, 0)
    {
      isPanning, panStartMouse, panStartOffset := false, (0.0, 0.0), (0.0, 0.0);
      lastClickTime, lastClickPos := 0.0, (0, 0);
    }

    /** `start_pan`. */
    method StartPan(mouseX: real, mouseY: real, offsetX: real, offsetY: real)
      modifies this`isPanning, this`panStartMouse, this`panStartOffset
      ensures isPanning && panStartMouse == (mouseX, mouseY) && panStartOffset == (offsetX, offsetY)
    {
      isPanning := true;
      panStartMouse := (mouseX, mouseY);
      panStartOffset := (offsetX, offsetY);
    }

    /** `end_pan`: reports whether a pan was running. */
    method EndPan() returns (wasPanning: bool)
      modifies this`isPanning
      ensures wasPanning == old(isPanning) && !isPanning
    {
      wasPanning := isPanning;
      isPanning := false;
    }

    /** `get_panned_offset` from the recorded start. */
    function GetPannedOffset(mouseX: real, mouseY: real): (o: (real, real))
      reads this
      ensures o == PannedOffset(panStartMouse, panStartOffset, mouseX, mouseY)
      ensures (mouseX, mouseY) == panStartMouse ==> o == panStartOffset
    {
      (panStartOffset.0 + (mouseX - panStartMouse.0), panStartOffset.1 + (mouseY - panStartMouse.1))
    }

    /**
     * `check_double_click` at time `now`: on a double click the last click
     * time resets to 0 (so a third click starts afresh) and the position is
     * kept; otherwise this click is recorded.
     */
    method CheckDoubleClick(now: real, x: int, y: int, maxDistance: int := 10) returns (isDouble: bool)
      modifies this`lastClickTime, this`lastClickPos
      ensures isDouble <==> IsDoubleClick(now, old(lastClickTime), old(lastClickPos), x, y, maxDistance)
      ensures isDouble ==> lastClickTime == 0.0 && lastClickPos == old(lastClickPos)
      ensures !isDouble ==> lastClickTime == now && lastClickPos == (x, y)
    {
      if now - lastClickTime < DoubleClickTimeMs as real / 1000.0 {
        var dx := IntAbs(x - lastClickPos.0);
        var dy := IntAbs(y - lastClickPos.1);
        if dx < maxDistance && dy < maxDistance {
          lastClickTime := 0.0;
          return true;
        }
      }
      lastClickTime := now;
      lastClickPos := (x, y);
      return false;
    }
  }
}
