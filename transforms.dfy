/**
 * Size bookkeeping for the rotate and flip image transforms
 * (imagura/transforms.py). The file rewriting itself is not modelled.
 */
module Transforms {

  /** A quarter turn in either direction swaps width and height. */
  function RotatedDimensions(width: int, height: int, clockwise: bool := true): (r: (int, int))
    ensures r.0 == height && r.1 == width
  {
    (height, width)
  }

  /** A mirror flip keeps the size. */
  function FlippedDimensions(width: int, height: int): (r: (int, int))
    ensures r == (width, height)
  {
    (width, height)
  }

  /** The direction of the quarter turn does not affect the size. */
  lemma RotationDirectionIrrelevant(width: int, height: int)
    ensures RotatedDimensions(width, height, true) == RotatedDimensions(width, height, false)
  {
  }

  /** Two quarter turns restore the original size, whichever their directions. */
  lemma RotateTwice(width: int, height: int, cw1: bool, cw2: bool)
    ensures var (w1, h1) := RotatedDimensions(width, height, cw1);
      RotatedDimensions(w1, h1, cw2) == (width, height)
  {
  }

  /** A flip composed with a rotation gives the same size as the rotation alone. */
  lemma FlipCommutesWithRotate(width: int, height: int, cw: bool)
    ensures var (fw, fh) := FlippedDimensions(width, height);
      RotatedDimensions(fw, fh, cw) == RotatedDimensions(width, height, cw)
  {
  }
}
