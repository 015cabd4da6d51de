/**
 * The size guard consulted before a scale gesture, as isCanScale decides it
 * from the two edge lengths of the cached corners (top edge and right edge)
 * and the sticker's min/max sizes. Written exactly as isCanScale is: the
 * shrink branch treats an unset maximum (maxSize <= 0) as "no limit", and
 * both branches look at the current edges, not at the edges after scaling.
 */
module ScaleGuard {

  /** The three-branch decision of isCanScale. */
  function ScaleAllowed(scale: real, length1: real, length2: real, minSize: int, maxSize: int): (ok: bool)
    ensures scale == 1.0 ==> ok
    ensures scale > 1.0 ==> (ok <==> maxSize <= 0 || (length1 < maxSize as real && length2 < maxSize as real))
    ensures scale < 1.0 ==> (ok <==> maxSize <= 0 || (length1 > minSize as real && length2 > minSize as real))
  {
    if scale > 1.0 then
      maxSize <= 0 || (if length1 >= length2 then length1 else length2) < maxSize as real
    else if scale < 1.0 then
      maxSize <= 0 || (if length1 <= length2 then length1 else length2) > minSize as real
    else
      true
  }

  /** With no maximum set, every scale is allowed, whatever the minimum says. */
  lemma NoMaximumAllowsEverything(scale: real, length1: real, length2: real, minSize: int, maxSize: int)
    requires maxSize <= 0
    ensures ScaleAllowed(scale, length1, length2, minSize, maxSize)
  {
  }

  /** A minimum alone does not stop shrinking: edges already below it may shrink further. */
  lemma MinimumIgnoredWithoutMaximum()
    ensures ScaleAllowed(0.5, 5.0, 5.0, 10, 0)
  {
  }

  /** With a maximum set, growth stops once either edge reaches it, and shrinking once either edge is down to the minimum. */
  lemma LimitsBlock(scale: real, length1: real, length2: real, minSize: int, maxSize: int)
    requires maxSize > 0
    ensures scale > 1.0 && (length1 >= maxSize as real || length2 >= maxSize as real)
      ==> !ScaleAllowed(scale, length1, length2, minSize, maxSize)
    ensures scale < 1.0 && (length1 <= minSize as real || length2 <= minSize as real)
      ==> !ScaleAllowed(scale, length1, length2, minSize, maxSize)
  {
  }

  /**
   * The decision ignores how far the gesture scales: with edges of 50 and
   * limits 10..100, a factor of 2.5 and a factor of 0.1 are both allowed,
   * although they would take the edges to 125 and 5.
   */
  lemma FactorSizeIgnored()
    ensures ScaleAllowed(2.5, 50.0, 50.0, 10, 100)
    ensures ScaleAllowed(1.5, 50.0, 50.0, 10, 100)
    ensures ScaleAllowed(0.1, 50.0, 50.0, 10, 100)
    ensures !ScaleAllowed(2.5, 100.0, 50.0, 10, 100)
  {
  }
}
