/**
 * Divider geometry of the swipe control: where the divider sits for a
 * slider value, and the two clip rectangles it cuts the viewport into.
 * Pixel quantities are exact reals.
 */
module SwipeGeometry {

  /** A point in pixels. */
  datatype Point = Point(x: real, y: real)

  /** A clip rectangle, with its edges in the argument order of CSS `rect(top, right, bottom, left)`. */
  datatype Rect = Rect(top: real, right: real, bottom: real, left: real)

  /** The two clip rectangles, one for the layer on each side of the divider. */
  datatype Split = Split(left: Rect, right: Rect)

  /** The part of the track the slider thumb's centre cannot reach: a padding on each side plus the thumb. */
  function Inset(padding: real, thumbSize: real): real
  {
    2.0 * padding + thumbSize
  }

  /**
   * Offset of the divider from the left edge of the map container, for a
   * map `width` pixels wide and a slider value `v`. It is the container
   * centre moved by `v - 1/2` times the reachable track length, so the
   * divider follows the centre of the slider thumb.
   */
  function DividerPosition(width: real, v: real, padding: real, thumbSize: real): (d: real)
    ensures d - width / 2.0 == (v - 0.5) * (width - Inset(padding, thumbSize))
  {
    width * v + (0.5 - v) * Inset(padding, thumbSize)
  }

  /**
   * Clip rectangles for the viewport with corners `nw` and `se` (layer
   * pixel coordinates) and a divider `d` pixels from the viewport's left
   * edge: the left layer keeps what lies west of the divider, the right
   * layer what lies east of it.
   */
  function ClipRects(nw: Point, se: Point, d: real): (s: Split)
    ensures s.left.right == s.right.left == nw.x + d
    ensures s.left.left == nw.x && s.right.right == se.x
    ensures s.left.top == s.right.top == nw.y && s.left.bottom == s.right.bottom == se.y
  {
    var clipX := nw.x + d;
    Split(Rect(nw.y, clipX, se.y, nw.x), Rect(nw.y, se.x, se.y, clipX))
  }

  /** The point lies in the closed rectangle. */
  predicate Covers(r: Rect, p: Point)
  {
    r.left <= p.x <= r.right && r.top <= p.y <= r.bottom
  }

  /** The point lies strictly inside the rectangle. */
  predicate Inside(r: Rect, p: Point)
  {
    r.left < p.x < r.right && r.top < p.y < r.bottom
  }

  /** With the slider in the middle the divider is at the map's centre line, whatever the padding and thumb. */
  lemma DividerAtHalf(width: real, padding: real, thumbSize: real)
    ensures DividerPosition(width, 0.5, padding, thumbSize) == width / 2.0
  {
  }

  /** At the ends of the slider the divider sits half a thumb plus a padding in from the map's edges. */
  lemma DividerAtEnds(width: real, padding: real, thumbSize: real)
    ensures DividerPosition(width, 0.0, padding, thumbSize) == padding + thumbSize / 2.0
    ensures DividerPosition(width, 1.0, padding, thumbSize) == width - padding - thumbSize / 2.0
  {
  }

  /** With the default thumb of 42 pixels and no padding, on a map 1000 pixels wide. */
  lemma DividerDefaultsExample()
    ensures DividerPosition(1000.0, 0.0, 0.0, 42.0) == 21.0
    ensures DividerPosition(1000.0, 0.5, 0.0, 42.0) == 500.0
    ensures DividerPosition(1000.0, 1.0, 0.0, 42.0) == 979.0
  {
  }

  /** The divider never moves left as the slider moves right, once the map is wider than the inset. */
  lemma DividerMonotone(width: real, v1: real, v2: real, padding: real, thumbSize: real)
    requires v1 <= v2
    requires width >= Inset(padding, thumbSize)
    ensures DividerPosition(width, v1, padding, thumbSize) <= DividerPosition(width, v2, padding, thumbSize)
  {
    var slope := width - Inset(padding, thumbSize);
    assert DividerPosition(width, v2, padding, thumbSize) - DividerPosition(width, v1, padding, thumbSize)
        == (v2 - v1) * slope;
    NonNegativeProduct(v2 - v1, slope);
  }

  /**
   * On a map narrower than the inset the divider moves left as the slider
   * moves right: 10 pixels wide with the default 42-pixel thumb.
   */
  lemma DividerFallsOnNarrowMap()
    ensures DividerPosition(10.0, 0.0, 0.0, 42.0) == 21.0
    ensures DividerPosition(10.0, 1.0, 0.0, 42.0) == -11.0
  {
  }

  lemma NonNegativeProduct(a: real, b: real)
    requires a >= 0.0 && b >= 0.0
    ensures a * b >= 0.0
  {
  }

  /** For every slider value the divider stays between the two extreme thumb positions. */
  lemma DividerWithinTrack(width: real, v: real, padding: real, thumbSize: real)
    requires 0.0 <= v <= 1.0
    requires width >= Inset(padding, thumbSize)
    ensures padding + thumbSize / 2.0 <= DividerPosition(width, v, padding, thumbSize)
    ensures DividerPosition(width, v, padding, thumbSize) <= width - padding - thumbSize / 2.0
  {
    DividerAtEnds(width, padding, thumbSize);
    DividerMonotone(width, 0.0, v, padding, thumbSize);
    DividerMonotone(width, v, 1.0, padding, thumbSize);
  }

  /**
   * When the divider lies inside the viewport, the two rectangles tile it:
   * every viewport point is covered by one of them, no point is strictly
   * inside both, and their widths add up to the viewport's width.
   */
  lemma ClipRectsTileViewport(nw: Point, se: Point, d: real, p: Point)
    requires 0.0 <= d <= se.x - nw.x
    requires nw.x <= p.x <= se.x && nw.y <= p.y <= se.y
    ensures Covers(ClipRects(nw, se, d).left, p) || Covers(ClipRects(nw, se, d).right, p)
    ensures !(Inside(ClipRects(nw, se, d).left, p) && Inside(ClipRects(nw, se, d).right, p))
    ensures Covers(ClipRects(nw, se, d).left, p) ==> p.x <= nw.x + d
    ensures Covers(ClipRects(nw, se, d).right, p) ==> nw.x + d <= p.x
    ensures (ClipRects(nw, se, d).left.right - ClipRects(nw, se, d).left.left)
          + (ClipRects(nw, se, d).right.right - ClipRects(nw, se, d).right.left) == se.x - nw.x
  {
  }
}
