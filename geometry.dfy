/** The minimap's two coordinate spaces and the one factor between them.

    Node and viewport rectangles arrive in the editor's normalized space. The
    minimap multiplies every coordinate by the measured pixel width of its
    container to place it on screen, and divides by that width to turn a pixel
    distance back into normalized units. One factor serves both axes.
 */
module Geometry {

  /** A rectangle in normalized (or, after scaling, pixel) space. */
  datatype Rect = Rect(width: real, height: real, left: real, top: real)

  /** Normalized value to minimap pixels. Only a zero value or a zero width
      lands on pixel 0, and a positive width keeps the sign of the value. */
  function Scale(v: real, containerWidth: real): (r: real)
    ensures r == 0.0 <==> v == 0.0 || containerWidth == 0.0
    ensures containerWidth > 0.0 ==> (r > 0.0 <==> v > 0.0) && (r < 0.0 <==> v < 0.0)
  {
    v * containerWidth
  }

  /** Minimap pixels to normalized value; the source has no guard for a zero
      width, so the model demands a non-zero one. */
  function Invert(v: real, containerWidth: real): (r: real)
    requires containerWidth != 0.0
    ensures r * containerWidth == v
  {
    v / containerWidth
  }

  /** Every field of a rectangle multiplied by the container width. The far
      edges of the box are the scaled far edges of the rectangle, and for a
      positive width the extents keep their sign. */
  function ScaleRect(r: Rect, containerWidth: real): (box: Rect)
    ensures box.left + box.width == Scale(r.left + r.width, containerWidth)
    ensures box.top + box.height == Scale(r.top + r.height, containerWidth)
    ensures containerWidth > 0.0 ==> (box.width >= 0.0 <==> r.width >= 0.0)
    ensures containerWidth > 0.0 ==> (box.height >= 0.0 <==> r.height >= 0.0)
  {
    Rect(Scale(r.width, containerWidth), Scale(r.height, containerWidth),
         Scale(r.left, containerWidth), Scale(r.top, containerWidth))
  }

  /** Every field of a rectangle divided by the container width. */
  function InvertRect(r: Rect, containerWidth: real): Rect
    requires containerWidth != 0.0
  {
    Rect(Invert(r.width, containerWidth), Invert(r.height, containerWidth),
         Invert(r.left, containerWidth), Invert(r.top, containerWidth))
  }

  /** `inner` lies within `outer`, edges included. */
  predicate Contains(outer: Rect, inner: Rect)
  {
    && outer.left <= inner.left
    && inner.left + inner.width <= outer.left + outer.width
    && outer.top <= inner.top
    && inner.top + inner.height <= outer.top + outer.height
  }

  /** Going to pixels and back is the identity on normalized values. */
  lemma InvertScale(v: real, containerWidth: real)
    requires containerWidth != 0.0
    ensures Invert(Scale(v, containerWidth), containerWidth) == v
  {
  }

  /** Going to normalized units and back is the identity on pixel values. */
  lemma ScaleInvert(v: real, containerWidth: real)
    requires containerWidth != 0.0
    ensures Scale(Invert(v, containerWidth), containerWidth) == v
  {
  }

  /** The round trip holds field by field on whole rectangles, both ways. */
  lemma RectRoundTrip(r: Rect, containerWidth: real)
    requires containerWidth != 0.0
    ensures InvertRect(ScaleRect(r, containerWidth), containerWidth) == r
    ensures ScaleRect(InvertRect(r, containerWidth), containerWidth) == r
  {
    InvertScale(r.width, containerWidth);
    InvertScale(r.height, containerWidth);
    InvertScale(r.left, containerWidth);
    InvertScale(r.top, containerWidth);
    ScaleInvert(r.width, containerWidth);
    ScaleInvert(r.height, containerWidth);
    ScaleInvert(r.left, containerWidth);
    ScaleInvert(r.top, containerWidth);
  }

  /** For a positive width, scaling keeps and reflects order. */
  lemma ScaleMonotone(a: real, b: real, containerWidth: real)
    requires containerWidth > 0.0
    ensures a <= b <==> Scale(a, containerWidth) <= Scale(b, containerWidth)
  {
  }

  /** A node inside the viewport in normalized space is inside it in pixel
      space, and the converse, for a positive container width. */
  lemma ContainsScaled(outer: Rect, inner: Rect, containerWidth: real)
    requires containerWidth > 0.0
    ensures Contains(outer, inner) <==>
            Contains(ScaleRect(outer, containerWidth), ScaleRect(inner, containerWidth))
  {
    var w := containerWidth;
    ScaleMonotone(outer.left, inner.left, w);
    ScaleMonotone(inner.left + inner.width, outer.left + outer.width, w);
    ScaleMonotone(outer.top, inner.top, w);
    ScaleMonotone(inner.top + inner.height, outer.top + outer.height, w);
    assert Scale(inner.left + inner.width, w) == Scale(inner.left, w) + Scale(inner.width, w);
    assert Scale(outer.left + outer.width, w) == Scale(outer.left, w) + Scale(outer.width, w);
    assert Scale(inner.top + inner.height, w) == Scale(inner.top, w) + Scale(inner.height, w);
    assert Scale(outer.top + outer.height, w) == Scale(outer.top, w) + Scale(outer.height, w);
  }
}
