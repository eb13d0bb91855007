/** The viewport indicator inside the minimap: where it is drawn, and how a
    drag on it becomes the arguments of a `translate` call.
 */
module MiniViewport {
  import opened Geometry

  /** The normalized arguments handed to the `translate` prop. */
  datatype Translation = Translation(dx: real, dy: real)

  /** One incremental pointer movement, in minimap pixels, as delivered by the
      drag helper between two move events. */
  datatype Delta = Delta(dx: real, dy: real)

  /** The pixel box of the viewport indicator. It is drawn whatever the
      container width, zero included. */
  function ViewportBox(viewport: Rect, containerWidth: real): (box: Rect)
    ensures box.left == viewport.left * containerWidth
    ensures box.top == viewport.top * containerWidth
    ensures box.width == viewport.width * containerWidth
    ensures box.height == viewport.height * containerWidth
  {
    ScaleRect(viewport, containerWidth)
  }

  /** A drag delta of `(dx, dy)` pixels becomes `translate(-dx/W, -dy/W)`.
      The source divides without a guard, so the width must be non-zero. */
  function PanDelta(dx: real, dy: real, containerWidth: real): (t: Translation)
    requires containerWidth != 0.0
    ensures Scale(t.dx, containerWidth) == -dx
    ensures Scale(t.dy, containerWidth) == -dy
  {
    Translation(Invert(-dx, containerWidth), Invert(-dy, containerWidth))
  }

  /** Componentwise sum of two `translate` argument pairs. */
  function Plus(a: Translation, b: Translation): Translation
  {
    Translation(a.dx + b.dx, a.dy + b.dy)
  }

  /** Dragging 20 pixels right in a 200-pixel-wide minimap pans by -0.1. */
  lemma PanExample()
    ensures PanDelta(20.0, 0.0, 200.0) == Translation(-0.1, 0.0)
  {
  }

  /** With a positive width, each `translate` argument has the opposite sign
      of its delta, and a zero delta gives a zero argument. */
  lemma PanOpposesDrag(dx: real, dy: real, containerWidth: real)
    requires containerWidth > 0.0
    ensures var t := PanDelta(dx, dy, containerWidth);
            && (dx > 0.0 <==> t.dx < 0.0) && (dx < 0.0 <==> t.dx > 0.0)
            && (dy > 0.0 <==> t.dy < 0.0) && (dy < 0.0 <==> t.dy > 0.0)
  {
  }

  /** The first argument depends only on `dx`, the second only on `dy`. */
  lemma PanAxisIndependent(dx: real, dy: real, dx': real, dy': real, containerWidth: real)
    requires containerWidth != 0.0
    ensures PanDelta(dx, dy, containerWidth).dx == PanDelta(dx, dy', containerWidth).dx
    ensures PanDelta(dx, dy, containerWidth).dy == PanDelta(dx', dy, containerWidth).dy
  {
  }

  /** The pan of a summed delta is the sum of the pans; no delta, no pan. */
  lemma PanLinear(a: Delta, b: Delta, containerWidth: real)
    requires containerWidth != 0.0
    ensures PanDelta(a.dx + b.dx, a.dy + b.dy, containerWidth)
            == Plus(PanDelta(a.dx, a.dy, containerWidth), PanDelta(b.dx, b.dy, containerWidth))
    ensures PanDelta(0.0, 0.0, containerWidth) == Translation(0.0, 0.0)
  {
  }

  /** Total pointer movement over a run of incremental deltas. */
  function TotalDelta(deltas: seq<Delta>): Delta
  {
    if deltas == [] then Delta(0.0, 0.0)
    else
      var rest := TotalDelta(deltas[1..]);
      Delta(deltas[0].dx + rest.dx, deltas[0].dy + rest.dy)
  }

  /** Sum of the translations requested for a run of incremental deltas, one
      `translate` call per delta. */
  function TotalPan(deltas: seq<Delta>, containerWidth: real): Translation
    requires containerWidth != 0.0
  {
    if deltas == [] then Translation(0.0, 0.0)
    else Plus(PanDelta(deltas[0].dx, deltas[0].dy, containerWidth), TotalPan(deltas[1..], containerWidth))
  }

  /** At a fixed width, the `translate` arguments of a run of deltas add up
      to the arguments `translate` would get for the summed delta. */
  lemma {:induction false} TotalPanOfDrag(deltas: seq<Delta>, containerWidth: real)
    requires containerWidth != 0.0
    ensures var total := TotalDelta(deltas);
            TotalPan(deltas, containerWidth) == PanDelta(total.dx, total.dy, containerWidth)
  {
    if deltas != [] {
      TotalPanOfDrag(deltas[1..], containerWidth);
      PanLinear(deltas[0], TotalDelta(deltas[1..]), containerWidth);
    } else {
      PanLinear(Delta(0.0, 0.0), Delta(0.0, 0.0), containerWidth);
    }
  }

  /** For a non-zero width, the viewport's normalized rectangle is recovered
      from its pixel box. */
  lemma ViewportBoxInverts(viewport: Rect, containerWidth: real)
    requires containerWidth != 0.0
    ensures InvertRect(ViewportBox(viewport, containerWidth), containerWidth) == viewport
  {
  }
}
