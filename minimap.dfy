/** The minimap component: its pixel box, the node boxes it draws, and the
    double-click jump that turns a click into a normalized point.
 */
module Minimap {
  import opened Geometry
  import opened MiniViewport

  datatype Option<T> = None | Some(value: T)

  /** Width and height, in pixels, of the minimap container as styled. */
  datatype Box = Box(width: real, height: real)

  /** The part of the container's bounding client rectangle the jump uses. */
  datatype ClientRect = ClientRect(left: real, top: real)

  /** The normalized point handed to the `point` prop. */
  datatype Point = Point(x: real, y: real)

  /** Everything the component lays out in one render. */
  datatype Layout = Layout(container: Box, nodes: seq<Rect>, viewport: Rect)

  /** The container is `size` pixels high and `ratio` times as wide. */
  function ContainerBox(size: real, ratio: real): (b: Box)
    ensures b.height == size
    ensures b.width == ratio * b.height
  {
    Box(size * ratio, size)
  }

  /** One box per node, each field multiplied by the container width. */
  function ScaleNodes(nodes: seq<Rect>, containerWidth: real): (boxes: seq<Rect>)
    ensures |boxes| == |nodes|
    ensures forall i :: 0 <= i < |nodes| ==> boxes[i] == ScaleRect(nodes[i], containerWidth)
  {
    if nodes == [] then []
    else [ScaleRect(nodes[0], containerWidth)] + ScaleNodes(nodes[1..], containerWidth)
  }

  /** The node boxes drawn: none while the container width is zero, otherwise
      one per node, in the order of the nodes. */
  function RenderNodes(nodes: seq<Rect>, containerWidth: real): (boxes: seq<Rect>)
    ensures containerWidth == 0.0 ==> boxes == []
    ensures containerWidth != 0.0 ==> |boxes| == |nodes|
    ensures containerWidth != 0.0 ==> forall i :: 0 <= i < |nodes| ==>
              && boxes[i].left == nodes[i].left * containerWidth
              && boxes[i].top == nodes[i].top * containerWidth
              && boxes[i].width == nodes[i].width * containerWidth
              && boxes[i].height == nodes[i].height * containerWidth
  {
    if containerWidth == 0.0 then [] else ScaleNodes(nodes, containerWidth)
  }

  /** The whole layout of one render. The viewport box is always drawn; for a
      non-zero width every drawn box divided by the width gives back its
      normalized rectangle. */
  function Render(size: real, ratio: real, nodes: seq<Rect>, viewport: Rect, containerWidth: real)
    : (layout: Layout)
    ensures layout.container.width == ratio * layout.container.height == ratio * size
    ensures containerWidth == 0.0 ==> layout.nodes == []
    ensures containerWidth != 0.0 ==> |layout.nodes| == |nodes|
    ensures containerWidth != 0.0 ==> InvertRect(layout.viewport, containerWidth) == viewport
    ensures containerWidth != 0.0 ==>
              forall i :: 0 <= i < |nodes| ==> InvertRect(layout.nodes[i], containerWidth) == nodes[i]
  {
    var layout := Layout(ContainerBox(size, ratio), RenderNodes(nodes, containerWidth),
                         ViewportBox(viewport, containerWidth));
    if containerWidth == 0.0 then layout
    else
      RectRoundTrip(viewport, containerWidth);
      assert forall i :: 0 <= i < |nodes| ==> InvertRect(layout.nodes[i], containerWidth) == nodes[i] by {
        forall i | 0 <= i < |nodes| {
          RectRoundTrip(nodes[i], containerWidth);
        }
      }
      layout
  }

  /** A double-click at client `(clientX, clientY)`. With no container element
      nothing is forwarded; otherwise the offset from the container's corner is
      divided by `size * ratio` on both axes, without clamping. The source
      divides without a guard, so `size * ratio` must be non-zero whenever a
      container element exists. */
  function Jump(container: Option<ClientRect>, clientX: real, clientY: real, size: real, ratio: real)
    : (r: Option<Point>)
    requires container.Some? ==> size * ratio != 0.0
    ensures r.None? <==> container.None?
    ensures r.Some? ==> Scale(r.value.x, size * ratio) == clientX - container.value.left
    ensures r.Some? ==> Scale(r.value.y, size * ratio) == clientY - container.value.top
  {
    match container
    case None => None
    case Some(box) =>
      Some(Point(Invert(clientX - box.left, size * ratio), Invert(clientY - box.top, size * ratio)))
  }

  /** Without a container element `point` is not called, whatever the click
      and the configuration, a zero `size * ratio` included. */
  lemma JumpWithoutContainer(clientX: real, clientY: real, size: real, ratio: real)
    ensures Jump(None, clientX, clientY, size, ratio) == None
  {
  }

  /** A click on the container's top-left corner gives (0, 0); one on its
      right edge gives x = 1; one on its bottom edge gives y = 1 / ratio, so
      y = 1 there only when the container is square. */
  lemma JumpAtContainerEdges(box: ClientRect, size: real, ratio: real)
    requires size * ratio != 0.0
    ensures Jump(Some(box), box.left, box.top, size, ratio) == Some(Point(0.0, 0.0))
    ensures Jump(Some(box), box.left + ContainerBox(size, ratio).width, box.top, size, ratio).value.x == 1.0
    ensures Jump(Some(box), box.left, box.top + ContainerBox(size, ratio).height, size, ratio).value.y == 1.0 / ratio
    ensures Jump(Some(box), box.left, box.top + ContainerBox(size, ratio).height, size, ratio).value.y == 1.0
            <==> ratio == 1.0
  {
    var r := Jump(Some(box), box.left, box.top + size, size, ratio);
    var y := r.value.y;
    assert Scale(y, size * ratio) == size;
    assert y * ratio == 1.0 by {
      assert (y * ratio) * size == y * (size * ratio);
      assert (y * ratio - 1.0) * size == 0.0;
    }
  }

  /** The y coordinate uses the width `size * ratio` as its divisor: y reaches
      1 exactly `size * ratio` pixels below the container's top. */
  lemma JumpYDivisor(box: ClientRect, clientX: real, clientY: real, size: real, ratio: real)
    requires size * ratio != 0.0
    ensures Jump(Some(box), clientX, clientY, size, ratio).value.y == 1.0
            <==> clientY == box.top + size * ratio
  {
    var w := size * ratio;
    var y := Jump(Some(box), clientX, clientY, size, ratio).value.y;
    assert Scale(y, w) == clientY - box.top;
    assert Scale(y - 1.0, w) == clientY - box.top - w;
  }

  /** Clicks left of or above the container give negative coordinates, and
      clicks past the right edge give x above 1; all are forwarded as is. */
  lemma JumpUnclamped(box: ClientRect, clientX: real, clientY: real, size: real, ratio: real)
    requires size * ratio > 0.0
    ensures var p := Jump(Some(box), clientX, clientY, size, ratio).value;
            && (clientX < box.left <==> p.x < 0.0)
            && (clientY < box.top <==> p.y < 0.0)
            && (clientX > box.left + size * ratio <==> p.x > 1.0)
  {
    var p := Jump(Some(box), clientX, clientY, size, ratio).value;
    var w := size * ratio;
    ScaleMonotone(p.x, 0.0, w);
    ScaleMonotone(0.0, p.x, w);
    ScaleMonotone(p.y, 0.0, w);
    ScaleMonotone(0.0, p.y, w);
    ScaleMonotone(p.x, 1.0, w);
    ScaleMonotone(1.0, p.x, w);
  }

  /** When the measured width equals the styled width `size * ratio`, a jump
      is the inverse of the node layout on both axes: double-clicking where a
      normalized point is drawn gives back that point. */
  lemma JumpInvertsLayout(box: ClientRect, p: Point, size: real, ratio: real)
    requires size * ratio != 0.0
    ensures var w := size * ratio;
            Jump(Some(box), box.left + Scale(p.x, w), box.top + Scale(p.y, w), size, ratio) == Some(p)
  {
    var w := size * ratio;
    InvertScale(p.x, w);
    InvertScale(p.y, w);
  }

  /** A 300 x 150 container (size 150, ratio 2) at the origin: a click at
      (75, 37.5) gives x = 0.25 and, dividing by the width, y = 0.125. */
  lemma JumpExample()
    ensures Jump(Some(ClientRect(0.0, 0.0)), 75.0, 37.5, 150.0, 2.0) == Some(Point(0.25, 0.125))
  {
  }

  /** A node inside the viewport is drawn inside the viewport indicator, and
      the converse, for a positive container width. */
  lemma NodeInViewportDrawnInside(nodes: seq<Rect>, i: nat, viewport: Rect, containerWidth: real)
    requires containerWidth > 0.0 && i < |nodes|
    ensures Contains(viewport, nodes[i])
            <==> Contains(ViewportBox(viewport, containerWidth), RenderNodes(nodes, containerWidth)[i])
  {
    ContainsScaled(viewport, nodes[i], containerWidth);
  }

  /** One node and the viewport in a 400-pixel-wide minimap. */
  lemma RenderExample(size: real, ratio: real)
    ensures var layout := Render(size, ratio, [Rect(0.2, 0.1, 0.0, 0.0)], Rect(0.2, 0.2, 0.4, 0.4), 400.0);
            && layout.nodes == [Rect(80.0, 40.0, 0.0, 0.0)]
            && layout.viewport == Rect(80.0, 80.0, 160.0, 160.0)
  {
  }
}
