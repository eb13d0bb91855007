# Minimap coordinate model

A Dafny model of the coordinate logic of the node editor's minimap. Node and
viewport rectangles come from the host in the editor's normalized space. The
minimap draws them in pixels by multiplying each field by the measured
container width `W`. It turns a pixel drag on the viewport indicator into
the arguments of `translate` by dividing the negated delta by `W`. A double-click becomes a
normalized jump point by dividing the click's offset from the container corner
by `size * ratio`.

Modules:

- `Geometry` holds the `Rect` shape (from `src/next/presets/minimap/types.ts`),
  `Scale`/`Invert` (shared by `Minimap.tsx` and `MiniViewport.tsx`), whole-rect
  scaling and containment. It proves the round trips, monotonicity and that
  containment survives scaling.
- `MiniViewport` models `MiniViewport.tsx`: the viewport box and the
  drag-delta-to-`translate` computation, with sign, axis independence,
  linearity and a whole-drag total.
- `Minimap` models `Minimap.tsx`: the container box, the node boxes guarded by a
  non-zero width, the whole render, and the double-click jump. The callback
  `point` is modelled as the returned `Option<Point>`: `None` means `point` is
  not called.

All arithmetic is over `real`. The host callbacks `translate` and `point` are
modelled by their arguments. The measured width, the bounding client rectangle
and the click position are parameters.

The jump divides the vertical offset by `size * ratio`, the container's width,
not by its height `size` (`Minimap.tsx:62`). In a 300 x 150 container a click
at (75, 37.5) gives (0.25, 0.125), not (0.25, 0.25) (`Minimap.JumpExample`).
This matches the uniform layout scale: `Minimap.JumpInvertsLayout` proves that,
when the measured width equals `size * ratio`, a jump inverts the node layout
on both axes.

`MiniViewport.tsx:16-17` divides by the width without a guard, so `PanDelta`
requires a non-zero width.

## Model

| member | source | states |
|---|---|---|
| Geometry.Scale | src/presets/minimap/components/MiniViewport.tsx:15 | a pixel value is 0 exactly when the value or the width is 0, and a positive width keeps the value's sign; the same `scale` is at Minimap.tsx:38 |
| Geometry.ScaleRect | src/presets/minimap/components/Minimap.tsx:72-75 | the box's right and bottom edges are the scaled right and bottom edges of the rectangle, and for a positive width its extents keep their sign; MiniViewport.tsx:23-26 uses the same mapping |
| Geometry.Invert | src/presets/minimap/components/MiniViewport.tsx:16 | for a non-zero width, the inverted value times the width is the pixel value |
| Geometry.InvertScale | src/presets/minimap/components/MiniViewport.tsx:15-16 | inverting a scaled value gives back the normalized value |
| Geometry.ScaleInvert | src/presets/minimap/components/MiniViewport.tsx:15-16 | scaling an inverted value gives back the pixel value |
| Geometry.RectRoundTrip | src/presets/minimap/components/MiniViewport.tsx:15-16 | both round trips hold field by field on a whole rectangle |
| Geometry.ScaleMonotone | src/presets/minimap/components/MiniViewport.tsx:15 | for a positive width, `a <= b` exactly when `scale(a) <= scale(b)` |
| Geometry.ContainsScaled | src/presets/minimap/components/MiniViewport.tsx:15 | for a positive width, one rect contains another in normalized space exactly when their scaled boxes do |
| MiniViewport.ViewportBox | src/presets/minimap/components/MiniViewport.tsx:23-26 | the viewport box's left, top, width and height are the viewport's fields times the width, for any width including zero |
| MiniViewport.ViewportBoxInverts | src/presets/minimap/components/MiniViewport.tsx:15-16 | for a non-zero width, dividing the viewport box by the width recovers the viewport |
| MiniViewport.PanDelta | src/presets/minimap/components/MiniViewport.tsx:16-17 | for a non-zero width, each `translate` argument scaled back to pixels is the negated drag delta |
| MiniViewport.PanExample | src/presets/minimap/components/MiniViewport.tsx:17 | a delta of (20, 0) at width 200 gives `translate(-0.1, 0)` |
| MiniViewport.PanOpposesDrag | src/presets/minimap/components/MiniViewport.tsx:17 | for a positive width, each pan coordinate has the opposite sign of its delta, and is zero for a zero delta |
| MiniViewport.PanAxisIndependent | src/presets/minimap/components/MiniViewport.tsx:17 | the first argument depends only on `dx`, the second only on `dy` |
| MiniViewport.PanLinear | src/presets/minimap/components/MiniViewport.tsx:16-17 | the pan of a summed delta is the sum of the pans; a zero delta pans by zero |
| MiniViewport.TotalPanOfDrag | src/presets/minimap/components/MiniViewport.tsx:17 | the translations of a run of incremental deltas at one width add up to the pan of the total pointer movement |
| Minimap.ScaleNodes | src/presets/minimap/components/Minimap.tsx:69-77 | one box per node, in order, each the node scaled by the width |
| Minimap.RenderNodes | src/presets/minimap/components/Minimap.tsx:38-77 | no boxes when the width is zero, whatever the nodes; otherwise exactly one per node, in order, with each field times the width |
| Minimap.NodeInViewportDrawnInside | src/presets/minimap/components/Minimap.tsx:69-83 | for a positive width, a node is drawn inside the viewport indicator exactly when it lies inside the viewport |
| Minimap.RenderExample | src/presets/minimap/components/Minimap.tsx:45-84 | at width 400, node (0, 0, 0.2, 0.1) is drawn at (0, 0, 80, 40) and viewport (0.4, 0.4, 0.2, 0.2) at (160, 160, 80, 80) |
| Minimap.ContainerBox | src/presets/minimap/components/Minimap.tsx:49-50 | the container is `size` pixels high and `ratio` times as wide |
| Minimap.Render | src/presets/minimap/components/Minimap.tsx:45-84 | the container has aspect `ratio`; no node boxes at width 0; otherwise one per node, and every node box and the viewport box divided by the width give back their normalized rectangles |
| Minimap.JumpWithoutContainer | src/presets/minimap/components/Minimap.tsx:59 | with no container element `point` is not called, for any click and any `size` and `ratio`, zero included |
| Minimap.Jump | src/presets/minimap/components/Minimap.tsx:56-65 | `point` is called exactly when a container element exists; then its x and y times `size * ratio` are the click's offsets from the container's left and top |
| Minimap.JumpAtContainerEdges | src/presets/minimap/components/Minimap.tsx:49-62 | a click on the container box's corner gives (0, 0), on its right edge x = 1, on its bottom edge y = 1 / ratio, which is 1 only for ratio 1 |
| Minimap.JumpYDivisor | src/presets/minimap/components/Minimap.tsx:62 | y is 1 exactly `size * ratio` pixels below the container's top |
| Minimap.JumpUnclamped | src/presets/minimap/components/Minimap.tsx:61-64 | clicks left of or above the container give negative coordinates, and clicks past the right edge give x above 1 |
| Minimap.JumpInvertsLayout | src/presets/minimap/components/Minimap.tsx:61-62 | when the width is `size * ratio`, clicking where a normalized point is drawn returns that point on both axes |
| Minimap.JumpExample | src/presets/minimap/components/Minimap.tsx:61-62 | size 150, ratio 2, container at the origin: a click at (75, 37.5) gives (0.25, 0.125) |

## Left out

- The drag helper `useDrag` (`src/shared/drag`) is not part of this model. Drag deltas are inputs, and session start, end and reset are not modelled.
- The `start()` transform snapshot is passed to the viewport component but never used there. The `translate` call passes two arguments, so the snapshot is not modelled.
- DOM effects are not modelled: `getBoundingClientRect`, `stopPropagation`/`preventDefault`, the element-size hook and the ref assignment. The measured width and the client rectangle are inputs.
- Presentation is not modelled: `px` formatting, styling, and `MiniNode`, which forwards four numbers to a styled element.
- React renders the falsy `containerWidth && ...` value `0` as a text child. The model only says that no node boxes are drawn.
- IEEE-754 rounding is not modelled. Over `real` the round trips are exact; in JavaScript they hold only approximately.
- MiniViewport.PanDelta: requires a non-zero width. In JavaScript a zero width yields `Infinity` or `NaN` arguments to `translate`, which the model does not represent.
- Minimap.Jump: requires `size * ratio` to be non-zero when a container element exists. In JavaScript a zero product then yields `Infinity` or `NaN` arguments to `point`, which the model does not represent.
- The `MinimapRender` union in `src/next/presets/minimap/types.ts` depends on a render-data type from another package and has no behaviour.
