# Border offset engine and path parser, modelled in Dafny

This project models the two pieces of logic of a small TypeScript library that draws a
constant-width border inside an arbitrary polygon:

- **The border offset engine** (`src/lib/path.ts`). `getBorderedPoints` closes the vertex
  list and builds one offset line per edge. It then moves the last line to the front, so that
  lines `i` and `i + 1` are the two lines meeting at vertex `i`. Each adjacent pair is crossed
  using slope–intercept arithmetic, with separate branches for vertical lines. The resulting
  inner corners are attached to the original vertices. Two renderers turn the result into an
  outline path (`genPath`) and a CSS `polygon()` clip value (`genPolygon`, `getPointCss`).
- **The path parser** (`src/lib/points.ts`). `parsePointsFromSvgPath` walks `M`/`L`/`H`/`V`
  command tokens and accumulates points. It drops a closing repeat of the first point, takes
  the per-axis maxima as the dims, and tags each point left/right and top/bottom against
  half of those maxima.

Files:

- `basics.dfy` (module `Basics`): `Option`, `Result`, and JavaScript's `Math.max`. `Math.max`
  answers -Infinity when it gets no argument; the model writes that value as `NegInfinity`.
- `path.dfy` (module `Path`): vertices, lines, `GetLine`, `Intersection`, the imperative
  `GetBorderedPoints` proved against its specification `BorderedPoints`, the CSS terms and
  both renderers.
- `points.dfy` (module `Points`): the token-level parser. `ParsePointsFromSvgPath` is the
  imperative loop, proved equal to the specification `PathPoints`.
- `roundtrip.dfy` (module `RoundTrip`): the parser applied to the outline renderer's output.

Modelling choices:

- Coordinates are `real`. The float arithmetic is idealised without rounding.
- The perpendicular displacement of an edge (`atan2`, `cos`, `sin`) is a parameter
  `displace: (Coord, Coord, real) -> Segment`. It maps an edge's start, its end and the border
  width to the offset segment. `AxisAlignedOffset` is that displacement for axis-parallel edges
  (both endpoints move by the width along the edge direction turned by +90 degrees). It is used
  for the 10 x 10 square example.
- Renderer output is a sequence of tagged terms, not text. A `PathStep` is a command, a ring,
  a vertex index and a coordinate. A `PolygonVertex` is a ring, a vertex index and a CSS term
  per axis. A CSS term is `Px(v)` for `<v>px`, `Full` for `100%`, or `FullMinus(d)` for
  `calc(100% - <d>px)`.
- A place where the source throws becomes a value. `getPath`/`getPolygon` throw on fewer than
  3 vertices, because `genPath`/`genPolygon` then read `first.coord` of `undefined`; the model returns
  `None` there. In the parser, an `H`/`V` with no earlier point throws; so does the close check
  when there are no points at all. The model returns `Failed(NoPreviousPoint(at))` and
  `Failed(NoPoints)` for these.
- The parser's input is the token list: each token is a command letter and its numbers, as
  the regex split and `parseFloat` would produce them. An empty list stands for the regex
  finding no match, when the source returns `undefined` (`NoMatch`).

Three behaviours of the code worth knowing:

- genPolygon does not return to the first outer vertex: it ends with the first inner point
  (`src/lib/path.ts:96`), so `GenPolygon` has `2n + 2` points and `GenPath` has `2n + 3`.
- getBorderedPoints returns `[]` for fewer than 3 vertices (`src/lib/path.ts:26`). getPath and
  getPolygon then throw, because genPath and genPolygon read `first.coord` of `undefined`;
  `GetPath` and `GetPolygon` return `None` there.
- A one-point path repeats its own first point as its "closing" point, so the code removes it.
  The result has no points and both dims are -Infinity (`SinglePointExample`).

## Model

| member | source | states |
|---|---|---|
| `Basics.Maximum` | src/lib/points.ts:25-26 | `Math.max` of a list: -Infinity exactly for the empty list; otherwise a member of the list that no element exceeds |
| `Path.GetLine` | src/lib/path.ts:105-115 | dx and dy are the segment's extents; for a non-vertical segment both endpoints satisfy y = k·x + b |
| `Path.SlopeLineUnique` | src/lib/path.ts:105-115 | any k, b for which both endpoints of a non-vertical segment satisfy y = k·x + b are exactly getLine's k and b |
| `Path.SlopeOnLine` | src/lib/path.ts:105-115 | a point satisfying a non-vertical segment's y = k·x + b lies on the line through the segment |
| `Path.Intersection` | src/lib/path.ts:58-68 | the computed point lies on both lines. If l1 is vertical, x is l1's start x. Otherwise, if l2 is vertical, x is l2's start x. Whenever l1 is not vertical, the point satisfies l1's y = k·x + b |
| `Path.CrossingLinesMeet` | src/lib/path.ts:59-66 | lines with a nonzero cross product pass the source's finiteness test: not both vertical, and different slopes when neither is |
| `Path.CommonPointUnique` | src/lib/path.ts:58-68 | two lines with a nonzero cross product share at most one point |
| `Path.IntersectionUnique` | src/lib/path.ts:58-68 | for non-parallel lines (nonzero cross product), the source's finiteness test passes and any point on both lines is the computed one |
| `Path.HorizontalMeetsVertical` | src/lib/path.ts:62-64 | a horizontal l1 and a vertical l2 meet at (l2's x, l1's y) |
| `Path.VerticalMeetsHorizontal` | src/lib/path.ts:59-61 | a vertical l1 and a horizontal l2 meet at (l1's x, l2's y) |
| `Path.Next` | src/lib/path.ts:27-30 | the vertex after i in the closed list is i + 1, and the last one wraps to 0 |
| `Path.Prev` | src/lib/path.ts:48-53 | after the rotation, line i belongs to edge Prev(i), the edge that ends at vertex i (Next(Prev(i)) == i) |
| `Path.Corner` | src/lib/path.ts:49-69 | inner corner i lies on the offset line of edge Prev(i) and on that of edge i, the two edges meeting at vertex i |
| `Path.BorderedPoints` | src/lib/path.ts:24-74 | fewer than 3 vertices give []. Otherwise there is one entry per vertex, in order, with the same coord, h and v. Its inner point is on the offset lines of the two edges meeting at that vertex |
| `Path.OffsetLines` | src/lib/path.ts:27-45 | the first loop walks the closed vertex list and yields one offset line per vertex. Line j displaces edge j, from vertex j to the next vertex, the last edge closing back to vertex 0 |
| `Path.RotatedLinesMeetAtVertices` | src/lib/path.ts:48 | after the last line is moved to the front, lines i and i + 1 are the offset lines of edges Prev(i) and i. They pass the finiteness test and cross at corner i |
| `Path.CrossAdjacent` | src/lib/path.ts:49-70 | the second loop yields one point per adjacent pair of lines, one fewer than there are lines. Point i is the crossing of lines i and i + 1 |
| `Path.CrossingsAreCorners` | src/lib/path.ts:48-70 | crossing i of the rotated lines is inner corner i |
| `Path.MatchCorners` | src/lib/path.ts:71-73 | attaching corner j to vertex j for every j < n gives exactly `BorderedPoints` |
| `Path.GetBorderedPoints` | src/lib/path.ts:24-74 | the early return and the two loops with the rotation, the closing of the corner list and the attachment by index compute exactly `BorderedPoints`. The duplicated first corner is never attached |
| `Path.UndisplacedEdgesKeepVertices` | src/lib/path.ts:28-69 | if the displacement returns every edge unchanged (what the trigonometry at src/lib/path.ts:38-43 does for border 0) and no two consecutive edges are parallel, the corners are well defined and every inner corner is its vertex |
| `Path.UndisplacedCorner` | src/lib/path.ts:58-69 | a vertex whose two edges are their own offset lines and are not parallel is its own inner corner |
| `Path.AxisAlignedOffset` | src/lib/path.ts:35-43 | both endpoints move by the same vector (angle0 and angle2 differ by a full turn). For an edge parallel to exactly one axis that vector is perpendicular to the edge and has length `border` |
| `Path.TranslatedEdgesMeet` | src/lib/path.ts:49-68 | if the displacement translates every edge and no two consecutive edges are parallel, every vertex's offset lines pass the finiteness test, so getBorderedPoints' precondition holds |
| `Path.AxisAlignedCornersMeet` | src/lib/path.ts:35-68 | the axis-parallel displacement meets getBorderedPoints' precondition on every polygon whose consecutive edges are not parallel |
| `Path.SquareOffsets` | src/lib/path.ts:35-44 | the offset lines of the 10 x 10 square's edges for border w are y = w, x = 10 − w, y = 10 − w and x = w |
| `Path.SquareInset` | src/lib/path.ts:24-74 | for the 10 x 10 square and border w, the inner ring is (w, w), (10 − w, w), (10 − w, 10 − w), (w, 10 − w): the square of side 10 − 2w with the same centre |
| `Path.AxisCss` | src/lib/path.ts:100-101 | `px` exactly when anchored to the near edge, `100%` exactly when far-anchored and on the maximum. In a box of any extent the term denotes the coordinate (near), or the coordinate moved with the far edge (far) |
| `Path.GetPointCss` | src/lib/path.ts:99-103 | per axis, `left`/`top` gives a pixel term and else it is `100%` exactly at the maximum. Against xMax by yMax the terms denote the point itself. When the box is resized, far-anchored axes keep their distance to the far edge |
| `Path.GenPath` | src/lib/path.ts:76-84 | 2n + 3 steps: `M outer[0]`, `L outer[1..n-1]`, `L outer[0]`, `L inner[0]`, `L inner[n-1]` down to `inner[1]`, `L inner[0]`, `L outer[0]` |
| `Path.OuterMax` | src/lib/path.ts:87-88 | the bounding box corner is taken over the outer coordinates, bounds every outer x and y, and is attained on each axis |
| `Path.GenPolygon` | src/lib/path.ts:86-97 | 2n + 2 vertices: `outer[0]`, `outer[1..n-1]`, `outer[0]`, `inner[0]`, `inner[n-1]` down to `inner[1]`, `inner[0]`. Each vertex has its CSS terms against the outer bounding box |
| `Path.RenderersAgree` | src/lib/path.ts:76-97 | both renderers visit the same ring and vertex sequence. The outline adds one final return to the first outer vertex |
| `Path.OuterCssWithinBox` | src/lib/path.ts:86-103 | on the outer ring every `calc(100% - d px)` has d > 0, and each outer CSS vertex denotes its own coordinate in the outer bounding box |
| `Path.GetPath` | src/lib/path.ts:16-18 | None (the source throws) exactly for fewer than 3 vertices. Otherwise the outline of `BorderedPoints`, with 2n + 3 steps |
| `Path.GetPolygon` | src/lib/path.ts:20-22 | None (the source throws) exactly for fewer than 3 vertices. Otherwise the clip polygon of `BorderedPoints`, with 2n + 2 vertices |
| `Points.Step` | src/lib/points.ts:10-20 | `M`/`L` append exactly (v0, v1). `H` appends (v0, last y) and `V` appends (last x, v0). `H`/`V` with no previous point fail. A drawing token with too few numbers fails with `MissingValue` (see "## Left out"). Any other letter leaves the list unchanged. Earlier points never change |
| `Points.ShorthandsAreLines` | src/lib/points.ts:14-20 | `H x` is `L x,(last y)` and `V y` is `L (last x),y` |
| `Points.Walk` | src/lib/points.ts:7-21 | the command loop keeps the points it started with as a prefix and adds at most one point per token |
| `Points.WalkSnoc` | src/lib/points.ts:7-21 | running the loop over tokens ts followed by t is running it over ts and then applying t's command to the result |
| `Points.CheckPointsEqual` | src/lib/points.ts:36-38 | coordinate-wise equality is exactly equality of points |
| `Points.DropClosing` | src/lib/points.ts:22-24 | the result is a prefix of the points. It is one shorter exactly when the first and last points coincide, and unchanged exactly when they differ |
| `Points.Classify` | src/lib/points.ts:25-33 | one entry per point, in order, coords kept. dims is the per-axis maximum: attained, bounding every point, and -Infinity for no points. h is left iff x < maxX/2, else right; v is top iff y < maxY/2, else bottom |
| `Points.PathPoints` | src/lib/points.ts:3-34 | `undefined` exactly for no tokens; a parsed result never tags a point `proportional` |
| `Points.ParsePointsFromSvgPath` | src/lib/points.ts:3-34 | the loop with its early exits, the pop of a closing repeat and the classification compute exactly `PathPoints` |
| `Points.SquareWalk` | src/lib/points.ts:7-21 | the command loop over `M0,0 L10,0 L10,10 L0,10` collects the four corners in order |
| `Points.SquareDims` | src/lib/points.ts:25-26 | the square's dims are (10, 10) |
| `Points.SquareClassify` | src/lib/points.ts:25-33 | the square's corners are tagged left/top, right/top, right/bottom and left/bottom |
| `Points.SquarePathExample` | src/lib/points.ts:3-34 | `M0,0 L10,0 L10,10 L0,10` gives the four corners tagged left/top, right/top, right/bottom and left/bottom, with dims (10, 10) |
| `Points.ShorthandPathExample` | src/lib/points.ts:14-20 | `M0,0 H10 V10` gives (0,0), (10,0), (10,10) |
| `Points.SinglePointExample` | src/lib/points.ts:22-26 | a one-point path drops its only point as a closing repeat, giving no points and dims -Infinity |
| `RoundTrip.WalkSerialized` | src/lib/points.ts:10-13 | each `M`/`L` step of a rendered outline, read back, appends exactly the point it visits |
| `RoundTrip.OuterRingRoundTrip` | src/lib/path.ts:77-79 | the outer ring of the outline (the move, the lines and the return to outer[0]) parses back to exactly the outer vertices, in order |
| `RoundTrip.PathRoundTrip` | src/lib/points.ts:7-24 | the whole outline parses back to every point it visits except the last, which repeats the first |

## Left out

- The perpendicular displacement at src/lib/path.ts:35-43 (`atan2`, `cos`, `sin`) is floating-point trigonometry. It is the parameter `displace`. The general lemmas hold for every displacement; `CornersMeet`, required by `BorderedPoints`, `GetBorderedPoints`, `GetPath` and `GetPolygon`, is a condition on its values; the square lemmas fix it to `AxisAlignedOffset`, and `UndisplacedEdgesKeepVertices` assumes it returns each edge unchanged.
- Floating point: the model computes over exact reals. Where the source's arithmetic becomes infinite or NaN, the model has a precondition instead (`Meets`, `CornersMeet`): both offset lines vertical, or equal slopes at src/lib/path.ts:66.
- Path.GetLine: for a vertical segment the source's slope `dy / dx` is infinite or NaN, and so is its intercept. The model stores slope 0 and intercept p2.y; no branch reads them under `Meets`.
- Number-to-text formatting in the template strings is not modelled, and neither are the separators. That covers the comma in outer `L x,y` against the space in inner `L x y`, the `join` separators, and the blank entries `join` leaves for a one-vertex list.
- The tokenizer is not modelled: the regex `/\w[\d.,\s]+/g`, the trimming and splitting, and `parseFloat` (src/lib/points.ts:4, 8-9). The parser takes the token list as input. So the round-trip lemmas hold for tokens only. The regex does not accept a minus sign or exponent notation, so a real outline with negative coordinates would not read back.
- Points.Step: an `M`/`L` token with fewer than two numbers, or an `H`/`V` token with none, makes the source build a point with an `undefined` coordinate. That value is not a real number, so the model returns `Failed(MissingValue(at))` instead.
- `getPath` and `getPolygon` are only compositions; `GetPath` and `GetPolygon` model them, with `None` standing for the source's exception.
