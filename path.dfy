/** The border offset engine: one offset line per polygon edge, a mitred
    corner per vertex where the offset lines of its two edges cross, and the
    two renderers (an outline path and a CSS clip polygon) over the result.
    Renderer output is a sequence of tagged point terms rather than text. */
module Path {
  import opened Basics

  datatype Coord = Coord(x: real, y: real)

  datatype HAnchor = Left | Right | HProportional

  datatype VAnchor = Top | Bottom | VProportional

  /** An input vertex: its coordinate and the box edges it is anchored to. */
  datatype PointData = PointData(coord: Coord, h: HAnchor, v: VAnchor)

  /** A vertex together with its computed inner (offset) counterpart. */
  datatype FullPointData = FullPointData(coord: Coord, inner: Coord, h: HAnchor, v: VAnchor)

  /** A line given by two of its points, as the source's `[Coord, Coord]` pairs. */
  datatype Segment = Segment(start: Coord, end: Coord)

  /** Slope-intercept data of a segment: y = k * x + b, and its extent. */
  datatype LineData = LineData(k: real, b: real, dx: real, dy: real)

  // ---------------------------------------------------------------------
  // Plane geometry used to state what the algebra computes

  /** p is on the (infinite) line through s, stated with a cross product. */
  predicate OnLine(p: Coord, s: Segment)
  {
    (s.end.x - s.start.x) * (p.y - s.start.y) == (s.end.y - s.start.y) * (p.x - s.start.x)
  }

  /** Cross product of the two direction vectors; zero exactly when parallel. */
  function Cross(s1: Segment, s2: Segment): real
  {
    (s1.end.x - s1.start.x) * (s2.end.y - s2.start.y) - (s1.end.y - s1.start.y) * (s2.end.x - s2.start.x)
  }

  predicate OnSlope(p: Coord, l: LineData)
  {
    p.y == l.k * p.x + l.b
  }

  // ---------------------------------------------------------------------
  // getLine

  /** Slope and intercept of the line through p1 and p2. For a vertical
      segment the source's slope is infinite; no caller reads it then, and
      the model stores 0. */
  function GetLine(p1: Coord, p2: Coord): (l: LineData)
    ensures l.dx == p2.x - p1.x && l.dy == p2.y - p1.y
    ensures l.dx != 0.0 ==> OnSlope(p1, l) && OnSlope(p2, l)
  {
    var dx := p2.x - p1.x;
    var dy := p2.y - p1.y;
    var k := if dx != 0.0 then dy / dx else 0.0;
    assert dx != 0.0 ==> k * dx == dy;
    assert k * p1.x + (p2.y - k * p2.x) == p2.y - k * dx;
    LineData(k, p2.y - k * p2.x, dx, dy)
  }

  /** The slope and intercept are the only ones through both points. */
  lemma SlopeLineUnique(p1: Coord, p2: Coord, k: real, b: real)
    requires p1.x != p2.x
    requires p1.y == k * p1.x + b && p2.y == k * p2.x + b
    ensures GetLine(p1, p2).k == k && GetLine(p1, p2).b == b
  {
    var l := GetLine(p1, p2);
    assert l.k * l.dx == l.dy == k * l.dx;
    assert (l.k - k) * l.dx == 0.0;
    assert l.k - k == ((l.k - k) * l.dx) / l.dx;
    assert l.b == p2.y - k * p2.x;
  }

  /** A point on y = k * x + b of a non-vertical segment is on its line. */
  lemma SlopeOnLine(p: Coord, s: Segment)
    requires GetLine(s.start, s.end).dx != 0.0
    requires OnSlope(p, GetLine(s.start, s.end))
    ensures OnLine(p, s)
  {
    var l := GetLine(s.start, s.end);
    assert l.k * l.dx == l.dy;
    assert p.y - s.start.y == l.k * (p.x - s.start.x);
    calc {
      l.dx * (p.y - s.start.y);
      l.dx * (l.k * (p.x - s.start.x));
      (l.k * l.dx) * (p.x - s.start.x);
      l.dy * (p.x - s.start.x);
    }
  }

  // ---------------------------------------------------------------------
  // Intersection of two offset lines (the body of the second loop)

  /** The lines cross at a point the source computes finitely: not both
      vertical, and different slopes when neither is. */
  predicate Meets(s1: Segment, s2: Segment)
  {
    var l1 := GetLine(s1.start, s1.end);
    var l2 := GetLine(s2.start, s2.end);
    if l1.dx == 0.0 then l2.dx != 0.0 else l2.dx == 0.0 || l1.k != l2.k
  }

  /** Where the lines through s1 and s2 cross, using the source's three
      branches: l1 vertical, l2 vertical, or the slope-intercept solution. */
  function Intersection(s1: Segment, s2: Segment): (r: Coord)
    requires Meets(s1, s2)
    ensures OnLine(r, s1) && OnLine(r, s2)
    ensures s1.end.x == s1.start.x ==> r.x == s1.start.x
    ensures s1.end.x != s1.start.x && s2.end.x == s2.start.x ==> r.x == s2.start.x
    ensures s1.end.x != s1.start.x ==> OnSlope(r, GetLine(s1.start, s1.end))
  {
    var l1 := GetLine(s1.start, s1.end);
    var l2 := GetLine(s2.start, s2.end);
    if l1.dx == 0.0 then
      var x := s1.start.x;
      var r := Coord(x, l2.k * x + l2.b);
      SlopeOnLine(r, s2);
      r
    else if l2.dx == 0.0 then
      var x := s2.start.x;
      var r := Coord(x, l1.k * x + l1.b);
      SlopeOnLine(r, s1);
      r
    else
      var x := (l2.b - l1.b) / (l1.k - l2.k);
      var r := Coord(x, l1.k * x + l1.b);
      assert x * (l1.k - l2.k) == l2.b - l1.b;
      assert OnSlope(r, l2);
      SlopeOnLine(r, s1);
      SlopeOnLine(r, s2);
      r
  }

  /** Non-parallel lines pass the source's finiteness test. */
  lemma CrossingLinesMeet(s1: Segment, s2: Segment)
    requires Cross(s1, s2) != 0.0
    ensures Meets(s1, s2)
  {
    var l1 := GetLine(s1.start, s1.end);
    var l2 := GetLine(s2.start, s2.end);
    if l1.dx != 0.0 && l2.dx != 0.0 {
      assert l1.k * l1.dx == l1.dy && l2.k * l2.dx == l2.dy;
      calc {
        Cross(s1, s2);
        l1.dx * l2.dy - l1.dy * l2.dx;
        l1.dx * (l2.k * l2.dx) - (l1.k * l1.dx) * l2.dx;
        (l2.k - l1.k) * (l1.dx * l2.dx);
      }
    }
  }

  /** Two points on one line differ by a multiple of its direction. */
  lemma OnLineDifference(p: Coord, q: Coord, s: Segment)
    requires OnLine(p, s) && OnLine(q, s)
    ensures (s.end.x - s.start.x) * (p.y - q.y) == (s.end.y - s.start.y) * (p.x - q.x)
  {
    var dx, dy := s.end.x - s.start.x, s.end.y - s.start.y;
    calc {
      dx * (p.y - q.y);
      dx * (p.y - s.start.y) - dx * (q.y - s.start.y);
      dy * (p.x - s.start.x) - dy * (q.x - s.start.x);
      dy * (p.x - q.x);
    }
  }

  /** A 2x2 homogeneous system with a nonzero determinant has only the zero solution. */
  lemma HomogeneousSolution(a1: real, b1: real, a2: real, b2: real, ex: real, ey: real)
    requires a1 * ey == b1 * ex && a2 * ey == b2 * ex
    requires a1 * b2 - b1 * a2 != 0.0
    ensures ex == 0.0 && ey == 0.0
  {
    calc {
      ex * (a1 * b2 - b1 * a2);
      a1 * (b2 * ex) - a2 * (b1 * ex);
      a1 * (a2 * ey) - a2 * (a1 * ey);
      0.0;
    }
    calc {
      ey * (a1 * b2 - b1 * a2);
      b2 * (a1 * ey) - b1 * (a2 * ey);
      b2 * (b1 * ex) - b1 * (b2 * ex);
      0.0;
    }
  }

  /** Two points on both of two crossing lines coincide. */
  lemma CommonPointUnique(s1: Segment, s2: Segment, p: Coord, q: Coord)
    requires Cross(s1, s2) != 0.0
    requires OnLine(p, s1) && OnLine(p, s2) && OnLine(q, s1) && OnLine(q, s2)
    ensures p == q
  {
    OnLineDifference(p, q, s1);
    OnLineDifference(p, q, s2);
    HomogeneousSolution(s1.end.x - s1.start.x, s1.end.y - s1.start.y,
                        s2.end.x - s2.start.x, s2.end.y - s2.start.y, p.x - q.x, p.y - q.y);
  }

  /** Non-parallel lines cross at exactly one point, and Intersection finds it. */
  lemma IntersectionUnique(s1: Segment, s2: Segment, p: Coord)
    requires Cross(s1, s2) != 0.0
    requires OnLine(p, s1) && OnLine(p, s2)
    ensures Meets(s1, s2) && p == Intersection(s1, s2)
  {
    CrossingLinesMeet(s1, s2);
    CommonPointUnique(s1, s2, p, Intersection(s1, s2));
  }

  // ---------------------------------------------------------------------
  // getBorderedPoints

  /** The perpendicular displacement of one edge by the border width (the
      source's atan2/cos/sin step), as a parameter: given an edge's start,
      its end and the width, the offset segment parallel to it. */
  type Displacement = (Coord, Coord, real) -> Segment

  /** Index of the vertex after i, closing the polygon. */
  function Next(i: nat, n: nat): (j: nat)
    requires i < n
    ensures j < n && j == (i + 1) % n
  {
    if i + 1 == n then 0 else i + 1
  }

  /** Index of the vertex before i, closing the polygon. */
  function Prev(i: nat, n: nat): (j: nat)
    requires i < n
    ensures j < n && Next(j, n) == i
  {
    if i == 0 then n - 1 else i - 1
  }

  /** Edge i of the closed polygon: from vertex i to the vertex after it. */
  function Edge(pts: seq<PointData>, i: nat): Segment
    requires i < |pts|
  {
    Segment(pts[i].coord, pts[Next(i, |pts|)].coord)
  }

  /** The offset line of edge i. */
  function EdgeOffset(pts: seq<PointData>, border: real, displace: Displacement, i: nat): Segment
    requires i < |pts|
  {
    displace(Edge(pts, i).start, Edge(pts, i).end, border)
  }

  /** Every vertex's two offset lines cross where the source's arithmetic is
      finite (the source leaves the other cases to Infinity and NaN). */
  predicate CornersMeet(pts: seq<PointData>, border: real, displace: Displacement)
  {
    |pts| >= 3 ==> forall i :: 0 <= i < |pts| ==> CornerMeets(pts, border, displace, i)
  }

  /** The two offset lines at vertex i cross where the source's arithmetic is finite. */
  predicate CornerMeets(pts: seq<PointData>, border: real, displace: Displacement, i: nat)
    requires i < |pts|
  {
    Meets(EdgeOffset(pts, border, displace, Prev(i, |pts|)), EdgeOffset(pts, border, displace, i))
  }

  /** The inner corner at vertex i: the crossing of the offset lines of the
      two edges that meet there. */
  function Corner(pts: seq<PointData>, border: real, displace: Displacement, i: nat): (c: Coord)
    requires 3 <= |pts| && i < |pts| && CornersMeet(pts, border, displace)
    ensures OnLine(c, EdgeOffset(pts, border, displace, Prev(i, |pts|)))
    ensures OnLine(c, EdgeOffset(pts, border, displace, i))
  {
    assert CornerMeets(pts, border, displace, i);
    Intersection(EdgeOffset(pts, border, displace, Prev(i, |pts|)), EdgeOffset(pts, border, displace, i))
  }

  /** What getBorderedPoints returns, vertex by vertex. */
  function BorderedPoints(pts: seq<PointData>, border: real, displace: Displacement): (r: seq<FullPointData>)
    requires CornersMeet(pts, border, displace)
    ensures |pts| < 3 ==> r == []
    ensures |pts| >= 3 ==> |r| == |pts|
    ensures forall i :: 0 <= i < |r| ==>
      r[i].coord == pts[i].coord && r[i].h == pts[i].h && r[i].v == pts[i].v
    ensures forall i :: 0 <= i < |r| ==>
      OnLine(r[i].inner, EdgeOffset(pts, border, displace, Prev(i, |pts|))) &&
      OnLine(r[i].inner, EdgeOffset(pts, border, displace, i))
  {
    if |pts| < 3 then
      []
    else
      seq(|pts|, i requires 0 <= i < |pts| =>
            FullPointData(pts[i].coord, Corner(pts, border, displace, i), pts[i].h, pts[i].v))
  }

  /** The source's first loop: close the vertex list and build one offset
      line per edge, so that line j is the offset of edge j. */
  method OffsetLines(pts: seq<PointData>, border: real, displace: Displacement) returns (innerLines: seq<Segment>)
    requires |pts| >= 1
    ensures |innerLines| == |pts|
    ensures forall j :: 0 <= j < |pts| ==> innerLines[j] == EdgeOffset(pts, border, displace, j)
  {
    innerLines := [];
    var ptsClosed := pts + [pts[0]];
    var i := 0;
    while i < |ptsClosed| - 1
      invariant 0 <= i <= |pts| && |innerLines| == i
      invariant forall j :: 0 <= j < i ==> innerLines[j] == EdgeOffset(pts, border, displace, j)
    {
      var p1 := ptsClosed[i];
      var p2 := ptsClosed[i + 1];
      assert p2 == pts[Next(i, |pts|)];
      innerLines := innerLines + [displace(p1.coord, p2.coord, border)];
      i := i + 1;
    }
  }

  /** The source's second loop: cross each line with the one after it. */
  method CrossAdjacent(innerLines: seq<Segment>) returns (innerPoints: seq<Coord>)
    requires |innerLines| >= 1
    requires forall i :: 0 <= i < |innerLines| - 1 ==> Meets(innerLines[i], innerLines[i + 1])
    ensures |innerPoints| == |innerLines| - 1
    ensures forall i :: 0 <= i < |innerPoints| ==> innerPoints[i] == Intersection(innerLines[i], innerLines[i + 1])
  {
    innerPoints := [];
    var i := 0;
    while i < |innerLines| - 1
      invariant 0 <= i <= |innerLines| - 1 && |innerPoints| == i
      invariant forall j :: 0 <= j < i ==> innerPoints[j] == Intersection(innerLines[j], innerLines[j + 1])
    {
      var l1 := innerLines[i];
      var l2 := innerLines[i + 1];
      innerPoints := innerPoints + [Intersection(l1, l2)];
      i := i + 1;
    }
  }

  /** getBorderedPoints: the offset lines, the last moved to the front so
      that lines i and i + 1 meet at vertex i, their crossings, the first
      crossing repeated at the end, and the crossings attached by index. */
  method GetBorderedPoints(pts: seq<PointData>, border: real, displace: Displacement)
    returns (r: seq<FullPointData>)
    requires CornersMeet(pts, border, displace)
    ensures r == BorderedPoints(pts, border, displace)
  {
    if |pts| < 3 {
      return [];
    }
    var innerLines := OffsetLines(pts, border, displace);
    ghost var lines := innerLines;
    innerLines := [innerLines[|innerLines| - 1]] + innerLines;
    RotatedLinesMeetAtVertices(pts, border, displace, lines, innerLines);
    var innerPoints := CrossAdjacent(innerLines);
    ghost var crossings := innerPoints;
    innerPoints := innerPoints + [innerPoints[0]];

    r := seq(|pts|, j requires 0 <= j < |pts| => FullPointData(pts[j].coord, innerPoints[j], pts[j].h, pts[j].v));
    CrossingsAreCorners(pts, border, displace, innerLines, crossings);
    MatchCorners(pts, border, displace, crossings, r);
  }

  /** After the last offset line is moved to the front, lines i and i + 1
      are the offset lines of the two edges meeting at vertex i, so their
      crossing is corner i. */
  lemma RotatedLinesMeetAtVertices(pts: seq<PointData>, border: real, displace: Displacement,
                                   lines: seq<Segment>, rotated: seq<Segment>)
    requires |pts| >= 3 && CornersMeet(pts, border, displace)
    requires |lines| == |pts| && forall j :: 0 <= j < |pts| ==> lines[j] == EdgeOffset(pts, border, displace, j)
    requires rotated == [lines[|lines| - 1]] + lines
    ensures |rotated| == |pts| + 1
    ensures forall i :: 0 <= i < |pts| ==>
      rotated[i] == EdgeOffset(pts, border, displace, Prev(i, |pts|)) &&
      rotated[i + 1] == EdgeOffset(pts, border, displace, i)
    ensures forall i :: 0 <= i < |pts| ==> Meets(rotated[i], rotated[i + 1])
    ensures forall i :: 0 <= i < |pts| ==> Intersection(rotated[i], rotated[i + 1]) == Corner(pts, border, displace, i)
  {
    forall i | 0 <= i < |pts|
      ensures rotated[i] == EdgeOffset(pts, border, displace, Prev(i, |pts|))
      ensures rotated[i + 1] == EdgeOffset(pts, border, displace, i)
      ensures Meets(rotated[i], rotated[i + 1])
    {
      assert rotated[i + 1] == lines[i];
      assert rotated[i] == lines[Prev(i, |pts|)];
      assert CornerMeets(pts, border, displace, i);
    }
  }

  /** Each crossing of adjacent rotated lines is the corner of its vertex. */
  lemma CrossingsAreCorners(pts: seq<PointData>, border: real, displace: Displacement,
                            rotated: seq<Segment>, crossings: seq<Coord>)
    requires 3 <= |pts| && CornersMeet(pts, border, displace)
    requires |rotated| == |pts| + 1
    requires forall i :: 0 <= i < |pts| ==> Meets(rotated[i], rotated[i + 1])
    requires forall i :: 0 <= i < |pts| ==> Intersection(rotated[i], rotated[i + 1]) == Corner(pts, border, displace, i)
    requires |crossings| == |pts|
    requires forall i :: 0 <= i < |pts| ==> crossings[i] == Intersection(rotated[i], rotated[i + 1])
    ensures forall i :: 0 <= i < |pts| ==> crossings[i] == Corner(pts, border, displace, i)
  {
    forall i | 0 <= i < |pts|
      ensures crossings[i] == Corner(pts, border, displace, i)
    {
      assert crossings[i] == Intersection(rotated[i], rotated[i + 1]);
    }
  }

  /** Corners attached by index give the bordered points. */
  lemma MatchCorners(pts: seq<PointData>, border: real, displace: Displacement,
                     corners: seq<Coord>, r: seq<FullPointData>)
    requires 3 <= |pts| == |corners| && CornersMeet(pts, border, displace)
    requires forall j :: 0 <= j < |pts| ==> corners[j] == Corner(pts, border, displace, j)
    requires |r| == |pts|
    requires forall j :: 0 <= j < |pts| ==> r[j] == FullPointData(pts[j].coord, corners[j], pts[j].h, pts[j].v)
    ensures r == BorderedPoints(pts, border, displace)
  {
    var spec := BorderedPoints(pts, border, displace);
    forall j | 0 <= j < |pts|
      ensures r[j] == spec[j]
    {
      assert spec[j] == FullPointData(pts[j].coord, Corner(pts, border, displace, j), pts[j].h, pts[j].v);
    }
  }

  /** With border 0 every offset line is its edge. If no two consecutive
      edges are parallel, each inner corner is then the vertex itself. */
  lemma UndisplacedEdgesKeepVertices(pts: seq<PointData>, border: real, displace: Displacement)
    requires |pts| >= 3
    requires forall i :: 0 <= i < |pts| ==> EdgeOffset(pts, border, displace, i) == Edge(pts, i)
    requires forall i :: 0 <= i < |pts| ==> Cross(Edge(pts, Prev(i, |pts|)), Edge(pts, i)) != 0.0
    ensures CornersMeet(pts, border, displace)
    ensures forall i :: 0 <= i < |pts| ==> BorderedPoints(pts, border, displace)[i].inner == pts[i].coord
  {
    forall i | 0 <= i < |pts|
      ensures CornerMeets(pts, border, displace, i)
    {
      CrossingLinesMeet(Edge(pts, Prev(i, |pts|)), Edge(pts, i));
    }
    assert CornersMeet(pts, border, displace);
    var r := BorderedPoints(pts, border, displace);
    forall i | 0 <= i < |pts|
      ensures r[i].inner == pts[i].coord
    {
      UndisplacedCorner(pts, border, displace, i);
    }
  }

  /** A vertex whose two edges are their own offset lines and are not
      parallel is its own corner. */
  lemma UndisplacedCorner(pts: seq<PointData>, border: real, displace: Displacement, i: nat)
    requires 3 <= |pts| && i < |pts| && CornersMeet(pts, border, displace)
    requires EdgeOffset(pts, border, displace, Prev(i, |pts|)) == Edge(pts, Prev(i, |pts|))
    requires EdgeOffset(pts, border, displace, i) == Edge(pts, i)
    requires Cross(Edge(pts, Prev(i, |pts|)), Edge(pts, i)) != 0.0
    ensures Corner(pts, border, displace, i) == pts[i].coord
  {
    var before, after := Edge(pts, Prev(i, |pts|)), Edge(pts, i);
    assert before.end == pts[i].coord == after.start;
    assert OnLine(pts[i].coord, before) && OnLine(pts[i].coord, after);
    IntersectionUnique(before, after, pts[i].coord);
  }

  /** The source's displacement evaluated exactly for a non-degenerate axis-parallel edge:
      both endpoints move by the width times the edge direction turned by
      +90 degrees. */
  function AxisAlignedOffset(p1: Coord, p2: Coord, border: real): (r: Segment)
    ensures r.start.x - p1.x == r.end.x - p2.x && r.start.y - p1.y == r.end.y - p2.y
    ensures (p1.x == p2.x) != (p1.y == p2.y) ==>
      var vx, vy := r.start.x - p1.x, r.start.y - p1.y;
      vx * (p2.x - p1.x) + vy * (p2.y - p1.y) == 0.0 && vx * vx + vy * vy == border * border
  {
    var ux := Sign(p2.x - p1.x);
    var uy := Sign(p2.y - p1.y);
    Segment(Coord(p1.x - border * uy, p1.y + border * ux), Coord(p2.x - border * uy, p2.y + border * ux))
  }

  function Sign(d: real): real
  {
    if d > 0.0 then 1.0 else if d < 0.0 then -1.0 else 0.0
  }

  function Square(): seq<PointData>
  {
    [PointData(Coord(0.0, 0.0), Left, Top), PointData(Coord(10.0, 0.0), Right, Top),
     PointData(Coord(10.0, 10.0), Right, Bottom), PointData(Coord(0.0, 10.0), Left, Bottom)]
  }

  /** The segments have the same direction vector: one is a translate of the other. */
  predicate SameDirection(s: Segment, t: Segment)
  {
    s.end.x - s.start.x == t.end.x - t.start.x && s.end.y - s.start.y == t.end.y - t.start.y
  }

  /** A displacement that translates every edge meets the precondition of
      getBorderedPoints on every polygon whose consecutive edges are not
      parallel. */
  lemma TranslatedEdgesMeet(pts: seq<PointData>, border: real, displace: Displacement)
    requires |pts| >= 3
    requires forall i :: 0 <= i < |pts| ==> SameDirection(EdgeOffset(pts, border, displace, i), Edge(pts, i))
    requires forall i :: 0 <= i < |pts| ==> Cross(Edge(pts, Prev(i, |pts|)), Edge(pts, i)) != 0.0
    ensures CornersMeet(pts, border, displace)
  {
    forall i | 0 <= i < |pts|
      ensures CornerMeets(pts, border, displace, i)
    {
      var before, after := EdgeOffset(pts, border, displace, Prev(i, |pts|)), EdgeOffset(pts, border, displace, i);
      assert SameDirection(before, Edge(pts, Prev(i, |pts|))) && SameDirection(after, Edge(pts, i));
      assert Cross(before, after) == Cross(Edge(pts, Prev(i, |pts|)), Edge(pts, i));
      CrossingLinesMeet(before, after);
    }
  }

  /** The axis-parallel displacement meets that precondition on every polygon
      whose consecutive edges are not parallel. */
  lemma AxisAlignedCornersMeet(pts: seq<PointData>, border: real)
    requires |pts| >= 3
    requires forall i :: 0 <= i < |pts| ==> Cross(Edge(pts, Prev(i, |pts|)), Edge(pts, i)) != 0.0
    ensures CornersMeet(pts, border, AxisAlignedOffset)
  {
    forall i | 0 <= i < |pts|
      ensures SameDirection(EdgeOffset(pts, border, AxisAlignedOffset, i), Edge(pts, i))
    {
    }
    TranslatedEdgesMeet(pts, border, AxisAlignedOffset);
  }

  /** The offset lines of the square's edges for border w. */
  lemma SquareOffsets(w: real)
    ensures EdgeOffset(Square(), w, AxisAlignedOffset, 0) == Segment(Coord(0.0, w), Coord(10.0, w))
    ensures EdgeOffset(Square(), w, AxisAlignedOffset, 1) == Segment(Coord(10.0 - w, 0.0), Coord(10.0 - w, 10.0))
    ensures EdgeOffset(Square(), w, AxisAlignedOffset, 2) == Segment(Coord(10.0, 10.0 - w), Coord(0.0, 10.0 - w))
    ensures EdgeOffset(Square(), w, AxisAlignedOffset, 3) == Segment(Coord(w, 10.0), Coord(w, 0.0))
  {
    var pts := Square();
    assert Edge(pts, 0) == Segment(Coord(0.0, 0.0), Coord(10.0, 0.0));
    assert Edge(pts, 1) == Segment(Coord(10.0, 0.0), Coord(10.0, 10.0));
    assert Edge(pts, 2) == Segment(Coord(10.0, 10.0), Coord(0.0, 10.0));
    assert Edge(pts, 3) == Segment(Coord(0.0, 10.0), Coord(0.0, 0.0));
  }

  /** A horizontal line and a vertical one cross at the obvious point. */
  lemma HorizontalMeetsVertical(s1: Segment, s2: Segment)
    requires s1.start.y == s1.end.y && s1.start.x != s1.end.x && s2.start.x == s2.end.x
    ensures Meets(s1, s2) && Intersection(s1, s2) == Coord(s2.start.x, s1.start.y)
  {
    assert GetLine(s1.start, s1.end).k == 0.0;
  }

  /** A vertical line and a horizontal one cross at the obvious point. */
  lemma VerticalMeetsHorizontal(s1: Segment, s2: Segment)
    requires s1.start.x == s1.end.x && s2.start.y == s2.end.y && s2.start.x != s2.end.x
    ensures Meets(s1, s2) && Intersection(s1, s2) == Coord(s1.start.x, s2.start.y)
  {
    assert GetLine(s2.start, s2.end).k == 0.0;
  }

  /** The 10 x 10 square with border w has the square of side 10 - 2w with
      the same centre as its inner ring. */
  lemma SquareInset(w: real)
    ensures CornersMeet(Square(), w, AxisAlignedOffset)
    ensures var r := BorderedPoints(Square(), w, AxisAlignedOffset);
      |r| == 4 &&
      r[0].inner == Coord(w, w) && r[1].inner == Coord(10.0 - w, w) &&
      r[2].inner == Coord(10.0 - w, 10.0 - w) && r[3].inner == Coord(w, 10.0 - w)
  {
    var pts := Square();
    SquareOffsets(w);
    var o0, o1 := EdgeOffset(pts, w, AxisAlignedOffset, 0), EdgeOffset(pts, w, AxisAlignedOffset, 1);
    var o2, o3 := EdgeOffset(pts, w, AxisAlignedOffset, 2), EdgeOffset(pts, w, AxisAlignedOffset, 3);
    VerticalMeetsHorizontal(o3, o0);
    HorizontalMeetsVertical(o0, o1);
    VerticalMeetsHorizontal(o1, o2);
    HorizontalMeetsVertical(o2, o3);
    assert Prev(0, 4) == 3 && Prev(1, 4) == 0 && Prev(2, 4) == 1 && Prev(3, 4) == 2;
  }

  // ---------------------------------------------------------------------
  // getPointCss

  /** One axis of a CSS `polygon()` vertex: `<v>px`, `100%`, or
      `calc(100% - <d>px)`. */
  datatype CssLength = Px(px: real) | Full | FullMinus(px: real)

  datatype PointCss = PointCss(x: CssLength, y: CssLength)

  /** The offset a CSS length denotes in a box whose extent on that axis is `extent`. */
  function Resolve(t: CssLength, extent: real): real
  {
    match t
    case Px(v) => v
    case Full => extent
    case FullMinus(d) => extent - d
  }

  /** One axis of getPointCss: c measured from the near edge, or from the far
      edge of a box whose extent is max. */
  function AxisCss(c: real, nearEdge: bool, max: real): (t: CssLength)
    ensures t.Px? <==> nearEdge
    ensures t.Full? <==> !nearEdge && c == max
    ensures forall extent :: Resolve(t, extent) == if nearEdge then c else c + (extent - max)
  {
    if nearEdge then Px(c) else if max == c then Full else FullMinus(max - c)
  }

  /** For a box of size xMax by yMax the CSS terms denote p exactly; when the
      box is resized a left/top anchored axis keeps its offset and any other
      axis keeps its distance to the far edge. */
  function GetPointCss(p: Coord, h: HAnchor, v: VAnchor, xMax: real, yMax: real): (r: PointCss)
    ensures r.x.Px? <==> h == Left
    ensures r.y.Px? <==> v == Top
    ensures r.x.Full? <==> h != Left && p.x == xMax
    ensures r.y.Full? <==> v != Top && p.y == yMax
    ensures Resolve(r.x, xMax) == p.x && Resolve(r.y, yMax) == p.y
    ensures forall width :: Resolve(r.x, width) == if h == Left then p.x else p.x + (width - xMax)
    ensures forall height :: Resolve(r.y, height) == if v == Top then p.y else p.y + (height - yMax)
  {
    PointCss(AxisCss(p.x, h == Left, xMax), AxisCss(p.y, v == Top, yMax))
  }

  // ---------------------------------------------------------------------
  // genPath and genPolygon

  datatype Ring = Outer | Inner

  datatype PathCommand = MoveTo | LineTo

  /** One `M`/`L` term of the outline path: which ring and vertex it visits, and where. */
  datatype PathStep = PathStep(cmd: PathCommand, ring: Ring, index: nat, at: Coord)

  /** One vertex of the CSS polygon: which ring and vertex it visits, and its CSS terms. */
  datatype PolygonVertex = PolygonVertex(ring: Ring, index: nat, css: PointCss)

  function Reverse<T>(s: seq<T>): (r: seq<T>)
    ensures |r| == |s|
    ensures forall i :: 0 <= i < |s| ==> r[i] == s[|s| - 1 - i]
  {
    seq(|s|, i requires 0 <= i < |s| => s[|s| - 1 - i])
  }

  /** The outline: outer ring forward and closed, inner ring backwards and
      closed, then back to the first outer vertex. The source reads
      `first.coord` of its first element, so it needs one. */
  function GenPath(e: seq<FullPointData>): (r: seq<PathStep>)
    requires |e| >= 1
    ensures |r| == 2 * |e| + 3
    ensures r[0] == PathStep(MoveTo, Outer, 0, e[0].coord)
    ensures forall k :: 1 <= k < |e| ==> r[k] == PathStep(LineTo, Outer, k, e[k].coord)
    ensures r[|e|] == PathStep(LineTo, Outer, 0, e[0].coord)
    ensures r[|e| + 1] == PathStep(LineTo, Inner, 0, e[0].inner)
    ensures forall k :: |e| + 2 <= k <= 2 * |e| ==>
      r[k] == PathStep(LineTo, Inner, 2 * |e| + 1 - k, e[2 * |e| + 1 - k].inner)
    ensures r[2 * |e| + 1] == PathStep(LineTo, Inner, 0, e[0].inner)
    ensures r[2 * |e| + 2] == PathStep(LineTo, Outer, 0, e[0].coord)
  {
    var first, points := e[0], e[1..];
    var outerEnd := PathStep(LineTo, Outer, 0, first.coord);
    var outer := seq(|points|, j requires 0 <= j < |points| => PathStep(LineTo, Outer, j + 1, points[j].coord));
    var innerStart := PathStep(LineTo, Inner, 0, first.inner);
    var inner := Reverse(seq(|points|, j requires 0 <= j < |points| => PathStep(LineTo, Inner, j + 1, points[j].inner)));
    [PathStep(MoveTo, Outer, 0, first.coord)] + outer + [outerEnd, innerStart] + inner + [innerStart, outerEnd]
  }

  function OuterXs(e: seq<FullPointData>): seq<real>
  {
    seq(|e|, i requires 0 <= i < |e| => e[i].coord.x)
  }

  function OuterYs(e: seq<FullPointData>): seq<real>
  {
    seq(|e|, i requires 0 <= i < |e| => e[i].coord.y)
  }

  /** The polygon's bounding box, taken from the outer coordinates only. */
  function OuterMax(e: seq<FullPointData>): (m: Coord)
    requires |e| >= 1
    ensures forall i :: 0 <= i < |e| ==> e[i].coord.x <= m.x && e[i].coord.y <= m.y
    ensures (exists i :: 0 <= i < |e| && e[i].coord.x == m.x) && (exists i :: 0 <= i < |e| && e[i].coord.y == m.y)
  {
    var mx, my := Maximum(OuterXs(e)), Maximum(OuterYs(e));
    assert forall i :: 0 <= i < |e| ==> OuterXs(e)[i] == e[i].coord.x && OuterYs(e)[i] == e[i].coord.y;
    Coord(mx.value, my.value)
  }

  function VertexCss(e: seq<FullPointData>, ring: Ring, i: nat): PointCss
    requires i < |e|
  {
    var m := OuterMax(e);
    GetPointCss(if ring == Outer then e[i].coord else e[i].inner, e[i].h, e[i].v, m.x, m.y)
  }

  /** The clip polygon: outer ring forward and closed, then the inner ring
      backwards and closed; every vertex in CSS terms against the outer
      bounding box. */
  function GenPolygon(e: seq<FullPointData>): (r: seq<PolygonVertex>)
    requires |e| >= 1
    ensures |r| == 2 * |e| + 2
    ensures r[0] == PolygonVertex(Outer, 0, VertexCss(e, Outer, 0))
    ensures forall k :: 1 <= k < |e| ==> r[k] == PolygonVertex(Outer, k, VertexCss(e, Outer, k))
    ensures r[|e|] == PolygonVertex(Outer, 0, VertexCss(e, Outer, 0))
    ensures r[|e| + 1] == PolygonVertex(Inner, 0, VertexCss(e, Inner, 0))
    ensures forall k :: |e| + 2 <= k <= 2 * |e| ==>
      r[k] == PolygonVertex(Inner, 2 * |e| + 1 - k, VertexCss(e, Inner, 2 * |e| + 1 - k))
    ensures r[2 * |e| + 1] == PolygonVertex(Inner, 0, VertexCss(e, Inner, 0))
  {
    var m := OuterMax(e);
    var first, points := e[0], e[1..];
    var outerStart := PolygonVertex(Outer, 0, GetPointCss(first.coord, first.h, first.v, m.x, m.y));
    var outer := seq(|points|, j requires 0 <= j < |points| =>
                       PolygonVertex(Outer, j + 1, GetPointCss(points[j].coord, points[j].h, points[j].v, m.x, m.y)));
    var innerStart := PolygonVertex(Inner, 0, GetPointCss(first.inner, first.h, first.v, m.x, m.y));
    var inner := Reverse(seq(|points|, j requires 0 <= j < |points| =>
                               PolygonVertex(Inner, j + 1, GetPointCss(points[j].inner, points[j].h, points[j].v, m.x, m.y))));
    [outerStart] + outer + [outerStart, innerStart] + inner + [innerStart]
  }

  /** The two renderers visit the same vertices in the same order; the path
      adds one final return to the first outer vertex. */
  lemma RenderersAgree(e: seq<FullPointData>)
    requires |e| >= 1
    ensures |GenPath(e)| == |GenPolygon(e)| + 1
    ensures forall k :: 0 <= k < |GenPolygon(e)| ==>
      GenPath(e)[k].ring == GenPolygon(e)[k].ring && GenPath(e)[k].index == GenPolygon(e)[k].index
    ensures GenPath(e)[|GenPolygon(e)|] == GenPath(e)[|e|]
  {
    var path, polygon, n := GenPath(e), GenPolygon(e), |e|;
    forall k | 0 <= k < |polygon|
      ensures path[k].ring == polygon[k].ring && path[k].index == polygon[k].index
    {
      if 1 <= k < n {
        assert path[k] == PathStep(LineTo, Outer, k, e[k].coord);
      } else if n + 2 <= k <= 2 * n {
        assert path[k].index == 2 * n + 1 - k == polygon[k].index;
      }
    }
  }

  /** On the outer ring a `calc(100% - d px)` term always has d > 0, and
      every outer CSS vertex denotes its coordinate in the outer bounding box. */
  lemma OuterCssWithinBox(e: seq<FullPointData>, k: nat)
    requires |e| >= 1 && k <= |e|
    ensures var c := GenPolygon(e)[k].css;
      (c.x.FullMinus? ==> c.x.px > 0.0) && (c.y.FullMinus? ==> c.y.px > 0.0)
    ensures var c := GenPolygon(e)[k].css; var i := GenPolygon(e)[k].index;
      i < |e| && Resolve(c.x, OuterMax(e).x) == e[i].coord.x && Resolve(c.y, OuterMax(e).y) == e[i].coord.y
  {
  }

  // ---------------------------------------------------------------------
  // getPath and getPolygon

  /** The outline for a vertex list; None where the source throws, which is
      when fewer than 3 vertices leave genPath's `first` undefined. */
  method GetPath(pts: seq<PointData>, border: real, displace: Displacement) returns (r: Option<seq<PathStep>>)
    requires CornersMeet(pts, border, displace)
    ensures r.None? <==> |pts| < 3
    ensures r.Some? ==> r.value == GenPath(BorderedPoints(pts, border, displace)) && |r.value| == 2 * |pts| + 3
  {
    var e := GetBorderedPoints(pts, border, displace);
    if |e| == 0 {
      return None;
    }
    r := Some(GenPath(e));
  }

  /** The clip polygon for a vertex list; None where the source throws. */
  method GetPolygon(pts: seq<PointData>, border: real, displace: Displacement) returns (r: Option<seq<PolygonVertex>>)
    requires CornersMeet(pts, border, displace)
    ensures r.None? <==> |pts| < 3
    ensures r.Some? ==> r.value == GenPolygon(BorderedPoints(pts, border, displace)) && |r.value| == 2 * |pts| + 2
  {
    var e := GetBorderedPoints(pts, border, displace);
    if |e| == 0 {
      return None;
    }
    r := Some(GenPolygon(e));
  }
}
