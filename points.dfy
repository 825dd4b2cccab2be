/** The path parser: rebuilds a vertex list from the `M`/`L`/`H`/`V`
    commands of a path description and tags each vertex with the half of the
    bounding box it lies in. The input is the list of command tokens after
    splitting and number parsing. */
module Points {
  import opened Basics
  import opened Path

  /** One command token: its letter and its numeric arguments. */
  datatype Token = Token(command: char, values: seq<real>)

  /** Why a token list yields no vertex list. NoPreviousPoint and NoPoints are
      where the source throws; MissingValue is where it would build a
      coordinate from an absent argument. `at` is the token's position. */
  datatype ParseError = NoPreviousPoint(at: nat) | MissingValue(at: nat) | NoPoints

  /** The bounding box maxima, as `Math.max` gives them. */
  datatype Dims = Dims(maxX: Bound, maxY: Bound)

  /** NoMatch is the source's `undefined` for a path with no command token. */
  datatype ParseResult = NoMatch | Parsed(points: seq<PointData>, dims: Dims) | Failed(error: ParseError)

  predicate IsDrawing(c: char)
  {
    c == 'M' || c == 'L' || c == 'H' || c == 'V'
  }

  /** The effect of one token on the point list. */
  function Step(pts: seq<Coord>, t: Token, at: nat): (r: Result<seq<Coord>, ParseError>)
    ensures r.Ok? ==> |pts| <= |r.value| <= |pts| + 1 && r.value[..|pts|] == pts
    ensures r == Ok(pts) <==> !IsDrawing(t.command)
    ensures (t.command == 'M' || t.command == 'L') && |t.values| >= 2 ==>
      r == Ok(pts + [Coord(t.values[0], t.values[1])])
    ensures t.command == 'H' && pts != [] && |t.values| >= 1 ==>
      r == Ok(pts + [Coord(t.values[0], pts[|pts| - 1].y)])
    ensures t.command == 'V' && pts != [] && |t.values| >= 1 ==>
      r == Ok(pts + [Coord(pts[|pts| - 1].x, t.values[0])])
    ensures (t.command == 'H' || t.command == 'V') && pts == [] ==> r == Err(NoPreviousPoint(at))
    ensures (t.command == 'M' || t.command == 'L') && |t.values| < 2 ==> r == Err(MissingValue(at))
    ensures (t.command == 'H' || t.command == 'V') && pts != [] && |t.values| < 1 ==> r == Err(MissingValue(at))
  {
    if t.command == 'M' || t.command == 'L' then
      if |t.values| < 2 then Err(MissingValue(at)) else Ok(pts + [Coord(t.values[0], t.values[1])])
    else if t.command == 'H' then
      if pts == [] then Err(NoPreviousPoint(at))
      else if |t.values| < 1 then Err(MissingValue(at))
      else Ok(pts + [Coord(t.values[0], pts[|pts| - 1].y)])
    else if t.command == 'V' then
      if pts == [] then Err(NoPreviousPoint(at))
      else if |t.values| < 1 then Err(MissingValue(at))
      else Ok(pts + [Coord(pts[|pts| - 1].x, t.values[0])])
    else
      Ok(pts)
  }

  /** `H x` and `V y` are shorthands for the `L` to the point they reach. */
  lemma ShorthandsAreLines(pts: seq<Coord>, v: seq<real>, at: nat)
    requires pts != [] && |v| >= 1
    ensures Step(pts, Token('H', v), at) == Step(pts, Token('L', [v[0], pts[|pts| - 1].y]), at)
    ensures Step(pts, Token('V', v), at) == Step(pts, Token('L', [pts[|pts| - 1].x, v[0]]), at)
  {
  }

  /** The command loop from point list pts, the first token being number at. */
  function Walk(pts: seq<Coord>, tokens: seq<Token>, at: nat): (r: Result<seq<Coord>, ParseError>)
    ensures r.Ok? ==> |pts| <= |r.value| <= |pts| + |tokens| && r.value[..|pts|] == pts
    decreases |tokens|
  {
    if tokens == [] then Ok(pts)
    else
      match Step(pts, tokens[0], at)
      case Err(e) => Err(e)
      case Ok(next) => Walk(next, tokens[1..], at + 1)
  }

  /** Running the loop over ts and then t is running it over ts and applying t. */
  lemma {:induction false} WalkSnoc(pts: seq<Coord>, ts: seq<Token>, t: Token, at: nat)
    ensures Walk(pts, ts + [t], at) ==
      match Walk(pts, ts, at)
      case Err(e) => Err(e)
      case Ok(q) => Step(q, t, at + |ts|)
    decreases |ts|
  {
    if ts == [] {
      assert ts + [t] == [t];
      assert [t][1..] == [];
    } else {
      assert (ts + [t])[0] == ts[0];
      assert (ts + [t])[1..] == ts[1..] + [t];
      match Step(pts, ts[0], at)
      case Err(e) =>
      case Ok(next) => WalkSnoc(next, ts[1..], t, at + 1);
    }
  }

  /** `checkPointsEqual`: coordinate-wise equality. */
  function CheckPointsEqual(p1: Coord, p2: Coord): (r: bool)
    ensures r <==> p1 == p2
  {
    p1.x == p2.x && p1.y == p2.y
  }

  /** The explicit close of a path: the last point goes exactly when it repeats the first. */
  function DropClosing(pts: seq<Coord>): (r: seq<Coord>)
    requires pts != []
    ensures |r| <= |pts| && r == pts[..|r|]
    ensures |r| == |pts| - 1 <==> pts[0] == pts[|pts| - 1]
    ensures |r| == |pts| <==> pts[0] != pts[|pts| - 1]
  {
    if CheckPointsEqual(pts[0], pts[|pts| - 1]) then pts[..|pts| - 1] else pts
  }

  function Xs(pts: seq<Coord>): seq<real>
  {
    seq(|pts|, i requires 0 <= i < |pts| => pts[i].x)
  }

  function Ys(pts: seq<Coord>): seq<real>
  {
    seq(|pts|, i requires 0 <= i < |pts| => pts[i].y)
  }

  /** Left of the centre line x = maxX / 2; on it or beyond is right. */
  function HorizontalHalf(x: real, maxX: Bound): HAnchor
  {
    if maxX.Finite? && x < maxX.value / 2.0 then Left else Right
  }

  /** Above the centre line y = maxY / 2; on it or below is bottom. */
  function VerticalHalf(y: real, maxY: Bound): VAnchor
  {
    if maxY.Finite? && y < maxY.value / 2.0 then Top else Bottom
  }

  /** The dims and the tagged vertices for the final point list. */
  function Classify(pts: seq<Coord>): (r: ParseResult)
    ensures r.Parsed? && |r.points| == |pts|
    ensures pts == [] ==> r.dims == Dims(NegInfinity, NegInfinity)
    ensures pts != [] ==> r.dims.maxX.Finite? && r.dims.maxY.Finite?
    ensures pts != [] ==> r.dims.maxX.value in Xs(pts) && r.dims.maxY.value in Ys(pts)
    ensures forall i :: 0 <= i < |pts| ==>
      pts[i].x <= r.dims.maxX.value && pts[i].y <= r.dims.maxY.value
    ensures forall i :: 0 <= i < |pts| ==> r.points[i].coord == pts[i]
    ensures forall i :: 0 <= i < |pts| ==>
      (r.points[i].h == Left <==> pts[i].x < r.dims.maxX.value / 2.0) &&
      (r.points[i].h == Right <==> pts[i].x >= r.dims.maxX.value / 2.0)
    ensures forall i :: 0 <= i < |pts| ==>
      (r.points[i].v == Top <==> pts[i].y < r.dims.maxY.value / 2.0) &&
      (r.points[i].v == Bottom <==> pts[i].y >= r.dims.maxY.value / 2.0)
  {
    var dims := Dims(Maximum(Xs(pts)), Maximum(Ys(pts)));
    assert forall i :: 0 <= i < |pts| ==> Xs(pts)[i] == pts[i].x && Ys(pts)[i] == pts[i].y;
    Parsed(seq(|pts|, i requires 0 <= i < |pts| =>
                 PointData(pts[i], HorizontalHalf(pts[i].x, dims.maxX), VerticalHalf(pts[i].y, dims.maxY))),
           dims)
  }

  /** What parsePointsFromSvgPath returns for a token list. */
  function PathPoints(tokens: seq<Token>): (r: ParseResult)
    ensures r.NoMatch? <==> tokens == []
    ensures r.Parsed? ==> forall i :: 0 <= i < |r.points| ==>
      r.points[i].h != HProportional && r.points[i].v != VProportional
  {
    if tokens == [] then NoMatch
    else
      match Walk([], tokens, 0)
      case Err(e) => Failed(e)
      case Ok(pts) => if pts == [] then Failed(NoPoints) else Classify(DropClosing(pts))
  }

  /** The source's loop over the tokens, the pop of a closing duplicate, and
      the final classification. */
  method ParsePointsFromSvgPath(tokens: seq<Token>) returns (r: ParseResult)
    ensures r == PathPoints(tokens)
  {
    if tokens == [] {
      return NoMatch;
    }
    var parsedPoints: seq<Coord> := [];
    for m := 0 to |tokens|
      invariant Walk([], tokens, 0) == Walk(parsedPoints, tokens[m..], m)
    {
      var t := tokens[m];
      assert tokens[m..][1..] == tokens[m + 1..];
      if t.command == 'M' || t.command == 'L' {
        if |t.values| < 2 {
          return Failed(MissingValue(m));
        }
        parsedPoints := parsedPoints + [Coord(t.values[0], t.values[1])];
        continue;
      }
      if t.command == 'H' {
        if parsedPoints == [] {
          return Failed(NoPreviousPoint(m));
        }
        if |t.values| < 1 {
          return Failed(MissingValue(m));
        }
        parsedPoints := parsedPoints + [Coord(t.values[0], parsedPoints[|parsedPoints| - 1].y)];
        continue;
      }
      if t.command == 'V' {
        if parsedPoints == [] {
          return Failed(NoPreviousPoint(m));
        }
        if |t.values| < 1 {
          return Failed(MissingValue(m));
        }
        parsedPoints := parsedPoints + [Coord(parsedPoints[|parsedPoints| - 1].x, t.values[0])];
      }
    }
    if parsedPoints == [] {
      return Failed(NoPoints);
    }
    if CheckPointsEqual(parsedPoints[0], parsedPoints[|parsedPoints| - 1]) {
      parsedPoints := parsedPoints[..|parsedPoints| - 1];
    }
    r := Classify(parsedPoints);
  }

  function SquareTokens(): seq<Token>
  {
    [Token('M', [0.0, 0.0]), Token('L', [10.0, 0.0]), Token('L', [10.0, 10.0]), Token('L', [0.0, 10.0])]
  }

  function SquareCoords(): seq<Coord>
  {
    [Coord(0.0, 0.0), Coord(10.0, 0.0), Coord(10.0, 10.0), Coord(0.0, 10.0)]
  }

  lemma SquareWalk()
    ensures Walk([], SquareTokens(), 0) == Ok(SquareCoords())
  {
    var ts, pts := SquareTokens(), SquareCoords();
    var c0, c1, c2, c3 := pts[0], pts[1], pts[2], pts[3];
    assert [c0, c1, c2] + [c3] == pts;
    assert [c0, c1] + [c2] == [c0, c1, c2];
    assert [c0] + [c1] == [c0, c1];
    assert ts[1..] == [ts[1], ts[2], ts[3]] && ts[1..][1..] == [ts[2], ts[3]] && ts[1..][1..][1..] == [ts[3]];
    assert [ts[3]][1..] == [];
    assert Walk(pts, [], 4) == Ok(pts);
    assert Walk([c0, c1, c2], [ts[3]], 3) == Ok(pts);
    assert Walk([c0, c1], [ts[2], ts[3]], 2) == Ok(pts);
    assert Walk([c0], [ts[1], ts[2], ts[3]], 1) == Ok(pts);
  }

  lemma SquareDims()
    ensures Classify(SquareCoords()).dims == Dims(Finite(10.0), Finite(10.0))
  {
    var pts := SquareCoords();
    var xs, ys := [0.0, 10.0, 10.0, 0.0], [0.0, 0.0, 10.0, 10.0];
    assert Xs(pts) == xs && Ys(pts) == ys;
    assert xs[1..] == [10.0, 10.0, 0.0] && xs[2..] == [10.0, 0.0] && xs[3..] == [0.0];
    assert ys[1..] == [0.0, 10.0, 10.0] && ys[2..] == [10.0, 10.0] && ys[3..] == [10.0];
    assert Maximum(xs[3..]) == Finite(0.0) && Maximum(ys[3..]) == Finite(10.0);
    assert Maximum(xs[2..]) == Finite(10.0) && Maximum(ys[2..]) == Finite(10.0);
  }

  /** The square's vertices, one per quadrant of its box. */
  lemma SquareClassify()
    ensures Classify(SquareCoords()) ==
      Parsed([PointData(Coord(0.0, 0.0), Left, Top), PointData(Coord(10.0, 0.0), Right, Top),
              PointData(Coord(10.0, 10.0), Right, Bottom), PointData(Coord(0.0, 10.0), Left, Bottom)],
             Dims(Finite(10.0), Finite(10.0)))
  {
    var pts := SquareCoords();
    var r := Classify(pts);
    SquareDims();
    assert r.dims.maxX.value / 2.0 == 5.0 && r.dims.maxY.value / 2.0 == 5.0;
    assert pts[0] == Coord(0.0, 0.0) && pts[1] == Coord(10.0, 0.0);
    assert pts[2] == Coord(10.0, 10.0) && pts[3] == Coord(0.0, 10.0);
    assert r.points[0] == PointData(Coord(0.0, 0.0), Left, Top);
    assert r.points[1] == PointData(Coord(10.0, 0.0), Right, Top);
    assert r.points[2] == PointData(Coord(10.0, 10.0), Right, Bottom);
    assert r.points[3] == PointData(Coord(0.0, 10.0), Left, Bottom);
  }

  /** `M0,0 L10,0 L10,10 L0,10`: four vertices, dims (10, 10), one per quadrant. */
  lemma SquarePathExample()
    ensures PathPoints(SquareTokens()) ==
      Parsed([PointData(Coord(0.0, 0.0), Left, Top), PointData(Coord(10.0, 0.0), Right, Top),
              PointData(Coord(10.0, 10.0), Right, Bottom), PointData(Coord(0.0, 10.0), Left, Bottom)],
             Dims(Finite(10.0), Finite(10.0)))
  {
    var pts := SquareCoords();
    SquareWalk();
    assert DropClosing(pts) == pts;
    SquareClassify();
  }

  /** `M0,0 H10 V10`: the shorthands reuse the previous point's other coordinate. */
  lemma ShorthandPathExample()
    ensures var r := PathPoints([Token('M', [0.0, 0.0]), Token('H', [10.0]), Token('V', [10.0])]);
      r.Parsed? && |r.points| == 3 &&
      r.points[0].coord == Coord(0.0, 0.0) && r.points[1].coord == Coord(10.0, 0.0) &&
      r.points[2].coord == Coord(10.0, 10.0)
  {
  }

  /** A single point repeats itself as the closing point, so nothing is left
      and `Math.max` of nothing is -Infinity on both axes. */
  lemma SinglePointExample(x: real, y: real)
    ensures PathPoints([Token('M', [x, y])]) == Parsed([], Dims(NegInfinity, NegInfinity))
  {
    var t := Token('M', [x, y]);
    assert [t][1..] == [];
    assert Walk([], [t], 0) == Ok([Coord(x, y)]);
    assert DropClosing([Coord(x, y)]) == [];
    assert Xs([]) == [] && Ys([]) == [];
  }
}
