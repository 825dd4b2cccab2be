/** The parser read back over the outline renderer: written out as `M`/`L`
    commands, the outline path yields its own vertices again, less the
    closing repeat of the first one. */
module RoundTrip {
  import opened Basics
  import opened Path
  import opened Points

  /** The command token of one outline step once written out and split. */
  function StepToken(s: PathStep): Token
  {
    Token(if s.cmd == MoveTo then 'M' else 'L', [s.at.x, s.at.y])
  }

  function Serialize(steps: seq<PathStep>): seq<Token>
  {
    seq(|steps|, i requires 0 <= i < |steps| => StepToken(steps[i]))
  }

  function Positions(steps: seq<PathStep>): seq<Coord>
  {
    seq(|steps|, i requires 0 <= i < |steps| => steps[i].at)
  }

  /** Every written-out step appends exactly the point it visits. */
  lemma {:induction false} WalkSerialized(pts: seq<Coord>, steps: seq<PathStep>, at: nat)
    ensures Walk(pts, Serialize(steps), at) == Ok(pts + Positions(steps))
    decreases |steps|
  {
    if steps == [] {
      assert Serialize(steps) == [] && Positions(steps) == [];
      assert pts + [] == pts;
    } else {
      var ts := Serialize(steps);
      assert ts[0] == StepToken(steps[0]);
      assert ts[1..] == Serialize(steps[1..]);
      WalkSerialized(pts + [steps[0].at], steps[1..], at + 1);
      assert pts + [steps[0].at] + Positions(steps[1..]) == pts + Positions(steps);
    }
  }

  /** The outer ring of the outline (its first |e| + 1 steps) parses back to
      the outer vertices, in order, once the closing repeat is dropped. */
  lemma OuterRingRoundTrip(e: seq<FullPointData>)
    requires |e| >= 1
    ensures var r := PathPoints(Serialize(GenPath(e)[..|e| + 1]));
      r.Parsed? && |r.points| == |e| &&
      forall i :: 0 <= i < |e| ==> r.points[i].coord == e[i].coord
  {
    var steps := GenPath(e)[..|e| + 1];
    WalkSerialized([], steps, 0);
    var pts := Positions(steps);
    assert [] + pts == pts;
    assert pts[0] == pts[|e|];
    assert DropClosing(pts) == pts[..|e|];
  }

  /** The whole outline parses back to every point it visits but the last,
      which repeats the first. */
  lemma PathRoundTrip(e: seq<FullPointData>)
    requires |e| >= 1
    ensures var path := GenPath(e); var r := PathPoints(Serialize(path));
      r.Parsed? && |r.points| == |path| - 1 &&
      forall k :: 0 <= k < |path| - 1 ==> r.points[k].coord == path[k].at
  {
    var path := GenPath(e);
    WalkSerialized([], path, 0);
    var pts := Positions(path);
    assert [] + pts == pts;
    assert pts[0] == pts[|path| - 1];
    assert DropClosing(pts) == pts[..|path| - 1];
  }
}
