/**
 * `get_discretized`: a curve sampled at evenly spaced parameters and drawn
 * as a polyline, one `lineto` per sample.
 */
module Discretize {
  import opened Errors
  import opened Geometry
  import opened SvgPath
  import opened DraftParams

  /** What the discretiser reads of an edge: its length, parameter range and point evaluation. */
  datatype Curve = Curve(length: real, first: real, last: real, valueAt: real -> Vec3)

  /** Python's `int()` on a float: rounds toward zero. */
  function Trunc(x: real): int
  {
    if x >= 0.0 then x.Floor else -((-x).Floor)
  }

  /** Truncation keeps the sign (up to a zero result) and loses less than one in magnitude. */
  lemma TruncBounds(x: real)
    ensures Abs(Trunc(x) as real) <= Abs(x) < Abs(Trunc(x) as real) + 1.0
    ensures (Trunc(x) >= 0) == (x > -1.0)
  {
  }

  /** `getDraftParam("svgDiscretization", 10.0)` as a length: never zero. */
  function MaxSegmentLength(prefs: Prefs): (r: real)
    ensures r != 0.0
    ensures Discretization in prefs.floats && prefs.floats[Discretization] != 0.0 ==> r == prefs.floats[Discretization]
    ensures Discretization !in prefs.floats || prefs.floats[Discretization] == 0.0 ==> r == 10.0
  {
    match GetDraftParam(prefs, Discretization, FloatValue(10.0))
    case Ok(FloatValue(r)) => r
    case _ => 10.0
  }

  /** `max(1, abs(int(length / max_segment_length)))`: the whole number of maximal segments, at least one. */
  function SegmentCount(length: real, maxSegment: real): (n: nat)
    requires maxSegment != 0.0
    ensures n >= 1
  {
    var whole := Trunc(length / maxSegment);
    var count := if whole < 0 then -whole else whole;
    if count < 1 then 1 else count
  }

  /** The segment count is the whole part of `|length / max|` when that is at least one, else one. */
  lemma SegmentCountBounds(length: real, maxSegment: real)
    requires maxSegment != 0.0
    ensures var n := SegmentCount(length, maxSegment);
            && (Abs(length / maxSegment) >= 1.0 ==> n as real <= Abs(length / maxSegment) < n as real + 1.0)
            && (Abs(length / maxSegment) < 1.0 ==> n == 1)
  {
    TruncBounds(length / maxSegment);
  }

  /** The parameter of sample `i` of `segments + 1`. */
  function Sample(c: Curve, segments: nat, i: nat): real
    requires segments >= 1
  {
    c.first + ((i as real / segments as real) * (c.last - c.first))
  }

  /** The samples start at the first parameter, end at the last, and are evenly spaced. */
  lemma SampleSpan(c: Curve, segments: nat, i: nat)
    requires segments >= 1 && i < segments
    ensures Sample(c, segments, 0) == c.first
    ensures Sample(c, segments, segments) == c.last
    ensures Sample(c, segments, i + 1) - Sample(c, segments, i) == (c.last - c.first) / segments as real
  {
    var n := segments as real;
    assert n / n == 1.0;
    assert (i + 1) as real / n - i as real / n == 1.0 / n;
    calc {
      Sample(c, segments, i + 1) - Sample(c, segments, i);
      ((i + 1) as real / n - i as real / n) * (c.last - c.first);
      (1.0 / n) * (c.last - c.first);
    }
  }

  /** The command `lineto` records for sample `i`: the first becomes a `moveto`. */
  function SampleCommand(c: Curve, plane: Option<Plane>, segments: nat, i: nat): Command
    requires segments >= 1
  {
    var point := GetProj(c.valueAt(Sample(c, segments, i)), plane);
    if i == 0 then MoveTo(point.x, point.y) else LineTo(point.x, point.y)
  }

  /** The commands of the discretised curve. */
  function DiscretizedCommands(c: Curve, plane: Option<Plane>, prefs: Prefs): seq<Command>
  {
    var n := SegmentCount(c.length, MaxSegmentLength(prefs));
    seq(n + 1, i requires 0 <= i <= n => SampleCommand(c, plane, n, i))
  }

  /**
   * The discretised curve: `max(1, |int(length / max)|) + 1` commands, a
   * `moveto` at the projected start of the curve, then only `lineto`s, the
   * last one at the projected end of the curve.
   */
  lemma DiscretizedShape(c: Curve, plane: Option<Plane>, prefs: Prefs)
    ensures var r := DiscretizedCommands(c, plane, prefs);
            var first := GetProj(c.valueAt(c.first), plane);
            var last := GetProj(c.valueAt(c.last), plane);
            && |r| == SegmentCount(c.length, MaxSegmentLength(prefs)) + 1
            && |r| >= 2
            && r[0] == MoveTo(first.x, first.y)
            && (forall i :: 1 <= i < |r| ==> r[i].LineTo?)
            && r[|r| - 1] == LineTo(last.x, last.y)
            && StartsWithMove(r)
  {
    var n := SegmentCount(c.length, MaxSegmentLength(prefs));
    SampleSpan(c, n, 0);
  }

  method GetDiscretized(c: Curve, plane: Option<Plane>, prefs: Prefs) returns (p: Path)
    ensures fresh(p)
    ensures p.data == DiscretizedCommands(c, plane, prefs)
    ensures p.fill == "none"
  {
    var maxSegmentLength := MaxSegmentLength(prefs);
    var segments := SegmentCount(c.length, maxSegmentLength);
    var edgeDistance := c.last - c.first;
    p := new Path(None);
    for segment := 0 to segments + 1
      invariant p.fill == "none"
      invariant |p.data| == segment
      invariant forall i :: 0 <= i < segment ==> p.data[i] == SampleCommand(c, plane, segments, i)
    {
      var parameter := c.first + ((segment as real / segments as real) * edgeDistance);
      assert parameter == Sample(c, segments, segment);
      var vec := GetProj(c.valueAt(parameter), plane);
      ghost var before := p.data;
      p.LineTo(vec);
      assert p.data == before + [SampleCommand(c, plane, segments, segment)];
    }
    var exit := p.Exit();
    assert exit == Pass;
  }

  /** `getDiscretized`: the `d` text of the discretised curve (unfilled). */
  method GetDiscretizedText(c: Curve, plane: Option<Plane>, prefs: Prefs, fmt: real -> string) returns (d: string)
    ensures d == DString(DiscretizedCommands(c, plane, prefs), "none", fmt)
  {
    var p := GetDiscretized(c, plane, prefs);
    d := p.D(fmt);
  }
}
