/**
 * `getPath`: the edges of each group chained into one path, edge by edge,
 * then deduplicated against the `d` strings already emitted by this export.
 *
 * The geometry library's work (grouping and sorting edges, converting
 * splines to Bezier segments, the hidden-line projection of arcs, the
 * angle tests on circle axes) reaches the model as data on each edge.
 */
module Translate {
  import opened Errors
  import opened Strings
  import opened Geometry
  import opened SvgPath
  import opened DraftParams
  import opened Discretize

  /** A circle (`Radius`) or an ellipse (`MajorRadius`, `MinorRadius`, rotation in degrees before normalising). */
  datatype ConicShape = CircleShape(radius: real) | EllipseShape(major: real, minor: real, rawRotation: real)

  /**
   * What the circle/ellipse branch reads of an edge:
   * `faceOn`    the curve's axis is parallel to the drawing-plane normal (rounded angle 0 or 3.14);
   * `hlrArc`    the arc fragment of the hidden-line projection, "" when it gave none;
   * `circleSvg` the standalone element `getCircle` renders for a complete circle;
   * `halfTurns` the parameter range of the edge divided by pi;
   * `sweep`     the outcome of the tangent-angle test;
   * `midpoint`  the curve's point at parameter (LastParameter - FirstParameter) / 2;
   * `curve`     the curve as the discretiser samples it.
   */
  datatype ConicView = ConicView(shape: ConicShape, faceOn: bool, hlrArc: string, circleSvg: string,
                                 halfTurns: real, sweep: bool, midpoint: Vec3, curve: Curve)

  /**
   * A spline after conversion: Bezier segments (each a list of poles, degree
   * = poles - 1), or the points of a fine discretisation when the spline
   * stayed rational or above degree 3.
   */
  datatype SplineView = Beziers(segments: seq<seq<Vec3>>) | Polyline(points: seq<Vec3>)

  /** The curve type dispatched on. */
  datatype Geom = Line | Conic(conic: ConicView) | Spline(spline: SplineView)

  /** An edge: its vertex points in order, and its curve. */
  datatype Edge = Edge(vertexes: seq<Vec3>, geom: Geom)

  /** The state of the translation: the commands so far and the last edge's oriented vertices, or how it ended early. */
  datatype Progress =
    | Running(cmds: seq<Command>, vs: seq<Vec3>)
    | CircleOut(svg: string)
    | Raised(error: Error)

  /** Every edge of a group has at least one vertex, as every Part edge does. */
  predicate WellFormedGroup(edges: seq<Edge>)
  {
    forall i :: 0 <= i < |edges| ==> edges[i].vertexes != []
  }

  predicate WellFormedGroups(groups: seq<seq<Edge>>)
  {
    forall k :: 0 <= k < |groups| ==> WellFormedGroup(groups[k])
  }

  function Last(s: seq<Vec3>): Vec3
    requires s != []
  {
    s[|s| - 1]
  }

  function MoveAt(p: Vec3): Command
  {
    MoveTo(p.x, p.y)
  }

  function LineAt(p: Vec3): Command
  {
    LineTo(p.x, p.y)
  }

  /** The vertex list of an edge, reversed when its start is away from the previous edge's end. */
  function Orient(vs: seq<Vec3>, previousvs: seq<Vec3>): (r: seq<Vec3>)
    requires vs != []
    ensures |r| == |vs|
  {
    if previousvs != [] && Far(vs[0], Last(previousvs)) then Reversed(vs) else vs
  }

  /** After orienting, an edge touches the previous end exactly when one of its two ends does. */
  lemma OrientConnects(vs: seq<Vec3>, previousvs: seq<Vec3>)
    requires vs != [] && previousvs != []
    ensures !Far(Orient(vs, previousvs)[0], Last(previousvs))
            <==> !Far(vs[0], Last(previousvs)) || !Far(Last(vs), Last(previousvs))
  {
    ReversedEnds(vs);
  }

  /** The ellipse rotation brought into [-90, 90] degrees by one half turn at most. */
  function NormalizeRotation(rot: real): (r: real)
    ensures -270.0 < rot <= 270.0 ==> -90.0 <= r <= 90.0
    ensures r == rot || r == rot - 180.0 || r == rot + 180.0
    ensures -90.0 <= rot <= 90.0 ==> r == rot
  {
    var once := if rot > 90.0 then rot - 180.0 else rot;
    if once < -90.0 then once + 180.0 else once
  }

  /**
   * Python's float `x % 2`: the remainder of floored division, so it lies in
   * [0, 2) for negative `x` too, and `x` differs from it by whole multiples of 2.
   */
  function ModTwo(x: real): (r: real)
    ensures 0.0 <= r < 2.0
    ensures ((x - r) / 2.0).Floor as real == (x - r) / 2.0
  {
    x - 2.0 * ((x / 2.0).Floor as real)
  }

  /** `(range / pi) % 2 > 1`: the arc sweeps more than half a turn, modulo whole turns. */
  function LargeArc(halfTurns: real): bool
  {
    ModTwo(halfTurns) > 1.0
  }

  /** The `elliptical_arc` command to `point`: equal radii and no rotation for a circle. */
  function ArcTo(view: ConicView, point: Vec3): Command
  {
    match view.shape
    case CircleShape(radius) =>
      Arc(radius, radius, 0.0, LargeArc(view.halfTurns), view.sweep, point.x, point.y)
    case EllipseShape(major, minor, raw) =>
      Arc(major, minor, NormalizeRotation(raw), LargeArc(view.halfTurns), view.sweep, point.x, point.y)
  }

  function ArcsTo(view: ConicView, points: seq<Vec3>): (r: seq<Command>)
    ensures |r| == |points|
  {
    seq(|points|, i requires 0 <= i < |points| => ArcTo(view, points[i]))
  }

  /**
   * The circle/ellipse branch.  When the curve faces the drawing plane: the
   * hidden-line fragment if there is one; else a complete circle ends the
   * translation with its own element, a complete ellipse gets two arcs
   * (to its midpoint and back to its vertex), and any partial arc raises
   * `TypeError`, because its end point is projected by a call to `getProj`
   * that omits the plane argument.  Otherwise the curve is discretised.
   */
  function ConicStep(cmds: seq<Command>, vs: seq<Vec3>, view: ConicView, plane: Option<Plane>,
                     prefs: Prefs): Progress
    requires vs != []
  {
    if view.faceOn then
      if view.hlrArc != "" then Running(cmds + [Raw("A", view.hlrArc)], vs)
      else if |vs| == 1 && view.shape.CircleShape? then CircleOut(view.circleSvg)
      else if |vs| == 1 then
        Running(cmds + ArcsTo(view, [GetProj(view.midpoint, plane), GetProj(Last(vs), plane)]), vs)
      else Raised(TypeError)
    else
      Running(cmds + DiscretizedCommands(view.curve, plane, prefs), vs)
  }

  /** A Bezier segment's degree: one less than its number of poles. */
  function Degree(poles: seq<Vec3>): int
  {
    |poles| - 1
  }

  /** `lst[1:]`, which is empty for an empty list. */
  function Tail(points: seq<Vec3>): seq<Vec3>
  {
    if points == [] then [] else points[1..]
  }

  function ProjectAll(points: seq<Vec3>, plane: Option<Plane>): (r: seq<Vec3>)
    ensures |r| == |points|
  {
    seq(|points|, i requires 0 <= i < |points| => GetProj(points[i], plane))
  }

  /** One Bezier segment: `lineto`, `quadratic_bezier_curveto` or `curveto` by degree, else `AssertionError`. */
  function BezierStep(cmds: seq<Command>, poles: seq<Vec3>, plane: Option<Plane>): Result<seq<Command>>
  {
    var proj := ProjectAll(Tail(poles), plane);
    if Degree(poles) == 1 then Ok(LinedTo(cmds, proj[0]))
    else if Degree(poles) == 2 then Ok(cmds + [QuadraticTo(proj[0].x, proj[0].y, proj[1].x, proj[1].y)])
    else if Degree(poles) == 3 then
      Ok(cmds + [CurveTo(proj[0].x, proj[0].y, proj[1].x, proj[1].y, proj[2].x, proj[2].y)])
    else Err(AssertionError("Wrong degree for bezier"))
  }

  /** The Bezier segments from index `k` on, stopping at the first one of unsupported degree. */
  function BeziersFrom(cmds: seq<Command>, segments: seq<seq<Vec3>>, k: nat, plane: Option<Plane>): Result<seq<Command>>
    requires k <= |segments|
    decreases |segments| - k
  {
    if k == |segments| then Ok(cmds)
    else
      match BezierStep(cmds, segments[k], plane)
      case Ok(next) => BeziersFrom(next, segments, k + 1, plane)
      case Err(e) => Err(e)
  }

  /** `lineto` at the projection of each point from index `k` on. */
  function PolylineFrom(cmds: seq<Command>, points: seq<Vec3>, k: nat, plane: Option<Plane>): seq<Command>
    requires k <= |points|
    decreases |points| - k
  {
    if k == |points| then cmds else PolylineFrom(LinedTo(cmds, GetProj(points[k], plane)), points, k + 1, plane)
  }

  /** The spline branch: its Bezier segments, or the discretised points after the first. */
  function SplineStep(cmds: seq<Command>, vs: seq<Vec3>, spline: SplineView, plane: Option<Plane>): Progress
  {
    match spline
    case Beziers(segments) =>
      (match BeziersFrom(cmds, segments, 0, plane)
       case Ok(next) => Running(next, vs)
       case Err(e) => Raised(e))
    case Polyline(points) => Running(PolylineFrom(cmds, Tail(points), 0, plane), vs)
  }

  /**
   * One edge of a group.  Its vertices are reversed when they do not start at
   * the previous edge's end; the first edge of a group moves to its first
   * vertex; a later edge that still does not connect raises
   * `ValueError('edges not ordered')`; then the curve type decides what is drawn.
   */
  function EdgeStep(cmds: seq<Command>, previousvs: seq<Vec3>, e: Edge, index: nat, plane: Option<Plane>,
                    prefs: Prefs): (r: Progress)
    requires e.vertexes != []
    requires (index == 0) == (previousvs == [])
    ensures r.Running? ==> |r.vs| == |e.vertexes|
  {
    var vs := Orient(e.vertexes, previousvs);
    if index != 0 && Far(vs[0], Last(previousvs)) then Raised(ValueError("edges not ordered"))
    else
      var moved := if index == 0 then cmds + [MoveAt(GetProj(vs[0], plane))] else cmds;
      match e.geom
      case Line => Running(LinedTo(moved, GetProj(Last(vs), plane)), vs)
      case Conic(view) => ConicStep(moved, vs, view, plane, prefs)
      case Spline(spline) => SplineStep(moved, vs, spline, plane)
  }

  /** The edges of one group from index `k` on. */
  function GroupFrom(cmds: seq<Command>, vs: seq<Vec3>, edges: seq<Edge>, k: nat, plane: Option<Plane>,
                     prefs: Prefs): Progress
    requires WellFormedGroup(edges) && k <= |edges|
    requires (k == 0) == (vs == [])
    decreases |edges| - k, 1
  {
    if k == |edges| then Running(cmds, vs)
    else GroupAfter(EdgeStep(cmds, vs, edges[k], k, plane, prefs), edges, k, plane, prefs)
  }

  /** The rest of the group fold once edge `k` has been translated: on to edge `k + 1`, or the stop. */
  function GroupAfter(step: Progress, edges: seq<Edge>, k: nat, plane: Option<Plane>, prefs: Prefs): Progress
    requires WellFormedGroup(edges) && k < |edges|
    requires step.Running? ==> step.vs != []
    decreases |edges| - k, 0
  {
    if step.Running? then GroupFrom(step.cmds, step.vs, edges, k + 1, plane, prefs) else step
  }

  /** The groups from index `k` on, all into the same path. */
  function TranslateFrom(cmds: seq<Command>, groups: seq<seq<Edge>>, k: nat, plane: Option<Plane>,
                         prefs: Prefs): Progress
    requires WellFormedGroups(groups) && k <= |groups|
    decreases |groups| - k
  {
    if k == |groups| then Running(cmds, [])
    else
      var out := GroupFrom(cmds, [], groups[k], 0, plane, prefs);
      if out.Running? then TranslateFrom(out.cmds, groups, k + 1, plane, prefs) else out
  }

  /** The whole translation, from an empty path. */
  function Translate(groups: seq<seq<Edge>>, plane: Option<Plane>, prefs: Prefs): Progress
    requires WellFormedGroups(groups)
  {
    TranslateFrom([], groups, 0, plane, prefs)
  }

  // ---------------------------------------------------------------------
  // What the translation guarantees

  lemma {:induction false} BeziersExtend(cmds: seq<Command>, segments: seq<seq<Vec3>>, k: nat, plane: Option<Plane>)
    requires k <= |segments|
    ensures BeziersFrom(cmds, segments, k, plane).Ok? ==> cmds <= BeziersFrom(cmds, segments, k, plane).value
    decreases |segments| - k
  {
    if k < |segments| {
      var step := BezierStep(cmds, segments[k], plane);
      if step.Ok? {
        BeziersExtend(step.value, segments, k + 1, plane);
      }
    }
  }

  lemma {:induction false} PolylineExtends(cmds: seq<Command>, points: seq<Vec3>, k: nat, plane: Option<Plane>)
    requires k <= |points|
    ensures cmds <= PolylineFrom(cmds, points, k, plane)
    decreases |points| - k
  {
    if k < |points| {
      PolylineExtends(LinedTo(cmds, GetProj(points[k], plane)), points, k + 1, plane);
    }
  }

  /** A Bezier fold can only fail on an unsupported degree. */
  lemma {:induction false} BeziersFailOnDegree(cmds: seq<Command>, segments: seq<seq<Vec3>>, k: nat, plane: Option<Plane>)
    requires k <= |segments|
    ensures BeziersFrom(cmds, segments, k, plane).Err? ==>
              BeziersFrom(cmds, segments, k, plane).error == AssertionError("Wrong degree for bezier")
    decreases |segments| - k
  {
    if k < |segments| {
      var step := BezierStep(cmds, segments[k], plane);
      if step.Ok? {
        BeziersFailOnDegree(step.value, segments, k + 1, plane);
      }
    }
  }

  /**
   * Whatever the curve type, an edge carries its vertices oriented towards
   * the previous edge's end to the next edge, and a later edge stops the
   * group with `ValueError('edges not ordered')` exactly when, once
   * oriented, it still starts away from that end.
   */
  lemma EdgeStepOrders(cmds: seq<Command>, previousvs: seq<Vec3>, e: Edge, index: nat, plane: Option<Plane>,
                       prefs: Prefs)
    requires e.vertexes != []
    requires (index == 0) == (previousvs == [])
    ensures var r := EdgeStep(cmds, previousvs, e, index, plane, prefs);
            r.Running? ==> r.vs == Orient(e.vertexes, previousvs)
    ensures var r := EdgeStep(cmds, previousvs, e, index, plane, prefs);
            index != 0 ==>
              (r == Raised(ValueError("edges not ordered")) <==> Far(Orient(e.vertexes, previousvs)[0], Last(previousvs)))
  {
    var vs := Orient(e.vertexes, previousvs);
    var moved := if index == 0 then cmds + [MoveAt(GetProj(vs[0], plane))] else cmds;
    match e.geom {
      case Line =>
      case Conic(view) =>
      case Spline(spline) =>
        match spline {
          case Beziers(segments) => BeziersFailOnDegree(moved, segments, 0, plane);
          case Polyline(points) =>
        }
    }
  }

  /** An edge only appends; the first edge of a group appends a `moveto` at its first vertex first. */
  lemma EdgeStepExtends(cmds: seq<Command>, previousvs: seq<Vec3>, e: Edge, index: nat, plane: Option<Plane>,
                        prefs: Prefs)
    requires e.vertexes != []
    requires (index == 0) == (previousvs == [])
    ensures var r := EdgeStep(cmds, previousvs, e, index, plane, prefs);
            r.Running? ==> cmds <= r.cmds
    ensures var r := EdgeStep(cmds, previousvs, e, index, plane, prefs);
            r.Running? && index == 0 ==> |r.cmds| > |cmds| && r.cmds[|cmds|] == MoveAt(GetProj(e.vertexes[0], plane))
  {
    var vs := Orient(e.vertexes, previousvs);
    var moved := if index == 0 then cmds + [MoveAt(GetProj(vs[0], plane))] else cmds;
    match e.geom {
      case Line =>
      case Conic(view) =>
      case Spline(spline) =>
        match spline {
          case Beziers(segments) => BeziersExtend(moved, segments, 0, plane);
          case Polyline(points) => PolylineExtends(moved, Tail(points), 0, plane);
        }
    }
  }

  lemma {:induction false} GroupExtends(cmds: seq<Command>, vs: seq<Vec3>, edges: seq<Edge>, k: nat,
                                        plane: Option<Plane>, prefs: Prefs)
    requires WellFormedGroup(edges) && k <= |edges|
    requires (k == 0) == (vs == [])
    ensures var r := GroupFrom(cmds, vs, edges, k, plane, prefs);
            r.Running? ==> cmds <= r.cmds
    decreases |edges| - k
  {
    if k < |edges| {
      var step := EdgeStep(cmds, vs, edges[k], k, plane, prefs);
      assert GroupFrom(cmds, vs, edges, k, plane, prefs)
             == if step.Running? then GroupFrom(step.cmds, step.vs, edges, k + 1, plane, prefs) else step;
      EdgeStepExtends(cmds, vs, edges[k], k, plane, prefs);
      if step.Running? {
        GroupExtends(step.cmds, step.vs, edges, k + 1, plane, prefs);
      }
    }
  }

  /** Each group of edges opens with a `moveto` at the projected first vertex of its first edge. */
  lemma GroupStartsWithMove(cmds: seq<Command>, edges: seq<Edge>, plane: Option<Plane>, prefs: Prefs)
    requires WellFormedGroup(edges) && edges != []
    ensures var r := GroupFrom(cmds, [], edges, 0, plane, prefs);
            r.Running? ==> cmds <= r.cmds && |r.cmds| > |cmds|
                           && r.cmds[|cmds|] == MoveAt(GetProj(edges[0].vertexes[0], plane))
  {
    var step := EdgeStep(cmds, [], edges[0], 0, plane, prefs);
    EdgeStepExtends(cmds, [], edges[0], 0, plane, prefs);
    if step.Running? {
      GroupExtends(step.cmds, step.vs, edges, 1, plane, prefs);
      var r := GroupFrom(step.cmds, step.vs, edges, 1, plane, prefs);
      if r.Running? {
        assert r.cmds[|cmds|] == step.cmds[|cmds|];
      }
    }
  }

  lemma {:induction false} TranslateKeepsStart(cmds: seq<Command>, groups: seq<seq<Edge>>, k: nat,
                                               plane: Option<Plane>, prefs: Prefs)
    requires WellFormedGroups(groups) && k <= |groups|
    requires StartsWithMove(cmds)
    ensures var r := TranslateFrom(cmds, groups, k, plane, prefs);
            r.Running? ==> StartsWithMove(r.cmds)
    decreases |groups| - k
  {
    if k < |groups| {
      var out := GroupFrom(cmds, [], groups[k], 0, plane, prefs);
      if out.Running? {
        if groups[k] == [] {
          assert out.cmds == cmds;
        } else {
          GroupStartsWithMove(cmds, groups[k], plane, prefs);
          if cmds != [] {
            assert out.cmds[0] == cmds[0];
          }
        }
        TranslateKeepsStart(out.cmds, groups, k + 1, plane, prefs);
      }
    }
  }

  /** The path `getPath` builds always passes the `moveto` check of `__exit__`. */
  lemma TranslateStartsWithMove(groups: seq<seq<Edge>>, plane: Option<Plane>, prefs: Prefs)
    requires WellFormedGroups(groups)
    ensures Translate(groups, plane, prefs).Running? ==> StartsWithMove(Translate(groups, plane, prefs).cmds)
  {
    TranslateKeepsStart([], groups, 0, plane, prefs);
  }

  /** The command one Bezier segment of degree 1, 2 or 3 draws, from its poles after the first. */
  function BezierCommand(poles: seq<Vec3>, plane: Option<Plane>): Command
    requires 1 <= Degree(poles) <= 3
  {
    var proj := ProjectAll(poles[1..], plane);
    if Degree(poles) == 1 then LineAt(proj[0])
    else if Degree(poles) == 2 then QuadraticTo(proj[0].x, proj[0].y, proj[1].x, proj[1].y)
    else CurveTo(proj[0].x, proj[0].y, proj[1].x, proj[1].y, proj[2].x, proj[2].y)
  }

  predicate SupportedDegrees(segments: seq<seq<Vec3>>, k: nat)
  {
    forall i :: k <= i < |segments| ==> 1 <= Degree(segments[i]) <= 3
  }

  /** The commands of the segments from index `k` on, one per segment. */
  function BezierCommands(segments: seq<seq<Vec3>>, k: nat, plane: Option<Plane>): (r: seq<Command>)
    requires k <= |segments| && SupportedDegrees(segments, k)
    ensures |r| == |segments| - k
  {
    seq(|segments| - k, i requires 0 <= i < |segments| - k => BezierCommand(segments[k + i], plane))
  }

  lemma BezierCommandsCons(segments: seq<seq<Vec3>>, k: nat, plane: Option<Plane>)
    requires k < |segments| && SupportedDegrees(segments, k)
    ensures BezierCommands(segments, k, plane)
            == [BezierCommand(segments[k], plane)] + BezierCommands(segments, k + 1, plane)
  {
    var all := BezierCommands(segments, k, plane);
    var rest := [BezierCommand(segments[k], plane)] + BezierCommands(segments, k + 1, plane);
    forall i | 0 <= i < |all|
      ensures all[i] == rest[i]
    {
      if i > 0 {
        assert rest[i] == BezierCommands(segments, k + 1, plane)[i - 1];
      }
    }
    assert all == rest;
  }

  /** After a current point, one segment of degree 1 to 3 appends its command; any other degree fails. */
  lemma BezierStepCommand(cmds: seq<Command>, poles: seq<Vec3>, plane: Option<Plane>)
    requires cmds != []
    ensures BezierStep(cmds, poles, plane)
            == if 1 <= Degree(poles) <= 3 then Ok(cmds + [BezierCommand(poles, plane)])
               else Err(AssertionError("Wrong degree for bezier"))
  {
  }

  /**
   * Bezier segments after a current point: an `AssertionError` exactly when
   * some segment has a degree other than 1, 2 or 3; otherwise one command per
   * segment, in order.
   */
  lemma {:induction false} BeziersEmit(cmds: seq<Command>, segments: seq<seq<Vec3>>, k: nat, plane: Option<Plane>)
    requires cmds != [] && k <= |segments|
    ensures var r := BeziersFrom(cmds, segments, k, plane);
            && (r.Err? <==> !SupportedDegrees(segments, k))
            && (r.Err? ==> r.error == AssertionError("Wrong degree for bezier"))
            && (r.Ok? ==> r.value == cmds + BezierCommands(segments, k, plane))
    decreases |segments| - k
  {
    if k == |segments| {
      assert cmds + BezierCommands(segments, k, plane) == cmds;
    } else {
      var step := BezierStep(cmds, segments[k], plane);
      BezierStepCommand(cmds, segments[k], plane);
      if step.Ok? {
        var next := cmds + [BezierCommand(segments[k], plane)];
        BeziersEmit(next, segments, k + 1, plane);
        if SupportedDegrees(segments, k + 1) {
          BezierCommandsCons(segments, k, plane);
          assert next + BezierCommands(segments, k + 1, plane) == cmds + BezierCommands(segments, k, plane);
        }
      }
    }
  }

  predicate AllLines(edges: seq<Edge>)
  {
    forall i :: 0 <= i < |edges| ==> edges[i].geom.Line?
  }

  /**
   * `orient[i]` is the vertex list of edge `i` as the translator orients it:
   * the first edge as given, each later one against the one before.
   */
  predicate OrientedChain(edges: seq<Edge>, orient: seq<seq<Vec3>>)
    requires WellFormedGroup(edges)
  {
    && 1 <= |orient| <= |edges|
    && (forall i :: 0 <= i < |orient| ==> |orient[i]| == |edges[i].vertexes|)
    && orient[0] == edges[0].vertexes
    && forall i :: 1 <= i < |orient| ==> orient[i] == Orient(edges[i].vertexes, orient[i - 1])
  }

  /** The orientations of the first `n` edges: one for each, so every group has its chain. */
  function Orientations(edges: seq<Edge>, n: nat): (r: seq<seq<Vec3>>)
    requires WellFormedGroup(edges) && 1 <= n <= |edges|
    ensures |r| == n && OrientedChain(edges, r)
    decreases n
  {
    if n == 1 then [edges[0].vertexes]
    else
      var before := Orientations(edges, n - 1);
      var r := before + [Orient(edges[n - 1].vertexes, before[n - 2])];
      assert forall i :: 0 <= i < n - 1 ==> r[i] == before[i];
      r
  }

  /** Edge `i` (reversed if need be) starts where edge `i - 1` ends. */
  predicate Joins(edges: seq<Edge>, orient: seq<seq<Vec3>>, i: nat)
    requires WellFormedGroup(edges) && OrientedChain(edges, orient) && 1 <= i < |orient|
  {
    !Far(orient[i][0], Last(orient[i - 1]))
  }

  /** Every edge from index `k` on joins the one before it. */
  predicate ConnectedFrom(edges: seq<Edge>, orient: seq<seq<Vec3>>, k: nat)
    requires WellFormedGroup(edges) && OrientedChain(edges, orient) && 1 <= k
  {
    forall i :: k <= i < |orient| ==> Joins(edges, orient, i)
  }

  /** The `lineto` that draws line edge `i` of a chain: to the far end of its oriented vertices. */
  function EndLine(edges: seq<Edge>, orient: seq<seq<Vec3>>, i: nat, plane: Option<Plane>): Command
    requires WellFormedGroup(edges) && OrientedChain(edges, orient) && i < |orient|
  {
    LineAt(GetProj(Last(orient[i]), plane))
  }

  /**
   * A chain of the first `n` line edges drawn as a polyline: a `moveto` at
   * the first vertex, then a `lineto` to each oriented edge's far end.
   */
  function ChainCommands(edges: seq<Edge>, orient: seq<seq<Vec3>>, n: nat, plane: Option<Plane>): (r: seq<Command>)
    requires WellFormedGroup(edges) && OrientedChain(edges, orient) && 1 <= n <= |orient|
    ensures |r| == n + 1
  {
    if n == 1 then [MoveAt(GetProj(edges[0].vertexes[0], plane)), EndLine(edges, orient, 0, plane)]
    else ChainCommands(edges, orient, n - 1, plane) + [EndLine(edges, orient, n - 1, plane)]
  }

  /** One later line edge: rejected when it does not connect, else a `lineto` to its far end. */
  lemma LineStep(cmds: seq<Command>, previousvs: seq<Vec3>, e: Edge, index: nat, plane: Option<Plane>, prefs: Prefs)
    requires e.vertexes != [] && e.geom.Line? && index > 0 && previousvs != [] && cmds != []
    ensures var vs := Orient(e.vertexes, previousvs);
            EdgeStep(cmds, previousvs, e, index, plane, prefs)
            == if Far(vs[0], Last(previousvs)) then Raised(ValueError("edges not ordered"))
               else Running(cmds + [LineAt(GetProj(Last(vs), plane))], vs)
  {
  }

  /** One later edge of a line chain: the fold stops unless edge `k` joins the one before, else draws it. */
  lemma ChainStep(cmds: seq<Command>, edges: seq<Edge>, orient: seq<seq<Vec3>>, k: nat, plane: Option<Plane>, prefs: Prefs)
    requires WellFormedGroup(edges) && AllLines(edges) && OrientedChain(edges, orient) && 1 <= k < |orient|
    ensures GroupFrom(cmds + ChainCommands(edges, orient, k, plane), orient[k - 1], edges, k, plane, prefs)
            == if Joins(edges, orient, k)
               then GroupFrom(cmds + ChainCommands(edges, orient, k + 1, plane), orient[k], edges, k + 1, plane, prefs)
               else Raised(ValueError("edges not ordered"))
  {
    var here := cmds + ChainCommands(edges, orient, k, plane);
    var step := EdgeStep(here, orient[k - 1], edges[k], k, plane, prefs);
    assert orient[k] == Orient(edges[k].vertexes, orient[k - 1]);
    LineStep(here, orient[k - 1], edges[k], k, plane, prefs);
    assert GroupFrom(here, orient[k - 1], edges, k, plane, prefs) == GroupAfter(step, edges, k, plane, prefs);
    if Joins(edges, orient, k) {
      assert ChainCommands(edges, orient, k + 1, plane) == ChainCommands(edges, orient, k, plane) + [EndLine(edges, orient, k, plane)];
      assert step == Running(cmds + ChainCommands(edges, orient, k + 1, plane), orient[k]);
    }
  }

  /** The group fold from line edge `k` on: it finishes the polyline exactly when the rest of the chain connects. */
  lemma {:induction false} ChainFrom(cmds: seq<Command>, edges: seq<Edge>, orient: seq<seq<Vec3>>, k: nat,
                                     plane: Option<Plane>, prefs: Prefs)
    requires WellFormedGroup(edges) && AllLines(edges) && OrientedChain(edges, orient) && |orient| == |edges|
    requires 1 <= k <= |edges|
    ensures GroupFrom(cmds + ChainCommands(edges, orient, k, plane), orient[k - 1], edges, k, plane, prefs)
            == if ConnectedFrom(edges, orient, k) then Running(cmds + ChainCommands(edges, orient, |edges|, plane), orient[|edges| - 1])
               else Raised(ValueError("edges not ordered"))
    decreases |edges| - k
  {
    if k == |edges| {
      assert GroupFrom(cmds + ChainCommands(edges, orient, k, plane), orient[k - 1], edges, k, plane, prefs)
             == Running(cmds + ChainCommands(edges, orient, k, plane), orient[k - 1]);
    } else {
      ChainStep(cmds, edges, orient, k, plane, prefs);
      assert ConnectedFrom(edges, orient, k) == (Joins(edges, orient, k) && ConnectedFrom(edges, orient, k + 1));
      if Joins(edges, orient, k) {
        ChainFrom(cmds, edges, orient, k + 1, plane, prefs);
      }
    }
  }

  /**
   * A group of line edges: when every edge (reversed if need be) starts at
   * the previous edge's end, one `moveto` at the first vertex and one
   * `lineto` to each edge's far end; otherwise `ValueError('edges not ordered')`.
   */
  lemma LineChain(cmds: seq<Command>, edges: seq<Edge>, orient: seq<seq<Vec3>>, plane: Option<Plane>, prefs: Prefs)
    requires WellFormedGroup(edges) && AllLines(edges) && OrientedChain(edges, orient) && |orient| == |edges|
    ensures GroupFrom(cmds, [], edges, 0, plane, prefs)
            == if ConnectedFrom(edges, orient, 1) then Running(cmds + ChainCommands(edges, orient, |edges|, plane), orient[|edges| - 1])
               else Raised(ValueError("edges not ordered"))
  {
    var first := cmds + ChainCommands(edges, orient, 1, plane);
    var step := EdgeStep(cmds, [], edges[0], 0, plane, prefs);
    assert step == Running(first, edges[0].vertexes);
    assert GroupFrom(cmds, [], edges, 0, plane, prefs) == GroupFrom(first, orient[0], edges, 1, plane, prefs);
    ChainFrom(cmds, edges, orient, 1, plane, prefs);
  }

  // ---------------------------------------------------------------------
  // The translator as the source runs it: loops appending to one path

  /** The caller-owned `pathdata` list: the `d` strings already drawn in this export. */
  class PathRegistry {
    var entries: seq<string>

    constructor ()
      ensures entries == []
    {
      entries := [];
    }
  }

  /** `pathname or obj.Name`: an absent or empty path name falls back to the object's name. */
  function ElementName(pathname: Option<string>, objName: string): string
  {
    if pathname.Some? && pathname.value != "" then pathname.value else objName
  }

  predicate NoDuplicates(s: seq<string>)
  {
    forall i, j :: 0 <= i < j < |s| ==> s[i] != s[j]
  }

  method EmitConic(p: Path, view: ConicView, vs: seq<Vec3>, plane: Option<Plane>, prefs: Prefs)
    returns (next: Progress)
    requires vs != []
    modifies p`data
    ensures next == ConicStep(old(p.data), vs, view, plane, prefs)
    ensures next.Running? ==> p.data == next.cmds
    ensures old(p.data) <= p.data
  {
    if view.faceOn {
      var aString := view.hlrArc;
      if aString != "" {
        p.AddRawData("A", aString);
        next := Running(p.data, vs);
      } else if |vs| == 1 && view.shape.CircleShape? {
        next := CircleOut(view.circleSvg);
      } else if |vs| == 1 {
        var endpoints := [GetProj(view.midpoint, plane), GetProj(Last(vs), plane)];
        var rx, ry, rot;
        match view.shape {
          case CircleShape(radius) =>
            rx, ry, rot := radius, radius, 0.0;
          case EllipseShape(major, minor, raw) =>
            rx, ry, rot := major, minor, NormalizeRotation(raw);
        }
        var flagLargeArc := LargeArc(view.halfTurns);
        ghost var start := p.data;
        for i := 0 to |endpoints|
          invariant p.data == start + ArcsTo(view, endpoints[..i])
        {
          p.EllipticalArc(rx, ry, rot, flagLargeArc, view.sweep, endpoints[i]);
          assert ArcsTo(view, endpoints[..i + 1]) == ArcsTo(view, endpoints[..i]) + [ArcTo(view, endpoints[i])];
        }
        assert endpoints[..|endpoints|] == endpoints;
        next := Running(p.data, vs);
      } else {
        next := Raised(TypeError);
      }
    } else {
      var discretized := GetDiscretized(view.curve, plane, prefs);
      p.AppendData(discretized);
      next := Running(p.data, vs);
    }
  }

  method EmitSpline(p: Path, spline: SplineView, vs: seq<Vec3>, plane: Option<Plane>) returns (next: Progress)
    modifies p`data
    ensures next == SplineStep(old(p.data), vs, spline, plane)
    ensures next.Running? ==> p.data == next.cmds
    ensures old(p.data) <= p.data
  {
    match spline {
      case Beziers(segments) =>
        for k := 0 to |segments|
          invariant BeziersFrom(old(p.data), segments, 0, plane) == BeziersFrom(p.data, segments, k, plane)
          invariant old(p.data) <= p.data
        {
          var poles := segments[k];
          var projPoles := ProjectAll(Tail(poles), plane);
          if Degree(poles) == 1 {
            p.LineTo(projPoles[0]);
          } else if Degree(poles) == 2 {
            p.QuadraticBezierCurveTo(projPoles[0], projPoles[1]);
          } else if Degree(poles) == 3 {
            p.CurveTo(projPoles[0], projPoles[1], projPoles[2]);
          } else {
            next := Raised(AssertionError("Wrong degree for bezier"));
            return;
          }
        }
        next := Running(p.data, vs);
      case Polyline(points) =>
        var linepoints := Tail(points);
        for k := 0 to |linepoints|
          invariant PolylineFrom(old(p.data), linepoints, 0, plane) == PolylineFrom(p.data, linepoints, k, plane)
          invariant old(p.data) <= p.data
        {
          var v := GetProj(linepoints[k], plane);
          p.LineTo(v);
        }
        next := Running(p.data, vs);
    }
  }

  method EmitEdge(p: Path, e: Edge, edgeindex: nat, previousvs: seq<Vec3>, plane: Option<Plane>, prefs: Prefs)
    returns (next: Progress)
    requires e.vertexes != []
    requires (edgeindex == 0) == (previousvs == [])
    modifies p`data
    ensures next == EdgeStep(old(p.data), previousvs, e, edgeindex, plane, prefs)
    ensures next.Running? ==> p.data == next.cmds
    ensures old(p.data) <= p.data
    ensures edgeindex == 0 ==> |p.data| > |old(p.data)| && p.data[|old(p.data)|].MoveTo?
  {
    var vs := e.vertexes;
    if previousvs != [] && Far(vs[0], Last(previousvs)) {
      vs := Reversed(vs);
    }
    if edgeindex == 0 {
      p.MoveTo(GetProj(vs[0], plane));
    } else if Far(vs[0], Last(previousvs)) {
      next := Raised(ValueError("edges not ordered"));
      return;
    }
    ghost var moved := p.data;
    match e.geom {
      case Line =>
        p.LineTo(GetProj(Last(vs), plane));
        next := Running(p.data, vs);
      case Conic(view) =>
        next := EmitConic(p, view, vs, plane, prefs);
      case Spline(spline) =>
        next := EmitSpline(p, spline, vs, plane);
    }
    assert p.data[..|moved|] == moved;
  }

  method EmitGroup(p: Path, edges: seq<Edge>, plane: Option<Plane>, prefs: Prefs) returns (next: Progress)
    requires WellFormedGroup(edges)
    modifies p`data
    ensures next == GroupFrom(old(p.data), [], edges, 0, plane, prefs)
    ensures next.Running? ==> p.data == next.cmds
    ensures StartsWithMove(old(p.data)) ==> StartsWithMove(p.data)
  {
    var vs: seq<Vec3> := [];
    for edgeindex := 0 to |edges|
      invariant (edgeindex == 0) == (vs == [])
      invariant GroupFrom(old(p.data), [], edges, 0, plane, prefs) == GroupFrom(p.data, vs, edges, edgeindex, plane, prefs)
      invariant StartsWithMove(old(p.data)) ==> StartsWithMove(p.data)
      invariant edgeindex == 0 ==> p.data == old(p.data)
      invariant edgeindex > 0 ==> p.data != []
    {
      var previousvs := vs;
      ghost var before := p.data;
      var step := EmitEdge(p, edges[edgeindex], edgeindex, previousvs, plane, prefs);
      if before != [] {
        assert p.data[0] == before[0];
      }
      if !step.Running? {
        next := step;
        return;
      }
      vs := step.vs;
    }
    next := Running(p.data, vs);
  }

  /** The outer loop of `getPath`: every group, in order, into the same path. */
  method EmitGroups(p: Path, groups: seq<seq<Edge>>, plane: Option<Plane>, prefs: Prefs) returns (out: Progress)
    requires WellFormedGroups(groups) && StartsWithMove(p.data)
    modifies p`data
    ensures out == TranslateFrom(old(p.data), groups, 0, plane, prefs)
    ensures out.Running? ==> p.data == out.cmds
    ensures StartsWithMove(p.data)
  {
    for k := 0 to |groups|
      invariant TranslateFrom(old(p.data), groups, 0, plane, prefs) == TranslateFrom(p.data, groups, k, plane, prefs)
      invariant StartsWithMove(p.data)
    {
      var next := EmitGroup(p, groups[k], plane, prefs);
      if !next.Running? {
        out := next;
        return;
      }
    }
    out := Running(p.data, []);
  }

  /**
   * `getPath`: translate every group into one path; if the path's `d` was
   * already drawn in this export, return "" and leave the registry as it
   * was, otherwise record `d` and return the `<path>` element.  A complete
   * face-on circle returns its own element and records nothing; a raised
   * error records nothing.
   */
  method GetPath(plane: Option<Plane>, fill: string, stroke: string, linewidth: string, lstyle: string,
                 pathname: Option<string>, objName: string, registry: PathRegistry, groups: seq<seq<Edge>>, prefs: Prefs,
                 fmt: real -> string) returns (r: Result<string>)
    requires WellFormedGroups(groups)
    modifies registry
    ensures match Translate(groups, plane, prefs)
            case Raised(error) => r == Err(error) && registry.entries == old(registry.entries)
            case CircleOut(svg) => r == Ok(svg) && registry.entries == old(registry.entries)
            case Running(cmds, _) =>
              var d := DString(cmds, fill, fmt);
              if d in old(registry.entries) then
                r == Ok("") && registry.entries == old(registry.entries)
              else
                && r == Ok(PathElement(Some(ElementName(pathname, objName)), stroke, linewidth, "4", lstyle, fill, None, "evenodd", d))
                && registry.entries == old(registry.entries) + [d]
    ensures old(registry.entries) <= registry.entries
    ensures NoDuplicates(old(registry.entries)) ==> NoDuplicates(registry.entries)
  {
    var p: Path := new Path(Some(ElementName(pathname, objName)));
    p.SetAttributes(stroke, linewidth, lstyle, fill, None);
    var out := EmitGroups(p, groups, plane, prefs);
    if !out.Running? {
      var exit := p.Exit();
      assert exit == Pass;
      r := if out.Raised? then Err(out.error) else Ok(out.svg);
      return;
    }
    var d := p.D(fmt);
    if d in registry.entries {
      // do not draw a path on another identical path
      var exit := p.Exit();
      assert exit == Pass;
      r := Ok("");
      return;
    }
    registry.entries := registry.entries + [d];
    var exit := p.Exit();
    assert exit == Pass;
    r := Ok(p.ToString(fmt));
  }
}
