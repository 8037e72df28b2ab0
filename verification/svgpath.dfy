/**
 * The `path` builder: an append-only list of SVG 1.1 path-data commands
 * (section 8.3 of SVG 1.1; the arc form of section 8.3.8), the `d`
 * serialisation and the `<path>` element it is rendered into.
 */
module SvgPath {
  import opened Errors
  import opened Geometry
  import opened Strings

  /** One `(letter, args)` entry of `path.data`. */
  datatype Command =
    | MoveTo(x: real, y: real)
    | LineTo(x: real, y: real)
    | HorizontalLineTo(coordinate: real)
    | VerticalLineTo(coordinate: real)
    | CurveTo(x1: real, y1: real, x2: real, y2: real, x: real, y: real)
    | QuadraticTo(x1: real, y1: real, x: real, y: real)
    | Arc(rx: real, ry: real, rotation: real, largeArc: bool, sweep: bool, x: real, y: real)
    | Raw(tag: string, blob: string)
    | ClosePath

  /** The command letter written before the arguments. */
  function Letter(c: Command): string
  {
    match c
    case MoveTo(_, _) => "M"
    case LineTo(_, _) => "L"
    case HorizontalLineTo(_) => "H"
    case VerticalLineTo(_) => "V"
    case CurveTo(_, _, _, _, _, _) => "C"
    case QuadraticTo(_, _, _, _) => "Q"
    case Arc(_, _, _, _, _, _, _) => "A"
    case Raw(tag, _) => tag
    case ClosePath => "Z"
  }

  /** How many arguments each command carries in the path-data grammar. */
  function Arity(c: Command): nat
  {
    match c
    case MoveTo(_, _) => 2
    case LineTo(_, _) => 2
    case HorizontalLineTo(_) => 1
    case VerticalLineTo(_) => 1
    case CurveTo(_, _, _, _, _, _) => 6
    case QuadraticTo(_, _, _, _) => 4
    case Arc(_, _, _, _, _, _, _) => 7
    case Raw(_, _) => 1
    case ClosePath => 0
  }

  /** `str(int(flag))`. */
  function FlagText(b: bool): string
  {
    if b then "1" else "0"
  }

  /** The arguments of a command as `str` renders them; `fmt` is `str` on a float. */
  function Args(c: Command, fmt: real -> string): (r: seq<string>)
    ensures |r| == Arity(c)
  {
    match c
    case MoveTo(x, y) => [fmt(x), fmt(y)]
    case LineTo(x, y) => [fmt(x), fmt(y)]
    case HorizontalLineTo(k) => [fmt(k)]
    case VerticalLineTo(k) => [fmt(k)]
    case CurveTo(x1, y1, x2, y2, x, y) => [fmt(x1), fmt(y1), fmt(x2), fmt(y2), fmt(x), fmt(y)]
    case QuadraticTo(x1, y1, x, y) => [fmt(x1), fmt(y1), fmt(x), fmt(y)]
    case Arc(rx, ry, rot, large, sweep, x, y) =>
      [fmt(rx), fmt(ry), fmt(rot), FlagText(large), FlagText(sweep), fmt(x), fmt(y)]
    case Raw(_, blob) => [blob]
    case ClosePath => []
  }

  /** `d_sequence`: each command's letter followed by its arguments, in order. */
  function DSequence(data: seq<Command>, fmt: real -> string): seq<string>
  {
    if data == [] then []
    else [Letter(data[0])] + Args(data[0], fmt) + DSequence(data[1..], fmt)
  }

  /** `d`: the tokens joined by spaces, with one closing `Z` for a filled path. */
  function DString(data: seq<Command>, fill: string, fmt: real -> string): string
  {
    Join(DSequence(data, fmt) + (if fill != "none" then ["Z"] else []), ' ')
  }

  /** The number of tokens a command list serialises to: a letter plus its arguments each. */
  function Weight(data: seq<Command>): nat
  {
    if data == [] then 0 else 1 + Arity(data[0]) + Weight(data[1..])
  }

  /** The condition `__exit__` checks: nothing yet, or a first command whose letter is `M`. */
  predicate StartsWithMove(data: seq<Command>)
  {
    data == [] || Letter(data[0]) == "M"
  }

  /** The command list after `lineto(p)`: a `moveto` on an empty path, a `lineto` otherwise. */
  function LinedTo(data: seq<Command>, p: Vec3): seq<Command>
  {
    data + [if data == [] then MoveTo(p.x, p.y) else LineTo(p.x, p.y)]
  }

  /** `id="%s" % name`: Python renders a missing name as `None`. */
  function NameText(name: Option<string>): string
  {
    match name
    case None => "None"
    case Some(s) => s
  }

  /** `fill_opacity` adds a style entry only when it is a non-empty string. */
  function OpacityStyles(fillOpacity: Option<string>): seq<string>
  {
    match fillOpacity
    case Some(o) => if o != "" then ["fill-opacity: " + o + " "] else []
    case None => []
  }

  /** The `style` attribute: five entries in a fixed order, then the optional opacity. */
  function StyleText(strokeWidth: string, miterlimit: string, dasharray: string, fill: string,
                     fillRule: string, fillOpacity: Option<string>): string
  {
    Join(["stroke-width:" + strokeWidth, "stroke-miterlimit:" + miterlimit,
          "stroke-dasharray:" + dasharray, "fill:" + fill, "fill-rule:" + fillRule]
         + OpacityStyles(fillOpacity), ';')
  }

  /** `to_string`: the `<path>` element, attributes in the order id, d, stroke, stroke-width, style. */
  function PathElement(name: Option<string>, stroke: string, strokeWidth: string, miterlimit: string,
                       dasharray: string, fill: string, fillOpacity: Option<string>, fillRule: string,
                       d: string): string
  {
    Join(["<path", "id=\"" + NameText(name) + "\"", "d=\"" + d + "\"",
          "stroke=\"" + stroke + "\"", "stroke-width=\"" + strokeWidth + " px\"",
          "style=\"" + StyleText(strokeWidth, miterlimit, dasharray, fill, fillRule, fillOpacity) + "\"",
          "/>\n"], ' ')
  }

  /** The token list of a concatenation is the concatenation of the token lists. */
  lemma {:induction false} DSequenceConcat(a: seq<Command>, b: seq<Command>, fmt: real -> string)
    ensures DSequence(a + b, fmt) == DSequence(a, fmt) + DSequence(b, fmt)
  {
    if a != [] {
      assert (a + b)[1..] == a[1..] + b;
      DSequenceConcat(a[1..], b, fmt);
    } else {
      assert a + b == b;
    }
  }

  /** Every command contributes its letter and exactly its arity of arguments. */
  lemma {:induction false} DSequenceLength(data: seq<Command>, fmt: real -> string)
    ensures |DSequence(data, fmt)| == Weight(data)
  {
    if data != [] {
      DSequenceLength(data[1..], fmt);
    }
  }

  /** The commands whose own text cannot contain a space: every one except a raw fragment with a space. */
  predicate SpaceFree(data: seq<Command>)
  {
    forall i :: 0 <= i < |data| && data[i].Raw? ==> ' ' !in data[i].tag && ' ' !in data[i].blob
  }

  lemma {:induction false} DSequenceSpaceFree(data: seq<Command>, fmt: real -> string)
    requires SpaceFree(data)
    requires forall r: real :: ' ' !in fmt(r)
    ensures forall i :: 0 <= i < |DSequence(data, fmt)| ==> ' ' !in DSequence(data, fmt)[i]
  {
    if data != [] {
      assert SpaceFree(data[1..]) by {
        forall i | 0 <= i < |data[1..]| && data[1..][i].Raw?
          ensures ' ' !in data[1..][i].tag && ' ' !in data[1..][i].blob
        {
          assert data[1..][i] == data[i + 1];
        }
      }
      DSequenceSpaceFree(data[1..], fmt);
      var head := [Letter(data[0])] + Args(data[0], fmt);
      assert forall i :: 0 <= i < |head| ==> ' ' !in head[i] by {
        assert data[0].Raw? ==> ' ' !in data[0].tag && ' ' !in data[0].blob;
      }
    }
  }

  /**
   * Reading `d` back: splitting it on spaces gives the letter-and-arguments
   * tokens of every command in order, then `Z` when the path is filled.
   */
  lemma DStringTokens(data: seq<Command>, fill: string, fmt: real -> string)
    requires SpaceFree(data)
    requires forall r: real :: ' ' !in fmt(r)
    requires data != [] || fill != "none"
    ensures Split(DString(data, fill, fmt), ' ') == DSequence(data, fmt) + (if fill != "none" then ["Z"] else [])
  {
    var tokens := DSequence(data, fmt) + (if fill != "none" then ["Z"] else []);
    DSequenceSpaceFree(data, fmt);
    DSequenceLength(data, fmt);
    SplitJoin(tokens, ' ');
  }

  /** An empty path serialises to nothing when unfilled and to a lone `Z` when filled. */
  lemma EmptyD(fill: string, fmt: real -> string)
    ensures DString([], fill, fmt) == if fill == "none" then "" else "Z"
  {
  }

  /** `d` of the concatenation written by `append_data` is the join of both token lists. */
  lemma DStringAppend(a: seq<Command>, b: seq<Command>, fmt: real -> string)
    requires a != [] && b != []
    ensures DString(a + b, "none", fmt) == DString(a, "none", fmt) + " " + DString(b, "none", fmt)
  {
    DSequenceConcat(a, b, fmt);
    assert DSequence(a, fmt) != [] && DSequence(b, fmt) != [];
    JoinAppend(DSequence(a, fmt), DSequence(b, fmt), ' ');
    assert DSequence(a + b, fmt) + [] == DSequence(a + b, fmt);
    assert DSequence(a, fmt) + [] == DSequence(a, fmt);
    assert DSequence(b, fmt) + [] == DSequence(b, fmt);
  }

  /** The `path` object: its style attributes and its command list. */
  class Path {
    var name: Option<string>
    var stroke: string
    var strokeWidth: string
    var strokeMiterlimit: string
    var strokeDasharray: string
    var fill: string
    var fillOpacity: Option<string>
    var fillRule: string
    var data: seq<Command>

    constructor (name: Option<string>)
      ensures this.name == name && stroke == "none" && strokeWidth == "1 px" && strokeMiterlimit == "4"
      ensures strokeDasharray == "none" && fill == "none" && fillOpacity == None && fillRule == "evenodd"
      ensures data == []
    {
      this.name := name;
      stroke := "none";
      strokeWidth := "1 px";
      strokeMiterlimit := "4";
      strokeDasharray := "none";
      fill := "none";
      fillOpacity := None;
      fillRule := "evenodd";
      data := [];
    }

    /** `lineto`: a `moveto` when the path is still empty. */
    method LineTo(point: Vec3)
      modifies this`data
      ensures data == LinedTo(old(data), point)
      ensures old(data) == [] ==> data == [Command.MoveTo(point.x, point.y)]
      ensures old(data) != [] ==> data == old(data) + [Command.LineTo(point.x, point.y)]
    {
      if data == [] {
        MoveTo(point);
      } else {
        data := data + [Command.LineTo(point.x, point.y)];
      }
    }

    method MoveTo(point: Vec3)
      modifies this`data
      ensures data == old(data) + [Command.MoveTo(point.x, point.y)]
    {
      data := data + [Command.MoveTo(point.x, point.y)];
    }

    method HorizontalLineTo(coordinate: real)
      modifies this`data
      ensures data == old(data) + [Command.HorizontalLineTo(coordinate)]
    {
      data := data + [Command.HorizontalLineTo(coordinate)];
    }

    method VerticalLineTo(coordinate: real)
      modifies this`data
      ensures data == old(data) + [Command.VerticalLineTo(coordinate)]
    {
      data := data + [Command.VerticalLineTo(coordinate)];
    }

    /** `curveto(start, end, to)`: a cubic Bezier through the two control points. */
    method CurveTo(start: Vec3, end: Vec3, to: Vec3)
      modifies this`data
      ensures data == old(data) + [Command.CurveTo(start.x, start.y, end.x, end.y, to.x, to.y)]
    {
      data := data + [Command.CurveTo(start.x, start.y, end.x, end.y, to.x, to.y)];
    }

    /** `smooth_curveto` has an empty body: it records nothing. */
    method SmoothCurveTo(point: Vec3)
      ensures data == old(data)
    {
    }

    method QuadraticBezierCurveTo(start: Vec3, to: Vec3)
      modifies this`data
      ensures data == old(data) + [QuadraticTo(start.x, start.y, to.x, to.y)]
    {
      data := data + [QuadraticTo(start.x, start.y, to.x, to.y)];
    }

    /** `smooth_quadratic_bezier_curveto` has an empty body: it records nothing. */
    method SmoothQuadraticBezierCurveTo(point: Vec3)
      ensures data == old(data)
    {
    }

    /** `elliptical_arc`: the seven arguments of the arc command, flags as 0/1. */
    method EllipticalArc(rx: real, ry: real, xAxisRotation: real, largeArcFlag: bool, sweepFlag: bool, point: Vec3)
      modifies this`data
      ensures data == old(data) + [Arc(rx, ry, xAxisRotation, largeArcFlag, sweepFlag, point.x, point.y)]
    {
      data := data + [Arc(rx, ry, xAxisRotation, largeArcFlag, sweepFlag, point.x, point.y)];
    }

    /** `add_raw_data(type, blob)`: an opaque pre-formatted fragment under a caller-chosen letter. */
    method AddRawData(tag: string, blob: string)
      modifies this`data
      ensures data == old(data) + [Raw(tag, blob)]
    {
      data := data + [Raw(tag, blob)];
    }

    method ClosePath()
      modifies this`data
      ensures data == old(data) + [Command.ClosePath]
    {
      data := data + [Command.ClosePath];
    }

    /** `append_data`: the other path's commands, in order, after this path's (`self.data += ...`). */
    method AppendData(another: Path)
      modifies this`data
      ensures data == old(data) + old(another.data)
    {
      data := data + another.data;
    }

    /** `__exit__`: a `ValueError` exactly when there are commands and the first letter is not `M`. */
    method Exit() returns (r: Outcome)
      ensures r == Pass <==> StartsWithMove(data)
      ensures r.Fail? ==> r.error == ValueError("path should start with 'moveto'")
    {
      if data != [] && Letter(data[0]) != "M" {
        r := Fail(ValueError("path should start with 'moveto'"));
      } else {
        r := Pass;
      }
    }

    /** `set_attributes`; `linewidth` is passed as the text `str(linewidth)`. */
    method SetAttributes(stroke: string, linewidth: string, lstyle: string, fill: string, fillOpacity: Option<string>)
      modifies this`stroke, this`strokeWidth, this`strokeDasharray, this`fill, this`fillOpacity
      ensures this.stroke == stroke && strokeWidth == linewidth && strokeDasharray == lstyle
      ensures this.fill == fill && this.fillOpacity == fillOpacity
    {
      this.stroke := stroke;
      strokeWidth := linewidth;
      strokeDasharray := lstyle;
      this.fill := fill;
      this.fillOpacity := fillOpacity;
    }

    /** The `d` property. */
    function D(fmt: real -> string): string
      reads this
    {
      DString(data, fill, fmt)
    }

    function ToString(fmt: real -> string): string
      reads this
    {
      PathElement(name, stroke, strokeWidth, strokeMiterlimit, strokeDasharray, fill, fillOpacity, fillRule, D(fmt))
    }
  }
}
