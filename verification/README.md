# Draft SVG path builder, in Dafny

This project models the part of FreeCAD's Draft SVG export (`src/Mod/Draft/getSVG.py`) that turns geometry into SVG 1.1
path data (section 8.3 of SVG 1.1; elliptical arcs per section 8.3.8). The model has five parts:

- **`path` builder** (`SvgPath`). This is a class over a `seq<Command>` with one method per builder call:
  - `lineto` on an empty path records a `moveto`;
  - leaving the `with` block checks that the first command is `M`;
  - `d` joins each command's letter and arguments with spaces and adds a closing `Z` when the path is filled;
  - `to_string` renders the `<path>` element.
- **Preferences and dash patterns** (`DraftParams`, `LineStyle`). These cover `getDraftParam`, `process_custom_linestyle`
  and `getLineStyle`.
  - Named styles are read from the preferences and never scaled.
  - A custom comma-separated style is divided by the drawing scale.
  - Every failure gives `"none"`.
- **Projection** (`Geometry`). `projected_length` and `getProj` are modelled over reals.
- **Discretiser** (`Discretize`). `get_discretized` samples a curve at `max(1, |int(length / max)|) + 1` evenly spaced
  parameters and draws them as a polyline. It is a method with a loop, proved against a specification function.
- **Edge-chaining translator** (`Translate`). This is `getPath`, modelled as two layers:
  - specification functions folding over groups and edges (`EdgeStep`, `GroupFrom`, `TranslateFrom`);
  - the methods that run the source's nested loops over a `Path` object (`EmitEdge`, `EmitGroup`, `GetPath`), each
    proved equal to those functions.

  Lemmas then state what the translation guarantees:
  - every group opens with a `moveto`;
  - a chain of line edges becomes one polyline, or `ValueError('edges not ordered')`;
  - Bezier segments map to `L`/`Q`/`C`;
  - duplicate `d` strings are suppressed through the caller's `pathdata` list.

Numbers are modelled as reals. Python's `str()` of a float is a parameter `fmt: real -> string`, and `float()` of a
field is a parameter `parse` that yields a number, NaN, infinity or a parse failure. Python's `int()` (truncation toward
zero), `x % 2` on floats (floored remainder), `sep.join`, `str.split` and `list.reverse` are written out explicitly.
Python 2 semantics are kept for `map`/`filter` in `process_custom_linestyle`: they are lists, so `filter(math.isnan,
…)` is truthy exactly when some field is NaN.

## Model

| member | source | states |
|---|---|---|
| SvgPath.Path.constructor | src/Mod/Draft/getSVG.py:23-32 | a new path has no commands and the default attributes: stroke `none`, width `1 px`, miter limit `4`, dash `none`, fill `none`, no opacity, fill rule `evenodd` |
| SvgPath.Path.LineTo | src/Mod/Draft/getSVG.py:37-41 | appends exactly one command after the existing ones: a `moveto` to the point when the path is empty, a `lineto` otherwise |
| SvgPath.Path.MoveTo | src/Mod/Draft/getSVG.py:43-44 | appends one `M` to the point and leaves earlier commands untouched |
| SvgPath.Path.HorizontalLineTo | src/Mod/Draft/getSVG.py:46-47 | appends one `H` with the coordinate |
| SvgPath.Path.VerticalLineTo | src/Mod/Draft/getSVG.py:49-50 | appends one `V` with the coordinate |
| SvgPath.Path.CurveTo | src/Mod/Draft/getSVG.py:52-53 | appends one `C` with both control points and the end point, in order |
| SvgPath.Path.SmoothCurveTo | src/Mod/Draft/getSVG.py:55-56 | leaves the command list unchanged |
| SvgPath.Path.QuadraticBezierCurveTo | src/Mod/Draft/getSVG.py:58-59 | appends one `Q` with the control point and the end point |
| SvgPath.Path.SmoothQuadraticBezierCurveTo | src/Mod/Draft/getSVG.py:61-62 | leaves the command list unchanged |
| SvgPath.Path.EllipticalArc | src/Mod/Draft/getSVG.py:64-74 | appends one `A` with both radii, the rotation, both flags and the end point |
| SvgPath.Path.AddRawData | src/Mod/Draft/getSVG.py:76-77 | appends one command with the given letter and its raw text as the only argument |
| SvgPath.Path.ClosePath | src/Mod/Draft/getSVG.py:79-80 | appends one `Z` |
| SvgPath.Path.AppendData | src/Mod/Draft/getSVG.py:82-83 | the command list becomes the old list followed by the other path's list, in order; concatenation is therefore associative |
| SvgPath.Path.Exit | src/Mod/Draft/getSVG.py:85-87 | fails with `ValueError("path should start with 'moveto'")` exactly when the list is non-empty and its first letter is not `M`; an empty path passes |
| SvgPath.Path.SetAttributes | src/Mod/Draft/getSVG.py:102-107 | sets stroke, stroke width, dash array, fill and fill opacity to the given values |
| SvgPath.Args | src/Mod/Draft/getSVG.py:89-93 | each command contributes exactly its arity of arguments: `M`/`L` 2, `H`/`V` 1, `C` 6, `Q` 4, `A` 7, raw 1, `Z` 0 |
| SvgPath.DSequenceLength | src/Mod/Draft/getSVG.py:89-93 | the token sequence has one letter plus the arity of arguments for each command |
| SvgPath.DSequenceConcat | src/Mod/Draft/getSVG.py:89-93 | the tokens of a concatenated path are the tokens of the first part followed by those of the second |
| SvgPath.DSequenceSpaceFree | src/Mod/Draft/getSVG.py:89-93 | no token contains a space when the number texts and raw fragments contain none |
| SvgPath.DStringTokens | src/Mod/Draft/getSVG.py:95-100 | splitting `d` on spaces gives back every command's letter and arguments in order, followed by `Z` exactly when `fill` is not `none` |
| SvgPath.EmptyD | src/Mod/Draft/getSVG.py:95-100 | an empty path gives `""` when unfilled and `"Z"` when filled |
| SvgPath.DStringAppend | src/Mod/Draft/getSVG.py:95-100 | `d` of two non-empty unfilled paths, appended, is their two `d` strings joined by one space |
| Geometry.ProjectedLength | src/Mod/Draft/getSVG.py:180-185 | for an axis of non-zero length, the result times the axis length is `vec · axis`, so its magnitude is the length of the projection on the axis, and it is negative exactly when the vector points away from the axis; a null axis gives 0 |
| Geometry.GetProj | src/Mod/Draft/getSVG.py:188-193 | without a plane the vector is returned unchanged; with a plane the result lies at z = 0 |
| Geometry.ProjectOnSkewPlane | src/Mod/Draft/TestDraft.py:307-316 | on a plane whose axes are not unit length, (9, 8, 7) projects to 66.85 and 430 divided by the lengths of `u` and `v`, which lies within (12.54, 12.57) × (9.833, 9.836) |
| Geometry.ProjectInPlane | src/Mod/Draft/getSVG.py:188-193 | for an orthonormal plane, the point `a u + b v + c axis` projects to `(a, b, 0)` |
| Geometry.ProjectOnStandardPlane | src/Mod/Draft/getSVG.py:188-193 | on a plane whose axes are x and y, projection keeps x and y and sets z to 0 |
| DraftParams.GetDraftParam | src/Mod/Draft/getSVG.py:132-142 | an unknown name raises `ValueError("Unknown parameter name …")`, and only an unknown name does; a dash name gives the stored string or the default; `svgDiscretization` gives the stored float unless it is absent or 0, in which case it gives the default, so a non-zero default never yields 0 |
| LineStyle.ProcessCustomLinestyle | src/Mod/Draft/getSVG.py:145-161 | a truthy non-string raises `TypeError`, and only such an input raises; each of these gives `"none"`: an empty or absent style, a style without a comma, a NaN/Inf or non-numeric field, and a zero or non-numeric scale; a well-formed style gives its fields divided by the scale, joined by commas |
| LineStyle.ScaledFields | src/Mod/Draft/getSVG.py:149-155 | a scaled style read back has the same number of fields as the input, in order, each the input number divided by the scale |
| LineStyle.GetLineStyle | src/Mod/Draft/getSVG.py:164-177 | `Dashed`/`Dashdot`/`Dotted` give the stored preference or the defaults `0.09,0.05`, `0.09,0.05,0.02,0.05`, `0.02,0.02`; every other value is delegated to the custom-style parser |
| LineStyle.NamedStyleIgnoresScale | src/Mod/Draft/getSVG.py:164-177 | a named style is the same whatever the scale |
| Discretize.TruncBounds | src/Mod/Draft/getSVG.py:198 | `int()` truncates toward zero: the result is within one of the input and no larger in magnitude, and it is negative exactly when the input is at most -1 |
| Discretize.MaxSegmentLength | src/Mod/Draft/getSVG.py:197 | the maximum segment length is the stored `svgDiscretization` when non-zero, else 10; it is never zero |
| Discretize.SegmentCount | src/Mod/Draft/getSVG.py:198 | there is always at least one segment |
| Discretize.SegmentCountBounds | src/Mod/Draft/getSVG.py:198 | the segment count is the whole part of `|length / max|` when that is at least 1, and 1 otherwise |
| Discretize.SampleSpan | src/Mod/Draft/getSVG.py:199-203 | the samples start at `FirstParameter`, end at `LastParameter` and are evenly spaced |
| Discretize.DiscretizedShape | src/Mod/Draft/getSVG.py:196-206 | there are segments + 1 commands (at least 2): a `moveto` at the projected start of the curve, then only `lineto`s, the last one at the projected end |
| Discretize.GetDiscretized | src/Mod/Draft/getSVG.py:196-206 | the loop builds a fresh unfilled path holding exactly the discretised commands |
| Discretize.GetDiscretizedText | src/Mod/Draft/getSVG.py:209-211 | the text is the unfilled `d` of the discretised commands |
| Translate.OrientConnects | src/Mod/Draft/getSVG.py:316-323 | after the optional reversal, an edge touches the previous edge's end exactly when one of its two ends does |
| Translate.Orientations | src/Mod/Draft/getSVG.py:313-318 | every prefix of a group has its orientation chain: the first edge keeps its vertex order, each later edge is oriented against the one before, and each keeps its vertex count |
| Translate.EdgeStep | src/Mod/Draft/getSVG.py:312-408 | when it continues, the vertex list carried to the next edge has as many vertices as the edge |
| Translate.NormalizeRotation | src/Mod/Draft/getSVG.py:355-358 | the ellipse rotation moves by at most one half turn, stays unchanged inside [-90, 90], and lands in [-90, 90] for inputs in (-270, 270] |
| Translate.ModTwo | src/Mod/Draft/getSVG.py:360-361 | the float remainder modulo 2 lies in [0, 2), for negative inputs too, and differs from the input by a multiple of 2 |
| Translate.BeziersFailOnDegree | src/Mod/Draft/getSVG.py:389-402 | the only error the Bezier loop raises is `AssertionError('Wrong degree for bezier')` |
| Translate.EdgeStepOrders | src/Mod/Draft/getSVG.py:312-323 | for every curve type, a continuing edge carries its vertices oriented towards the previous edge's end, and a later edge raises `ValueError('edges not ordered')` exactly when, once oriented, it still starts more than 1e-6 away from that end |
| Translate.EdgeStepExtends | src/Mod/Draft/getSVG.py:319-408 | an edge only appends commands; the first edge of a group first appends a `moveto` at its first vertex |
| Translate.BeziersExtend | src/Mod/Draft/getSVG.py:390-402 | Bezier segments only append commands |
| Translate.PolylineExtends | src/Mod/Draft/getSVG.py:406-408 | the discretised points of a spline only append commands |
| Translate.GroupExtends | src/Mod/Draft/getSVG.py:312-408 | a group only appends commands |
| Translate.GroupStartsWithMove | src/Mod/Draft/getSVG.py:319-320 | each group opens with a `moveto` at the projected first vertex of its first edge |
| Translate.TranslateKeepsStart | src/Mod/Draft/getSVG.py:310-408 | a path that starts with `moveto` still does after any further groups |
| Translate.TranslateStartsWithMove | src/Mod/Draft/getSVG.py:302-408 | the translated path always passes the `moveto` check made on leaving the `with` block |
| Translate.BezierStepCommand | src/Mod/Draft/getSVG.py:389-402 | after a current point, one Bezier segment appends one `L`, `Q` or `C` for degree 1, 2 or 3 and raises `AssertionError("Wrong degree for bezier")` for any other degree |
| Translate.BeziersEmit | src/Mod/Draft/getSVG.py:389-402 | an `AssertionError("Wrong degree for bezier")` exactly when some segment's degree is not 1, 2 or 3; otherwise, after a current point, one `L`, `Q` or `C` per segment, in order, on the projected poles after the first |
| Translate.LineStep | src/Mod/Draft/getSVG.py:313-323 | a later line edge either raises `edges not ordered` or appends one `lineto` to its far end |
| Translate.ChainStep | src/Mod/Draft/getSVG.py:313-323 | after the polyline of the first `k` line edges, edge `k` either stops the group with `edges not ordered` or extends the polyline by one `lineto` |
| Translate.ChainFrom | src/Mod/Draft/getSVG.py:312-381 | from any edge on, a chain of line edges continues as a polyline exactly while the edges connect |
| Translate.LineChain | src/Mod/Draft/getSVG.py:310-381 | given the group's orientation chain, a group of line edges gives one `moveto` at its first vertex and one `lineto` to each oriented edge's far end when every edge connects to the previous one, and `ValueError('edges not ordered')` otherwise |
| Translate.EmitConic | src/Mod/Draft/getSVG.py:326-379 | the circle/ellipse branch appends the hidden-line fragment, two arcs for a complete ellipse, or the discretised curve; a complete circle returns its own element; a partial arc raises `TypeError` |
| Translate.EmitSpline | src/Mod/Draft/getSVG.py:383-408 | the spline loop appends what its specification function gives, stopping at an unsupported degree |
| Translate.EmitEdge | src/Mod/Draft/getSVG.py:313-408 | one edge as the loop runs it equals its specification step; the first edge of a group appends a `moveto` first |
| Translate.EmitGroup | src/Mod/Draft/getSVG.py:311-408 | the inner loop over one group equals the group fold and keeps the path starting with `moveto` |
| Translate.EmitGroups | src/Mod/Draft/getSVG.py:302-408 | the outer loop over the groups equals the translation fold, leaves the path holding its commands when it runs to the end, and keeps the path starting with `moveto` |
| Translate.PathRegistry.constructor | src/Mod/Draft/getSVG.py:291 | an export starts with no recorded `d` strings |
| Translate.GetPath | src/Mod/Draft/getSVG.py:291-414 | an error is passed on and a complete circle returns its element, both without recording anything; a `d` already recorded gives `""` and leaves `pathdata` unchanged; otherwise `d` is appended to `pathdata` and the `<path>` element is returned; `pathdata` only grows, and stays free of duplicates |

## Left out

- `getSVG` and the rest of the module outside the path builder are not part of this model. That covers the document-object dispatcher, the text, dimension and arrow renderers, `getCircle`/`getEllipse` and `getPattern`. A complete face-on circle reaches the model as an opaque element string.
- The geometry library calls are not modelled:
  - `group_edges`, `Part.sortEdges` and `fixWire`: edge groups are an input;
  - the B-spline conversion, approximation and `discretize`: a spline edge arrives as its Bezier segments or its discretised points;
  - curve evaluation, the axis-angle rounding, the tangent-angle sweep test and the hidden-line projection `get_occ_projection`: these arrive as precomputed fields of the edge.
- Translate.Degree: a Bezier segment's degree is taken as its pole count minus one, as it is for every Bezier curve.
- Geometry.ProjectedLength: `DraftVecUtils.project` and `Vector.getAngle` are not part of this model. The projection is taken as the orthogonal one, null for a null axis, and the angle test as the sign of `vec · axis`. The axis lengths, square roots, are carried by the plane (`PlaneAxes.uLength`, `vLength`) rather than computed.
- Geometry.Far: the test `Length > 1e-6` is compared on squared lengths, which is equivalent over reals. Floating-point rounding is not modelled.
- The float-to-text formatting of Python (`str`/`repr`) is a parameter. No digit-level property of the output is claimed.
- Geometry.GetProj: the source yields `-0.0` for a zero projected coordinate, as the `d` strings in src/Mod/Draft/TestDraft.py:348 show, while an unprojected zero prints `0.0`. Reals have a single zero, so the model's `d` strings, and the duplicate test on them, can differ from the source's in the sign of zero.
- `FreeCAD.ParamGet` persistence is a map of stored values, and the `print` diagnostics are not modelled.
- `getPath` always sets `fill_opacity` to `None`, because the name is read before it is assigned. `get_drawing_plane_normal` and `try_get_opacity` are not part of this model.
- SvgPath.Path.SetAttributes: takes the stroke width as the text `str(linewidth)` already rendered.
- LineStyle.ProcessCustomLinestyle: a scale of NaN or infinity is not representable, and a truthy non-string input is taken to be one that `"," in` rejects, as the type object in the tests is.
- SvgPath.PathElement: the `<path>` text is defined, but no property of its characters is proved beyond its use in `GetPath`.
