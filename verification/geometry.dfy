/**
 * Points, drawing planes and the projection of a 3D point onto a drawing
 * plane (`projected_length` and `getProj`).
 */
module Geometry {
  import opened Errors

  /** A FreeCAD `Vector`: three real coordinates. */
  datatype Vec3 = Vec3(x: real, y: real, z: real)

  /**
   * A working plane: its in-plane axes `u`, `v`, its normal `axis`, and the
   * lengths of `u` and `v` (`Vector.Length`, a square root, which the model
   * takes as given rather than computes).
   */
  datatype PlaneAxes = PlaneAxes(u: Vec3, v: Vec3, axis: Vec3, uLength: real, vLength: real)

  function Dot(a: Vec3, b: Vec3): real
  {
    a.x * b.x + a.y * b.y + a.z * b.z
  }

  function Add(a: Vec3, b: Vec3): Vec3
  {
    Vec3(a.x + b.x, a.y + b.y, a.z + b.z)
  }

  function Sub(a: Vec3, b: Vec3): Vec3
  {
    Vec3(a.x - b.x, a.y - b.y, a.z - b.z)
  }

  function Mul(k: real, a: Vec3): Vec3
  {
    Vec3(k * a.x, k * a.y, k * a.z)
  }

  function Abs(r: real): real
  {
    if r < 0.0 then -r else r
  }

  /** `l` is the Euclidean length of `a`. */
  predicate IsLength(l: real, a: Vec3)
  {
    l >= 0.0 && l * l == Dot(a, a)
  }

  /** A working plane whose stored axis lengths are the lengths of its axes. */
  type Plane = pl: PlaneAxes | IsLength(pl.uLength, pl.u) && IsLength(pl.vLength, pl.v)
    witness PlaneAxes(Vec3(1.0, 0.0, 0.0), Vec3(0.0, 1.0, 0.0), Vec3(0.0, 0.0, 1.0), 1.0, 1.0)

  /**
   * `projected_length`: the length of `DraftVecUtils.project(vec, axis)`,
   * negated when the projection points away from the axis, that is the dot
   * product divided by the axis length.  A null axis projects everything to
   * the null vector, of length 0.
   */
  function ProjectedLength(vec: Vec3, axis: Vec3, axisLength: real): (r: real)
    requires IsLength(axisLength, axis)
    ensures Dot(axis, axis) == 0.0 ==> r == 0.0
    ensures Dot(axis, axis) != 0.0 ==> r * axisLength == Dot(vec, axis)
    ensures Dot(axis, axis) != 0.0 ==> (r < 0.0 <==> Dot(vec, axis) < 0.0)
  {
    if Dot(axis, axis) == 0.0 then 0.0
    else
      var length := Abs(Dot(vec, axis)) / axisLength;
      if Dot(vec, axis) < 0.0 then -length else length
  }

  /** `getProj`: no plane keeps the vector; a plane gives its (u, v) coordinates at z = 0. */
  function GetProj(vec: Vec3, plane: Option<Plane>): (r: Vec3)
    ensures plane.None? ==> r == vec
    ensures plane.Some? ==> r.z == 0.0
  {
    match plane
    case None => vec
    case Some(pl) => Vec3(ProjectedLength(vec, pl.u, pl.uLength), ProjectedLength(vec, pl.v, pl.vLength), 0.0)
  }

  /** The tolerance of the connectivity test between consecutive edges. */
  const Tolerance: real := 0.000001

  /** `(a - b).Length > 1e-6`, compared on squares so that no square root is needed. */
  predicate Far(a: Vec3, b: Vec3)
  {
    Dot(Sub(a, b), Sub(a, b)) > Tolerance * Tolerance
  }

  /** The axes of the plane are unit length and pairwise orthogonal. */
  predicate Orthonormal(pl: PlaneAxes)
  {
    && Dot(pl.u, pl.u) == 1.0 && Dot(pl.v, pl.v) == 1.0 && Dot(pl.axis, pl.axis) == 1.0
    && Dot(pl.u, pl.v) == 0.0 && Dot(pl.u, pl.axis) == 0.0 && Dot(pl.v, pl.axis) == 0.0
  }

  lemma DotCombination(a: real, b: real, c: real, p: Vec3, q: Vec3, w: Vec3, t: Vec3)
    ensures Dot(Add(Add(Mul(a, p), Mul(b, q)), Mul(c, w)), t) == a * Dot(p, t) + b * Dot(q, t) + c * Dot(w, t)
  {
  }

  /**
   * Projecting a point given in plane coordinates `a u + b v + c axis` onto an
   * orthonormal plane recovers `(a, b)` and drops the depth `c`.
   */
  lemma ProjectInPlane(pl: Plane, a: real, b: real, c: real)
    requires Orthonormal(pl)
    ensures GetProj(Add(Add(Mul(a, pl.u), Mul(b, pl.v)), Mul(c, pl.axis)), Some(pl)) == Vec3(a, b, 0.0)
  {
    UnitLength(pl.uLength);
    UnitLength(pl.vLength);
    var w := Add(Add(Mul(a, pl.u), Mul(b, pl.v)), Mul(c, pl.axis));
    DotCombination(a, b, c, pl.u, pl.v, pl.axis, pl.u);
    DotCombination(a, b, c, pl.u, pl.v, pl.axis, pl.v);
    assert Dot(pl.v, pl.u) == Dot(pl.u, pl.v);
    assert Dot(pl.axis, pl.u) == Dot(pl.u, pl.axis);
    assert Dot(pl.axis, pl.v) == Dot(pl.v, pl.axis);
    assert Dot(w, pl.u) == a;
    assert Dot(w, pl.v) == b;
  }

  /** Along a unit axis the projected length is the dot product. */
  lemma UnitAxis(vec: Vec3, axis: Vec3)
    requires Dot(axis, axis) == 1.0
    ensures ProjectedLength(vec, axis, 1.0) == Dot(vec, axis)
  {
  }

  /** On a plane with the drawing sheet's axes the projection keeps x and y and flattens z. */
  lemma ProjectOnStandardPlane(pl: Plane, vec: Vec3)
    requires pl.u == Vec3(1.0, 0.0, 0.0) && pl.v == Vec3(0.0, 1.0, 0.0)
    ensures GetProj(vec, Some(pl)) == Vec3(vec.x, vec.y, 0.0)
  {
    UnitLength(pl.uLength);
    UnitLength(pl.vLength);
    UnitAxis(vec, pl.u);
    UnitAxis(vec, pl.v);
  }



  /**
   * On a plane whose axes are not unit length each coordinate is the dot
   * product divided by the axis length: the point (9, 8, 7) on the plane with
   * u = (3.33, 1.11, 4) and v = (12, 42, -2) lands at (66.85 / |u|, 430 / |v|),
   * about (12.5617, 9.8339).
   */
  lemma ProjectOnSkewPlane(pl: Plane)
    requires pl.u == Vec3(3.33, 1.11, 4.0) && pl.v == Vec3(12.0, 42.0, -2.0)
    ensures var r := GetProj(Vec3(9.0, 8.0, 7.0), Some(pl));
            r.x * pl.uLength == 66.85 && r.y * pl.vLength == 430.0 && r.z == 0.0
    ensures var r := GetProj(Vec3(9.0, 8.0, 7.0), Some(pl));
            12.54 < r.x < 12.57 && 9.833 < r.y < 9.836
  {
    var r := GetProj(Vec3(9.0, 8.0, 7.0), Some(pl));
    SquareBelow(5.32, pl.uLength);
    SquareBelow(pl.uLength, 5.33);
    SquareBelow(43.72, pl.vLength);
    SquareBelow(pl.vLength, 43.73);
    Between(r.x, pl.uLength, 66.85, 5.32, 5.33);
    Between(r.y, pl.vLength, 430.0, 43.72, 43.73);
  }

  /** Of two non-negative numbers, the one with the smaller square is the smaller. */
  lemma SquareBelow(lo: real, hi: real)
    requires 0.0 <= lo && 0.0 <= hi && lo * lo < hi * hi
    ensures lo < hi
  {
  }

  /** If `x * l == c` with `c` positive and `lo < l < hi`, then `c / hi < x < c / lo`. */
  lemma Between(x: real, l: real, c: real, lo: real, hi: real)
    requires 0.0 < lo < l < hi && 0.0 < c && x * l == c
    ensures c / hi < x < c / lo
  {
    assert x > 0.0;
    assert x * lo < x * l < x * hi;
  }

  lemma PositiveProduct(a: real, b: real)
    requires a > 0.0 && b > 0.0
    ensures a * b > 0.0
  {
  }

  lemma NonNegativeProduct(a: real, b: real)
    requires a >= 0.0 && b > 0.0
    ensures a * b >= 0.0
  {
  }

  /** The only non-negative number whose square is 1 is 1. */
  lemma UnitLength(l: real)
    requires l >= 0.0 && l * l == 1.0
    ensures l == 1.0
  {
    if l > 1.0 {
      PositiveProduct(l - 1.0, l + 1.0);
    }
    if l < 1.0 {
      NonNegativeProduct(l, 1.0 - l);
    }
  }
}
