/** Three-dimensional vectors and the rotation block of a transform matrix,
    with the handful of raymath operations the collision core uses.
    Single-precision floats are modelled as exact reals. */
module Vectors {

  datatype Vec3 = Vec3(x: real, y: real, z: real)

  /** The upper-left 3x3 block of a 4x4 transform matrix, in raylib's field
      names; the translation column and the last row play no part in collision. */
  datatype Matrix = Matrix(m0: real, m1: real, m2: real,
                           m4: real, m5: real, m6: real,
                           m8: real, m9: real, m10: real)

  const Zero: Vec3 := Vec3(0.0, 0.0, 0.0)
  const XAxis: Vec3 := Vec3(1.0, 0.0, 0.0)
  const YAxis: Vec3 := Vec3(0.0, 1.0, 0.0)
  const ZAxis: Vec3 := Vec3(0.0, 0.0, 1.0)

  const Identity: Matrix := Matrix(1.0, 0.0, 0.0, 0.0, 1.0, 0.0, 0.0, 0.0, 1.0)

  /** The three world axes, in the order the overlap test visits them. */
  function Axis(k: nat): (v: Vec3)
    requires k < 3
  {
    if k == 0 then XAxis else if k == 1 then YAxis else ZAxis
  }

  predicate IsWorldAxis(v: Vec3) {
    v == XAxis || v == YAxis || v == ZAxis
  }

  function Abs(r: real): (a: real)
    ensures a >= 0.0
  {
    if r < 0.0 then -r else r
  }

  function Add(u: Vec3, v: Vec3): Vec3 {
    Vec3(u.x + v.x, u.y + v.y, u.z + v.z)
  }

  function Sub(u: Vec3, v: Vec3): Vec3 {
    Vec3(u.x - v.x, u.y - v.y, u.z - v.z)
  }

  function Scale(v: Vec3, s: real): Vec3 {
    Vec3(v.x * s, v.y * s, v.z * s)
  }

  function Negate(v: Vec3): Vec3 {
    Vec3(-v.x, -v.y, -v.z)
  }

  function Dot(u: Vec3, v: Vec3): real {
    u.x * v.x + u.y * v.y + u.z * v.z
  }

  /** The columns of the rotation block read as the box's local axes. */
  function LocalX(m: Matrix): Vec3 { Vec3(m.m0, m.m4, m.m8) }
  function LocalY(m: Matrix): Vec3 { Vec3(m.m1, m.m5, m.m9) }
  function LocalZ(m: Matrix): Vec3 { Vec3(m.m2, m.m6, m.m10) }

  lemma AddAssociative(u: Vec3, v: Vec3, w: Vec3)
    ensures Add(u, Add(v, w)) == Add(Add(u, v), w)
  {
  }

  /** A dot product with a world axis picks out one coordinate. */
  lemma DotWorldAxes(v: Vec3)
    ensures Dot(v, XAxis) == v.x && Dot(v, YAxis) == v.y && Dot(v, ZAxis) == v.z
  {
  }

  /** Scaling a world axis puts the factor in that axis's coordinate. */
  lemma ScaleWorldAxes(s: real)
    ensures Scale(XAxis, s) == Vec3(s, 0.0, 0.0)
    ensures Scale(YAxis, s) == Vec3(0.0, s, 0.0)
    ensures Scale(ZAxis, s) == Vec3(0.0, 0.0, s)
  {
  }

  /** Swapping the operands of a difference only flips the sign of its projection. */
  lemma DotSubAntisymmetric(u: Vec3, v: Vec3, axis: Vec3)
    ensures Dot(Sub(u, v), axis) == -Dot(Sub(v, u), axis)
    ensures Abs(Dot(Sub(u, v), axis)) == Abs(Dot(Sub(v, u), axis))
  {
  }
}
