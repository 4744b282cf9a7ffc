/** The overlap test between two colliders: the separating axis theorem
    restricted to the three world axes, reporting the minimum translation
    vector when no world axis separates the boxes. */
module Sat {
  import opened Vectors
  import opened Colliders

  datatype Option<T> = None | Some(value: T)

  /** Minimum translation vector: the axis to push along and how far. */
  datatype Mtv = Mtv(axis: Vec3, depth: real)

  /** The running minimum of the test: it starts at infinity. */
  datatype Bound = Infinity | Finite(value: real)

  predicate Below(r: real, bound: Bound) {
    bound.Infinity? || r < bound.value
  }

  /** How far the shadows of `a` and `b` on `axis` overlap; zero or less
      means the axis separates them. */
  function Overlap(a: Box, b: Box, axis: Vec3): (r: real)
    ensures r <= ProjectionRadius(a, axis) + ProjectionRadius(b, axis)
    ensures Dot(Sub(b.pos, a.pos), axis) == 0.0 ==> r == ProjectionRadius(a, axis) + ProjectionRadius(b, axis)
  {
    ProjectionRadius(a, axis) + ProjectionRadius(b, axis) - Abs(Dot(Sub(b.pos, a.pos), axis))
  }

  /** Some world axis separates the two boxes. */
  predicate Separated(a: Box, b: Box) {
    Overlap(a, b, XAxis) <= 0.0 || Overlap(a, b, YAxis) <= 0.0 || Overlap(a, b, ZAxis) <= 0.0
  }

  /** World axis `k` has the smallest overlap, and every earlier axis has a
      strictly larger one: ties go to the earlier axis. */
  predicate IsMinAxis(a: Box, b: Box, k: nat) {
    k < 3 &&
    (forall j :: 0 <= j < 3 ==> Overlap(a, b, Axis(k)) <= Overlap(a, b, Axis(j))) &&
    (forall j :: 0 <= j < k ==> Overlap(a, b, Axis(j)) > Overlap(a, b, Axis(k)))
  }

  lemma MinAxisUnique(a: Box, b: Box, k1: nat, k2: nat)
    requires IsMinAxis(a, b, k1) && IsMinAxis(a, b, k2)
    ensures k1 == k2
  {
    assert Overlap(a, b, Axis(k1)) <= Overlap(a, b, Axis(k2));
    assert Overlap(a, b, Axis(k2)) <= Overlap(a, b, Axis(k1));
  }

  /** The outcome of the overlap test as a value: no collision when a world
      axis separates the boxes, otherwise the world axis of least overlap
      (earliest on ties) with that overlap as depth. */
  function Collision(a: Box, b: Box): (r: Option<Mtv>)
    ensures r.None? <==> Separated(a, b)
    ensures r.Some? ==> (
      r.value.depth > 0.0 &&
      r.value.depth <= Overlap(a, b, XAxis) &&
      r.value.depth <= Overlap(a, b, YAxis) &&
      r.value.depth <= Overlap(a, b, ZAxis))
    ensures r.Some? ==> (
      (r.value.axis == XAxis && r.value.depth == Overlap(a, b, XAxis)) ||
      (r.value.axis == YAxis && r.value.depth == Overlap(a, b, YAxis) &&
        Overlap(a, b, XAxis) > r.value.depth) ||
      (r.value.axis == ZAxis && r.value.depth == Overlap(a, b, ZAxis) &&
        Overlap(a, b, XAxis) > r.value.depth && Overlap(a, b, YAxis) > r.value.depth))
  {
    var ox, oy, oz := Overlap(a, b, XAxis), Overlap(a, b, YAxis), Overlap(a, b, ZAxis);
    if ox <= 0.0 || oy <= 0.0 || oz <= 0.0 then None
    else if ox <= oy && ox <= oz then Some(Mtv(XAxis, ox))
    else if oy <= oz then Some(Mtv(YAxis, oy))
    else Some(Mtv(ZAxis, oz))
  }

  /** The reported axis is a world axis and is the one `IsMinAxis` picks. */
  lemma CollisionIsMinAxis(a: Box, b: Box)
    requires Collision(a, b).Some?
    ensures IsWorldAxis(Collision(a, b).value.axis)
    ensures exists k :: IsMinAxis(a, b, k) && Collision(a, b).value == Mtv(Axis(k), Overlap(a, b, Axis(k)))
  {
    var m := Collision(a, b).value;
    if m.axis == XAxis {
      assert IsMinAxis(a, b, 0);
    } else if m.axis == YAxis {
      assert IsMinAxis(a, b, 1);
    } else {
      assert IsMinAxis(a, b, 2);
    }
  }

  lemma SeparatingAxisIsReported(a: Box, b: Box, k: nat)
    requires k < 3 && Overlap(a, b, Axis(k)) <= 0.0
    ensures Collision(a, b) == None
  {
  }

  lemma MinAxisIsReported(a: Box, b: Box, k: nat)
    requires forall j :: 0 <= j < 3 ==> Overlap(a, b, Axis(j)) > 0.0
    requires IsMinAxis(a, b, k)
    ensures Collision(a, b) == Some(Mtv(Axis(k), Overlap(a, b, Axis(k))))
  {
    assert Overlap(a, b, Axis(0)) > 0.0 && Overlap(a, b, Axis(1)) > 0.0 && Overlap(a, b, Axis(2)) > 0.0;
    CollisionIsMinAxis(a, b);
    var k' :| IsMinAxis(a, b, k') && Collision(a, b).value == Mtv(Axis(k'), Overlap(a, b, Axis(k')));
    MinAxisUnique(a, b, k, k');
  }

  /** The test on two colliders. On a collision it writes the minimum
      translation vector; otherwise the caller's `prior` is left as it was. */
  method CheckCollision(a: Collider, b: Collider, prior: Mtv) returns (hit: bool, mtv: Mtv)
    ensures hit == Collision(a.Geometry(), b.Geometry()).Some?
    ensures hit ==> mtv == Collision(a.Geometry(), b.Geometry()).value
    ensures !hit ==> mtv == prior
  {
    var axes := [XAxis, YAxis, ZAxis];
    var minOverlap := Infinity;
    var minAxis := Zero;
    var delta := Sub(b.pos, a.pos);
    ghost var ga, gb := a.Geometry(), b.Geometry();
    ghost var best: nat := 0;
    for i := 0 to 3
      invariant forall j :: 0 <= j < i ==> Overlap(ga, gb, Axis(j)) > 0.0
      invariant i == 0 ==> minOverlap == Infinity
      invariant i > 0 ==> best < i && minOverlap == Finite(Overlap(ga, gb, Axis(best))) && minAxis == Axis(best)
      invariant i > 0 ==> forall j :: 0 <= j < i ==> Overlap(ga, gb, Axis(best)) <= Overlap(ga, gb, Axis(j))
      invariant forall j :: 0 <= j < best ==> Overlap(ga, gb, Axis(j)) > Overlap(ga, gb, Axis(best))
    {
      var axis := axes[i];
      assert axis == Axis(i);
      var aProj := ProjectionRadius(a.Geometry(), axis);
      var bProj := ProjectionRadius(b.Geometry(), axis);
      var deltaProj := Abs(Dot(delta, axis));
      var overlap := aProj + bProj - deltaProj;
      assert overlap == Overlap(ga, gb, Axis(i));
      if overlap <= 0.0 {
        SeparatingAxisIsReported(ga, gb, i);
        return false, prior;
      }
      if Below(overlap, minOverlap) {
        minOverlap := Finite(overlap);
        minAxis := axis;
        best := i;
      }
    }
    assert IsMinAxis(ga, gb, best);
    MinAxisIsReported(ga, gb, best);
    hit, mtv := true, Mtv(minAxis, minOverlap.value);
  }

  /** For unrotated boxes the overlap on each world axis is the sum of the
      half-extents less the distance between the centres along that axis. */
  lemma UnrotatedOverlap(a: Box, b: Box)
    requires a.rot == Identity && b.rot == Identity
    ensures Overlap(a, b, XAxis) == a.half.x + b.half.x - Abs(b.pos.x - a.pos.x)
    ensures Overlap(a, b, YAxis) == a.half.y + b.half.y - Abs(b.pos.y - a.pos.y)
    ensures Overlap(a, b, ZAxis) == a.half.z + b.half.z - Abs(b.pos.z - a.pos.z)
  {
    UnrotatedRadius(a);
    UnrotatedRadius(b);
    DotWorldAxes(Sub(b.pos, a.pos));
  }

  lemma OverlapSymmetric(a: Box, b: Box, axis: Vec3)
    ensures Overlap(a, b, axis) == Overlap(b, a, axis)
  {
    DotSubAntisymmetric(b.pos, a.pos, axis);
  }

  /** Swapping the two boxes changes neither the verdict, nor the axis, nor
      the depth: only the distance between the centres and the sum of the
      radii enter the test. */
  lemma CollisionSymmetric(a: Box, b: Box)
    ensures Collision(a, b) == Collision(b, a)
  {
    OverlapSymmetric(a, b, XAxis);
    OverlapSymmetric(a, b, YAxis);
    OverlapSymmetric(a, b, ZAxis);
  }

  /** Two intervals of positive half-widths around `c1` and `c2` share an
      interior point exactly when the half-widths add up to more than the
      distance between the centres; this is that point. */
  function Meet(c1: real, h1: real, c2: real, h2: real): (t: real)
    requires h1 > 0.0 && h2 > 0.0
    requires h1 + h2 - Abs(c2 - c1) > 0.0
    ensures InSlab(t, c1, h1) && InSlab(t, c2, h2)
  {
    var lo := if c1 - h1 < c2 - h2 then c2 - h2 else c1 - h1;
    var hi := if c1 + h1 < c2 + h2 then c1 + h1 else c2 + h2;
    (lo + hi) / 2.0
  }

  /** A shared interior point of two colliding unrotated boxes. */
  function CommonPoint(a: Box, b: Box): (p: Vec3)
    requires a.rot == Identity && b.rot == Identity
    requires Positive(a.half) && Positive(b.half)
    requires Collision(a, b).Some?
    ensures InsideAligned(p, a) && InsideAligned(p, b)
  {
    UnrotatedRadius(a);
    UnrotatedRadius(b);
    DotWorldAxes(Sub(b.pos, a.pos));
    Vec3(Meet(a.pos.x, a.half.x, b.pos.x, b.half.x),
         Meet(a.pos.y, a.half.y, b.pos.y, b.half.y),
         Meet(a.pos.z, a.half.z, b.pos.z, b.half.z))
  }

  /** A world axis with non-positive overlap really separates two unrotated
      boxes: no point lies inside both. */
  lemma SeparatedMeansDisjoint(a: Box, b: Box, p: Vec3)
    requires a.rot == Identity && b.rot == Identity
    requires Collision(a, b).None?
    ensures !(InsideAligned(p, a) && InsideAligned(p, b))
  {
    UnrotatedRadius(a);
    UnrotatedRadius(b);
    DotWorldAxes(Sub(b.pos, a.pos));
  }

  /** For unrotated boxes of positive size the three-axis test is exact: it
      reports a collision exactly when the open boxes share a point. */
  lemma ExactForAlignedBoxes(a: Box, b: Box)
    requires a.rot == Identity && b.rot == Identity
    requires Positive(a.half) && Positive(b.half)
    ensures Collision(a, b).Some? <==> exists p :: InsideAligned(p, a) && InsideAligned(p, b)
  {
    if Collision(a, b).Some? {
      var p := CommonPoint(a, b);
      assert InsideAligned(p, a) && InsideAligned(p, b);
    } else {
      forall p ensures !(InsideAligned(p, a) && InsideAligned(p, b)) {
        SeparatedMeansDisjoint(a, b, p);
      }
    }
  }

  /** For two populated colliders of positive size, as every collider of the
      demo is, the test on their geometry is exact. */
  lemma ExactForColliders(a: Collider, b: Collider)
    requires a.Valid() && b.Valid()
    requires Positive(a.size) && Positive(b.size)
    ensures Collision(a.Geometry(), b.Geometry()).Some? <==>
      exists p :: InsideAligned(p, a.Geometry()) && InsideAligned(p, b.Geometry())
  {
    a.ValidIsAligned();
    b.ValidIsAligned();
    ExactForAlignedBoxes(a.Geometry(), b.Geometry());
  }
}
