/** A collider: one box in world space. The geometry the overlap test needs
    is the value `Box`; the mutable object the demo keeps per body is the
    class `Collider`, whose `Geometry()` is that value. */
module Colliders {
  import opened Vectors

  /** Centre, half-extents along the local axes, and orientation. */
  datatype Box = Box(pos: Vec3, half: Vec3, rot: Matrix)

  predicate Positive(v: Vec3) {
    v.x > 0.0 && v.y > 0.0 && v.z > 0.0
  }

  predicate NonNegative(v: Vec3) {
    v.x >= 0.0 && v.y >= 0.0 && v.z >= 0.0
  }

  /** One local axis's share of a projection radius. */
  function Share(alignment: real, half: real): (r: real)
    ensures half >= 0.0 ==> r >= 0.0
  {
    var a := Abs(alignment);
    assert half >= 0.0 ==> a * half >= 0.0 by {
      if half >= 0.0 { MulMonotone(a, 0.0, half); }
    }
    a * half
  }

  /** Half-width of the box's shadow on `axis`: each local axis contributes
      its half-extent weighted by how much it lines up with `axis`. */
  function ProjectionRadius(b: Box, axis: Vec3): (r: real)
    ensures NonNegative(b.half) ==> r >= 0.0
  {
    Share(Dot(LocalX(b.rot), axis), b.half.x) +
    Share(Dot(LocalY(b.rot), axis), b.half.y) +
    Share(Dot(LocalZ(b.rot), axis), b.half.z)
  }

  /** For an unrotated box the radius on a world axis is exactly the
      half-extent along that axis. */
  lemma UnrotatedRadius(b: Box)
    requires b.rot == Identity
    ensures ProjectionRadius(b, XAxis) == b.half.x
    ensures ProjectionRadius(b, YAxis) == b.half.y
    ensures ProjectionRadius(b, ZAxis) == b.half.z
  {
    IdentityAlignment(b.half);
  }

  /** The local axes of an unrotated box are the world axes: each lines up
      fully with its own world axis and not at all with the other two. */
  lemma IdentityAlignment(h: Vec3)
    ensures Share(Dot(LocalX(Identity), XAxis), h.x) + Share(Dot(LocalY(Identity), XAxis), h.y) + Share(Dot(LocalZ(Identity), XAxis), h.z) == h.x
    ensures Share(Dot(LocalX(Identity), YAxis), h.x) + Share(Dot(LocalY(Identity), YAxis), h.y) + Share(Dot(LocalZ(Identity), YAxis), h.z) == h.y
    ensures Share(Dot(LocalX(Identity), ZAxis), h.x) + Share(Dot(LocalY(Identity), ZAxis), h.y) + Share(Dot(LocalZ(Identity), ZAxis), h.z) == h.z
  {
    assert Dot(LocalX(Identity), XAxis) == 1.0 && Dot(LocalY(Identity), XAxis) == 0.0 && Dot(LocalZ(Identity), XAxis) == 0.0;
    assert Dot(LocalX(Identity), YAxis) == 0.0 && Dot(LocalY(Identity), YAxis) == 1.0 && Dot(LocalZ(Identity), YAxis) == 0.0;
    assert Dot(LocalX(Identity), ZAxis) == 0.0 && Dot(LocalY(Identity), ZAxis) == 0.0 && Dot(LocalZ(Identity), ZAxis) == 1.0;
    ShareAligned(h.x);
    ShareAligned(h.y);
    ShareAligned(h.z);
  }

  lemma ShareAligned(h: real)
    ensures Share(1.0, h) == h && Share(0.0, h) == 0.0
  {
  }

  /** `t` lies strictly inside the interval of half-width `h` around `c`. */
  predicate InSlab(t: real, c: real, h: real) {
    Abs(t - c) < h
  }

  /** `p` lies in the open interior of `b` read as an axis-aligned box. */
  predicate InsideAligned(p: Vec3, b: Box) {
    InSlab(p.x, b.pos.x, b.half.x) && InSlab(p.y, b.pos.y, b.half.y) && InSlab(p.z, b.pos.z, b.half.z)
  }

  /** The square of the length of the half-extents vector: the squared radius
      of the sphere around the centre that holds the whole box. */
  function MaxRadiusSquared(b: Box): (r: real)
    ensures r >= b.half.x * b.half.x && r >= b.half.y * b.half.y && r >= b.half.z * b.half.z
  {
    Dot(b.half, b.half)
  }

  /** Multiplying by a non-negative factor keeps an ordering. */
  lemma MulMonotone(a: real, b: real, c: real)
    requires a >= 0.0 && b <= c
    ensures a * b <= a * c
  {
    assert a * c - a * b == a * (c - b);
  }

  lemma MulPositive(a: real, b: real)
    requires a > 0.0 && b > 0.0
    ensures a * b > 0.0
  {
  }

  lemma SquareBelow(a: real, h: real)
    requires Abs(a) < h
    ensures a * a < h * h
  {
    var m := Abs(a);
    assert a * a == m * m by {
      if a < 0.0 { assert m == -a; assert (-a) * (-a) == a * a; }
    }
    MulMonotone(m, m, h);
    assert m * m <= m * h;
    assert h * h - m * h == h * (h - m);
    MulPositive(h, h - m);
    calc {
      a * a;
    ==
      m * m;
    <=
      m * h;
    <
      h * h;
    }
  }

  /** Every interior point of an unrotated box lies within the bounding sphere. */
  lemma BoundingSphere(p: Vec3, b: Box)
    requires InsideAligned(p, b)
    ensures Dot(Sub(p, b.pos), Sub(p, b.pos)) < MaxRadiusSquared(b)
  {
    SquareBelow(p.x - b.pos.x, b.half.x);
    SquareBelow(p.y - b.pos.y, b.half.y);
    SquareBelow(p.z - b.pos.z, b.half.z);
  }

  class Collider {
    var pos: Vec3
    var size: Vec3
    var halfExtents: Vec3
    var rotation: Matrix
    var isColliding: bool

    /** What `Populate` establishes: half-extents are half the size and the
        box is not rotated. */
    ghost predicate Valid()
      reads this`size, this`halfExtents, this`rotation
    {
      halfExtents == Vec3(size.x / 2.0, size.y / 2.0, size.z / 2.0) && rotation == Identity
    }

    /** The geometry seen by the overlap test; it does not read `isColliding`
        or `size`, so clearing or raising the flag leaves it alone. */
    function Geometry(): Box
      reads this`pos, this`halfExtents, this`rotation
    {
      Box(pos, halfExtents, rotation)
    }

    /** A populated collider is an unrotated box whose half-extents are half
        its size, positive when the size is. */
    lemma ValidIsAligned()
      requires Valid()
      ensures Geometry().rot == Identity
      ensures Geometry().half == Vec3(size.x / 2.0, size.y / 2.0, size.z / 2.0)
      ensures Positive(size) ==> Positive(Geometry().half)
    {
    }

    /** A box of the given size at the given centre, populated. */
    constructor (size: Vec3, pos: Vec3)
      ensures this.size == size && this.pos == pos && !isColliding
      ensures Valid()
    {
      this.size := size;
      this.pos := pos;
      halfExtents := Zero;
      rotation := Identity;
      isColliding := false;
      new;
      Populate();
    }

    /** Derives the half-extents from the size and resets the orientation. */
    method Populate()
      modifies this
      ensures halfExtents == Vec3(size.x / 2.0, size.y / 2.0, size.z / 2.0)
      ensures rotation == Identity
      ensures pos == old(pos) && size == old(size) && isColliding == old(isColliding)
      ensures Valid()
    {
      halfExtents := Vec3(size.x / 2.0, size.y / 2.0, size.z / 2.0);
      rotation := Identity;
    }
  }
}
