/**
 * The small vector vocabulary the viewer takes from cgmath: points and
 * vectors in three dimensions, texture coordinates in two, and homogeneous
 * four-component points. Components are single-precision floats in the
 * program; here they are exact reals.
 */
module Geometry {

  datatype Vec2 = Vec2(u: real, v: real)

  datatype Vec4 = Vec4(x: real, y: real, z: real, w: real)

  datatype Vec3 = Vec3(x: real, y: real, z: real) {

    function Plus(o: Vec3): Vec3 {
      Vec3(x + o.x, y + o.y, z + o.z)
    }

    function Minus(o: Vec3): Vec3 {
      Vec3(x - o.x, y - o.y, z - o.z)
    }

    function Scale(k: real): Vec3 {
      Vec3(k * x, k * y, k * z)
    }

    /** The squared Euclidean length. */
    function Norm2(): real {
      x * x + y * y + z * z
    }

    /** The point as a homogeneous vector, w = 1 (cgmath's `to_homogeneous`). */
    function Homogeneous(): Vec4 {
      Vec4(x, y, z, 1.0)
    }
  }

  const Zero: Vec3 := Vec3(0.0, 0.0, 0.0)

  /** `Vector3::unit_y()`, the world's up direction. */
  const UnitY: Vec3 := Vec3(0.0, 1.0, 0.0)

  lemma Norm2OfScale(v: Vec3, k: real)
    ensures v.Scale(k).Norm2() == k * k * v.Norm2()
  {
    calc {
      v.Scale(k).Norm2();
      (k * v.x) * (k * v.x) + (k * v.y) * (k * v.y) + (k * v.z) * (k * v.z);
      k * k * (v.x * v.x) + k * k * (v.y * v.y) + k * k * (v.z * v.z);
      k * k * v.Norm2();
    }
  }

  /** Dividing a vector by its length gives a unit vector (cgmath's `normalize`, in exact arithmetic). */
  lemma NormalisedIsUnit(d: Vec3, length: real)
    requires length > 0.0 && length * length == d.Norm2()
    ensures d.Scale(1.0 / length).Norm2() == 1.0
  {
    Norm2OfScale(d, 1.0 / length);
    InverseSquare(length, d.Norm2());
  }

  lemma InverseSquare(l: real, n: real)
    requires l > 0.0 && l * l == n
    ensures (1.0 / l) * (1.0 / l) * n == 1.0
  {
  }

  /** Moving by `s` and measuring the displacement gives `s` back. */
  lemma PlusMinus(p: Vec3, s: Vec3)
    ensures p.Plus(s).Minus(p) == s
  {
  }
}
