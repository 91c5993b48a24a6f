/** Componentwise addition of offsets and rotations
    (internal/generator/utils/vec.go). */
module Vectors {
  import opened Config

  /** The Go type parameter `T` forces both operands to be the same kind of
      vector; the result is of that kind again. */
  predicate SameKind(a: Vec3, b: Vec3) {
    a.Off? == b.Off?
  }

  function AddVectors(a: Vec3, b: Vec3): (r: Vec3)
    requires SameKind(a, b)
    ensures SameKind(r, a)
    ensures r.x == a.x + b.x && r.y == a.y + b.y && r.z == a.z + b.z
  {
    match a
    case Off(ax, ay, az) => Off(ax + b.x, ay + b.y, az + b.z)
    case Rot(ax, ay, az) => Rot(ax + b.x, ay + b.y, az + b.z)
  }

  /** The zero vector of the same kind as `a`. */
  function ZeroLike(a: Vec3): (z: Vec3)
    ensures SameKind(z, a) && z.x == 0.0 && z.y == 0.0 && z.z == 0.0
  {
    if a.Off? then Off(0.0, 0.0, 0.0) else Rot(0.0, 0.0, 0.0)
  }

  lemma AddZeroRight(a: Vec3)
    ensures AddVectors(a, ZeroLike(a)) == a
  {
  }

  lemma AddZeroLeft(a: Vec3)
    ensures AddVectors(ZeroLike(a), a) == a
  {
  }

  lemma AddCommutative(a: Vec3, b: Vec3)
    requires SameKind(a, b)
    ensures AddVectors(a, b) == AddVectors(b, a)
  {
  }

  lemma AddAssociative(a: Vec3, b: Vec3, c: Vec3)
    requires SameKind(a, b) && SameKind(b, c)
    ensures AddVectors(AddVectors(a, b), c) == AddVectors(a, AddVectors(b, c))
  {
  }
}
