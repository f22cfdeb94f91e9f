/** The vector helpers of the ring-pose pipeline: dot, cross and normalize
    over three-component vectors (the source's FloatArray of size 3), and the
    scale-and-add combination every rotation step is built from. */
module Vectors {
  import opened RealMath

  datatype Vec3 = Vec3(x: real, y: real, z: real)

  /** The reals zero and one. Proof-performance note: the world axes and
      the matrices are built from these named constants rather than from
      the literals 0.0 and 1.0, which keeps the solver from evaluating
      them eagerly. */
  const RealZero: real := 0.0
  const RealOne: real := 1.0

  const Zero := Vec3(RealZero, RealZero, RealZero)

  function Dot(a: Vec3, b: Vec3): real {
    a.x * b.x + a.y * b.y + a.z * b.z
  }

  function Add(a: Vec3, b: Vec3): Vec3 {
    Vec3(a.x + b.x, a.y + b.y, a.z + b.z)
  }

  function Scale(v: Vec3, k: real): Vec3 {
    Vec3(v.x * k, v.y * k, v.z * k)
  }

  /** add(scale(a, j), scale(b, k)): a linear combination of two vectors */
  function Mix(a: Vec3, j: real, b: Vec3, k: real): Vec3 {
    Add(Scale(a, j), Scale(b, k))
  }

  function Cross(a: Vec3, b: Vec3): Vec3 {
    Vec3(a.y * b.z - a.z * b.y,
         a.z * b.x - a.x * b.z,
         a.x * b.y - a.y * b.x)
  }

  /** v divided by its length; a vector of length zero is returned as zero. */
  function Normalize(v: Vec3, m: Math): Vec3 {
    var len := m.sqrt(Dot(v, v));
    if len == 0.0 then Zero else Vec3(v.x / len, v.y / len, v.z / len)
  }

  /** The cross product is perpendicular to both of its arguments. */
  lemma CrossPerpendicular(a: Vec3, b: Vec3)
    ensures Dot(Cross(a, b), a) == 0.0 && Dot(Cross(a, b), b) == 0.0
  {
  }

  /** A zero vector normalises to the zero vector; any other vector to the
      unit vector pointing the same way (parallel to it, positive dot product). */
  lemma NormalizeSpec(v: Vec3, m: Math)
    requires m.SqrtSound()
    ensures Dot(v, v) == 0.0 ==> Normalize(v, m) == Zero
    ensures Dot(v, v) > 0.0 ==> Dot(Normalize(v, m), Normalize(v, m)) == 1.0
    ensures Dot(v, v) > 0.0 ==> Dot(Normalize(v, m), v) > 0.0 && Cross(Normalize(v, m), v) == Zero
  {
    if Dot(v, v) > 0.0 {
      NormalizedIsUnit(v, m.sqrt(Dot(v, v)), Normalize(v, m));
    }
  }

  // ---- algebra of the helpers -------------------------------------------------

  lemma DotNonnegative(v: Vec3)
    ensures Dot(v, v) >= 0.0
  {
    SquareNonnegative(v.x);
    SquareNonnegative(v.y);
    SquareNonnegative(v.z);
  }

  lemma NormalizedIsUnit(v: Vec3, len: real, r: Vec3)
    requires len > 0.0 && len * len == Dot(v, v)
    requires r == Vec3(v.x / len, v.y / len, v.z / len)
    ensures Dot(v, v) > 0.0
    ensures Dot(r, r) == 1.0 && Dot(r, v) > 0.0 && Cross(r, v) == Zero
  {
    PositiveSquare(len);
    assert Dot(v, v) > 0.0;
    assert r == Scale(v, 1.0 / len);
    assert Dot(r, r) == Dot(v, v) / (len * len);
    assert Dot(r, v) == Dot(v, v) / len;
  }

  /** dot is symmetric */
  lemma DotSymmetric(a: Vec3, b: Vec3)
    ensures Dot(a, b) == Dot(b, a)
  {
  }

  /** dot is linear in its first argument */
  lemma DotMixLeft(a: Vec3, j: real, b: Vec3, k: real, c: Vec3)
    ensures Dot(Mix(a, j, b, k), c) == j * Dot(a, c) + k * Dot(b, c)
    ensures Dot(c, Mix(a, j, b, k)) == j * Dot(c, a) + k * Dot(c, b)
  {
  }

  /** dot of two linear combinations, expanded */
  lemma DotMix(a: Vec3, j: real, b: Vec3, k: real, a': Vec3, j': real, b': Vec3, k': real)
    ensures Dot(Mix(a, j, b, k), Mix(a', j', b', k')) ==
      j * j' * Dot(a, a') + j * k' * Dot(a, b') + k * j' * Dot(b, a') + k * k' * Dot(b, b')
  {
  }

  /** Lagrange's identity: the squared length of a cross product. */
  lemma CrossLength(a: Vec3, b: Vec3)
    ensures Dot(Cross(a, b), Cross(a, b)) == Dot(a, a) * Dot(b, b) - Dot(a, b) * Dot(a, b)
  {
  }

  /** Normalising a unit vector leaves it as it is. */
  lemma NormalizeUnit(v: Vec3, m: Math)
    requires m.SqrtSound() && Dot(v, v) == 1.0
    ensures Normalize(v, m) == v
  {
    SqrtOfOne(m);
  }

  /** dot is linear in a scaled argument, on either side */
  lemma DotScale(w: Vec3, v: Vec3, k: real)
    ensures Dot(w, Scale(v, k)) == k * Dot(w, v)
    ensures Dot(Scale(v, k), w) == k * Dot(v, w)
  {
  }

  /** scaling by k multiplies the squared length by k*k */
  lemma ScaleLength(v: Vec3, k: real)
    ensures Dot(Scale(v, k), Scale(v, k)) == k * k * Dot(v, v)
  {
  }

  /** Normalising keeps a vector perpendicular to anything it was perpendicular to. */
  lemma NormalizeKeepsOrthogonal(v: Vec3, w: Vec3, m: Math)
    requires m.SqrtSound() && Dot(w, v) == 0.0
    ensures Dot(w, Normalize(v, m)) == 0.0
  {
    var len := m.sqrt(Dot(v, v));
    if len != 0.0 {
      assert Normalize(v, m) == Scale(v, 1.0 / len);
      DotScale(w, v, 1.0 / len);
    }
  }

  /** The scalar triple product is invariant under cyclic rotation. */
  lemma TripleCyclic(a: Vec3, b: Vec3, c: Vec3)
    ensures Dot(a, Cross(b, c)) == Dot(b, Cross(c, a))
  {
  }

  /** The cross product is antisymmetric. */
  lemma CrossAntisymmetric(a: Vec3, b: Vec3)
    ensures Cross(b, a) == Scale(Cross(a, b), -1.0)
  {
  }


}
