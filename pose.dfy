/** The ring's base frame: three axes built from the finger direction by one
    Gram-Schmidt step against world up (or world X when the finger is
    nearly vertical) and a cross product, as in calculateTransformMatrix. */
module Pose {
  import opened RealMath
  import opened Vectors

  /** The three columns of the rotation part, in the order they are used
      downstream: baseX, baseY, baseZ. */
  datatype Axes = Axes(x: Vec3, y: Vec3, z: Vec3)

  /** The preferred "up" of the ring's side axis. */
  const WorldUp := Vec3(RealZero, RealOne, RealZero)
  /** The alternative "up" for a finger collinear with world up. */
  const WorldX := Vec3(RealOne, RealZero, RealZero)
  /** Below this squared length the projected up vector counts as collinear. */
  const CollinearEpsilon: real := 0.00001

  predicate Orthonormal(b: Axes) {
    Dot(b.x, b.x) == 1.0 && Dot(b.y, b.y) == 1.0 && Dot(b.z, b.z) == 1.0 &&
    Dot(b.x, b.y) == 0.0 && Dot(b.x, b.z) == 0.0 && Dot(b.y, b.z) == 0.0
  }

  /** The determinant of the matrix whose columns are the three axes. */
  function Det(b: Axes): real {
    Dot(b.x, Cross(b.y, b.z))
  }

  /** v minus its component along u (one Gram-Schmidt step). */
  function ProjectOut(v: Vec3, u: Vec3): Vec3 {
    var d := Dot(v, u);
    Vec3(v.x - d * u.x, v.y - d * u.y, v.z - d * u.z)
  }

  /** Against a unit u the projection is perpendicular to u and has lost
      exactly the square of v's component along u. */
  lemma ProjectOutSpec(v: Vec3, u: Vec3)
    requires Dot(u, u) == 1.0
    ensures Dot(ProjectOut(v, u), u) == 0.0
    ensures Dot(ProjectOut(v, u), ProjectOut(v, u)) == Dot(v, v) - Dot(v, u) * Dot(v, u)
  {
    var p := ProjectOut(v, u);
    ProjectionArithmetic(v.x, v.y, v.z, u.x, u.y, u.z, Dot(v, u), p.x, p.y, p.z);
  }

  /** A vector already perpendicular to u is left as it is. */
  lemma ProjectOutOfPerpendicular(v: Vec3, u: Vec3)
    requires Dot(v, u) == 0.0
    ensures ProjectOut(v, u) == v
  {
  }

  /** The arithmetic behind ProjectOut, over plain numbers. */
  lemma ProjectionArithmetic(v1: real, v2: real, v3: real, u1: real, u2: real, u3: real,
                             d: real, p1: real, p2: real, p3: real)
    requires d == v1 * u1 + v2 * u2 + v3 * u3
    requires u1 * u1 + u2 * u2 + u3 * u3 == 1.0
    requires p1 == v1 - d * u1 && p2 == v2 - d * u2 && p3 == v3 - d * u3
    ensures p1 * u1 + p2 * u2 + p3 * u3 == 0.0
    ensures p1 * p1 + p2 * p2 + p3 * p3 == v1 * v1 + v2 * v2 + v3 * v3 - d * d
  {
  }

  /** True when the finger axis y is (nearly) collinear with world up. */
  predicate NearlyVertical(y: Vec3) {
    Dot(ProjectOut(WorldUp, y), ProjectOut(WorldUp, y)) < CollinearEpsilon
  }

  /** modelZ_aligned: world up with its component along the finger removed,
      or world X so treated when the finger is nearly vertical. */
  function SideAxis(y: Vec3, m: Math): Vec3 {
    Normalize(SideDirection(y), m)
  }

  /** The vector SideAxis normalises: projectedZ, or projectedZ2 in the
      fallback. */
  function SideDirection(y: Vec3): Vec3 {
    if NearlyVertical(y) then ProjectOut(WorldX, y) else ProjectOut(WorldUp, y)
  }

  /** The base frame for a finger direction: baseX is the normalised finger
      direction (modelY_aligned), baseY the normalised cross product of it
      with the side axis (modelX_aligned), baseZ the side axis. */
  function AlignedBasis(dir: Vec3, m: Math): Axes {
    var modelY := Normalize(dir, m);
    var modelZ := SideAxis(modelY, m);
    var modelX := Normalize(Cross(modelY, modelZ), m);
    Axes(modelY, modelX, modelZ)
  }

  // ---- properties of the base frame -------------------------------------------

  /** baseX follows the finger: for a nonzero direction it is the unit
      vector pointing the same way. */
  lemma BasisFollowsFinger(dir: Vec3, m: Math)
    requires m.SqrtSound() && Dot(dir, dir) > 0.0
    ensures AlignedBasis(dir, m).x == Normalize(dir, m)
    ensures Dot(AlignedBasis(dir, m).x, AlignedBasis(dir, m).x) == 1.0
    ensures Dot(AlignedBasis(dir, m).x, dir) > 0.0 && Cross(AlignedBasis(dir, m).x, dir) == Zero
  {
    NormalizeSpec(dir, m);
  }

  /** Whatever the direction, baseY is perpendicular to the other two axes. */
  lemma BasisMiddleAxisPerpendicular(dir: Vec3, m: Math)
    requires m.SqrtSound()
    ensures Dot(AlignedBasis(dir, m).x, AlignedBasis(dir, m).y) == 0.0
    ensures Dot(AlignedBasis(dir, m).z, AlignedBasis(dir, m).y) == 0.0
  {
    var b := AlignedBasis(dir, m);
    var w := Cross(b.x, b.z);
    CrossPerpendicular(b.x, b.z);
    DotSymmetric(w, b.x);
    DotSymmetric(w, b.z);
    NormalizeKeepsOrthogonal(w, b.x, m);
    NormalizeKeepsOrthogonal(w, b.z, m);
  }

  /** The fallback projection of world X has room left: on the unit sphere,
      a point whose y component is within e < 1 of one has x component below
      one (xy and uy are the components, qq and pp the two squared lengths). */
  lemma FallbackRoom(a: real, b: real, c: real, e: real, xy: real, uy: real, qq: real, pp: real)
    requires a * a + b * b + c * c == 1.0
    requires xy == a && uy == b
    requires qq == 1.0 - uy * uy && qq < e && e < 1.0
    requires pp == 1.0 - xy * xy
    ensures pp > 0.0
  {
    SquareNonnegative(c);
  }

  /** For a unit finger axis the side axis is a unit vector perpendicular to
      it; it leans towards world up, or towards world X in the fallback. */
  lemma SideAxisUnit(y: Vec3, m: Math)
    requires m.SqrtSound() && Dot(y, y) == 1.0
    ensures Dot(SideAxis(y, m), SideAxis(y, m)) == 1.0
    ensures Dot(SideAxis(y, m), y) == 0.0
    ensures !NearlyVertical(y) ==> Dot(SideAxis(y, m), WorldUp) > 0.0
    ensures NearlyVertical(y) ==> Dot(SideAxis(y, m), WorldX) > 0.0
  {
    if NearlyVertical(y) {
      FallbackHasRoom(y);
      TowardsSource(WorldX, y, m);
    } else {
      DotNonnegative(ProjectOut(WorldUp, y));
      TowardsSource(WorldUp, y, m);
    }
  }

  /** In the fallback the projection of world X off the finger axis is
      not degenerate. */
  lemma FallbackHasRoom(y: Vec3)
    requires Dot(y, y) == 1.0 && NearlyVertical(y)
    ensures Dot(ProjectOut(WorldX, y), ProjectOut(WorldX, y)) > 0.0
  {
    var q := ProjectOut(WorldUp, y);
    var p := ProjectOut(WorldX, y);
    ProjectOutSpec(WorldUp, y);
    ProjectOutSpec(WorldX, y);
    FallbackRoom(y.x, y.y, y.z, CollinearEpsilon, Dot(WorldX, y), Dot(WorldUp, y), Dot(q, q), Dot(p, p));
  }

  /** Normalising a nonzero projection of v off a unit u gives a unit vector
      perpendicular to u with positive component along v. */
  lemma TowardsSource(v: Vec3, u: Vec3, m: Math)
    requires m.SqrtSound() && Dot(u, u) == 1.0
    requires Dot(ProjectOut(v, u), ProjectOut(v, u)) > 0.0
    ensures Dot(Normalize(ProjectOut(v, u), m), Normalize(ProjectOut(v, u), m)) == 1.0
    ensures Dot(Normalize(ProjectOut(v, u), m), u) == 0.0
    ensures Dot(Normalize(ProjectOut(v, u), m), v) > 0.0
  {
    var p := ProjectOut(v, u);
    var z := Normalize(p, m);
    ProjectOutSpec(v, u);
    NormalizeSpec(p, m);
    DotSymmetric(p, u);
    NormalizeKeepsOrthogonal(p, u, m);
    DotSymmetric(u, z);
    ProjectionKeepsComponent(z.x, z.y, z.z, v.x, v.y, v.z, u.x, u.y, u.z, Dot(v, u), p.x, p.y, p.z);
  }

  /** Removing a multiple of u does not change the component along any z
      perpendicular to u (over plain numbers). */
  lemma ProjectionKeepsComponent(z1: real, z2: real, z3: real, v1: real, v2: real, v3: real,
                                 u1: real, u2: real, u3: real, d: real, p1: real, p2: real, p3: real)
    requires p1 == v1 - d * u1 && p2 == v2 - d * u2 && p3 == v3 - d * u3
    requires z1 * u1 + z2 * u2 + z3 * u3 == 0.0
    ensures z1 * p1 + z2 * p2 + z3 * p3 == z1 * v1 + z2 * v2 + z3 * v3
  {
    assert z1 * p1 + z2 * p2 + z3 * p3 == z1 * v1 + z2 * v2 + z3 * v3 - d * (z1 * u1 + z2 * u2 + z3 * u3);
  }

  /** For every nonzero finger direction the three base axes are unit
      vectors at right angles to each other. */
  lemma BasisOrthonormal(dir: Vec3, m: Math)
    requires m.SqrtSound() && Dot(dir, dir) > 0.0
    ensures Orthonormal(AlignedBasis(dir, m))
  {
    var b := AlignedBasis(dir, m);
    BasisFollowsFinger(dir, m);
    BasisMiddleAxisPerpendicular(dir, m);
    SideAxisUnit(b.x, m);
    var w := Cross(b.x, b.z);
    CrossLength(b.x, b.z);
    DotSymmetric(b.z, b.x);
    assert Dot(w, w) == 1.0;
    NormalizeUnit(w, m);
    DotSymmetric(b.z, b.y);
  }

  /** The base frame reverses orientation: its determinant is -1, so the
      triple (finger, finger x side, side) is a left-handed basis. */
  lemma BasisLeftHanded(dir: Vec3, m: Math)
    requires m.SqrtSound() && Dot(dir, dir) > 0.0
    ensures Det(AlignedBasis(dir, m)) == -1.0
  {
    var b := AlignedBasis(dir, m);
    BasisOrthonormal(dir, m);
    var w := Cross(b.x, b.z);
    CrossLength(b.x, b.z);
    DotSymmetric(b.z, b.x);
    NormalizeUnit(w, m);
    assert b.y == w;
    TripleCyclic(b.x, w, b.z);
    CrossAntisymmetric(b.z, b.x);
    DotScale(w, w, -1.0);
  }
}
