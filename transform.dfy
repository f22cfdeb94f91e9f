/** The 4x4 model matrix handed to the renderer: calculateTransformMatrix
    builds the base frame from the finger direction and dispatches on the
    model name to one of the three pipelines, each of which ends by laying
    out the scaled final axes and the ring position column by column. */
module Transform {
  import opened RealMath
  import opened Vectors
  import opened Pose
  import opened Calibration
  import opened Compose

  /** The column-major layout every pipeline returns: three columns holding
      the final axes scaled by s, then the translation (x, y, z) and 1. */
  function TransformMatrix(f: Axes, s: real, x: real, y: real, z: real): seq<real> {
    [s * f.x.x, s * f.x.y, s * f.x.z, RealZero,
     s * f.y.x, s * f.y.y, s * f.y.z, RealZero,
     s * f.z.x, s * f.z.y, s * f.z.z, RealZero,
     x, y, z, RealOne]
  }

  /** FloatArray(16) { if (it % 5 == 0) 1f else 0f }: the "do nothing" matrix. */
  function Identity(): seq<real> {
    seq(16, i => if i % 5 == 0 then RealOne else RealZero)
  }

  /** The entry in row `row` and column `col` of a column-major 4x4 matrix. */
  function Entry(r: seq<real>, row: int, col: int): real
    requires |r| == 16 && 0 <= row < 4 && 0 <= col < 4
  {
    r[4 * col + row]
  }

  /** The upper three entries of a column. */
  function Column(r: seq<real>, col: int): Vec3
    requires |r| == 16 && 0 <= col < 4
  {
    Vec3(Entry(r, 0, col), Entry(r, 1, col), Entry(r, 2, col))
  }

  /** The bottom row is (0, 0, 0, 1): the matrix is an affine map. */
  predicate Affine(r: seq<real>)
    requires |r| == 16
  {
    Entry(r, 3, 0) == 0.0 && Entry(r, 3, 1) == 0.0 && Entry(r, 3, 2) == 0.0 && Entry(r, 3, 3) == 1.0
  }

  /** The transform for a ring position, dynamic scale, finger direction and
      model name. A known name runs its profile's six steps on the base frame
      and scales by the dynamic scale times the profile's multiplier; any
      other name gives the identity. */
  function CalculateTransformMatrix(x: real, y: real, z: real, dynamicScale: real,
                                    dir: Vec3, name: string, m: Math): (r: seq<real>)
    ensures |r| == 16 && Affine(r)
    ensures name !in {"21.glb", "23.glb", "27.glb"} ==> r == Identity()
    ensures name in {"21.glb", "23.glb", "27.glb"} ==> Column(r, 3) == Vec3(x, y, z)
  {
    match ProfileFor(name)
    case None => Identity()
    case Some(p) => TransformMatrix(Orient(AlignedBasis(dir, m), p, m), dynamicScale * p.scaleMultiplier, x, y, z)
  }

  // ---- the layout ---------------------------------------------------------------

  /** The identity has ones exactly on the diagonal. */
  lemma IdentityDiagonal()
    ensures |Identity()| == 16
    ensures forall row, col :: 0 <= row < 4 && 0 <= col < 4 ==>
      Entry(Identity(), row, col) == if row == col then 1.0 else 0.0
  {
    forall row, col | 0 <= row < 4 && 0 <= col < 4
      ensures Entry(Identity(), row, col) == if row == col then 1.0 else 0.0
    {
      DiagonalIndex(row, col);
    }
  }

  /** In a column-major 4x4 matrix, index 4*col + row is a multiple of 5
      exactly on the diagonal. */
  lemma DiagonalIndex(row: int, col: int)
    requires 0 <= row < 4 && 0 <= col < 4
    ensures (4 * col + row) % 5 == 0 <==> row == col
  {
    if col == 0 {
    } else if col == 1 {
    } else if col == 2 {
    } else {
    }
  }

  /** Every pipeline's output is affine, carries the translation (x, y, z)
      in its last column, and holds the final axes scaled by s in the
      others. */
  lemma TransformLayout(f: Axes, s: real, x: real, y: real, z: real)
    ensures var r := TransformMatrix(f, s, x, y, z);
      |r| == 16 && Affine(r) && Column(r, 3) == Vec3(x, y, z) &&
      Column(r, 0) == Scale(f.x, s) && Column(r, 1) == Scale(f.y, s) && Column(r, 2) == Scale(f.z, s)
  {
    var r := TransformMatrix(f, s, x, y, z);
    assert r[12] == x && r[13] == y && r[14] == z && r[15] == 1.0;
    assert r[3] == 0.0 && r[7] == 0.0 && r[11] == 0.0;
    assert r[0] == s * f.x.x && r[1] == s * f.x.y && r[2] == s * f.x.z;
    assert r[4] == s * f.y.x && r[5] == s * f.y.y && r[6] == s * f.y.z;
    assert r[8] == s * f.z.x && r[9] == s * f.z.y && r[10] == s * f.z.z;
  }

  /** The lengths and angles of the first three columns are those of the
      final axes, scaled by s*s. */
  lemma TransformColumns(f: Axes, s: real, x: real, y: real, z: real)
    ensures var r := TransformMatrix(f, s, x, y, z);
      |r| == 16 &&
      Dot(Column(r, 0), Column(r, 0)) == s * s * Dot(f.x, f.x) &&
      Dot(Column(r, 1), Column(r, 1)) == s * s * Dot(f.y, f.y) &&
      Dot(Column(r, 2), Column(r, 2)) == s * s * Dot(f.z, f.z) &&
      Dot(Column(r, 0), Column(r, 1)) == s * s * Dot(f.x, f.y) &&
      Dot(Column(r, 0), Column(r, 2)) == s * s * Dot(f.x, f.z) &&
      Dot(Column(r, 1), Column(r, 2)) == s * s * Dot(f.y, f.z)
  {
    TransformLayout(f, s, x, y, z);
    ScaledPair(f.x, f.x, s);
    ScaledPair(f.y, f.y, s);
    ScaledPair(f.z, f.z, s);
    ScaledPair(f.x, f.y, s);
    ScaledPair(f.x, f.z, s);
    ScaledPair(f.y, f.z, s);
  }

  lemma ScaledPair(a: Vec3, b: Vec3, s: real)
    ensures Dot(Scale(a, s), Scale(b, s)) == s * s * Dot(a, b)
  {
  }

  /** A rigid frame scaled by s: three pairwise perpendicular columns of
      squared length s*s. */
  predicate UniformlyScaled(r: seq<real>, s: real)
    requires |r| == 16
  {
    Dot(Column(r, 0), Column(r, 0)) == s * s &&
    Dot(Column(r, 1), Column(r, 1)) == s * s &&
    Dot(Column(r, 2), Column(r, 2)) == s * s &&
    Dot(Column(r, 0), Column(r, 1)) == 0.0 &&
    Dot(Column(r, 0), Column(r, 2)) == 0.0 &&
    Dot(Column(r, 1), Column(r, 2)) == 0.0
  }

  lemma OrthonormalScaled(f: Axes, s: real, x: real, y: real, z: real)
    requires Orthonormal(f)
    ensures UniformlyScaled(TransformMatrix(f, s, x, y, z), s)
  {
    TransformColumns(f, s, x, y, z);
  }

  // ---- what the renderer receives ---------------------------------------------

  /** For models 21 and 27 and any nonzero finger direction, the transform
      is a similarity: a rotation (possibly with reflection) of the ring
      scaled uniformly by s, the dynamic scale times the model's multiplier
      (1 for model 21, 1.2 for model 27), followed by the move to (x, y, z). */
  lemma RigidModels(x: real, y: real, z: real, dynamicScale: real, dir: Vec3, name: string, m: Math, s: real)
    requires m.Valid() && Dot(dir, dir) > 0.0
    requires name == "21.glb" || name == "27.glb"
    requires s == dynamicScale * (if name == "27.glb" then Ring27 else Ring21).scaleMultiplier
    ensures UniformlyScaled(CalculateTransformMatrix(x, y, z, dynamicScale, dir, name, m), s)
  {
    var p := if name == "27.glb" then Ring27 else Ring21;
    var f := Orient(AlignedBasis(dir, m), p, m);
    BasisOrthonormal(dir, m);
    OrientOrthonormal(AlignedBasis(dir, m), p, m);
    OrthonormalScaled(f, s, x, y, z);
  }

  /** For model 23 (f its final axes) the first column keeps squared length
      s*s and stays perpendicular to the other two, while the other two
      carry the stretch and skew of its 1.1 Z factor. */
  lemma StretchedModel(x: real, y: real, z: real, dynamicScale: real, dir: Vec3, m: Math, s: real, f: Axes)
    requires m.Valid() && Dot(dir, dir) > 0.0
    requires s == dynamicScale * Ring23.scaleMultiplier && f == Orient(AlignedBasis(dir, m), Ring23, m)
    ensures var r := CalculateTransformMatrix(x, y, z, dynamicScale, dir, "23.glb", m);
      Dot(Column(r, 0), Column(r, 0)) == s * s &&
      Dot(Column(r, 0), Column(r, 1)) == 0.0 && Dot(Column(r, 0), Column(r, 2)) == 0.0 &&
      Dot(Column(r, 1), Column(r, 1)) == s * s * Dot(f.y, f.y) &&
      Dot(Column(r, 2), Column(r, 2)) == s * s * Dot(f.z, f.z) &&
      Dot(Column(r, 1), Column(r, 2)) == s * s * Dot(f.y, f.z)
  {
    BasisOrthonormal(dir, m);
    OrientFirstAxis(AlignedBasis(dir, m), Ring23, m);
    FirstColumnScaled(f, s, x, y, z);
    TransformColumns(f, s, x, y, z);
  }

  /** A unit first axis perpendicular to the others gives a first column of
      squared length s*s perpendicular to the other two. */
  lemma FirstColumnScaled(f: Axes, s: real, x: real, y: real, z: real)
    requires Dot(f.x, f.x) == 1.0 && Dot(f.x, f.y) == 0.0 && Dot(f.x, f.z) == 0.0
    ensures var r := TransformMatrix(f, s, x, y, z);
      Dot(Column(r, 0), Column(r, 0)) == s * s &&
      Dot(Column(r, 0), Column(r, 1)) == 0.0 && Dot(Column(r, 0), Column(r, 2)) == 0.0
  {
    TransformColumns(f, s, x, y, z);
  }
}
