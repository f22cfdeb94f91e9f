/** The per-model rotation pipelines (calculateTransformMatrixFor21/23/27):
    six fixed steps applied to the base frame, and what each step does to
    the lengths and angles of the three axes. */
module Compose {
  import opened RealMath
  import opened Vectors
  import opened Pose
  import opened Calibration

  // ---- the six steps ----------------------------------------------------------
  // c and s are the cosine and sine of the step's angle.

  /** Pitch about the first axis: the second and third axes turn. */
  function PitchStep(a: Axes, c: real, s: real): Axes {
    Axes(a.x, Mix(a.y, c, a.z, -s), Mix(a.y, s, a.z, c))
  }

  /** Scale the first axis by k (the source flips it with k = -1). */
  function FlipXStep(a: Axes, k: real): Axes {
    Axes(Scale(a.x, k), a.y, a.z)
  }

  /** Yaw about the second axis: the first and third axes turn. */
  function YawStep(a: Axes, c: real, s: real): Axes {
    Axes(Mix(a.x, c, a.z, s), a.y, Mix(a.x, -s, a.z, c))
  }

  /** Roll about the third axis: the first and second axes turn. */
  function RollStep(a: Axes, c: real, s: real): Axes {
    Axes(Mix(a.x, c, a.y, -s), Mix(a.x, s, a.y, c), a.z)
  }

  /** Scale the third axis by k (-1, or -1.1 for model 23). */
  function FlipZStep(a: Axes, k: real): Axes {
    Axes(a.x, a.y, Scale(a.z, k))
  }

  /** Steps 1 to 4 with a profile's constants: pitch, flip X, yaw, roll
      (the axes x4, y4, z4 of the model's pipeline). */
  function Turned(b: Axes, p: Profile, m: Math): Axes {
    var a1 := PitchStep(b, m.cosDeg(p.pitchDeg), m.sinDeg(p.pitchDeg));
    var a2 := FlipXStep(a1, p.xFlip);
    var a3 := YawStep(a2, m.cosDeg(p.yawDeg), m.sinDeg(p.yawDeg));
    RollStep(a3, m.cosDeg(p.rollDeg), m.sinDeg(p.rollDeg))
  }

  /** All six steps: steps 5 and 6 (flip Z, final pitch) after Turned; the
      final axes (finalX, finalY, finalZ) of the model's pipeline. */
  function Orient(b: Axes, p: Profile, m: Math): Axes {
    var a5 := FlipZStep(Turned(b, p, m), p.zFlip);
    PitchStep(a5, m.cosDeg(p.finalPitchDeg), m.sinDeg(p.finalPitchDeg))
  }

  /** Pairwise perpendicular axes. */
  predicate Perpendicular(a: Axes) {
    Dot(a.x, a.y) == 0.0 && Dot(a.x, a.z) == 0.0 && Dot(a.y, a.z) == 0.0
  }

  // ---- one turn of a pair of perpendicular vectors ----------------------------

  /** Turning two perpendicular vectors u, v into u' = c*u - s*v and
      v' = s*u + c*v (the form of pitch and roll): the new squared lengths
      and dot product. */
  lemma TurnPair(u: Vec3, v: Vec3, c: real, s: real)
    requires Dot(u, v) == 0.0
    ensures Dot(Mix(u, c, v, -s), Mix(u, c, v, -s)) == c * c * Dot(u, u) + s * s * Dot(v, v)
    ensures Dot(Mix(u, s, v, c), Mix(u, s, v, c)) == s * s * Dot(u, u) + c * c * Dot(v, v)
    ensures Dot(Mix(u, c, v, -s), Mix(u, s, v, c)) == c * s * (Dot(u, u) - Dot(v, v))
  {
    var u', v' := Mix(u, c, v, -s), Mix(u, s, v, c);
    DotSymmetric(v, u);
    DotMix(u, c, v, -s, u, c, v, -s);
    DotMix(u, s, v, c, u, s, v, c);
    DotMix(u, c, v, -s, u, s, v, c);
    TurnArithmetic(Dot(u, u), Dot(v, v), Dot(u, v), Dot(v, u), c, s, -s,
                   Dot(u', u'), Dot(v', v'), Dot(u', v'));
  }

  /** Turning u, v into u' = c*u + s*v and v' = -s*u + c*v (the form of yaw). */
  lemma TurnPairBack(u: Vec3, v: Vec3, c: real, s: real)
    requires Dot(u, v) == 0.0
    ensures Dot(Mix(u, c, v, s), Mix(u, c, v, s)) == c * c * Dot(u, u) + s * s * Dot(v, v)
    ensures Dot(Mix(u, -s, v, c), Mix(u, -s, v, c)) == s * s * Dot(u, u) + c * c * Dot(v, v)
    ensures Dot(Mix(u, c, v, s), Mix(u, -s, v, c)) == c * s * (Dot(v, v) - Dot(u, u))
  {
    var u', v' := Mix(u, c, v, s), Mix(u, -s, v, c);
    DotSymmetric(v, u);
    DotMix(u, c, v, s, u, c, v, s);
    DotMix(u, -s, v, c, u, -s, v, c);
    DotMix(u, c, v, s, u, -s, v, c);
    TurnArithmetic(Dot(u, u), Dot(v, v), Dot(u, v), Dot(v, u), c, -s, s,
                   Dot(u', u'), Dot(v', v'), Dot(u', v'));
  }

  /** The arithmetic of a turn u' = c*u + t*v, v' = s*u + c*v over plain
      numbers, where uv and vu are zero and t = -s; e1, e2 and e3 are u'.u',
      v'.v' and u'.v' written out. */
  lemma TurnArithmetic(uu: real, vv: real, uv: real, vu: real, c: real, s: real, t: real,
                       e1: real, e2: real, e3: real)
    requires uv == 0.0 && vu == 0.0 && t == -s
    requires e1 == c * c * uu + c * t * uv + t * c * vu + t * t * vv
    requires e2 == s * s * uu + s * c * uv + c * s * vu + c * c * vv
    requires e3 == c * s * uu + c * c * uv + t * s * vu + t * c * vv
    ensures e1 == c * c * uu + t * t * vv && e1 == c * c * uu + s * s * vv
    ensures e2 == s * s * uu + c * c * vv && e2 == t * t * uu + c * c * vv
    ensures e3 == c * s * (uu - vv) && e3 == c * t * (vv - uu)
  {
  }

  /** A vector perpendicular to u and v is perpendicular to every combination
      of them. */
  lemma MixKeepsPerpendicular(w: Vec3, u: Vec3, j: real, v: Vec3, k: real)
    requires Dot(w, u) == 0.0 && Dot(w, v) == 0.0
    ensures Dot(w, Mix(u, j, v, k)) == 0.0 && Dot(Mix(u, j, v, k), w) == 0.0
  {
    DotMixLeft(u, j, v, k, w);
    DotSymmetric(u, w);
    DotSymmetric(v, w);
    CombineZeros(j, Dot(w, u), k, Dot(w, v));
    CombineZeros(j, Dot(u, w), k, Dot(v, w));
  }

  lemma CombineZeros(j: real, a: real, k: real, b: real)
    requires a == 0.0 && b == 0.0
    ensures j * a + k * b == 0.0
  {
  }

  // ---- each step on a perpendicular triple -------------------------------------
  // Stated on the dot products themselves: a product such as c * c * Dot(..)
  // is matched by its written form, so the contracts name the exact terms.

  /** Pitch keeps the first axis and its right angles to the others, and
      turns the squared lengths of the other two into each other. */
  lemma PitchOfPerpendicular(a: Axes, c: real, s: real)
    requires Perpendicular(a)
    ensures var b := PitchStep(a, c, s);
      b.x == a.x && Dot(b.x, b.y) == 0.0 && Dot(b.x, b.z) == 0.0 &&
      Dot(b.y, b.y) == c * c * Dot(a.y, a.y) + s * s * Dot(a.z, a.z) &&
      Dot(b.z, b.z) == s * s * Dot(a.y, a.y) + c * c * Dot(a.z, a.z) &&
      Dot(b.y, b.z) == c * s * (Dot(a.y, a.y) - Dot(a.z, a.z))
  {
    TurnPair(a.y, a.z, c, s);
    MixKeepsPerpendicular(a.x, a.y, c, a.z, -s);
    MixKeepsPerpendicular(a.x, a.y, s, a.z, c);
  }

  /** Yaw keeps the second axis and its right angles to the others, and
      turns the squared lengths of the first and third into each other. */
  lemma YawOfPerpendicular(a: Axes, c: real, s: real)
    requires Perpendicular(a)
    ensures var b := YawStep(a, c, s);
      b.y == a.y && Dot(b.x, b.y) == 0.0 && Dot(b.y, b.z) == 0.0 &&
      Dot(b.x, b.x) == c * c * Dot(a.x, a.x) + s * s * Dot(a.z, a.z) &&
      Dot(b.z, b.z) == s * s * Dot(a.x, a.x) + c * c * Dot(a.z, a.z) &&
      Dot(b.x, b.z) == c * s * (Dot(a.z, a.z) - Dot(a.x, a.x))
  {
    TurnPairBack(a.x, a.z, c, s);
    DotSymmetric(a.y, a.x);
    MixKeepsPerpendicular(a.y, a.x, c, a.z, s);
    MixKeepsPerpendicular(a.y, a.x, -s, a.z, c);
  }

  /** Roll keeps the third axis and its right angles to the others, and
      turns the squared lengths of the first and second into each other. */
  lemma RollOfPerpendicular(a: Axes, c: real, s: real)
    requires Perpendicular(a)
    ensures var b := RollStep(a, c, s);
      b.z == a.z && Dot(b.x, b.z) == 0.0 && Dot(b.y, b.z) == 0.0 &&
      Dot(b.x, b.x) == c * c * Dot(a.x, a.x) + s * s * Dot(a.y, a.y) &&
      Dot(b.y, b.y) == s * s * Dot(a.x, a.x) + c * c * Dot(a.y, a.y) &&
      Dot(b.x, b.y) == c * s * (Dot(a.x, a.x) - Dot(a.y, a.y))
  {
    TurnPair(a.x, a.y, c, s);
    DotSymmetric(a.z, a.x);
    DotSymmetric(a.z, a.y);
    MixKeepsPerpendicular(a.z, a.x, c, a.y, -s);
    MixKeepsPerpendicular(a.z, a.x, s, a.y, c);
  }

  /** Scaling the first axis by k multiplies its squared length by k*k and
      keeps every right angle. */
  lemma FlipXOfPerpendicular(a: Axes, k: real)
    requires Perpendicular(a)
    ensures var b := FlipXStep(a, k);
      b.y == a.y && b.z == a.z && Perpendicular(b) &&
      Dot(b.x, b.x) == k * k * Dot(a.x, a.x)
  {
    ScaleLength(a.x, k);
    DotScale(a.y, a.x, k);
    DotScale(a.z, a.x, k);
  }

  /** Scaling the third axis by k multiplies its squared length by k*k and
      keeps every right angle. */
  lemma FlipZOfPerpendicular(a: Axes, k: real)
    requires Perpendicular(a)
    ensures var b := FlipZStep(a, k);
      b.x == a.x && b.y == a.y && Perpendicular(b) &&
      Dot(b.z, b.z) == k * k * Dot(a.z, a.z)
  {
    ScaleLength(a.z, k);
    DotScale(a.x, a.z, k);
    DotScale(a.y, a.z, k);
  }

  // ---- the steps keep an orthonormal frame orthonormal --------------------------

  /** A turn of two unit, perpendicular vectors by a point of the unit circle,
      over plain numbers; e1, e2, e3 are the new squared lengths and dot. */
  lemma UnitTurn(uu: real, vv: real, c: real, s: real, e1: real, e2: real, e3: real)
    requires uu == 1.0 && vv == 1.0 && c * c + s * s == 1.0
    requires e1 == c * c * uu + s * s * vv && e2 == s * s * uu + c * c * vv
    requires e3 == c * s * (uu - vv) || e3 == c * s * (vv - uu)
    ensures e1 == 1.0 && e2 == 1.0 && e3 == 0.0
  {
  }

  lemma PitchKeepsOrthonormal(a: Axes, c: real, s: real)
    requires Orthonormal(a) && c * c + s * s == 1.0
    ensures Orthonormal(PitchStep(a, c, s))
  {
    var b := PitchStep(a, c, s);
    PitchOfPerpendicular(a, c, s);
    UnitTurn(Dot(a.y, a.y), Dot(a.z, a.z), c, s, Dot(b.y, b.y), Dot(b.z, b.z), Dot(b.y, b.z));
  }

  lemma YawKeepsOrthonormal(a: Axes, c: real, s: real)
    requires Orthonormal(a) && c * c + s * s == 1.0
    ensures Orthonormal(YawStep(a, c, s))
  {
    var b := YawStep(a, c, s);
    YawOfPerpendicular(a, c, s);
    UnitTurn(Dot(a.x, a.x), Dot(a.z, a.z), c, s, Dot(b.x, b.x), Dot(b.z, b.z), Dot(b.x, b.z));
  }

  lemma RollKeepsOrthonormal(a: Axes, c: real, s: real)
    requires Orthonormal(a) && c * c + s * s == 1.0
    ensures Orthonormal(RollStep(a, c, s))
  {
    var b := RollStep(a, c, s);
    RollOfPerpendicular(a, c, s);
    UnitTurn(Dot(a.x, a.x), Dot(a.y, a.y), c, s, Dot(b.x, b.x), Dot(b.y, b.y), Dot(b.x, b.y));
  }

  lemma FlipXKeepsOrthonormal(a: Axes, k: real)
    requires Orthonormal(a) && k * k == 1.0
    ensures Orthonormal(FlipXStep(a, k))
  {
    FlipXOfPerpendicular(a, k);
    UnitScale(k, Dot(a.x, a.x));
  }

  lemma UnitScale(k: real, d: real)
    requires d == 1.0
    ensures k * k * d == k * k
  {
  }

  /** Steps 1 to 4 keep an orthonormal frame orthonormal when the first
      flip is a reflection (xFlip is -1 in every profile). */
  lemma TurnedOrthonormal(b: Axes, p: Profile, m: Math)
    requires m.TrigSound() && Orthonormal(b) && p.xFlip * p.xFlip == 1.0
    ensures Orthonormal(Turned(b, p, m))
  {
    var a1 := PitchStep(b, m.cosDeg(p.pitchDeg), m.sinDeg(p.pitchDeg));
    var a2 := FlipXStep(a1, p.xFlip);
    var a3 := YawStep(a2, m.cosDeg(p.yawDeg), m.sinDeg(p.yawDeg));
    PitchKeepsOrthonormal(b, m.cosDeg(p.pitchDeg), m.sinDeg(p.pitchDeg));
    FlipXKeepsOrthonormal(a1, p.xFlip);
    YawKeepsOrthonormal(a2, m.cosDeg(p.yawDeg), m.sinDeg(p.yawDeg));
    RollKeepsOrthonormal(a3, m.cosDeg(p.rollDeg), m.sinDeg(p.rollDeg));
  }

  lemma FlipZKeepsOrthonormal(a: Axes, k: real)
    requires Orthonormal(a) && k * k == 1.0
    ensures Orthonormal(FlipZStep(a, k))
  {
    FlipZOfPerpendicular(a, k);
    UnitScale(k, Dot(a.z, a.z));
  }

  /** A profile whose two flips are reflections (zFlip is -1 for models 21
      and 27) turns an orthonormal frame into an orthonormal frame: the six
      steps are a rigid motion of the axes. */
  lemma OrientOrthonormal(b: Axes, p: Profile, m: Math)
    requires m.TrigSound() && Orthonormal(b)
    requires p.xFlip * p.xFlip == 1.0 && p.zFlip * p.zFlip == 1.0
    ensures Orthonormal(Orient(b, p, m))
  {
    TurnedOrthonormal(b, p, m);
    var c, s := m.cosDeg(p.finalPitchDeg), m.sinDeg(p.finalPitchDeg);
    assert c * c + s * s == 1.0;
    FinalStepsKeepOrthonormal(Turned(b, p, m), p.zFlip, c, s);
  }

  /** Steps 5 and 6, a reflection of Z and a turn, keep a frame orthonormal. */
  lemma FinalStepsKeepOrthonormal(a: Axes, k: real, c: real, s: real)
    requires Orthonormal(a) && k * k == 1.0 && c * c + s * s == 1.0
    ensures Orthonormal(PitchStep(FlipZStep(a, k), c, s))
  {
    FlipZKeepsOrthonormal(a, k);
    PitchKeepsOrthonormal(FlipZStep(a, k), c, s);
  }

  /** Whatever the Z factor, the first axis comes out of the six steps as a
      unit vector perpendicular to the other two. */
  lemma OrientFirstAxis(b: Axes, p: Profile, m: Math)
    requires m.TrigSound() && Orthonormal(b) && p.xFlip * p.xFlip == 1.0
    ensures var f := Orient(b, p, m);
      Dot(f.x, f.x) == 1.0 && Dot(f.x, f.y) == 0.0 && Dot(f.x, f.z) == 0.0
  {
    var a5 := FlipZStep(Turned(b, p, m), p.zFlip);
    TurnedOrthonormal(b, p, m);
    FlipZOfPerpendicular(Turned(b, p, m), p.zFlip);
    PitchOfPerpendicular(a5, m.cosDeg(p.finalPitchDeg), m.sinDeg(p.finalPitchDeg));
  }

  /** Steps 5 and 6 of model 23 on an orthonormal frame, with (c, s) the
      final pitch: scaling the third axis by 1.1 before the final pitch
      leaves the first axis unit and perpendicular to the others, but
      stretches the other two and skews the angle between them. */
  lemma StretchOf23(a: Axes, c: real, s: real)
    requires Orthonormal(a)
    ensures var f := PitchStep(FlipZStep(a, Ring23.zFlip), c, s);
      Dot(f.x, f.x) == 1.0 && Dot(f.x, f.y) == 0.0 && Dot(f.x, f.z) == 0.0 &&
      Dot(f.y, f.y) == c * c + 1.21 * (s * s) &&
      Dot(f.z, f.z) == s * s + 1.21 * (c * c) &&
      Dot(f.y, f.z) == -0.21 * (c * s)
  {
    var a5 := FlipZStep(a, Ring23.zFlip);
    FlipZOfPerpendicular(a, Ring23.zFlip);
    PitchOfPerpendicular(a5, c, s);
  }

  /** Model 23's six steps on an orthonormal frame, with (c, s) the cosine
      and sine of its final pitch (170 degrees; the second requirement
      restates that they lie on the unit circle): the first axis is a unit
      vector perpendicular to the others, the other two have squared lengths
      c^2 + 1.21 s^2 and s^2 + 1.21 c^2 and dot product -0.21 c s. */
  lemma OrientShapeOf23(b: Axes, m: Math, c: real, s: real)
    requires m.TrigSound() && Orthonormal(b)
    requires c == m.cosDeg(Ring23.finalPitchDeg) && s == m.sinDeg(Ring23.finalPitchDeg)
    requires c * c + s * s == 1.0
    ensures var f := Orient(b, Ring23, m);
      Dot(f.x, f.x) == 1.0 && Dot(f.x, f.y) == 0.0 && Dot(f.x, f.z) == 0.0 &&
      Dot(f.y, f.y) == c * c + 1.21 * (s * s) &&
      Dot(f.z, f.z) == s * s + 1.21 * (c * c) &&
      Dot(f.y, f.z) == -0.21 * (c * s) &&
      Dot(f.y, f.y) + Dot(f.z, f.z) == 2.21
  {
    TurnedOrthonormal(b, Ring23, m);
    StretchOf23(Turned(b, Ring23, m), c, s);
  }

  /** Model 23 is the one pipeline that does not end in a rotation: the
      squared lengths of its last two axes add up to 2.21, so they are never
      both unit vectors. */
  lemma Model23NotOrthonormal(b: Axes, m: Math)
    requires m.TrigSound() && Orthonormal(b)
    ensures var f := Orient(b, Ring23, m); Dot(f.y, f.y) + Dot(f.z, f.z) == 2.21
    ensures !Orthonormal(Orient(b, Ring23, m))
  {
    OrientShapeOf23(b, m, m.cosDeg(Ring23.finalPitchDeg), m.sinDeg(Ring23.finalPitchDeg));
  }
}
