/** The per-frame arithmetic of onResults: which frames carry a usable ring
    finger, where the ring goes on screen, how large it is drawn and which
    way the finger points. Everything here is a function of one frame and
    of the session's lens and model; the session itself is in Session. */
module Tracking {
  import opened RealMath
  import opened Vectors
  import opened Pose
  import opened Calibration
  import opened Transform

  // ---- the companion constants ------------------------------------------------

  const UnifiedScaleFactorFront: real := 25.0
  const UnifiedScaleFactorBack: real := 40.0
  const RingFingerDiameterRatio: real := 0.22
  const ZModulationSensitivity: real := -0.1
  const PositionScaleFactorFront: real := 0.4
  const PositionScaleFactorBack: real := 0.6
  const YOffsetFront: real := -0.25
  const YOffsetBack: real := 0.0
  const DepthScaleFactor: real := -0.1
  /** Below this length the finger segment is treated as degenerate. */
  const MinSegmentLength: real := 0.0001
  /** The two bounds coerceIn applies to the depth modulation. */
  const ModulationFloor: real := 0.8
  const ModulationCeiling: real := 1.2
  /** The screen landmarks of the ring finger's PIP and DIP joints. */
  const RingFingerPip: nat := 14
  const RingFingerDip: nat := 15

  // ---- the lens ---------------------------------------------------------------

  datatype LensFacing = Front | Back

  /** The other camera. */
  function Toggled(l: LensFacing): (r: LensFacing)
    ensures r != l
  {
    if l == Back then Front else Back
  }

  /** Switching twice brings back the camera one started with. */
  lemma ToggleTwice(l: LensFacing)
    ensures Toggled(Toggled(l)) == l
  {
  }

  /** The three camera-dependent constants of onResults. */
  datatype CameraSetting = CameraSetting(positionScale: real, yOffset: real, baseScale: real)

  /** The front camera's setting, and the back camera's. */
  function SettingFor(l: LensFacing): (r: CameraSetting)
    ensures r.positionScale > 0.0 && r.baseScale > 0.0
    ensures l == Front <==> r.yOffset < 0.0
  {
    if l == Front then CameraSetting(PositionScaleFactorFront, YOffsetFront, UnifiedScaleFactorFront)
    else CameraSetting(PositionScaleFactorBack, YOffsetBack, UnifiedScaleFactorBack)
  }

  /** The back camera spreads positions wider and draws the ring larger. */
  lemma BackCameraWider()
    ensures SettingFor(Back).positionScale > SettingFor(Front).positionScale
    ensures SettingFor(Back).baseScale > SettingFor(Front).baseScale
  {
  }

  // ---- one frame of the hand landmarker ---------------------------------------

  /** A normalised landmark: x and y in image coordinates, z a relative depth. */
  datatype Landmark = Landmark(x: real, y: real, z: real)

  /** One detected hand: its screen landmarks and world landmarks, each a
      list per hand as the landmarker reports them. */
  datatype HandResult = HandResult(landmarks: seq<seq<Landmark>>, worldLandmarks: seq<seq<Landmark>>)

  /** Width and height of a camera image. */
  type Pixels = n: int | n > 0 witness 1

  datatype ResultBundle = ResultBundle(results: seq<HandResult>, inputImageWidth: Pixels, inputImageHeight: Pixels)

  /** What onResults needs from HandLandmarkerHelper, whose code is not part
      of this model: its minimum number of world landmarks and its finger
      diameter estimate from the world landmarks and a ratio. */
  datatype LandmarkerHelper = LandmarkerHelper(
    minWorldLandmarks: int,
    estimateFingerDiameter: (seq<Landmark>, real) -> real)

  /** The gate of onResults: at least one result, whose first hand has more
      than 15 screen landmarks and at least the helper's minimum of world
      landmarks. */
  predicate HasRingFinger(b: ResultBundle, h: LandmarkerHelper) {
    |b.results| > 0 &&
    |b.results[0].landmarks| > 0 && |b.results[0].landmarks[0]| > 15 &&
    |b.results[0].worldLandmarks| > 0 && |b.results[0].worldLandmarks[0]| >= h.minWorldLandmarks
  }

  /** The point halfway between two landmarks. */
  function Midpoint(a: Landmark, b: Landmark): (r: Landmark)
    ensures r.x - a.x == b.x - r.x && r.y - a.y == b.y - r.y && r.z - a.z == b.z - r.z
  {
    Landmark((a.x + b.x) / 2.0, (a.y + b.y) / 2.0, (a.z + b.z) / 2.0)
  }

  /** The ring's anchor: the middle of the segment from PIP to DIP on screen. */
  function Anchor(screen: seq<Landmark>): Landmark
    requires |screen| > 15
  {
    Midpoint(screen[RingFingerPip], screen[RingFingerDip])
  }

  function AspectRatio(b: ResultBundle): (r: real)
    ensures r > 0.0
  {
    (b.inputImageWidth as real) / (b.inputImageHeight as real)
  }

  // ---- screen to world --------------------------------------------------------

  /** The linear map from a normalised anchor to the ring's world position:
      x is centred and corrected by the aspect ratio, y is centred, flipped
      (screen y grows downwards) and offset, z is the depth times a constant. */
  function ScreenToWorld(a: Landmark, c: CameraSetting, aspect: real): Vec3 {
    Vec3((a.x - 0.5) * c.positionScale * aspect,
         (0.5 - a.y) * c.positionScale + c.yOffset,
         a.z * DepthScaleFactor)
  }

  /** The anchor a world position comes from. */
  function WorldToScreen(p: Vec3, c: CameraSetting, aspect: real): Landmark
    requires c.positionScale > 0.0 && aspect > 0.0
  {
    Landmark(p.x / (c.positionScale * aspect) + 0.5,
             0.5 - (p.y - c.yOffset) / c.positionScale,
             p.z / DepthScaleFactor)
  }

  /** The map from screen to world is a bijection: each side undoes the other. */
  lemma ScreenWorldRoundTrip(a: Landmark, p: Vec3, c: CameraSetting, aspect: real)
    requires c.positionScale > 0.0 && aspect > 0.0
    ensures WorldToScreen(ScreenToWorld(a, c, aspect), c, aspect) == a
    ensures ScreenToWorld(WorldToScreen(p, c, aspect), c, aspect) == p
  {
    var q := ScreenToWorld(a, c, aspect);
    var b := WorldToScreen(p, c, aspect);
    Unscale(a.x, c.positionScale, aspect, q.x);
    UnscaleShifted(a.y, c.positionScale, c.yOffset, q.y);
    PositiveProduct(c.positionScale, aspect);
    MultiplyBack(p.x, c.positionScale * aspect, b.x - 0.5);
    assert (b.x - 0.5) * c.positionScale * aspect == (b.x - 0.5) * (c.positionScale * aspect);
    MultiplyBack(p.y - c.yOffset, c.positionScale, 0.5 - b.y);
  }

  lemma Unscale(u: real, k: real, aspect: real, w: real)
    requires k > 0.0 && aspect > 0.0 && w == (u - 0.5) * k * aspect
    ensures w / (k * aspect) + 0.5 == u
  {
    var d := k * aspect;
    PositiveProduct(k, aspect);
    assert w == (u - 0.5) * d;
    DivideOut(u - 0.5, d, w);
  }

  lemma UnscaleShifted(u: real, k: real, offset: real, w: real)
    requires k > 0.0 && w == (0.5 - u) * k + offset
    ensures 0.5 - (w - offset) / k == u
  {
    DivideOut(0.5 - u, k, w - offset);
  }

  lemma DivideOut(x: real, d: real, w: real)
    requires d != 0.0 && w == x * d
    ensures w / d == x
  {
  }

  lemma MultiplyBack(w: real, d: real, q: real)
    requires d != 0.0 && q == w / d
    ensures q * d == w
  {
  }

  /** An anchor in the middle of the image puts the ring at (0, yOffset),
      in front of or behind the camera by its depth. */
  lemma CentreMapsToOffset(z: real, c: CameraSetting, aspect: real)
    ensures ScreenToWorld(Landmark(0.5, 0.5, z), c, aspect) == Vec3(0.0, c.yOffset, z * DepthScaleFactor)
  {
    CentreTermsVanish(c.positionScale, aspect);
  }

  lemma CentreTermsVanish(k: real, aspect: real)
    ensures (0.5 - 0.5) * k * aspect == 0.0 && (0.5 - 0.5) * k == 0.0
  {
  }

  /** Moving the anchor right on screen moves the ring right; moving it down
      on screen moves the ring down. */
  lemma ScreenToWorldMonotone(a: Landmark, b: Landmark, c: CameraSetting, aspect: real)
    requires c.positionScale > 0.0 && aspect > 0.0
    ensures a.x < b.x ==> ScreenToWorld(a, c, aspect).x < ScreenToWorld(b, c, aspect).x
    ensures a.y < b.y ==> ScreenToWorld(a, c, aspect).y > ScreenToWorld(b, c, aspect).y
  {
    var k := c.positionScale;
    Increasing(a.x - 0.5, b.x - 0.5, k * aspect);
    Increasing(0.5 - b.y, 0.5 - a.y, k);
    assert (a.x - 0.5) * k * aspect == (a.x - 0.5) * (k * aspect);
    assert (b.x - 0.5) * k * aspect == (b.x - 0.5) * (k * aspect);
  }

  lemma Increasing(u: real, v: real, k: real)
    requires k > 0.0
    ensures u < v ==> u * k < v * k
  {
    if u < v {
      assert (v - u) * k > 0.0;
    }
  }

  // ---- the dynamic scale ------------------------------------------------------

  /** Kotlin's coerceIn: v brought into [lo, hi]. */
  function CoerceIn(v: real, lo: real, hi: real): (r: real)
    requires lo <= hi
    ensures lo <= r <= hi
    ensures lo <= v <= hi ==> r == v
    ensures r == v || (v < lo && r == lo) || (v > hi && r == hi)
  {
    if v < lo then lo else if v > hi then hi else v
  }

  /** 1 + (z - 0.5) * sensitivity: larger or smaller for a deeper hand. */
  function ZModulation(z: real, sensitivity: real): real {
    1.0 + (z - 0.5) * sensitivity
  }

  /** The camera's base scale factor modulated by depth, the modulation
      clamped to [0.8, 1.2]. */
  function DynamicScaleFactor(base: real, z: real, sensitivity: real): real {
    base * CoerceIn(ZModulation(z, sensitivity), ModulationFloor, ModulationCeiling)
  }

  /** The factor never leaves [0.8 base, 1.2 base]. */
  lemma DynamicScaleBounds(base: real, z: real, sensitivity: real)
    requires base >= 0.0
    ensures 0.8 * base <= DynamicScaleFactor(base, z, sensitivity) <= 1.2 * base
  {
    var t := CoerceIn(ZModulation(z, sensitivity), ModulationFloor, ModulationCeiling);
    BoundedProduct(base, t);
  }

  lemma BoundedProduct(base: real, t: real)
    requires base >= 0.0 && 0.8 <= t <= 1.2
    ensures 0.8 * base <= base * t <= 1.2 * base
  {
    assert base * (t - 0.8) >= 0.0;
    assert base * (1.2 - t) >= 0.0;
  }

  /** With sensitivity zero the factor is the base factor itself. */
  lemma NoModulation(base: real, z: real)
    ensures DynamicScaleFactor(base, z, 0.0) == base
  {
    assert (z - 0.5) * 0.0 == 0.0;
  }

  /** With the shipped sensitivity of -0.1 the clamp only acts on depths
      outside [-1.5, 2.5]: inside, the factor is the plain modulation. */
  lemma ClampInactiveNearCamera(base: real, z: real)
    requires -1.5 <= z <= 2.5
    ensures DynamicScaleFactor(base, z, ZModulationSensitivity) == base * (1.0 - 0.1 * (z - 0.5))
  {
  }

  // ---- the finger direction ---------------------------------------------------

  /** The segment from the PIP to the DIP joint in world landmarks. */
  function Segment(world: seq<Landmark>): Vec3
    requires |world| > 15
  {
    Vec3(world[RingFingerDip].x - world[RingFingerPip].x,
         world[RingFingerDip].y - world[RingFingerPip].y,
         world[RingFingerDip].z - world[RingFingerPip].z)
  }

  /** The segment divided by its length, or straight up when it is shorter
      than 0.0001. */
  function FingerDirection(v: Vec3, m: Math): Vec3 {
    DirectionFrom(v, m.sqrt(Dot(v, v)))
  }

  /** The segment v divided by its length len, or world up for a length of
      at most 0.0001. */
  function DirectionFrom(v: Vec3, len: real): Vec3 {
    if len > MinSegmentLength then Vec3(v.x / len, v.y / len, v.z / len) else WorldUp
  }

  /** The finger direction is always a unit vector. A segment whose squared
      length exceeds 0.0001 squared gives the unit vector along it, the
      normalised segment; any other segment gives exactly world up. */
  lemma FingerDirectionSpec(v: Vec3, m: Math)
    requires m.SqrtSound()
    ensures Dot(FingerDirection(v, m), FingerDirection(v, m)) == 1.0
    ensures Dot(v, v) > 0.00000001 ==>
      FingerDirection(v, m) == Normalize(v, m) && Dot(FingerDirection(v, m), v) > 0.0 &&
      Cross(FingerDirection(v, m), v) == Zero
    ensures Dot(v, v) <= 0.00000001 ==> FingerDirection(v, m) == WorldUp
  {
    var t := Dot(v, v);
    var len := m.sqrt(t);
    DotNonnegative(v);
    if t > 0.0 {
      LengthThreshold(t, len);
      if len > MinSegmentLength {
        NormalizedIsUnit(v, len, FingerDirection(v, m));
      }
    } else {
      assert len == 0.0;
    }
  }

  /** For a positive t and its positive root, the root exceeds 0.0001
      exactly when t exceeds its square. */
  lemma LengthThreshold(t: real, len: real)
    requires t > 0.0 && len > 0.0 && len * len == t
    ensures len > MinSegmentLength <==> t > 0.00000001
  {
    if len > MinSegmentLength {
      assert (len - MinSegmentLength) * len > 0.0;
      assert (len - MinSegmentLength) * MinSegmentLength > 0.0;
    } else {
      NonnegativeProduct(MinSegmentLength - len, len);
      NonnegativeProduct(MinSegmentLength - len, MinSegmentLength);
    }
  }

  /** A degenerate finger points straight up, so the base frame takes its
      world-X fallback: finger up, side axis along world X, and the middle
      axis pointing away from the viewer. */
  lemma DegenerateFingerFrame(m: Math)
    requires m.SqrtSound()
    ensures NearlyVertical(WorldUp)
    ensures AlignedBasis(WorldUp, m) == Axes(WorldUp, Vec3(0.0, 0.0, -1.0), WorldX)
  {
    var down := Vec3(0.0, 0.0, -1.0);
    UpIsVertical();
    NormalizeUnit(WorldUp, m);
    SideOfUp(m);
    assert Cross(WorldUp, WorldX) == down;
    NormalizeUnit(down, m);
  }

  /** The side axis of straight up is world X. */
  lemma SideOfUp(m: Math)
    requires m.SqrtSound()
    ensures SideAxis(WorldUp, m) == WorldX
  {
    SideDirectionOfUp();
    NormalizeUnit(WorldX, m);
  }

  lemma UpIsVertical()
    ensures NearlyVertical(WorldUp)
  {
    assert ProjectOut(WorldUp, WorldUp) == Zero;
  }

  lemma SideDirectionOfUp()
    ensures SideDirection(WorldUp) == WorldX
  {
    UpIsVertical();
    ProjectOutOfPerpendicular(WorldX, WorldUp);
  }

  // ---- the whole frame --------------------------------------------------------

  /** What a frame does to the overlay: hide it, show it and hand the
      renderer a transform, or show it and then fail on a world landmark
      index (when the helper's minimum admits fewer than 16 of them). */
  datatype FrameOutcome = Hidden | Shown(transform: seq<real>) | IndexFault

  /** The dynamic scale: the estimated finger diameter times the camera's
      depth-modulated scale factor. */
  function DynamicScale(world: seq<Landmark>, anchor: Landmark, lens: LensFacing, h: LandmarkerHelper): real {
    h.estimateFingerDiameter(world, RingFingerDiameterRatio) *
      DynamicScaleFactor(SettingFor(lens).baseScale, anchor.z, ZModulationSensitivity)
  }

  /** The outcome of one frame for the current lens and model. */
  function Frame(b: ResultBundle, lens: LensFacing, name: string, h: LandmarkerHelper, m: Math): (r: FrameOutcome)
    ensures r.Hidden? <==> !HasRingFinger(b, h)
    ensures r.IndexFault? <==> HasRingFinger(b, h) && |b.results[0].worldLandmarks[0]| <= 15
    ensures r.Shown? ==> |r.transform| == 16 && Affine(r.transform)
  {
    if !HasRingFinger(b, h) then Hidden
    else
      var screen := b.results[0].landmarks[0];
      var world := b.results[0].worldLandmarks[0];
      if |world| <= 15 then IndexFault
      else
        var anchor := Anchor(screen);
        var p := ScreenToWorld(anchor, SettingFor(lens), AspectRatio(b));
        Shown(CalculateTransformMatrix(p.x, p.y, p.z, DynamicScale(world, anchor, lens, h),
                                       FingerDirection(Segment(world), m), name, m))
  }

  /** A shown frame places the ring at the world position of the anchor
      (the midpoint of the ring finger's PIP and DIP on screen) for any known
      model, and gives exactly the identity for any other model name. */
  lemma ShownFramePlacement(b: ResultBundle, lens: LensFacing, name: string, h: LandmarkerHelper, m: Math)
    requires Frame(b, lens, name, h, m).Shown?
    ensures var t := Frame(b, lens, name, h, m).transform;
      |t| == 16 &&
      (name in {"21.glb", "23.glb", "27.glb"} ==>
        Column(t, 3) == ScreenToWorld(Anchor(b.results[0].landmarks[0]), SettingFor(lens), AspectRatio(b))) &&
      (name !in {"21.glb", "23.glb", "27.glb"} ==> t == Identity())
  {
  }

  /** For models 21 and 27 a shown frame's transform is a rotation of the
      ring scaled uniformly by s: the frame's dynamic scale d times the
      model's multiplier (1 for model 21, 1.2 for model 27). */
  lemma ShownRingIsRigid(b: ResultBundle, lens: LensFacing, name: string, h: LandmarkerHelper, m: Math, d: real, s: real)
    requires m.Valid() && Frame(b, lens, name, h, m).Shown?
    requires name == "21.glb" || name == "27.glb"
    requires d == DynamicScale(b.results[0].worldLandmarks[0], Anchor(b.results[0].landmarks[0]), lens, h)
    requires s == d * (if name == "27.glb" then Ring27 else Ring21).scaleMultiplier
    ensures UniformlyScaled(Frame(b, lens, name, h, m).transform, s)
  {
    var world := b.results[0].worldLandmarks[0];
    var anchor := Anchor(b.results[0].landmarks[0]);
    var p := ScreenToWorld(anchor, SettingFor(lens), AspectRatio(b));
    var dir := FingerDirection(Segment(world), m);
    assert Frame(b, lens, name, h, m).transform == CalculateTransformMatrix(p.x, p.y, p.z, d, dir, name, m);
    FingerDirectionSpec(Segment(world), m);
    RigidModels(p.x, p.y, p.z, d, dir, name, m, s);
  }
}
