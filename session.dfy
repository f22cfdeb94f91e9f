/** The activity's mutable state around the pipeline: the lens in use, the
    model on show, whether the overlay is visible, and the transforms handed
    to the renderer. The camera, the renderer and the landmarker are outside
    the model; what the activity reads from them are parameters. */
module Session {
  import opened RealMath
  import opened Vectors
  import opened Transform
  import opened Tracking

  class TryOnSession {
    /** currentLensFacing */
    var lensFacing: LensFacing
    /** currentModelName */
    var modelName: string
    /** whether fragmentContainer is VISIBLE (as opposed to GONE) */
    var overlayVisible: bool
    /** every transform passed to updateModelTransform, oldest first */
    var sent: seq<seq<real>>
    const helper: LandmarkerHelper
    const math: Math

    /** A new session uses the front camera and model 21. The overlay's
        view starts out visible: the default for an Android view, since
        nothing sets it before the first frame. */
    constructor(helper: LandmarkerHelper, math: Math)
      ensures lensFacing == Front && modelName == "21.glb" && overlayVisible && sent == []
      ensures this.helper == helper && this.math == math
    {
      lensFacing := Front;
      modelName := "21.glb";
      overlayVisible := true;
      sent := [];
      this.helper := helper;
      this.math := math;
    }

    /** Select a model and hide the overlay until the next frame shows it. */
    method LoadModel(name: string)
      modifies this
      ensures modelName == name && !overlayVisible
      ensures lensFacing == old(lensFacing) && sent == old(sent)
    {
      modelName := name;
      overlayVisible := false;
    }

    /** Hide the overlay and use the other camera. */
    method SwitchCamera()
      modifies this
      ensures lensFacing == Toggled(old(lensFacing)) && !overlayVisible
      ensures modelName == old(modelName) && sent == old(sent)
    {
      overlayVisible := false;
      if lensFacing == Back {
        lensFacing := Front;
      } else {
        lensFacing := Back;
      }
    }

    /** A landmarker error hides the overlay. */
    method OnError()
      modifies this
      ensures !overlayVisible
      ensures lensFacing == old(lensFacing) && modelName == old(modelName) && sent == old(sent)
    {
      overlayVisible := false;
    }

    /** One frame: the outcome is the frame's, for the lens and model in use,
        whatever happened on earlier frames; the overlay is visible unless
        the frame is hidden, and a shown frame's transform is sent. */
    method OnResults(b: ResultBundle) returns (outcome: FrameOutcome)
      modifies this
      ensures outcome == Frame(b, old(lensFacing), old(modelName), helper, math)
      ensures overlayVisible <==> !outcome.Hidden?
      ensures sent == old(sent) + (if outcome.Shown? then [outcome.transform] else [])
      ensures lensFacing == old(lensFacing) && modelName == old(modelName)
    {
      if |b.results| == 0 {
        overlayVisible := false;
        return Hidden;
      }
      var hand := b.results[0];
      if !(|hand.landmarks| > 0 && |hand.landmarks[0]| > 15 &&
           |hand.worldLandmarks| > 0 && |hand.worldLandmarks[0]| >= helper.minWorldLandmarks) {
        overlayVisible := false;
        return Hidden;
      }
      overlayVisible := true;
      var screen := hand.landmarks[0];
      var world := hand.worldLandmarks[0];
      var anchor := Midpoint(screen[RingFingerPip], screen[RingFingerDip]);
      var p := ScreenToWorld(anchor, SettingFor(lensFacing), AspectRatio(b));
      if |world| <= 15 {
        return IndexFault;
      }
      // the finger direction, normalised in place
      var dir := Segment(world);
      var len := math.sqrt(Dot(dir, dir));
      if len > MinSegmentLength {
        dir := Vec3(dir.x / len, dir.y / len, dir.z / len);
      } else {
        dir := Vec3(0.0, 1.0, 0.0);
      }
      assert dir == DirectionFrom(Segment(world), len);
      var dynamicScale := DynamicScale(world, anchor, lensFacing, helper);
      var t := CalculateTransformMatrix(p.x, p.y, p.z, dynamicScale, dir, modelName, math);
      sent := sent + [t];
      outcome := Shown(t);
    }
  }
}
