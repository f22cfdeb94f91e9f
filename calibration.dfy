/** The per-model calibration of the ring pipelines. The three
    calculateTransformMatrixFor* functions run the same six steps and differ
    only in four constants; a Profile records them. */
module Calibration {

  datatype Option<T> = None | Some(value: T)

  /** Angles are in degrees, as written in the source; xFlip and zFlip are
      the factors of the two flip steps, scaleMultiplier the factor applied
      to the dynamic scale. */
  datatype Profile = Profile(
    pitchDeg: real,
    xFlip: real,
    yawDeg: real,
    rollDeg: real,
    zFlip: real,
    finalPitchDeg: real,
    scaleMultiplier: real)

  const Ring21 := Profile(-10.0, -1.0, 5.0, 20.0, -1.0, 54.0, 1.0)
  const Ring23 := Profile(-10.0, -1.0, 20.0, 20.0, -1.1, 170.0, 1.0)
  const Ring27 := Profile(-10.0, -1.0, 80.0, 20.0, -1.0, 120.0, 1.2)

  /** The profile of a model file name; only the three known names have one. */
  function ProfileFor(name: string): (r: Option<Profile>)
    ensures r.Some? <==> name in {"21.glb", "23.glb", "27.glb"}
    ensures r.Some? ==> r.value.pitchDeg == -10.0 && r.value.rollDeg == 20.0 && r.value.xFlip == -1.0
    ensures r.Some? ==> (r.value.zFlip == -1.1 <==> name == "23.glb")
    ensures r.Some? ==> (r.value.scaleMultiplier == 1.2 <==> name == "27.glb")
  {
    if name == "21.glb" then Some(Ring21)
    else if name == "23.glb" then Some(Ring23)
    else if name == "27.glb" then Some(Ring27)
    else None
  }
}
