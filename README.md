# Ring try-on pose pipeline, modelled in Dafny

The Android activity `MainActivity` overlays a 3D ring on the ring finger
in a camera preview. For every frame it receives hand landmarks from a hand
landmarker. It then:

- decides whether the frame shows a usable ring finger;
- maps the midpoint of the finger's PIP and DIP joints from screen
  coordinates into the renderer's world;
- sizes the ring from an estimated finger diameter, modulated by depth and
  clamped;
- orients it along the finger.

The orientation starts from a base frame. It is built by one Gram-Schmidt
step of world up (or of world X, when the finger is nearly vertical)
against the finger direction, followed by a cross product. One of three
per-model pipelines then applies six fixed steps:

1. pitch;
2. flip X;
3. yaw;
4. roll;
5. flip Z;
6. final pitch.

The result is laid out as a column-major 4x4 transform. The activity also
keeps a little state: the camera lens in use, the model on show, and
whether the overlay is visible.

The model works over real numbers.

- `sqrt`, and the cosine and sine of an angle in degrees, are fields of a
  `Math` value. `Math.Valid` states the only facts the proofs use:
  - sqrt(0) = 0;
  - the root of a positive number is positive and squares back to it;
  - cos² + sin² = 1.
- The three per-model functions differ only in their constants. They are
  written once, as `Compose.Orient` over a `Calibration.Profile`. Each of
  `Ring21`, `Ring23` and `Ring27` carries exactly the constants of its
  Kotlin function.
- The pure parts of the source (`dot`, `cross`, `normalize`, the basis and
  the pipelines) are functions with lemmas.
- The activity's fields (`currentLensFacing`, `currentModelName`, the
  visibility of `fragmentContainer`) are fields of the class
  `Session.TryOnSession`. So is the list of transforms handed to the
  renderer. `OnResults` is proved against the pure frame function
  `Tracking.Frame`; the other handlers state their effect on each field.

Modules and files:

| module | file | covers |
|---|---|---|
| RealMath | realmath.dfy | sqrt, cos and sin as parameters |
| Vectors | vectors.dfy | `dot`, `cross`, `normalize`, and the scale-and-add combination |
| Pose | pose.dfy | the base frame of `calculateTransformMatrix` |
| Calibration | calibration.dfy | the three model profiles and the dispatch on model name |
| Compose | compose.dfy | the six steps and what they do to the axes |
| Transform | transform.dfy | the 4x4 layout, the identity for unknown models, the final transform |
| Tracking | tracking.dfy | per-frame gating, anchor, screen-to-world map, dynamic scale, finger direction |
| Session | session.dfy | the activity's mutable state and its handlers |

Where the code and its comments or documentation disagree, the model
follows the code.

- Model 23 applies its factor of -1.1 to the third axis before the final
  pitch. So the stretch is spread over the second and third columns
  rather than landing on the third column alone.
  `Compose.OrientShapeOf23` states the resulting lengths and angle.
- The base triple (finger, finger × side, side) has determinant -1, as
  `Pose.BasisLeftHanded` proves. It is not a right-handed frame.
- An unknown model name yields the plain identity, with no translation or
  scale.

## Model

| member | source | states |
|---|---|---|
| Vectors.NormalizeSpec | app/src/main/java/com/example/myapplication/MainActivity.kt:680-684 | a zero-length vector normalises to (0,0,0); any other vector to a unit vector with positive component along it and zero cross product with it |
| Vectors.CrossPerpendicular | app/src/main/java/com/example/myapplication/MainActivity.kt:686-692 | the cross product is perpendicular to both arguments |
| Vectors.CrossLength | app/src/main/java/com/example/myapplication/MainActivity.kt:686-692 | Lagrange's identity: (a × b)·(a × b) = (a·a)(b·b) − (a·b)² |
| Vectors.NormalizeKeepsOrthogonal | app/src/main/java/com/example/myapplication/MainActivity.kt:680-684 | normalising keeps a vector perpendicular to anything it was perpendicular to |
| Vectors.NormalizeUnit | app/src/main/java/com/example/myapplication/MainActivity.kt:680-684 | normalising a unit vector returns it unchanged |
| Vectors.DotMix | app/src/main/java/com/example/myapplication/MainActivity.kt:676-678 | dot is bilinear over the scale-and-add combinations the pipelines use |
| Pose.ProjectOutSpec | app/src/main/java/com/example/myapplication/MainActivity.kt:444-449 | against a unit finger axis the projected up vector has zero dot product with it and has lost exactly the square of its component along it |
| Pose.SideAxisUnit | app/src/main/java/com/example/myapplication/MainActivity.kt:451-466 | for a unit finger axis the side axis is unit and perpendicular to it, leaning towards world up, or towards world X when the projection's squared length is below 0.00001 |
| Pose.FallbackHasRoom | app/src/main/java/com/example/myapplication/MainActivity.kt:453-463 | in the fallback branch the projection of world X is never degenerate |
| Pose.BasisFollowsFinger | app/src/main/java/com/example/myapplication/MainActivity.kt:437-472 | baseX is the normalised finger direction: unit and pointing the same way |
| Pose.BasisMiddleAxisPerpendicular | app/src/main/java/com/example/myapplication/MainActivity.kt:468-474 | modelX_aligned is perpendicular to both modelY_aligned and modelZ_aligned, for any direction |
| Pose.BasisOrthonormal | app/src/main/java/com/example/myapplication/MainActivity.kt:435-474 | for every nonzero finger direction the three base axes are orthonormal |
| Pose.BasisLeftHanded | app/src/main/java/com/example/myapplication/MainActivity.kt:468-474 | the determinant of (baseX, baseY, baseZ) is -1 |
| Calibration.ProfileFor | app/src/main/java/com/example/myapplication/MainActivity.kt:476-481 | exactly the three known names have a profile; all share pitch -10°, roll 20° and X flip -1; the Z factor is -1.1 exactly for model 23 and the scale multiplier 1.2 exactly for model 27 |
| Compose.TurnPair | app/src/main/java/com/example/myapplication/MainActivity.kt:495-501 | turning two perpendicular vectors by (c, s) gives the new squared lengths c²(u·u)+s²(v·v) and s²(u·u)+c²(v·v) and the dot product cs(u·u−v·v) |
| Compose.PitchOfPerpendicular | app/src/main/java/com/example/myapplication/MainActivity.kt:495-501 | pitch keeps the first axis and its right angles, and gives the new lengths and angle of the other two |
| Compose.YawOfPerpendicular | app/src/main/java/com/example/myapplication/MainActivity.kt:508-514 | the same for yaw (second axis kept) |
| Compose.RollOfPerpendicular | app/src/main/java/com/example/myapplication/MainActivity.kt:516-522 | the same for roll (third axis kept) |
| Compose.FlipXOfPerpendicular | app/src/main/java/com/example/myapplication/MainActivity.kt:503-506 | scaling the first axis by k keeps the right angles and multiplies its squared length by k² |
| Compose.FlipZOfPerpendicular | app/src/main/java/com/example/myapplication/MainActivity.kt:524-527 | the same for the third axis |
| Compose.PitchKeepsOrthonormal | app/src/main/java/com/example/myapplication/MainActivity.kt:529-535 | with c²+s²=1 a pitch (initial or final) keeps an orthonormal frame orthonormal |
| Compose.YawKeepsOrthonormal | app/src/main/java/com/example/myapplication/MainActivity.kt:508-514 | the same for yaw |
| Compose.RollKeepsOrthonormal | app/src/main/java/com/example/myapplication/MainActivity.kt:516-522 | the same for roll |
| Compose.FlipXKeepsOrthonormal | app/src/main/java/com/example/myapplication/MainActivity.kt:503-506 | a ±1 flip of the first axis keeps the frame orthonormal |
| Compose.FlipZKeepsOrthonormal | app/src/main/java/com/example/myapplication/MainActivity.kt:524-527 | a ±1 flip of the third axis keeps the frame orthonormal |
| Compose.TurnedOrthonormal | app/src/main/java/com/example/myapplication/MainActivity.kt:495-522 | steps 1-4 keep an orthonormal frame orthonormal |
| Compose.OrientOrthonormal | app/src/main/java/com/example/myapplication/MainActivity.kt:495-540 | all six steps keep an orthonormal frame orthonormal when both flips are ±1 (models 21 and 27) |
| Compose.OrientFirstAxis | app/src/main/java/com/example/myapplication/MainActivity.kt:586-602 | whatever the Z factor, the final first axis is unit and perpendicular to the other two |
| Compose.StretchOf23 | app/src/main/java/com/example/myapplication/MainActivity.kt:586-597 | model 23's flip by -1.1 then final pitch: squared lengths c²+1.21s² and s²+1.21c², dot product -0.21cs |
| Compose.OrientShapeOf23 | app/src/main/java/com/example/myapplication/MainActivity.kt:551-602 | model 23's final axes have exactly those lengths and angle, and the last two squared lengths add up to 2.21 |
| Compose.Model23NotOrthonormal | app/src/main/java/com/example/myapplication/MainActivity.kt:586-597 | model 23's final frame is never orthonormal |
| Transform.CalculateTransformMatrix | app/src/main/java/com/example/myapplication/MainActivity.kt:435-482 | the result has 16 entries with bottom row (0,0,0,1); an unknown name gives exactly the identity; a known name puts (x, y, z) in the last column |
| Transform.IdentityDiagonal | app/src/main/java/com/example/myapplication/MainActivity.kt:480-480 | the unknown-model matrix has 1 exactly on the diagonal and 0 elsewhere |
| Transform.TransformLayout | app/src/main/java/com/example/myapplication/MainActivity.kt:542-548 | entries 0-2, 4-6 and 8-10 are s·finalX, s·finalY and s·finalZ; entries 3, 7 and 11 are 0; entries 12-14 are (x, y, z); entry 15 is 1 |
| Transform.TransformColumns | app/src/main/java/com/example/myapplication/MainActivity.kt:542-548 | column lengths and angles are those of the final axes, scaled by s² |
| Transform.OrthonormalScaled | app/src/main/java/com/example/myapplication/MainActivity.kt:542-548 | orthonormal final axes give three perpendicular columns of squared length s² |
| Transform.RigidModels | app/src/main/java/com/example/myapplication/MainActivity.kt:485-673 | for models 21 and 27 and any nonzero direction the transform is a uniform scaling by s = dynamicScale (model 21) or 1.2·dynamicScale (model 27) |
| Transform.StretchedModel | app/src/main/java/com/example/myapplication/MainActivity.kt:551-611 | for model 23 the first column has squared length s² and is perpendicular to the others; the other columns carry the stretched final axes scaled by s² |
| Tracking.Toggled | app/src/main/java/com/example/myapplication/MainActivity.kt:166-170 | switching always selects the other camera |
| Tracking.ToggleTwice | app/src/main/java/com/example/myapplication/MainActivity.kt:166-170 | switching twice restores the original lens |
| Tracking.SettingFor | app/src/main/java/com/example/myapplication/MainActivity.kt:337-345 | position and base scale factors are positive; the y offset is negative exactly for the front camera |
| Tracking.BackCameraWider | app/src/main/java/com/example/myapplication/MainActivity.kt:50-67 | the back camera has the larger position factor (0.6 vs 0.4) and base scale (40 vs 25) |
| Tracking.Midpoint | app/src/main/java/com/example/myapplication/MainActivity.kt:328-330 | the anchor is equidistant from PIP and DIP in every coordinate |
| Tracking.AspectRatio | app/src/main/java/com/example/myapplication/MainActivity.kt:349-349 | the aspect ratio of a camera image is positive |
| Tracking.ScreenWorldRoundTrip | app/src/main/java/com/example/myapplication/MainActivity.kt:357-359 | the screen-to-world map is a bijection: it and its inverse undo each other |
| Tracking.CentreMapsToOffset | app/src/main/java/com/example/myapplication/MainActivity.kt:357-359 | an anchor at (0.5, 0.5) maps to (0, yOffset) |
| Tracking.ScreenToWorldMonotone | app/src/main/java/com/example/myapplication/MainActivity.kt:357-358 | moving right on screen moves the ring right; moving down on screen moves it down |
| Tracking.CoerceIn | app/src/main/java/com/example/myapplication/MainActivity.kt:354-354 | the result lies in [lo, hi], equals v when v is inside, and is the nearer bound otherwise |
| Tracking.DynamicScaleBounds | app/src/main/java/com/example/myapplication/MainActivity.kt:353-354 | dynamicModelSpecificScaleFactor lies in [0.8·base, 1.2·base] |
| Tracking.NoModulation | app/src/main/java/com/example/myapplication/MainActivity.kt:53-59 | with sensitivity 0 the factor equals the base factor |
| Tracking.ClampInactiveNearCamera | app/src/main/java/com/example/myapplication/MainActivity.kt:353-354 | with sensitivity -0.1 the clamp only acts for depths outside [-1.5, 2.5] |
| Tracking.FingerDirectionSpec | app/src/main/java/com/example/myapplication/MainActivity.kt:364-378 | the finger direction is always unit; above length 0.0001 it is the normalised segment; otherwise exactly (0,1,0) |
| Tracking.DegenerateFingerFrame | app/src/main/java/com/example/myapplication/MainActivity.kt:453-474 | a degenerate finger (pointing straight up) takes the world-X fallback and gives the base frame ((0,1,0), (0,0,-1), (1,0,0)) |
| Tracking.Frame | app/src/main/java/com/example/myapplication/MainActivity.kt:307-399 | a frame is hidden exactly when the gate fails (no result, at most 15 screen landmarks, or too few world landmarks); it faults exactly when the gate passes with at most 15 world landmarks; a shown frame's transform is affine |
| Tracking.ShownFramePlacement | app/src/main/java/com/example/myapplication/MainActivity.kt:326-389 | a shown frame places a known model at the world position of the PIP-DIP midpoint and gives the identity for any other name |
| Tracking.ShownRingIsRigid | app/src/main/java/com/example/myapplication/MainActivity.kt:380-389 | for models 21 and 27 a shown frame's transform is a uniform scaling by the dynamic scale times the model's multiplier |
| Session.TryOnSession.constructor | app/src/main/java/com/example/myapplication/MainActivity.kt:42-43 | a session starts on the front camera with model 21 and nothing sent |
| Session.TryOnSession.LoadModel | app/src/main/java/com/example/myapplication/MainActivity.kt:147-149 | sets the model name and hides the overlay; the lens is unchanged |
| Session.TryOnSession.SwitchCamera | app/src/main/java/com/example/myapplication/MainActivity.kt:159-171 | hides the overlay and selects the other lens; the model is unchanged |
| Session.TryOnSession.OnError | app/src/main/java/com/example/myapplication/MainActivity.kt:401-408 | hides the overlay and changes nothing else |
| Session.TryOnSession.OnResults | app/src/main/java/com/example/myapplication/MainActivity.kt:307-399 | the outcome is the frame's for the current lens and model, whatever earlier frames did; the overlay is visible exactly when the frame is not hidden; a shown frame's transform is appended to the sent list and nothing else is sent |

## Left out

- Camera, permission and lifecycle code, CameraX binding, executors,
  Toasts and `runOnUiThread`: these are I/O and threading. A handler runs
  as one atomic step.
- The reinitialisation callback that `loadModel` and `switchCamera` hand to
  the renderer fragment is taken to complete at once; `bindCameraUseCases`,
  which both callbacks call, is camera I/O and not modelled.
- The renderer fragment is taken to be always present. In the source every
  call on it goes through `modelDisplayFragment?.`. If the fragment is
  null, the switch callback never runs, so the lens never toggles, and no
  transform is handed over, though the overlay still becomes visible.
- Session.TryOnSession.SwitchCamera: toggles the lens within the call,
  where the source toggles it inside that callback.
- Session.TryOnSession.constructor: the overlay starts out visible. The
  source never sets the visibility of `fragmentContainer` before the
  first frame, and its layout file is not part of this model, so the
  model takes Android's default for a view, VISIBLE.
- `updateModelTransform` is an external sink. It is modelled as appending
  to the `sent` list.
- `HandLandmarkerHelper` is not part of this model. Its
  `estimateFingerDiameter` and `MIN_WORLD_LANDMARKS_FOR_DIAMETER` are
  fields of a `LandmarkerHelper` value. If the minimum admits fewer than
  16 world landmarks, the source would index past the end after showing
  the overlay. `Tracking.Frame` reports that as `IndexFault` and sends
  nothing.
- IEEE single-precision rounding. The model uses real numbers.
  - The conversion from degrees to radians is folded into `cosDeg` and
    `sinDeg`.
  - The actual values of sqrt, cos and sin are not modelled: only the
    facts in `Math.Valid`.
  - Image width and height are positive integers, so the aspect ratio
    never divides by zero.
- Compose.OrientShapeOf23: the general statement "a Z factor k turns the
  final lengths into c²+k²s² and s²+k²c²" is proved only for model 23's
  k = -1.1. The models with k = ±1 are covered by
  `Compose.OrientOrthonormal`.
- The determinant of the final frame: only the base frame's determinant
  (-1) is proved.
- Log messages and their formatting.
- FilamentBridge.kt, ModelDisplayFragment.kt and the build configuration:
  rendering glue outside the pose pipeline.
