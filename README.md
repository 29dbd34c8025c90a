# Pan-to-orbit camera control (TestingGestures)

This project models the one piece of logic in the TestingGestures iOS
proof of concept: the pan-gesture handler of `ViewController` that turns a
drag into clamped orbit angles for a camera circling a sphere.

On every pan event the handler does the following:

- If the number of touches equals `fingersNeededToPan`, it divides the
  translation by the view's size.
- It clamps the height ratio to `[maxHeightRatioXDown, maxHeightRatioXUp]`
  and the width ratio to `[maxWidthRatioLeft, maxWidthRatioRight]`. Each
  clamp is two tests in a row: upper bound first, then lower bound.
- It sets the orbit's yaw to `-2π · widthRatio` and its pitch to
  `-π · heightRatio`.
- It records the finger count.
- It then keeps the last positive touch count in `lastFingersNumber`.
- On the recognizer's `.ended` phase, it copies the live ratios into
  `lastWidthRatio`/`lastHeightRatio`, but only if that count is the required one.

When the camera is set up, it takes its orbit angles from those committed
ratios.

Two modules:

- `PanOrbit` (PanOrbit.dfy) is the value model. `PanState` holds the
  controller's pan fields and the orbit angles. `Step` is one call of the
  handler and `Run` folds a sequence of events. The lemmas state what the
  handler promises.
- `TestingGestures` (ViewController.dfy) has the class `ViewController`
  with the same fields. Its constructor mirrors the field initialisers,
  `SetUpCameraOrbit` mirrors the initial camera set-up, and `Pan` mirrors
  the handler. `Pan` assigns one field at a time, like the source. Each
  method's `ensures` ties the new `State()` to the `PanOrbit` function of
  the old one. `Pan` delegates the body of the finger-count test to
  `FollowTranslation`.

Two representation choices:

- Ratios and angles are `real`.
- Both angle formulas are π times a ratio, so orbit angles are stored in
  units of π radians. `Radians(pi, a)` converts an angle for any positive π.

Two facts the proofs made explicit:

- With inverted bounds (lower above upper), the clamp always gives the
  lower bound, because that test runs second (`Clamp`).
- If `fingersNeededToPan` were not positive, a matching pan with that many
  touches would reset `lastFingersNumber` to it. In that case the count is
  not "kept" (`StepTracksFingers`). This cannot happen with the shipped
  value 1.

## Model

| member | source | states |
|---|---|---|
| PanOrbit.Initial | TestingGestures/ViewController.swift:24-36 | the initialiser values form a coherent state (ratios inside the default bounds, orbit matching the live ratios) whose set-up angles equal its orbit |
| PanOrbit.Track | TestingGestures/ViewController.swift:119-149 | a pan with the required touch count changes neither the policy nor the committed ratios, sets the orbit to the angles of the new ratios, records the required finger count, and sets each ratio to translation / size clamped to its bounds (so inside ordered bounds) |
| PanOrbit.CountFingers | TestingGestures/ViewController.swift:152 | the finger count becomes the touch count when that is positive; a non-positive touch count changes nothing; nothing but the finger count ever changes |
| PanOrbit.Commit | TestingGestures/ViewController.swift:154-158 | on an ended phase with the required finger count the committed ratios become the live ones; otherwise they stay the same; policy and finger count never change |
| PanOrbit.CommitKeepsView | TestingGestures/ViewController.swift:154-158 | committing leaves the live ratios and the orbit angles unchanged, whatever the phase and finger count |
| PanOrbit.Clamp | TestingGestures/ViewController.swift:124-139 | with ordered bounds the result lies in them; a value inside the bounds is returned unchanged; a value at or past a bound gives that bound; with inverted bounds the lower bound wins |
| PanOrbit.OrbitAngles | TestingGestures/ViewController.swift:141-142 | yaw is -2 per unit of width ratio and pitch is -1 per unit of height ratio (in π radians), so both ratios can be read back from the angles |
| PanOrbit.Radians | TestingGestures/ViewController.swift:141-142 | an angle in units of π, converted to radians, divided by π gives the angle back |
| PanOrbit.InitialAngles | TestingGestures/ViewController.swift:86-88 | the camera set-up angles encode the committed ratios, not the live ones |
| PanOrbit.Step | TestingGestures/ViewController.swift:110-159 | the policy fields never change; with a non-matching touch count the live ratios and orbit stay the same; the committed ratios become the live ones exactly when the phase is ended and the updated finger count is the required one, and otherwise stay the same |
| PanOrbit.Run | TestingGestures/ViewController.swift:110-159 | any sequence of pan events leaves the policy fields unchanged |
| PanOrbit.StepClampsHeight | TestingGestures/ViewController.swift:122-130 | after a matching pan the height ratio lies in [down, up] when down ≤ up; a raw ratio already inside is kept as translation / height; a raw ratio at or above up saturates to up, one at or below down to down |
| PanOrbit.StepClampsWidth | TestingGestures/ViewController.swift:119-139 | after a matching pan the width ratio lies in [left, right] when left ≤ right; a raw ratio already inside is kept as translation / width; a raw ratio at or above right saturates to right, one at or below left to left |
| PanOrbit.StepSetsOrbit | TestingGestures/ViewController.swift:141-142 | after a matching pan, in radians, yaw = -2π · widthRatio and pitch = -π · heightRatio for the clamped ratios |
| PanOrbit.StepOrbitBounded | TestingGestures/ViewController.swift:124-142 | with ordered bounds, after a matching pan, yaw lies in [-2·right, -2·left] and pitch in [-up, -down] |
| PanOrbit.StepIgnoresPriorState | TestingGestures/ViewController.swift:119-122 | the committed ratios are not added in: two states with the same policy give the same live ratios, orbit and finger count after the same matching pan |
| PanOrbit.StepIdempotent | TestingGestures/ViewController.swift:110-159 | handling the same event twice gives the same state as handling it once |
| PanOrbit.StepTracksFingers | TestingGestures/ViewController.swift:148-152 | the finger count becomes the touch count when that is positive; otherwise it is kept, except that a matching pan records fingersNeededToPan; with a positive policy: touch count if positive, else the previous value |
| PanOrbit.LiftedEndCommits | TestingGestures/ViewController.swift:152-158 | an ended event with zero touches, after a gesture with the required count, commits the live ratios and changes nothing else |
| PanOrbit.CommitRestoresOrbit | TestingGestures/ViewController.swift:154-156 | from a coherent state, after a commit the camera set-up angles equal the orbit shown |
| PanOrbit.QuarterWidthPan | TestingGestures/ViewController.swift:119-142 | with the default policy, a pan of a quarter of the view width gives width ratio 0.25, yaw -π/2 and pitch 0 |
| PanOrbit.SaturatedWidthPan | TestingGestures/ViewController.swift:134-141 | with the default policy, a pan of five view widths saturates at width ratio 1 and yaw -2π |
| PanOrbit.QuarterTurnAndLift | TestingGestures/ViewController.swift:110-158 | from the initial state, a one-finger quarter-width drag in a 1000-point view gives ratio 0.25, yaw -π/2 (-0.5 in π units), pitch 0 and finger count 1 with nothing else changed; the zero-touch ended event that follows commits those ratios and changes nothing else |
| PanOrbit.InitialState | TestingGestures/ViewController.swift:24-36 | initially every ratio is 0, fingersNeededToPan is 1, lastFingersNumber is 0, the state is coherent and the set-up angles are 0 |
| PanOrbit.StepKeepsCoherent | TestingGestures/ViewController.swift:116-158 | one pan event keeps the live and committed ratios in their bounds and the orbit equal to the angles of the live ratios |
| PanOrbit.RunKeepsCoherent | TestingGestures/ViewController.swift:116-158 | any sequence of pan events keeps the state coherent |
| PanOrbit.RunFromInitial | TestingGestures/ViewController.swift:24-36 | from the initial state, after any sequence of pan events, the ratios stay in the default bounds and the policy is unchanged |
| PanOrbit.RunWithoutMatchKeepsOrbit | TestingGestures/ViewController.swift:116-150 | a sequence of events none of which has the required touch count leaves the live ratios and the orbit unchanged |
| TestingGestures.ViewController.constructor | TestingGestures/ViewController.swift:24-36 | the fields start as their initialisers say, with an unrotated orbit node |
| TestingGestures.ViewController.SetUpCameraOrbit | TestingGestures/ViewController.swift:86-88 | the orbit angles become the set-up angles of the committed ratios; nothing else changes |
| TestingGestures.ViewController.Pan | TestingGestures/ViewController.swift:110-159 | the new state is Step of the old state and the event |
| TestingGestures.ViewController.FollowTranslation | TestingGestures/ViewController.swift:119-149 | the new state is the old one with clamped ratios, the orbit of those ratios and the required finger count |
| TestingGestures.QuarterTurnGesture | TestingGestures/ViewController.swift:110-159 | a one-finger quarter-width drag in a 1000-point view followed by lift-off gives yaw -π/2, pitch 0 and commits ratio 0.25 |

## Left out

- Scene and camera set-up: the sphere geometry, the texture, the orthographic camera parameters and the repeating sphere rotation (lines 46-101, apart from 87-88). These are calls into SceneKit with no local logic.
- Gesture-recognizer registration and dispatch, and the tap, pinch and `touchesBegan` handlers (lines 63-69, 103-107, 161-171). They are UIKit plumbing that only prints.
- The unused `pinchAttenuation` field and all console output, including the rounded values the handler prints (lines 35, 144-145, 157).
- How the translation, the view's frame size and the touch count are read from the recognizer. They are passed in as parameters.
- Division by a zero-sized view, which the source does not guard against. `Step`, `Pan` and `FollowTranslation` require a positive width and height instead, but only for an event whose touch count is the required one, since only such an event reaches the division.
- IEEE `Float` rounding and the concrete value of `Float.pi`. Ratios and angles are exact reals, and angles are stored in units of π.
- `cameraOrbit` is a separate SceneKit node in the source. Its two Euler angles are modelled as the fields `orbitX` and `orbitY` of the controller. Aliasing of that node is not modelled.
