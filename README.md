# First-person navigation controls, modelled in Dafny

This project models the navigation controller of `src/js/utils/touch-controls.js`. The
controller has three parts:

- **RotationPad** and **MovementPad** are two on-screen joystick pads. A pad follows
  the cursor while it is pressed. It keeps its handle inside a circular region and
  reports a pair of deltas in roughly -2..2. A 5 ms timer re-sends the last pair
  until it finds the pad released.
- **TouchControls** owns both pads. It turns their events, the keyboard (arrows and
  W/A/S/D) and right-button mouse drags into movement flags, speed multipliers and a
  camera rotation. The body's yaw is unclamped; the camera holder's pitch is clamped
  to ±maxPitch. Every frame, `update` runs a four-ray hit test that locks blocked
  directions, damps the velocity, pushes it along the unlocked active directions and
  moves the body.

Files:

- `option.dfy` (`Wrappers`) holds the `Option` type.
- `pad_geometry.dfy` (`PadGeometry`) is the pads' arithmetic:
  - cursor to local offset;
  - projection onto the circle;
  - rounding to a tenth;
  - `parseInt` truncation;
  - the linear remap onto -2..2;
  - the final rounding, which the rotation pad negates.
- `pads.dfy` (`Pads`) holds the two pad classes. Their fields are updated in place by
  press, drag, release and the repeat timer.
- `navigation.dfy` (`Navigation`) holds the controller's pure rules:
  - the configuration merge;
  - key bindings;
  - the camera-rotation clamp;
  - device coordinates;
  - hit-test locks;
  - the velocity step.
- `touch_controls.dfy` (`Controller`) is the `TouchControls` class with its handlers,
  setters, `hitTest` and `update`.
- `scenarios.dfy` (`Scenarios`) wires pads, input and frames together the way the
  constructor does.

The pad's source comment says the deltas are normalised into -2..2. That holds when
the region's centre and radius are whole numbers (`MovementDeltasWithinTwo`). `parseInt` truncates the handle position, not
its offset from the centre, so a fractional centre lets a delta reach 2.2
(`FractionalCentreOvershoots`). The model keeps the arithmetic as written.

## Model

| member | source | states |
|---|---|---|
| PadGeometry.Round | src/js/utils/touch-controls.js:105-106 | Math.round yields an integer within half a unit of its argument, halves rounding up |
| PadGeometry.RoundTenth | src/js/utils/touch-controls.js:105-106 | Math.round(x * 10) / 10 is a whole number of tenths within 0.05 of x, halves rounding up |
| PadGeometry.Trunc | src/js/utils/touch-controls.js:115-116 | parseInt of a number is its integer part, truncated towards zero, for either sign |
| PadGeometry.Clamp | src/js/utils/touch-controls.js:92-104 | a cursor inside the pad's circle is left where it is |
| PadGeometry.ClampWithinRegion | src/js/utils/touch-controls.js:92-104 | the projected handle lies within the circle, on it when the cursor was outside, on the same ray from the centre as the cursor |
| PadGeometry.Normalize | src/js/utils/touch-controls.js:117-125 | the remap v of an offset d satisfies v * r = 2d, and lies in -2..2 exactly when d lies within -radius..radius |
| PadGeometry.NormalizeIsLinear | src/js/utils/touch-controls.js:117-125 | the remap -2 + 4(d + r)/(2r) equals 2d/r |
| PadGeometry.NormalizeLandmarks | src/js/utils/touch-controls.js:117-125 | the centre maps to 0 and the two ends of a diameter to -2 and 2 |
| PadGeometry.HandlePosition | src/js/utils/touch-controls.js:87-106 | the handle sits within 0.05 of the projected cursor in each axis, at whole tenths |
| PadGeometry.AxisDelta | src/js/utils/touch-controls.js:115-125 | one axis's delta v satisfies v * r = 2(centre - parseInt(handle)), and lies in -2..2 exactly when that offset lies within -r..r |
| PadGeometry.RawDeltas | src/js/utils/touch-controls.js:115-125 | both unrounded deltas are 2(centre - parseInt(handle)) / r |
| PadGeometry.MovementDeltas | src/js/utils/touch-controls.js:283-295 | the movement pad's pair lies within 0.05 of the unrounded deltas, at whole tenths |
| PadGeometry.NegatedTenth | src/js/utils/touch-controls.js:126-127 | (-1 * Math.round(x * 10)) / 10 lies within 0.05 of -x, at whole tenths |
| PadGeometry.RotationDeltas | src/js/utils/touch-controls.js:115-127 | the rotation pad's pair lies within 0.05 of the negated unrounded deltas, at whole tenths |
| PadGeometry.RotationMirrorsMovement | src/js/utils/touch-controls.js:126-127 | for the same cursor the rotation pad sends the negation of the movement pad's pair |
| PadGeometry.AxisDeltaWithinTwo | src/js/utils/touch-controls.js:283-295 | one axis of a handle inside an integral region yields a delta within -2..2 |
| PadGeometry.MovementDeltasWithinTwo | src/js/utils/touch-controls.js:255-295 | with an integral centre and radius, both deltas lie within -2..2 |
| PadGeometry.FractionalCentreOvershoots | src/js/utils/touch-controls.js:283-295 | a pad of radius 10 centred at 10.9, pressed at its left edge, sends 2.2 |
| Pads.RotationPad.constructor | src/js/utils/touch-controls.js:4-45 | a new pad is released, has no pending repeat and keeps its measured region |
| Pads.RotationPad.SendEvent | src/js/utils/touch-controls.js:133-152 | while pressed it re-arms the repeat with the pair and emits YawPitch with it; once released it cancels the repeat and emits nothing |
| Pads.RotationPad.Update | src/js/utils/touch-controls.js:87-131 | the handle moves to the rounded projected cursor, and the negated rounded deltas of that position are sent |
| Pads.RotationPad.Press | src/js/utils/touch-controls.js:48-52 | mousedown or touchstart presses the pad, places the handle and emits the pad's pair |
| Pads.RotationPad.Drag | src/js/utils/touch-controls.js:59-62 | a move while released changes nothing; while pressed the handle follows and the pair is emitted |
| Pads.RotationPad.Release | src/js/utils/touch-controls.js:54-57 | mouseup, touchend or touchcancel releases the pad |
| Pads.RotationPad.RepeatFires | src/js/utils/touch-controls.js:140-142 | the timer re-sends the armed pair while pressed; after release it emits nothing and disarms |
| Pads.MovementPad.constructor | src/js/utils/touch-controls.js:172-213 | a new pad is released, has no pending repeat and keeps its measured region |
| Pads.MovementPad.SendEvent | src/js/utils/touch-controls.js:301-326 | while pressed it re-arms the repeat and emits move with the pair and middle; once released it cancels the repeat and emits stopMove |
| Pads.MovementPad.Update | src/js/utils/touch-controls.js:255-299 | the handle moves to the rounded projected cursor, and the rounded deltas of that position are sent with middle 0 |
| Pads.MovementPad.Press | src/js/utils/touch-controls.js:216-220 | mousedown or touchstart presses the pad, places the handle and emits move with the pad's pair |
| Pads.MovementPad.Drag | src/js/utils/touch-controls.js:227-230 | a move while released changes nothing; while pressed the handle follows and move is emitted |
| Pads.MovementPad.Release | src/js/utils/touch-controls.js:222-225 | mouseup, touchend or touchcancel releases the pad |
| Pads.MovementPad.RepeatFires | src/js/utils/touch-controls.js:313-315 | the timer re-sends the armed pair while pressed; after release it emits stopMove and disarms |
| Navigation.Merge | src/js/utils/touch-controls.js:346-356 | every option that is given overrides its field of the defaults |
| Navigation.Radians | src/js/utils/touch-controls.js:375 | degrees are converted by r * 180 = degrees * PI, keeping the sign |
| Navigation.MergeDefaultsAndOverrides | src/js/utils/touch-controls.js:346-356 | no options give the defaults 0.5, 1, 0.002, 55, true, 40; a full set of options is taken unchanged |
| Navigation.MergeFieldwise | src/js/utils/touch-controls.js:346-356 | each field is the given option when present, else its default |
| Navigation.IndexOf | src/js/utils/touch-controls.js:581-586 | each direction has a ray index below 4 |
| Navigation.DirectionAt | src/js/utils/touch-controls.js:581-586 | an index names a direction exactly when it is 0..3 |
| Navigation.DirectionIndexRoundTrip | src/js/utils/touch-controls.js:581-586 | index to direction and direction to index are inverse |
| Navigation.Quad.With | src/js/utils/touch-controls.js:692-706 | setting one direction's flag changes that flag and no other |
| Navigation.KeyDirection | src/js/utils/touch-controls.js:498-522 | keys 38/87 mean forward, 37/65 left, 40/83 backward, 39/68 right, each in both directions of the iff |
| Navigation.EffectiveFactor | src/js/utils/touch-controls.js:570 | an absent or zero factor falls back to the configured rotationFactor |
| Navigation.CameraRotation | src/js/utils/touch-controls.js:569-579 | yaw turns by -dx * factor unclamped; pitch turns by -dy * factor and is clamped to ±maxPitch, saturating at the bound it crosses |
| Navigation.CameraRotationAtRest | src/js/utils/touch-controls.js:569-579 | a zero movement leaves an in-range pitch and the yaw unchanged |
| Navigation.PitchStaysClamped | src/js/utils/touch-controls.js:573 | over any sequence of rotations the pitch stays within ±maxPitch |
| Navigation.YawIsUnclamped | src/js/utils/touch-controls.js:571 | over any sequence of rotations the yaw moves by exactly the summed -dx * factor |
| Navigation.FirstNonZero | src/js/utils/touch-controls.js:474-483 | the `a or b or c or 0` chain yields the first non-zero field, and 0 exactly when all are zero |
| Navigation.DeviceCoordinates | src/js/utils/touch-controls.js:469-470 | the cursor's device coordinates map back to the client position: (x+1)w/2 and (1-y)h/2 |
| Navigation.LocksFrom | src/js/utils/touch-controls.js:619-634 | a direction is locked exactly when its ray's nearest hit is closer than hitTestDistance |
| Navigation.HitsOf | src/js/utils/touch-controls.js:612-637 | at most one hit per ray is recorded, each closer than hitTestDistance (their ray order is HitsFollowRays) |
| Navigation.LockingRays | src/js/utils/touch-controls.js:619-634 | the indices of exactly the rays that lock, in increasing order |
| Navigation.HitsFollowRays | src/js/utils/touch-controls.js:626-631 | the k-th recorded hit is the nearest distance of the k-th locking ray |
| Navigation.HitsCountLocks | src/js/utils/touch-controls.js:626-631 | the number of recorded hits equals the number of rays that lock their direction |
| Navigation.Translate | src/js/utils/touch-controls.js:607-609 | the body moves by exactly the velocity in each axis |
| Navigation.TranslateComposes | src/js/utils/touch-controls.js:607-609 | two moves equal one move by the summed velocities |
| Navigation.NextVelocity | src/js/utils/touch-controls.js:594-605 | x and z are damped by the factor 1 - 0.75 * delta, then pushed by each active unlocked direction; y is unchanged |
| Navigation.LockedIsInert | src/js/utils/touch-controls.js:597-605 | a locked direction contributes to the velocity exactly what an inactive one does |
| Navigation.CoastIsGeometric | src/js/utils/touch-controls.js:594-595 | with no direction on, x and z decay geometrically by 1 - 0.75 * delta per frame |
| Navigation.CoastSettles | src/js/utils/touch-controls.js:594-595 | with delta 1, a velocity within ±1 is below 0.01 in x and z after four idle frames |
| Controller.TouchControls.constructor | src/js/utils/touch-controls.js:344-400 | the config is the defaults merged with the options; maxPitch is in radians; no flags or locks; multipliers 1; at rest at the origin; enabled; two fresh released pads |
| Controller.TouchControls.SetEnabled | src/js/utils/touch-controls.js:385 | the public enabled property takes the given value |
| Controller.TouchControls.AddToScene | src/js/utils/touch-controls.js:717-720 | the controller has a scene to cast rays into |
| Controller.TouchControls.SetPosition | src/js/utils/touch-controls.js:722-724 | the body's position is set to the given point |
| Controller.TouchControls.SetRotation | src/js/utils/touch-controls.js:730-736 | a null component leaves its angle unchanged, any other sets it exactly |
| Controller.TouchControls.SetLock | src/js/utils/touch-controls.js:692-706 | the direction's lock takes the value; the other locks are unchanged |
| Controller.TouchControls.UnlockAllDirections | src/js/utils/touch-controls.js:708-713 | all four locks are cleared |
| Controller.TouchControls.LockDirectionByIndex | src/js/utils/touch-controls.js:581-586 | indices 0..3 lock forward, backward, left and right; any other index changes nothing |
| Controller.TouchControls.CalculateCameraRotation | src/js/utils/touch-controls.js:569-579 | with the configured factor, the pitch stays within ±maxPitch and the yaw turns by -dx * rotationFactor |
| Controller.TouchControls.OnYawPitch | src/js/utils/touch-controls.js:391-397 | the rotation pad's deltas rotate the view through the clamped camera rotation |
| Controller.TouchControls.OnMouseDown | src/js/utils/touch-controls.js:454-460 | the right button (2) starts a drag only while enabled; anything else changes nothing |
| Controller.TouchControls.OnMouseUp | src/js/utils/touch-controls.js:462-466 | the right button ends a drag only while enabled |
| Controller.TouchControls.OnMouseOut | src/js/utils/touch-controls.js:493-496 | leaving the document always ends a right-button drag |
| Controller.TouchControls.OnMouseMove | src/js/utils/touch-controls.js:468-491 | the device coordinates are always updated; only while enabled and dragging, the negated first non-zero movement rotates the view, otherwise the angles are unchanged |
| Controller.TouchControls.OnKeyDown | src/js/utils/touch-controls.js:498-522 | while enabled a bound key turns its direction on and nothing else; disabled or unbound keys change nothing |
| Controller.TouchControls.OnKeyUp | src/js/utils/touch-controls.js:524-546 | a bound key turns its direction off even while disabled; other keys change nothing |
| Controller.TouchControls.OnMove | src/js/utils/touch-controls.js:401-430 | forward and backward (and left and right) are never both on; each is on exactly when its delta is on its side of middle; the multipliers are the deltas' magnitudes, 1 at middle |
| Controller.TouchControls.OnStopMove | src/js/utils/touch-controls.js:431-434 | every flag is cleared and both multipliers reset to 1 |
| Controller.TouchControls.OnMovementEvent | src/js/utils/touch-controls.js:401-434 | a move event sets flags and multipliers as above; stopMove clears them |
| Controller.TouchControls.HitTest | src/js/utils/touch-controls.js:612-637 | with a scene the locks are exactly those the rays call for, and the recorded hits are returned; without one every lock is cleared and the query fails |
| Controller.TouchControls.Update | src/js/utils/touch-controls.js:591-610 | the locks come from the hit test when configured; then the velocity takes one step and the position moves by it; y stays 0; a failed hit test stops the frame |
| Controller.Abs | src/js/utils/touch-controls.js:402-403 | Math.abs is non-negative and equals the argument or its negation |
| Scenarios.WalkTowardsObstacle | src/js/utils/touch-controls.js:591-637 | holding the up arrow for a frame: forward is locked exactly when the forward ray hits within 40, and the hit is recorded; locked, the body stays at rest; unlocked, velocity and displacement are (0, 0, -0.5) |
| Scenarios.PressRotationPad | src/js/utils/touch-controls.js:391-397 | pressing the rotation pad turns the yaw by -0.002 times its x delta and clamps the pitch to ±55 degrees |
| Scenarios.TapMovementPad | src/js/utils/touch-controls.js:301-326 | while pressed the flags follow the pad's deltas; after release the repeat sends stopMove, which clears all flags, and then stops |
| Scenarios.RightDrag | src/js/utils/touch-controls.js:468-491 | a right-button drag turns yaw and pitch by the movement times 0.002; after the button is released, moving no longer turns |

## Left out

- The DOM is not modelled: layout and CSS of the pads, the handle's opacity and its animation back to the centre (`resetHandlePosition`), and the context-menu suppression. A pad's measured layout is given as a `Region`.
- The 5 ms repeat timer is not a real timer. It is modelled as an explicit `RepeatFires` step with the pair it was armed with. `mouseStopped` and `mouseStopTimeout` are never used by the source and are left out.
- The boundary projection uses Math.atan2, Math.cos and Math.sin. The trigonometry is not modelled: the caller supplies the projection's scale radius/distance, constrained by `IsBoundaryScale`. Math.PI is taken as the decimal 3.141592653589793.
- Numbers are modelled as exact reals, not IEEE doubles. Rounding error, NaN and Infinity are not modelled. parseInt is modelled only on ordinary numbers, not on ones written with an exponent.
- PadGeometry.MovementDeltasWithinTwo: the -2..2 bound is proved only for an integral centre and radius, because truncation of a fractional coordinate can overshoot it (see FractionalCentreOvershoots).
- Pads: the pad's region must have a positive radius (`Region.Valid`). A pad whose handle is as wide as its region would divide by zero.
- Pads: touch and mouse events share one method each (Press, Drag, Release), because their handlers do the same thing with the first touch's coordinates.
- three.js is not modelled: the Object3D hierarchy, the camera, `getDirection2` and `prepareRotationMatrices`. The hit test receives each ray's nearest hit distance, in the ray order forward, backward, left, right. A hit object is reduced to its distance.
- Controller.TouchControls.Update: `translateX/Y/Z` move the body along its own yaw-rotated axes, but the model adds the velocity along fixed axes. The two agree only while the yaw is 0.
- Controller.TouchControls.HitTest: without a scene the source throws inside the ray query. The model returns None and `Update` stops the frame; exception propagation to the caller is not modelled.
- `getDirection` (an immediately invoked function whose `this` is undefined), and `stopMouseMoving` and `getHitObjects` on the prototype, refer to names outside their scope. They never reach the controller's state and are left out.
- The getters `moveForward()`, `moveBackward()`, `moveLeft()` and `moveRight()` are read through the `Moving()` function.
- OnMouseMove requires a positive window size. The source divides by innerWidth and innerHeight without checking them.
- The vendor-prefixed movement fields (`movementX`, `mozMovementX`, `webkitMovementX`) are passed as a sequence. An undefined field is passed as 0.
- The unused `PI_2` constant is left out. The other files of the repository (the app, scene and model code that create the controls) are not part of this model.
