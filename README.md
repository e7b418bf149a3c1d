# Player movement controller, modelled in Dafny

This project models the core of `PlayerMovementInputSystem`, the Unity
first/third-person character controller in
`Character/Assets/Code/Scripts/PlayerMovement.cs`. Every frame its `Update`
runs six stages in a fixed order: look, ground check, movement, jump,
gravity and slope slide. It then moves the character, and the mover calls
the hit callback once per contact, so the same collider can be reported more
than once. Finally the tick reports which
colliders of the previous tick were not touched again.

The model has four modules:

- `Scalar` (`scalar.dfy`) holds the scalar helpers the controller relies on:
  Unity's `Mathf.Clamp` and `Mathf.MoveTowards`, C#'s floating-point `%`
  with divisor 360, and the controller's `NormalizeAngle`.
- `Contacts` (`contacts.dfy`) is the contact tracker as values: the event one
  hit callback reports, the end-of-tick exit walk (a method with a loop,
  proved to report each gone collider exactly once), one tick as a function
  of the previous tick's set, and runs of ticks.
- `Locomotion` (`locomotion.dfy`) is the locomotion state machine as values:
  - one function per stage over a `Motion` state;
  - `Step`, which runs the stages in the controller's order;
  - `Run`, which runs consecutive ticks;
  - contracts and lemmas for the groundedness rule and the grounded clamp,
    the air-jump budget, coyote and air jumps, the launch speed, speed
    smoothing, the pitch clamp and the slope-slide guard.
- `Player` (`player.dfy`) is the controller object itself. It is a class
  whose fields are the controller's state and its two contact sets. Its
  methods update them in place in the same order as the source, and each
  stage method is proved to leave exactly the state its `Locomotion`
  function computes. `Update` is proved to produce `Step` of the old state
  and the contact events of `Contacts`.

Floats are modelled as exact reals. Engine queries and player input become
parameters: `FrameInput` carries the player's input and `EngineInput` carries
the sweep result, the mover's grounded flag, the clock, the frame time and
the smoothed facing yaw. Vector geometry is abstracted. The ground normal
becomes its angle with world up, and the planar velocity becomes the speed of
its input-driven part plus a flag saying whether the slide drift was added.
The launch speed `sqrt(2 * -gravity * jumpHeight)` is a configuration value
`jumpSpeed`, and `JumpSpeedMatches` ties it to that formula by its square.

### Behaviour of the code worth knowing

The model follows the code in each of these cases:

- With the stick exactly at rest, the input-driven planar velocity is zero on
  that tick, although `currentSpeed` still decays by the deceleration rate.
  A stick inside the dead zone but not at rest glides at the decaying speed.
  See `Locomotion.DriveStopsAtRest`.
- The ground check grounds the body on slopes up to the limit plus 0.5
  degrees. The slide applies only to grounded bodies on slopes past the
  limit, so it fires only for slopes in (limit, limit + 0.5]. A steeper slope
  never slides: the body is simply not grounded there. See
  `Locomotion.SlideOnlyJustPastLimit` and `Locomotion.NoSlideOnSteepSlope`.
- Each hit callback compares against the previous tick's set only. A collider
  touched twice on its first tick therefore reports Enter twice. See
  `Contacts.RepeatedFirstContact`.
- A ground jump records its tick's time as the landing time, so a second
  press within the coyote window (0.12 s by default) is honoured as a coyote
  jump from the air and spends no air jump, even with `extraAirJumps` at 0.
  See `Locomotion.DoubleTapWithinCoyote` and `Locomotion.CoyoteJumpHonoured`.
- `lastGroundedTime` starts at 0, so on the first frames (while the clock is
  within `coyoteTime` of 0) a press in the air is honoured as a coyote jump
  whatever the air-jump budget. See `Locomotion.CoyoteJumpHonoured`.
- `NormalizeAngle` uses a remainder truncated toward zero. A negative input
  can therefore stay below -180, for example -270. Inputs in [0, 360) land in
  (-180, 180]. See `Scalar.NormalizeAngleNegativeInput`.

## Model

| member | source | states |
|---|---|---|
| Scalar.Clamp | Character/Assets/Code/Scripts/PlayerMovement.cs:183-184 | For an ordered range the result lies in it; a value inside is kept; a value below becomes the minimum and one above becomes the maximum |
| Scalar.MoveTowards | Character/Assets/Code/Scripts/PlayerMovement.cs:258-259 | `Mathf.MoveTowards`. For a non-negative step the result lies between the current value and the target and moves by at most the step. It lands on the target exactly when the target is within one step, and otherwise moves by the whole step |
| Scalar.Rem360 | Character/Assets/Code/Scripts/PlayerMovement.cs:326 | C#'s float `%` by 360: the result carries the dividend's sign, lies strictly within one turn of 0 and differs from the input by whole turns |
| Scalar.NormalizeAngle | Character/Assets/Code/Scripts/PlayerMovement.cs:324-329 | The result is in (-360, 180] and differs from the input by whole turns. An angle already in (-180, 180] is kept. Every non-negative angle lands in (-180, 180]; one in [0, 360) lands there as itself or itself minus 360. Every negative angle lands in (-360, 0] |
| Scalar.NormalizeAngleIdempotent | Character/Assets/Code/Scripts/PlayerMovement.cs:324-329 | Normalising twice gives the same as normalising once |
| Scalar.NormalizeAngleNegativeInput | Character/Assets/Code/Scripts/PlayerMovement.cs:324-329 | -270 is returned unchanged, so the stated -180..180 range is not reached for every input |
| Contacts.HitEvent | Character/Assets/Code/Scripts/PlayerMovement.cs:337-351 | A hit reports an event for that collider, never Exit: Enter exactly when it was not touched on the previous tick, Stay exactly when it was |
| Contacts.HitEvents | Character/Assets/Code/Scripts/PlayerMovement.cs:331-352 | One event per callback, in callback order. Event j is for the j-th collider, is never Exit, and is Enter exactly when that collider was not touched on the previous tick |
| Contacts.RepeatedFirstContact | Character/Assets/Code/Scripts/PlayerMovement.cs:337-351 | A collider not touched on the previous tick reports Enter at every one of its callbacks on this tick, however many there are |
| Contacts.RepeatedFirstContactExample | Character/Assets/Code/Scripts/PlayerMovement.cs:337-351 | Two callbacks for the same new collider report Enter twice |
| Contacts.ExitsExtend | Character/Assets/Code/Scripts/PlayerMovement.cs:134-141 | Reporting Exit for one more collider not yet reported keeps the exits exact: one Exit per gone collider, nothing else |
| Contacts.ReportExits | Character/Assets/Code/Scripts/PlayerMovement.cs:134-141 | The exit walk reports Exit once for each collider of the previous tick that was not touched on this tick, and for no other collider, in any order |
| Contacts.ContactTick | Character/Assets/Code/Scripts/PlayerMovement.cs:134-145 | The exited colliders are exactly the previous ones not hit on this tick. The next tick's previous set is exactly the colliders hit on this tick |
| Contacts.ContactRun | Character/Assets/Code/Scripts/PlayerMovement.cs:134-145 | A run reports one tick per input tick, with one hit event per callback of that tick |
| Contacts.ContactRunAt | Character/Assets/Code/Scripts/PlayerMovement.cs:134-145 | Tick i of a run is diffed against the colliders hit on tick i-1, or against the starting set for tick 0 |
| Contacts.ContactRunOfCollider | Character/Assets/Code/Scripts/PlayerMovement.cs:134-145 | A collider newly touched on ticks 0..n-1 and not on tick n gets Enter on tick 0 and Stay afterwards. It gets no Enter on ticks 1..n and no Exit before tick n. It exits on tick n exactly when n > 0 |
| Contacts.ContactRunExample | Character/Assets/Code/Scripts/PlayerMovement.cs:134-145 | Touching a collider on three ticks and not on the fourth reports Enter, Stay, Stay, then Exit |
| Locomotion.Look | Character/Assets/Code/Scripts/PlayerMovement.cs:163-184 | Yaw advances by the look delta times the mouse or stick scale. With clamping on and an ordered range the pitch ends in range; an in-range pitch, or any pitch with clamping off, is the unclamped one, and an out-of-range one lands exactly on the bound it passed. Nothing else changes |
| Locomotion.GroundCheck | Character/Assets/Code/Scripts/PlayerMovement.cs:204-237 | Grounded if and only if the mover reports support and any swept slope is within the limit plus 0.5. Grounding resets the landing time and the air-jump counter; otherwise both are kept. A grounded body moving down is set to the grounded bias, and any other vertical velocity is kept. Only the ground fields and the vertical velocity change |
| Locomotion.ClampedSqrMagnitude | Character/Assets/Code/Scripts/PlayerMovement.cs:243-244 | The squared stick length after normalising sticks longer than 1 lies in [0, 1] |
| Locomotion.MoveActiveOnRawStick | Character/Assets/Code/Scripts/PlayerMovement.cs:244-256 | The dead-zone test on the clamped stick is the same as line 256's magnitude test on the raw stick, compared on squares |
| Locomotion.TargetSpeed | Character/Assets/Code/Scripts/PlayerMovement.cs:255-256 | Sprint speed or walk speed outside the dead zone, chosen by the sprint button; 0 inside it |
| Locomotion.SpeedStep | Character/Assets/Code/Scripts/PlayerMovement.cs:258-259 | With non-negative rates and frame time, the new speed lies between the old one and the target. It moves by at most the acceleration (when speeding up) or the deceleration (otherwise) times the frame time, and reaches the target exactly when the target is within that reach |
| Locomotion.Movement | Character/Assets/Code/Scripts/PlayerMovement.cs:240-276 | With the stick at rest the drive speed is 0, otherwise it is the new speed. The yaw becomes the smoothed facing yaw when a turn happened and is kept otherwise. The planar velocity is rebuilt without any earlier slide drift. Only speed, target, drive, yaw and the drift flag change |
| Locomotion.Jump | Character/Assets/Code/Scripts/PlayerMovement.cs:279-296 | An unhonoured press changes nothing. An honoured one sets the launch speed. A ground or coyote jump clears grounded and keeps the counter; an air jump spends exactly one. The air-jump budget is preserved |
| Locomotion.Gravity | Character/Assets/Code/Scripts/PlayerMovement.cs:298-301 | Vertical velocity changes by gravity times the frame time and falls for negative gravity; nothing else changes |
| Locomotion.SlopeSlide | Character/Assets/Code/Scripts/PlayerMovement.cs:303-313 | The drift is added exactly when the body is grounded, sliding is enabled and the slope is past the walkable limit; otherwise the planar velocity is left as it was. Nothing else changes |
| Locomotion.Step | Character/Assets/Code/Scripts/PlayerMovement.cs:121-129 | The stages run in the controller's order. A body grounded at the end of the tick passed the groundedness rule, the recorded slope is the sweep's, and the target speed is the one the stick and sprint button select |
| Locomotion.Run | Character/Assets/Code/Scripts/PlayerMovement.cs:121-148 | After consecutive ticks the slope is the last tick's sweep slope, and the body is grounded only if the last tick's sweep and mover allow it; no ticks leave the state unchanged |
| Locomotion.StepKeepsAirJumpBudget | Character/Assets/Code/Scripts/PlayerMovement.cs:121-129 | A whole tick keeps the air-jump counter within [0, extraAirJumps] |
| Locomotion.RunKeepsAirJumpBudget | Character/Assets/Code/Scripts/PlayerMovement.cs:121-129 | Any sequence of ticks keeps the air-jump counter within its budget |
| Locomotion.LandingResetsAirJumps | Character/Assets/Code/Scripts/PlayerMovement.cs:217-231 | A tick whose ground check grounds the body ends with the counter at 0 and the landing time at the tick's time, even if a jump follows |
| Locomotion.MissedLandingKeepsTime | Character/Assets/Code/Scripts/PlayerMovement.cs:210-232 | A tick whose ground check does not ground the body keeps the landing time |
| Locomotion.CoyoteJumpHonoured | Character/Assets/Code/Scripts/PlayerMovement.cs:281-289 | Off the ground but within the coyote window, a pressed jump launches without spending an air jump and leaves the body ungrounded |
| Locomotion.DoubleTapWithinCoyote | Character/Assets/Code/Scripts/PlayerMovement.cs:279-289 | After a ground jump, a second press within the coyote window of it launches again from the air and spends no air jump, whatever extraAirJumps is |
| Locomotion.CoyoteJumpExpired | Character/Assets/Code/Scripts/PlayerMovement.cs:281-295 | Off the ground, past the window and with no air jump left, only gravity acts on the vertical velocity and the counter is kept |
| Locomotion.AirJumpSpendsOne | Character/Assets/Code/Scripts/PlayerMovement.cs:290-294 | Off the ground, past the window and with budget left, a pressed jump launches and spends exactly one air jump |
| Locomotion.JumpLaunchSpeed | Character/Assets/Code/Scripts/PlayerMovement.cs:287-292 | An honoured jump's vertical speed v is non-negative and satisfies v * v == 2 * -gravity * jumpHeight |
| Locomotion.DefaultLaunchSpeed | Character/Assets/Code/Scripts/PlayerMovement.cs:19-20 | With gravity -20 and jump height 1.2 the launch speed lies between 6.92 and 6.93 |
| Locomotion.SpeedApproachesTarget | Character/Assets/Code/Scripts/PlayerMovement.cs:255-259 | Over a tick, the speed never overshoots the target and moves by at most the applicable rate times the frame time. The target is the sprint speed, the walk speed or 0 |
| Locomotion.SpeedDecaysWithoutInput | Character/Assets/Code/Scripts/PlayerMovement.cs:255-259 | With the stick in the dead zone, the speed drops by exactly the deceleration times the frame time while above it, and otherwise becomes 0 |
| Locomotion.DriveStopsAtRest | Character/Assets/Code/Scripts/PlayerMovement.cs:270-276 | Over a whole tick, with the stick exactly at rest the input-driven planar speed is 0; otherwise it equals the smoothed speed, since no later stage changes either |
| Locomotion.PitchStaysClamped | Character/Assets/Code/Scripts/PlayerMovement.cs:183-184 | With clamping on and an ordered range, the pitch is in range after every tick |
| Locomotion.RunKeepsPitchClamped | Character/Assets/Code/Scripts/PlayerMovement.cs:121-129 | The same holds after any non-empty sequence of ticks |
| Locomotion.SlideOnlyJustPastLimit | Character/Assets/Code/Scripts/PlayerMovement.cs:303-313 | A sliding tick had a swept slope in (limit, limit + 0.5], mover support and no jump press |
| Locomotion.NoSlideOnSteepSlope | Character/Assets/Code/Scripts/PlayerMovement.cs:303-313 | With the shipped values, a 70 degree slope is neither grounded nor sliding |
| Player.PlayerMovementInputSystem.constructor | Character/Assets/Code/Scripts/PlayerMovement.cs:80-106 | Requires the launch speed the jump formula gives. Starts at rest, ungrounded, with empty contact sets and a zero counter, and establishes the object invariant. Yaw comes from the body. Pitch is the normalised camera pitch when the camera is a separate object, 0 otherwise |
| Player.PlayerMovementInputSystem.HandleLook | Character/Assets/Code/Scripts/PlayerMovement.cs:163-202 | The new state is `Look` of the old one; the contact sets are unchanged |
| Player.PlayerMovementInputSystem.HandleGroundCheck | Character/Assets/Code/Scripts/PlayerMovement.cs:204-238 | The new state is `GroundCheck` of the old one; the contact sets are unchanged |
| Player.PlayerMovementInputSystem.HandleMovement | Character/Assets/Code/Scripts/PlayerMovement.cs:240-277 | The new state is `Movement` of the old one; the contact sets are unchanged |
| Player.PlayerMovementInputSystem.HandleJump | Character/Assets/Code/Scripts/PlayerMovement.cs:279-296 | The new state is `Jump` of the old one; the contact sets are unchanged |
| Player.PlayerMovementInputSystem.ApplyGravity | Character/Assets/Code/Scripts/PlayerMovement.cs:298-301 | The new state is `Gravity` of the old one; the contact sets are unchanged |
| Player.PlayerMovementInputSystem.ApplySlopeSlideIfNeeded | Character/Assets/Code/Scripts/PlayerMovement.cs:303-314 | The new state is `SlopeSlide` of the old one; the contact sets are unchanged |
| Player.PlayerMovementInputSystem.OnControllerColliderHit | Character/Assets/Code/Scripts/PlayerMovement.cs:331-352 | Reports Enter or Stay against the previous tick's set and adds the collider to this tick's set. The previous set and the motion state are unchanged |
| Player.PlayerMovementInputSystem.DeliverHits | Character/Assets/Code/Scripts/PlayerMovement.cs:331-352 | The callbacks of one displacement report exactly the hit events of the previous tick's set, in order, and add every touched collider to this tick's set; the previous set and the motion state are unchanged |
| Player.PlayerMovementInputSystem.EndContactTick | Character/Assets/Code/Scripts/PlayerMovement.cs:134-145 | Reports Exit exactly once for each previous collider not touched on this tick. This tick's set becomes the previous one and this tick's set is emptied. The motion state is unchanged |
| Player.PlayerMovementInputSystem.Update | Character/Assets/Code/Scripts/PlayerMovement.cs:121-148 | The new motion state is `Step` of the old one, and the air-jump budget is preserved. The events are the hit events in callback order, then exactly one Exit per gone collider. The touched colliders become the previous set. Starting from an empty current set, which the constructor and every previous tick leave, the events and the new previous set are exactly those of `Contacts.ContactTick` |

## Left out

- Reading the Input System actions (lines 150-161) and the action wiring in `Awake`, `OnEnable` and `OnDisable`: the polled values are the `FrameInput` parameter.
- Mouse detection (`Mouse.current` and whether its delta is actuated): it becomes the `pointerLook` flag.
- The sphere sweep, `CharacterController.Move`, the mover's `isGrounded` and `skinWidth`: engine calls, replaced by `EngineInput` and by the list of colliders the mover reports.
- Quaternion and transform writes and the camera parenting test (lines 186-201): engine objects. They do feed back: the camera rotation gives the movement direction (lines 247-248), and the body rotation is the starting angle of the smoothed turn (line 265). The model takes that turn's result as the free input `facingYaw`, so it does not tie the turned yaw to the looked yaw or to the stick direction.
- The camera basis, `ProjectOnPlane`, vector normalisation, `Atan2` and `SmoothDampAngle` (lines 246-252, 261-268, 270-274): vector and float geometry. The smoothed turn enters as the optional `facingYaw`, and `rotationVelocity` is not modelled.
- Locomotion.Movement: the planar velocity is modelled only by its input-driven speed `driveSpeed`. Its direction, and its dependence on the ground normal, are vector geometry.
- Locomotion.SlopeSlide: models only whether the drift is added (`sliding`). The drift vector and its magnitude `slopeSlideSpeed * deltaTime` are vector geometry.
- Locomotion.StickAtRest: Unity normalises vectors shorter than 1e-5 to zero. The model treats only the exact zero stick as at rest.
- `Mathf.Sqrt`: the launch speed is the configuration value `jumpSpeed`, related to its formula by `JumpSpeedMatches` (its square).
- Single-precision floating point: all quantities are exact reals, so rounding and overflow are not modelled.
- The horizontal components of `velocity`: the controller only ever uses the vertical one.
- The final displacement passed to the mover (lines 131-132): it is an engine call.
- The `OnEnterContact`, `OnStayContact` and `OnExitContact` delegates and `Debug.Log`: the events are returned as sequences instead.
- `OnDrawGizmosSelected`: editor drawing only.
- The inspector fields stay fixed for the lifetime of one object. Unity lets them be edited at run time.
- The ground-check geometry fields (`groundMask`, `groundCheckRadius`, `groundCheckDistance`, `groundCheckOffset`) and `rotationSmoothTime`: they only parameterise engine calls.
- `WallHit.cs` and `ZoneEnter.cs`: they are not part of this model.
- Contacts.ReportExits, Player.PlayerMovementInputSystem.EndContactTick and Player.PlayerMovementInputSystem.Update: colliders are modelled as identities that never die. In Unity, a collider destroyed after its last contact stays in `previousHits`; reading its `name` at line 139 then throws, and the tick ends before lines 143-145. The sets are then not rotated, so later ticks re-report exits and judge Enter/Stay against a stale set. The model always completes the walk and rotates the sets.
- Player.PlayerMovementInputSystem.constructor: requires `JumpSpeedMatches`. That excludes configurations with `gravity * jumpHeight > 0`, for which `Mathf.Sqrt` at line 287 yields NaN. Gravity is documented as negative at line 20.
