/** The per-tick locomotion state machine of the player controller, as values:
    each stage of a tick (look, ground check, movement, jump, gravity, slope
    slide) is a function from the state before it to the state after it, `Step`
    runs them in the controller's order and `Run` runs consecutive ticks.
    Vector geometry is abstracted: the slope enters as the angle between the
    swept ground normal and world up, the planar velocity as the speed of its
    input-driven part plus a flag for the slide drift. */
module Locomotion {
  import opened Scalar

  datatype Option<T> = None | Some(value: T)

  /** The tunables of one controller. `jumpSpeed` is the launch speed the
      controller computes as the square root of 2 * -gravity * jumpHeight;
      `JumpSpeedMatches` states that relation. */
  datatype MovementConfig = MovementConfig(
    walkSpeed: real, sprintSpeed: real, acceleration: real, deceleration: real,
    jumpHeight: real, gravity: real, groundedGravity: real, coyoteTime: real,
    extraAirJumps: int, maxSlopeAngle: real, slideOnSteepSlopes: bool, slopeSlideSpeed: real,
    mouseSensitivity: real, gamepadLookSensitivity: real,
    clampPitch: bool, minPitch: real, maxPitch: real,
    jumpSpeed: real)

  predicate JumpSpeedMatches(cfg: MovementConfig) {
    cfg.jumpSpeed >= 0.0 && cfg.jumpSpeed * cfg.jumpSpeed == 2.0 * -cfg.gravity * cfg.jumpHeight
  }

  /** The values the controller ships with. */
  predicate SourceDefaults(cfg: MovementConfig) {
    && cfg.walkSpeed == 4.5 && cfg.sprintSpeed == 7.5
    && cfg.acceleration == 12.0 && cfg.deceleration == 14.0
    && cfg.jumpHeight == 1.2 && cfg.gravity == -20.0 && cfg.groundedGravity == -2.0
    && cfg.coyoteTime == 0.12 && cfg.extraAirJumps == 0
    && cfg.maxSlopeAngle == 50.0 && cfg.slideOnSteepSlopes && cfg.slopeSlideSpeed == 6.0
    && cfg.mouseSensitivity == 0.15 && cfg.gamepadLookSensitivity == 120.0
    && cfg.clampPitch && cfg.minPitch == -80.0 && cfg.maxPitch == 80.0
  }

  /** Result of the downward sphere sweep: nothing below the body, or a hit
      whose normal makes `angle` degrees with world up. */
  datatype Sweep = NoHit | Hit(angle: real)

  /** One tick's player input: the move stick, the look delta, whether that
      delta came from the mouse (a per-tick delta) rather than a stick (a
      rate), the jump edge and the sprint button. */
  datatype FrameInput = FrameInput(
    moveX: real, moveY: real, lookX: real, lookY: real,
    pointerLook: bool, jumpPressed: bool, sprintHeld: bool)

  /** What the engine supplies to one tick: the sweep result, the mover's own
      grounded flag, the clock and the frame time, and the body yaw produced by
      the smoothed turn toward the movement direction on ticks that turn. */
  datatype EngineInput = EngineInput(
    sweep: Sweep, controllerGrounded: bool, time: real, deltaTime: real,
    facingYaw: Option<real>)

  datatype TickInput = TickInput(frame: FrameInput, engine: EngineInput)

  /** The controller's mutable state. `slopeAngle` stands for the ground
      normal (0 when the normal is world up); `driveSpeed` is the length of the
      input-driven planar velocity; `sliding` says whether this tick added the
      downhill drift. */
  datatype Motion = Motion(
    velocityY: real, currentSpeed: real, targetSpeed: real, driveSpeed: real, sliding: bool,
    isGrounded: bool, slopeAngle: real, lastGroundedTime: real, airJumpsUsed: int,
    yaw: real, pitch: real)

  /** Tolerance, in degrees, added to the walkable slope limit by the ground check. */
  const SlopeTolerance: real := 0.5

  /** Stick magnitudes at or below this count as no input. */
  const Deadzone: real := 0.1

  // ---------------------------------------------------------------------------
  // Look

  /** Degrees per unit of look delta: the mouse sensitivity for a pointer
      delta, the stick rate times the frame time otherwise. */
  function LookScale(cfg: MovementConfig, pointerLook: bool, dt: real): (scale: real) {
    if pointerLook then cfg.mouseSensitivity else cfg.gamepadLookSensitivity * dt
  }

  /** Integrate the look delta into yaw and pitch, then clamp the pitch when
      clamping is on. Only yaw and pitch change. */
  function Look(cfg: MovementConfig, s: Motion, lookX: real, lookY: real, pointerLook: bool, dt: real): (r: Motion)
    ensures r.yaw == s.yaw + lookX * LookScale(cfg, pointerLook, dt)
    ensures cfg.clampPitch && cfg.minPitch <= cfg.maxPitch ==> cfg.minPitch <= r.pitch <= cfg.maxPitch
    ensures !cfg.clampPitch ==> r.pitch == s.pitch - lookY * LookScale(cfg, pointerLook, dt)
    ensures cfg.minPitch <= s.pitch - lookY * LookScale(cfg, pointerLook, dt) <= cfg.maxPitch
            ==> r.pitch == s.pitch - lookY * LookScale(cfg, pointerLook, dt)
    ensures (cfg.clampPitch && cfg.minPitch <= cfg.maxPitch
             && s.pitch - lookY * LookScale(cfg, pointerLook, dt) < cfg.minPitch) ==> r.pitch == cfg.minPitch
    ensures (cfg.clampPitch && cfg.minPitch <= cfg.maxPitch
             && s.pitch - lookY * LookScale(cfg, pointerLook, dt) > cfg.maxPitch) ==> r.pitch == cfg.maxPitch
    ensures r == s.(yaw := r.yaw, pitch := r.pitch)
  {
    var scale := LookScale(cfg, pointerLook, dt);
    var pitch := s.pitch - lookY * scale;
    s.(yaw := s.yaw + lookX * scale, pitch := if cfg.clampPitch then Clamp(pitch, cfg.minPitch, cfg.maxPitch) else pitch)
  }

  // ---------------------------------------------------------------------------
  // Ground check

  /** The groundedness rule: the mover must report support, and when the sweep
      hits, its slope must be within the limit plus the tolerance. */
  predicate GroundedBy(cfg: MovementConfig, sweep: Sweep, controllerGrounded: bool) {
    controllerGrounded && (sweep.Hit? ==> sweep.angle <= cfg.maxSlopeAngle + SlopeTolerance)
  }

  /** The ground check: decide groundedness, record the slope, refresh the
      landing time and the air-jump counter on becoming grounded, and press a
      falling grounded body down with the grounded-gravity bias. */
  function GroundCheck(cfg: MovementConfig, s: Motion, sweep: Sweep, controllerGrounded: bool, now: real): (r: Motion)
    ensures r.isGrounded <==> GroundedBy(cfg, sweep, controllerGrounded)
    ensures r.isGrounded ==> r.lastGroundedTime == now && r.airJumpsUsed == 0
    ensures !r.isGrounded ==> r.lastGroundedTime == s.lastGroundedTime && r.airJumpsUsed == s.airJumpsUsed
    ensures r.slopeAngle == (if sweep.Hit? then sweep.angle else 0.0)
    ensures r.isGrounded && s.velocityY < 0.0 ==> r.velocityY == cfg.groundedGravity
    ensures !(r.isGrounded && s.velocityY < 0.0) ==> r.velocityY == s.velocityY
    ensures r == s.(isGrounded := r.isGrounded, slopeAngle := r.slopeAngle, lastGroundedTime := r.lastGroundedTime,
                    airJumpsUsed := r.airJumpsUsed, velocityY := r.velocityY)
  {
    var s1 := s.(isGrounded := false, slopeAngle := 0.0);
    var s2 :=
      match sweep
      case Hit(angle) =>
        var s' := s1.(slopeAngle := angle);
        if angle <= cfg.maxSlopeAngle + SlopeTolerance && controllerGrounded
        then s'.(isGrounded := true, lastGroundedTime := now, airJumpsUsed := 0)
        else s'
      case NoHit =>
        if controllerGrounded
        then s1.(isGrounded := true, lastGroundedTime := now, airJumpsUsed := 0)
        else s1;
    if s2.isGrounded && s2.velocityY < 0.0 then s2.(velocityY := cfg.groundedGravity) else s2
  }

  // ---------------------------------------------------------------------------
  // Movement (the speed part)

  /** Squared length of the move stick after sticks longer than 1 are
      normalised to length 1. */
  function ClampedSqrMagnitude(x: real, y: real): (m: real)
    ensures 0.0 <= m <= 1.0
  {
    var sq := x * x + y * y;
    if sq > 1.0 then 1.0 else sq
  }

  /** The stick's length exceeds the dead zone (compared on squares, both
      lengths being non-negative). */
  predicate MoveActive(x: real, y: real) {
    ClampedSqrMagnitude(x, y) > Deadzone * Deadzone
  }

  /** The dead-zone test on squares of the clamped stick is the test on the
      raw stick: normalising a stick longer than 1 keeps it out of the dead
      zone. */
  lemma MoveActiveOnRawStick(x: real, y: real)
    ensures MoveActive(x, y) <==> x * x + y * y > Deadzone * Deadzone
  {
  }

  /** The speed aimed for: sprint or walk speed while the stick is out of the
      dead zone, 0 otherwise. */
  function TargetSpeed(cfg: MovementConfig, x: real, y: real, sprintHeld: bool): (t: real)
    ensures MoveActive(x, y) && sprintHeld ==> t == cfg.sprintSpeed
    ensures MoveActive(x, y) && !sprintHeld ==> t == cfg.walkSpeed
    ensures !MoveActive(x, y) ==> t == 0.0
  {
    var desired := if sprintHeld then cfg.sprintSpeed else cfg.walkSpeed;
    if MoveActive(x, y) then desired else 0.0
  }

  /** One speed update: toward the target at the acceleration rate when
      speeding up, at the deceleration rate otherwise. With non-negative rates
      and frame time it never overshoots the target, moves by at most the
      applicable rate times the frame time, and reaches the target exactly
      when the target is within that reach. */
  function SpeedStep(cfg: MovementConfig, current: real, target: real, dt: real): (r: real)
    ensures cfg.acceleration >= 0.0 && cfg.deceleration >= 0.0 && dt >= 0.0 ==>
      && Between(current, r, target)
      && (target > current ==> r - current <= cfg.acceleration * dt)
      && (target <= current ==> current - r <= cfg.deceleration * dt)
      && (target > current ==> (r == target <==> target - current <= cfg.acceleration * dt))
      && (target <= current ==> (r == target <==> current - target <= cfg.deceleration * dt))
  {
    var rate := if target > current then cfg.acceleration else cfg.deceleration;
    assert cfg.acceleration >= 0.0 && cfg.deceleration >= 0.0 && dt >= 0.0 ==> rate * dt >= 0.0;
    MoveTowards(current, target, rate * dt)
  }

  /** The stick direction is the zero vector, so the normalised movement
      direction is zero too (the camera basis is taken to be non-degenerate). */
  predicate StickAtRest(x: real, y: real) { x == 0.0 && y == 0.0 }

  /** The speed part of the movement stage: choose the target speed, move the
      current speed toward it, scale the movement direction by it, and let the
      smoothed facing turn overwrite the yaw when the engine produced one. The
      planar velocity is rebuilt from scratch, so no slide drift of an earlier
      tick survives it. */
  function Movement(cfg: MovementConfig, s: Motion, x: real, y: real, sprintHeld: bool, dt: real,
                    facingYaw: Option<real>): (r: Motion)
    ensures StickAtRest(x, y) ==> r.driveSpeed == 0.0
    ensures !StickAtRest(x, y) ==> r.driveSpeed == r.currentSpeed
    ensures facingYaw.Some? ==> r.yaw == facingYaw.value
    ensures facingYaw.None? ==> r.yaw == s.yaw
    ensures !r.sliding
    ensures r == s.(targetSpeed := r.targetSpeed, currentSpeed := r.currentSpeed,
                    driveSpeed := r.driveSpeed, yaw := r.yaw, sliding := false)
  {
    var target := TargetSpeed(cfg, x, y, sprintHeld);
    var speed := SpeedStep(cfg, s.currentSpeed, target, dt);
    var yaw := match facingYaw case Some(angle) => angle case None => s.yaw;
    s.(targetSpeed := target, currentSpeed := speed,
       driveSpeed := if StickAtRest(x, y) then 0.0 else speed, yaw := yaw, sliding := false)
  }

  // ---------------------------------------------------------------------------
  // Jump and gravity

  /** Still inside the coyote window measured from the last grounded time. */
  predicate CanCoyote(cfg: MovementConfig, s: Motion, now: real) {
    now - s.lastGroundedTime <= cfg.coyoteTime
  }

  /** A pressed jump is honoured: grounded, within the coyote window, or with
      air jumps left. */
  predicate JumpEligible(cfg: MovementConfig, s: Motion, now: real) {
    s.isGrounded || CanCoyote(cfg, s, now) || s.airJumpsUsed < cfg.extraAirJumps
  }

  /** The air-jump counter is non-negative and, once in use, within the
      configured number of extra air jumps. */
  predicate AirJumpsWithinBudget(cfg: MovementConfig, s: Motion) {
    0 <= s.airJumpsUsed && (s.airJumpsUsed == 0 || s.airJumpsUsed <= cfg.extraAirJumps)
  }

  /** The jump stage. A ground or coyote jump launches and clears the
      grounded flag; otherwise an air jump launches and spends one air jump;
      an unhonoured press, or no press, changes nothing. */
  function Jump(cfg: MovementConfig, s: Motion, jumpPressed: bool, now: real): (r: Motion)
    ensures !(jumpPressed && JumpEligible(cfg, s, now)) ==> r == s
    ensures jumpPressed && JumpEligible(cfg, s, now) ==> r.velocityY == cfg.jumpSpeed
    ensures jumpPressed && (s.isGrounded || CanCoyote(cfg, s, now))
            ==> !r.isGrounded && r.airJumpsUsed == s.airJumpsUsed
    ensures jumpPressed && !s.isGrounded && !CanCoyote(cfg, s, now) && s.airJumpsUsed < cfg.extraAirJumps
            ==> r.airJumpsUsed == s.airJumpsUsed + 1 && r.isGrounded == s.isGrounded
    ensures r == s.(velocityY := r.velocityY, isGrounded := r.isGrounded, airJumpsUsed := r.airJumpsUsed)
    ensures AirJumpsWithinBudget(cfg, s) ==> AirJumpsWithinBudget(cfg, r)
  {
    if !jumpPressed then s
    else if s.isGrounded || CanCoyote(cfg, s, now) then s.(velocityY := cfg.jumpSpeed, isGrounded := false)
    else if s.airJumpsUsed < cfg.extraAirJumps then
      s.(velocityY := cfg.jumpSpeed, airJumpsUsed := s.airJumpsUsed + 1)
    else s
  }

  /** Gravity is integrated into the vertical velocity on every tick; with a
      negative gravity and a positive frame time the body falls faster. */
  function Gravity(cfg: MovementConfig, s: Motion, dt: real): (r: Motion)
    ensures r == s.(velocityY := r.velocityY)
    ensures r.velocityY - s.velocityY == cfg.gravity * dt
    ensures cfg.gravity < 0.0 && dt > 0.0 ==> r.velocityY < s.velocityY
  {
    s.(velocityY := s.velocityY + cfg.gravity * dt)
  }

  // ---------------------------------------------------------------------------
  // Slope slide

  /** The guard of the slope slide: grounded, sliding enabled, and the slope
      steeper than the walkable limit. */
  predicate SlideApplies(cfg: MovementConfig, s: Motion) {
    s.isGrounded && cfg.slideOnSteepSlopes && s.slopeAngle > cfg.maxSlopeAngle
  }

  /** The slope-slide stage, reduced to whether it adds the drift: it adds it
      when grounded, sliding is enabled and the slope is past the walkable
      limit, and otherwise leaves the planar velocity as it is. */
  function SlopeSlide(cfg: MovementConfig, s: Motion): (r: Motion)
    ensures r.sliding <==> s.sliding || (r.isGrounded && cfg.slideOnSteepSlopes && r.slopeAngle > cfg.maxSlopeAngle)
    ensures r == s.(sliding := r.sliding)
  {
    s.(sliding := s.sliding || SlideApplies(cfg, s))
  }

  // ---------------------------------------------------------------------------
  // Whole ticks

  /** One tick, stage by stage in the controller's order. The ground check's
      verdict, the slope it records and the target speed survive the later
      stages (the jump may still clear the grounded flag). */
  function Step(cfg: MovementConfig, s: Motion, f: FrameInput, e: EngineInput): (r: Motion)
    ensures r.isGrounded ==> GroundedBy(cfg, e.sweep, e.controllerGrounded)
    ensures r.slopeAngle == (if e.sweep.Hit? then e.sweep.angle else 0.0)
    ensures r.targetSpeed == TargetSpeed(cfg, f.moveX, f.moveY, f.sprintHeld)
  {
    var looked := Look(cfg, s, f.lookX, f.lookY, f.pointerLook, e.deltaTime);
    var checked := GroundCheck(cfg, looked, e.sweep, e.controllerGrounded, e.time);
    var moved := Movement(cfg, checked, f.moveX, f.moveY, f.sprintHeld, e.deltaTime, e.facingYaw);
    var jumped := Jump(cfg, moved, f.jumpPressed, e.time);
    var fallen := Gravity(cfg, jumped, e.deltaTime);
    SlopeSlide(cfg, fallen)
  }

  /** Consecutive ticks from state `s`. After a non-empty run the ground
      state is that of the last tick alone: its slope, and groundedness only
      when its sweep and its mover allow it. */
  function Run(cfg: MovementConfig, s: Motion, ticks: seq<TickInput>): (r: Motion)
    ensures ticks == [] ==> r == s
    ensures ticks != [] ==> var last := ticks[|ticks| - 1].engine;
      && r.slopeAngle == (if last.sweep.Hit? then last.sweep.angle else 0.0)
      && (r.isGrounded ==> GroundedBy(cfg, last.sweep, last.controllerGrounded))
    decreases |ticks|
  {
    if ticks == [] then s
    else Run(cfg, Step(cfg, s, ticks[0].frame, ticks[0].engine), ticks[1..])
  }

  // ---------------------------------------------------------------------------
  // Properties of ticks

  /** A tick keeps the air-jump counter within its budget. */
  lemma StepKeepsAirJumpBudget(cfg: MovementConfig, s: Motion, f: FrameInput, e: EngineInput)
    requires AirJumpsWithinBudget(cfg, s)
    ensures AirJumpsWithinBudget(cfg, Step(cfg, s, f, e))
    ensures cfg.extraAirJumps >= 0 ==> 0 <= Step(cfg, s, f, e).airJumpsUsed <= cfg.extraAirJumps
  {
  }

  /** Any sequence of ticks keeps the air-jump counter within its budget. */
  lemma {:induction false} RunKeepsAirJumpBudget(cfg: MovementConfig, s: Motion, ticks: seq<TickInput>)
    requires AirJumpsWithinBudget(cfg, s)
    ensures AirJumpsWithinBudget(cfg, Run(cfg, s, ticks))
    ensures cfg.extraAirJumps >= 0 ==> 0 <= Run(cfg, s, ticks).airJumpsUsed <= cfg.extraAirJumps
    decreases |ticks|
  {
    if ticks != [] {
      StepKeepsAirJumpBudget(cfg, s, ticks[0].frame, ticks[0].engine);
      RunKeepsAirJumpBudget(cfg, Step(cfg, s, ticks[0].frame, ticks[0].engine), ticks[1..]);
    }
  }

  /** On a tick whose ground check grounds the body the counter ends at exactly
      0 and the landing time is the tick's time, even when a jump follows. */
  lemma LandingResetsAirJumps(cfg: MovementConfig, s: Motion, f: FrameInput, e: EngineInput)
    requires GroundedBy(cfg, e.sweep, e.controllerGrounded)
    ensures Step(cfg, s, f, e).airJumpsUsed == 0
    ensures Step(cfg, s, f, e).lastGroundedTime == e.time
  {
  }

  /** A tick whose ground check does not ground the body keeps the landing
      time, whatever the jump does. */
  lemma MissedLandingKeepsTime(cfg: MovementConfig, s: Motion, f: FrameInput, e: EngineInput)
    ensures !GroundedBy(cfg, e.sweep, e.controllerGrounded)
            ==> Step(cfg, s, f, e).lastGroundedTime == s.lastGroundedTime
  {
  }

  /** Coyote jump: off the ground but within the window since the last landing,
      a pressed jump launches without spending an air jump. */
  lemma CoyoteJumpHonoured(cfg: MovementConfig, s: Motion, f: FrameInput, e: EngineInput)
    requires !GroundedBy(cfg, e.sweep, e.controllerGrounded)
    requires f.jumpPressed && e.time - s.lastGroundedTime <= cfg.coyoteTime
    ensures Step(cfg, s, f, e).velocityY == cfg.jumpSpeed + cfg.gravity * e.deltaTime
    ensures Step(cfg, s, f, e).airJumpsUsed == s.airJumpsUsed
    ensures !Step(cfg, s, f, e).isGrounded
  {
  }

  /** Coyote expired: off the ground, past the window and with no air jump
      left, a pressed jump does nothing and gravity alone acts. */
  lemma CoyoteJumpExpired(cfg: MovementConfig, s: Motion, f: FrameInput, e: EngineInput)
    requires !GroundedBy(cfg, e.sweep, e.controllerGrounded)
    requires e.time - s.lastGroundedTime > cfg.coyoteTime
    requires s.airJumpsUsed >= cfg.extraAirJumps
    ensures Step(cfg, s, f, e).velocityY == s.velocityY + cfg.gravity * e.deltaTime
    ensures Step(cfg, s, f, e).airJumpsUsed == s.airJumpsUsed
  {
  }

  /** Double tap: a ground jump records its tick's time as the landing time,
      so a second press within the coyote window of it, already in the air,
      launches again without spending an air jump, even with no air jumps
      configured. */
  lemma DoubleTapWithinCoyote(cfg: MovementConfig, s: Motion, f1: FrameInput, e1: EngineInput,
                              f2: FrameInput, e2: EngineInput)
    requires GroundedBy(cfg, e1.sweep, e1.controllerGrounded) && f1.jumpPressed
    requires !GroundedBy(cfg, e2.sweep, e2.controllerGrounded) && f2.jumpPressed
    requires e2.time - e1.time <= cfg.coyoteTime
    ensures var s2 := Step(cfg, Step(cfg, s, f1, e1), f2, e2);
      s2.velocityY == cfg.jumpSpeed + cfg.gravity * e2.deltaTime && s2.airJumpsUsed == 0
  {
    LandingResetsAirJumps(cfg, s, f1, e1);
    CoyoteJumpHonoured(cfg, Step(cfg, s, f1, e1), f2, e2);
  }

  /** Air jump: off the ground, past the window and with budget left, a pressed
      jump launches and spends exactly one air jump. */
  lemma AirJumpSpendsOne(cfg: MovementConfig, s: Motion, f: FrameInput, e: EngineInput)
    requires !GroundedBy(cfg, e.sweep, e.controllerGrounded)
    requires f.jumpPressed && e.time - s.lastGroundedTime > cfg.coyoteTime
    requires s.airJumpsUsed < cfg.extraAirJumps
    ensures Step(cfg, s, f, e).velocityY == cfg.jumpSpeed + cfg.gravity * e.deltaTime
    ensures Step(cfg, s, f, e).airJumpsUsed == s.airJumpsUsed + 1
  {
  }

  /** The launch speed satisfies the projectile relation v * v == 2 * g * h
      for the magnitude g of gravity; on the jump's tick gravity is then
      added to it once. */
  lemma JumpLaunchSpeed(cfg: MovementConfig, s: Motion, jumpPressed: bool, now: real)
    requires JumpSpeedMatches(cfg)
    requires jumpPressed && JumpEligible(cfg, s, now)
    ensures var v := Jump(cfg, s, jumpPressed, now).velocityY;
            v >= 0.0 && v * v == 2.0 * -cfg.gravity * cfg.jumpHeight
  {
  }

  /** With the shipped values (gravity -20, jump height 1.2) the launch speed,
      the square root of 48, lies between 6.92 and 6.93. */
  lemma DefaultLaunchSpeed(cfg: MovementConfig)
    requires SourceDefaults(cfg) && JumpSpeedMatches(cfg)
    ensures 6.92 < cfg.jumpSpeed < 6.93
  {
    var v := cfg.jumpSpeed;
    assert v * v == 48.0;
    RootOrder(6.92, v);
    RootOrder(v, 6.93);
  }

  /** Square roots preserve strict order. */
  lemma RootOrder(a: real, b: real)
    requires 0.0 <= a && 0.0 <= b && a * a < b * b
    ensures a < b
  {
  }

  /** Speed never overshoots: the new speed lies between the old one and the
      target and moves by at most the applicable rate times the frame time. */
  lemma SpeedApproachesTarget(cfg: MovementConfig, s: Motion, f: FrameInput, e: EngineInput)
    requires cfg.acceleration >= 0.0 && cfg.deceleration >= 0.0 && e.deltaTime >= 0.0
    ensures var r := Step(cfg, s, f, e);
      && Between(s.currentSpeed, r.currentSpeed, r.targetSpeed)
      && Abs(r.currentSpeed - s.currentSpeed)
         <= (if r.targetSpeed > s.currentSpeed then cfg.acceleration else cfg.deceleration) * e.deltaTime
      && (r.targetSpeed == cfg.sprintSpeed || r.targetSpeed == cfg.walkSpeed || r.targetSpeed == 0.0)
  {
  }

  /** With the stick in the dead zone the speed decays by the deceleration
      rate, reaching 0 only once it is within one tick's deceleration. */
  lemma SpeedDecaysWithoutInput(cfg: MovementConfig, current: real, x: real, y: real, sprintHeld: bool, dt: real)
    requires !MoveActive(x, y)
    requires cfg.deceleration >= 0.0 && dt >= 0.0 && current >= 0.0
    ensures var r := SpeedStep(cfg, current, TargetSpeed(cfg, x, y, sprintHeld), dt);
      && (current > cfg.deceleration * dt ==> r == current - cfg.deceleration * dt && r > 0.0)
      && (current <= cfg.deceleration * dt ==> r == 0.0)
  {
    assert cfg.deceleration * dt >= 0.0;
  }

  /** Movement's drive-speed rule holds for the whole tick, because the jump,
      gravity and slide stages after it never touch the drive speed or the
      smoothed speed: with the stick exactly at rest the input-driven planar
      velocity is zero, whatever the decaying speed; with the stick inside the
      dead zone but not at rest the body glides at the decaying speed. */
  lemma DriveStopsAtRest(cfg: MovementConfig, s: Motion, f: FrameInput, e: EngineInput)
    ensures StickAtRest(f.moveX, f.moveY) ==> Step(cfg, s, f, e).driveSpeed == 0.0
    ensures !StickAtRest(f.moveX, f.moveY) ==> Step(cfg, s, f, e).driveSpeed == Step(cfg, s, f, e).currentSpeed
  {
  }

  /** With clamping on and an ordered range, the pitch lies in the range after
      every tick, whatever the look delta. */
  lemma PitchStaysClamped(cfg: MovementConfig, s: Motion, f: FrameInput, e: EngineInput)
    requires cfg.clampPitch && cfg.minPitch <= cfg.maxPitch
    ensures cfg.minPitch <= Step(cfg, s, f, e).pitch <= cfg.maxPitch
  {
  }

  /** The same over any non-empty sequence of ticks. */
  lemma {:induction false} RunKeepsPitchClamped(cfg: MovementConfig, s: Motion, ticks: seq<TickInput>)
    requires cfg.clampPitch && cfg.minPitch <= cfg.maxPitch
    requires |ticks| > 0
    ensures cfg.minPitch <= Run(cfg, s, ticks).pitch <= cfg.maxPitch
    decreases |ticks|
  {
    var next := Step(cfg, s, ticks[0].frame, ticks[0].engine);
    PitchStaysClamped(cfg, s, ticks[0].frame, ticks[0].engine);
    if |ticks| > 1 {
      RunKeepsPitchClamped(cfg, next, ticks[1..]);
    }
  }

  /** The slide fires only on a swept slope just past the walkable limit,
      within the ground check's tolerance: anything steeper is not grounded. */
  lemma SlideOnlyJustPastLimit(cfg: MovementConfig, s: Motion, f: FrameInput, e: EngineInput)
    requires cfg.maxSlopeAngle >= 0.0
    ensures Step(cfg, s, f, e).sliding ==>
      && e.sweep.Hit? && e.controllerGrounded && !f.jumpPressed
      && cfg.maxSlopeAngle < e.sweep.angle <= cfg.maxSlopeAngle + SlopeTolerance
  {
  }

  /** So on a 70 degree slope with the shipped 50 degree limit no slide drift
      is ever added. */
  lemma NoSlideOnSteepSlope(cfg: MovementConfig, s: Motion, f: FrameInput, e: EngineInput)
    requires SourceDefaults(cfg)
    requires e.sweep == Hit(70.0)
    ensures !Step(cfg, s, f, e).sliding && !Step(cfg, s, f, e).isGrounded
  {
  }
}
