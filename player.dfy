/** The controller object itself: its state lives in fields that each stage of
    `Update` rewrites in place, and its two contact sets are diffed by the hit
    callback and at the end of each tick. Every stage is proved to leave the
    state the matching function of module Locomotion computes; every contact
    operation is proved against module Contacts. */
module Player {
  import opened Scalar
  import opened Contacts
  import opened Locomotion

  class PlayerMovementInputSystem<C(==)> {
    const config: MovementConfig

    var velocityY: real
    var currentSpeed: real
    var targetSpeed: real
    var driveSpeed: real
    var sliding: bool
    var isGrounded: bool
    var slopeAngle: real
    var lastGroundedTime: real
    var airJumpsUsed: int
    var yaw: real
    var pitch: real

    /** Colliders touched during this tick and during the previous one. */
    var currentHits: set<C>
    var previousHits: set<C>

    /** The locomotion fields as one value. */
    function State(): (s: Motion)
      reads this
    {
      Motion(velocityY, currentSpeed, targetSpeed, driveSpeed, sliding,
             isGrounded, slopeAngle, lastGroundedTime, airJumpsUsed, yaw, pitch)
    }

    /** The object invariant: the launch speed is the one the jump height and
        gravity give, and the air-jump counter stays within its budget. */
    predicate Valid()
      reads this
    {
      JumpSpeedMatches(config) && AirJumpsWithinBudget(config, State())
    }

    /** Start at rest, not grounded, with a level ground normal, yaw taken from
        the body and pitch from the camera's local angle when the camera is a
        separate object (`None` when the camera is the body itself). The
        configuration's launch speed must be the square root of
        2 * -gravity * jumpHeight, as the jump computes it. */
    constructor (cfg: MovementConfig, bodyYaw: real, cameraPitch: Option<real>)
      requires JumpSpeedMatches(cfg)
      ensures Valid()
      ensures config == cfg && currentHits == {} && previousHits == {}
      ensures State() == Motion(0.0, 0.0, 0.0, 0.0, false, false, 0.0, 0.0, 0, bodyYaw,
                                if cameraPitch.Some? then NormalizeAngle(cameraPitch.value) else 0.0)
    {
      config := cfg;
      velocityY, currentSpeed, targetSpeed, driveSpeed, sliding := 0.0, 0.0, 0.0, 0.0, false;
      isGrounded, slopeAngle, lastGroundedTime, airJumpsUsed := false, 0.0, 0.0, 0;
      yaw := bodyYaw;
      pitch := if cameraPitch.Some? then NormalizeAngle(cameraPitch.value) else 0.0;
      currentHits, previousHits := {}, {};
    }

    method HandleLook(lookX: real, lookY: real, pointerLook: bool, dt: real)
      modifies this
      ensures State() == Look(config, old(State()), lookX, lookY, pointerLook, dt)
      ensures currentHits == old(currentHits) && previousHits == old(previousHits)
    {
      // A mouse delta is already per tick; a stick delta is a rate in degrees per second.
      var scale := if pointerLook then config.mouseSensitivity else config.gamepadLookSensitivity * dt;
      yaw := yaw + lookX * scale;
      pitch := pitch - lookY * scale;
      if config.clampPitch {
        pitch := Clamp(pitch, config.minPitch, config.maxPitch);
      }
    }

    method HandleGroundCheck(sweep: Sweep, controllerGrounded: bool, now: real)
      modifies this
      ensures State() == GroundCheck(config, old(State()), sweep, controllerGrounded, now)
      ensures currentHits == old(currentHits) && previousHits == old(previousHits)
    {
      isGrounded := false;
      slopeAngle := 0.0;
      match sweep {
        case Hit(angle) =>
          slopeAngle := angle;
          if angle <= config.maxSlopeAngle + SlopeTolerance && controllerGrounded {
            isGrounded := true;
            lastGroundedTime := now;
            airJumpsUsed := 0;
          }
        case NoHit =>
          if controllerGrounded {
            isGrounded := true;
            lastGroundedTime := now;
            airJumpsUsed := 0;
          }
      }
      if isGrounded && velocityY < 0.0 {
        velocityY := config.groundedGravity;
      }
    }

    method HandleMovement(moveX: real, moveY: real, sprintHeld: bool, dt: real, facingYaw: Option<real>)
      modifies this
      ensures State() == Movement(config, old(State()), moveX, moveY, sprintHeld, dt, facingYaw)
      ensures currentHits == old(currentHits) && previousHits == old(previousHits)
    {
      // Walk or sprint speed while the stick is out of the dead zone, then
      // accelerate or decelerate toward it.
      var target := TargetSpeed(config, moveX, moveY, sprintHeld);
      var speed := SpeedStep(config, currentSpeed, target, dt);
      // The smoothed turn toward the movement direction overwrites the look yaw.
      var facing := match facingYaw case Some(angle) => angle case None => yaw;
      targetSpeed, currentSpeed, yaw := target, speed, facing;
      // The planar velocity is rebuilt from the stick alone, without drift.
      driveSpeed := if StickAtRest(moveX, moveY) then 0.0 else speed;
      sliding := false;
    }

    method HandleJump(jumpPressed: bool, now: real)
      modifies this
      ensures State() == Jump(config, old(State()), jumpPressed, now)
      ensures currentHits == old(currentHits) && previousHits == old(previousHits)
    {
      var canCoyote := now - lastGroundedTime <= config.coyoteTime;
      if jumpPressed {
        if isGrounded || canCoyote {
          velocityY := config.jumpSpeed;
          isGrounded := false;
        } else if airJumpsUsed < config.extraAirJumps {
          velocityY := config.jumpSpeed;
          airJumpsUsed := airJumpsUsed + 1;
        }
      }
    }

    method ApplyGravity(dt: real)
      modifies this
      ensures State() == Gravity(config, old(State()), dt)
      ensures currentHits == old(currentHits) && previousHits == old(previousHits)
    {
      velocityY := velocityY + config.gravity * dt;
    }

    method ApplySlopeSlideIfNeeded()
      modifies this
      ensures State() == SlopeSlide(config, old(State()))
      ensures currentHits == old(currentHits) && previousHits == old(previousHits)
    {
      if !isGrounded || !config.slideOnSteepSlopes {
        return;
      }
      if slopeAngle > config.maxSlopeAngle {
        sliding := true;
      }
    }

    /** The hit callback: report Enter or Stay by the previous tick's set and
        record the collider in this tick's set. */
    method OnControllerColliderHit(c: C) returns (e: ContactEvent<C>)
      modifies this
      ensures e == HitEvent(old(previousHits), c)
      ensures currentHits == old(currentHits) + {c} && previousHits == old(previousHits)
      ensures State() == old(State())
    {
      var wasAlready := c in previousHits;
      currentHits := currentHits + {c};
      if !wasAlready {
        e := Enter(c);
      } else {
        e := Stay(c);
      }
    }

    /** End of tick: report Exit for every collider of the previous tick not
        touched on this one, then this tick's set becomes the previous one and
        this tick's set is emptied. */
    method EndContactTick() returns (exits: seq<ContactEvent<C>>)
      modifies this
      ensures ExitsExactly(exits, old(previousHits) - old(currentHits))
      ensures previousHits == old(currentHits) && currentHits == {}
      ensures State() == old(State())
    {
      exits := ReportExits(previousHits, currentHits);
      previousHits := currentHits;
      currentHits := {};
    }

    /** The mover's callbacks for one displacement, in order: one hit
        callback per contact. */
    method DeliverHits(hits: seq<C>) returns (events: seq<ContactEvent<C>>)
      modifies this
      ensures events == HitEvents(old(previousHits), hits)
      ensures currentHits == old(currentHits) + ToSet(hits) && previousHits == old(previousHits)
      ensures State() == old(State())
    {
      events := [];
      var i := 0;
      while i < |hits|
        invariant 0 <= i <= |hits|
        invariant |events| == i
        invariant forall j :: 0 <= j < i ==> events[j] == HitEvent(old(previousHits), hits[j])
        invariant previousHits == old(previousHits)
        invariant currentHits == old(currentHits) + ToSet(hits[..i])
        invariant State() == old(State())
      {
        var e := OnControllerColliderHit(hits[i]);
        events := events + [e];
        assert ToSet(hits[..i + 1]) == ToSet(hits[..i]) + {hits[i]} by {
          assert hits[..i + 1] == hits[..i] + [hits[i]];
        }
        i := i + 1;
      }
      assert hits[..|hits|] == hits;
    }

    /** One tick: the stages in order, then the mover reports the colliders it
        touched (in callback order), then the end-of-tick diff. The returned
        events are the hit events followed by the exits. */
    method Update(frame: FrameInput, engine: EngineInput, hits: seq<C>) returns (events: seq<ContactEvent<C>>)
      modifies this
      ensures old(Valid()) ==> Valid()
      ensures State() == Step(config, old(State()), frame, engine)
      ensures |events| >= |hits| && events[..|hits|] == HitEvents(old(previousHits), hits)
      ensures ExitsExactly(events[|hits|..], old(previousHits) - (old(currentHits) + ToSet(hits)))
      ensures previousHits == old(currentHits) + ToSet(hits) && currentHits == {}
      ensures old(currentHits) == {} ==>
        var (report, next) := ContactTick(old(previousHits), hits);
        events[..|hits|] == report.hitEvents && ExitsExactly(events[|hits|..], report.exited)
        && previousHits == next
    {
      if Valid() {
        StepKeepsAirJumpBudget(config, State(), frame, engine);
      }
      HandleLook(frame.lookX, frame.lookY, frame.pointerLook, engine.deltaTime);
      HandleGroundCheck(engine.sweep, engine.controllerGrounded, engine.time);
      HandleMovement(frame.moveX, frame.moveY, frame.sprintHeld, engine.deltaTime, engine.facingYaw);
      HandleJump(frame.jumpPressed, engine.time);
      ApplyGravity(engine.deltaTime);
      ApplySlopeSlideIfNeeded();

      // The mover applies the displacement and calls back once per contact.
      events := DeliverHits(hits);
      var exits := EndContactTick();
      ghost var delivered := events;
      events := events + exits;
      assert events[..|hits|] == delivered;
      assert events[|hits|..] == exits;
    }
  }
}
