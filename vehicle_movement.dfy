/** `VehicleMovement`: the fixed-tick driver. One tick turns the vehicle, clears
    the drift flag, recomputes velocity and forces when the vehicle is on the
    ground, latches the moving flag, adds the forces to the position and then
    steps the race's four poll timers, so every physics step sees the timers as
    they were before the tick. */
module VehicleMovement {
  import opened Bits
  import opened VehiclePhysics
  import opened VehicleTypes
  import opened NESPhysics
  import Spec = PhysicsSpec
  import MovementSpec

  /** On the ground and not on terrain 14: velocity and forces are recomputed. */
  predicate Grounded(v: VehicleState)
    reads v
  {
    v.altitude == 0 && v.terrainType != 14
  }

  /** The state a tick starts from and ends in: a heading on the compass, a
      speed `Math.Abs` accepts, a sound queue without duplicates and lookup
      tables large enough for every index a tick forms. */
  predicate Valid(v: VehicleState, r: RaceState)
    reads v, r
  {
    0 <= v.heading < 64 && v.velocity != -0x80 && Spec.NoDuplicates(v.sfx) &&
    MovementSpec.TablesFit(r.VELOCITY_SCALAR_X_LUT, r.VELOCITY_SCALAR_Y_LUT, r.HANDICAP_LUT, v.handicapAmount,
                           r.DRIFT_THRESHOLD_LUT, r.DRIFT_FORCE_AMOUNT_LUT, r.vehicleType)
  }

  /** The race's poll timers. */
  function Timers(r: RaceState): MovementSpec.PollTimers
    reads r
  {
    MovementSpec.PollTimers(r.turnPollTimer, r.tankSlowTurnPollTimer, r.velocityPollTimer, r.driftSpeedLossTimer)
  }

  /** One fixed tick. Its body runs in three consecutive blocks, each a method
      below: the physics, the moving flag and position, the poll timers. */
  method FixedUpdate(v: VehicleState, r: RaceState)
    requires Valid(v, r)
    modifies v`heading, v`velocity, v`isDrifting, v`xVelocity, v`yVelocity,
             v`xVelocityForceDifference, v`yVelocityForceDifference, v`xyVelocityForceDifferenceMagnitude,
             v`gripChangeTimer, v`xForce, v`yForce, v`sfx, v`isMoving, v`xPosition, v`yPosition,
             r`turnPollTimer, r`tankSlowTurnPollTimer, r`velocityPollTimer, r`driftSpeedLossTimer
    ensures Valid(v, r)
    // the turn sees the poll timers as they were before the tick
    ensures v.heading == old(Spec.TurnedHeading(v.heading, v.controllerLeft, v.controllerRight,
              Spec.TurnActive(r.countdownTimer, v.spawnState, r.vehicleType, r.turnPollTimer),
              Spec.TurnPolled(r.vehicleType, Spec.UnderPower(v.controllerAccelerate, v.controllerBrake, v.isAIControlledSpeed),
                              r.turnPollTimer, r.tankSlowTurnPollTimer)))
    ensures var turned := old(if Spec.CreepsForward(Spec.TurnActive(r.countdownTimer, v.spawnState, r.vehicleType, r.turnPollTimer),
                                                    v.controllerLeft, v.controllerRight, r.vehicleType, v.isMoving)
                              then 1 else v.velocity);
            // off the ground only the turn acts; the drift flag stays cleared
            (!old(Grounded(v)) ==>
               v.velocity == turned && !v.isDrifting &&
               v.xVelocity == old(v.xVelocity) && v.yVelocity == old(v.yVelocity) &&
               v.xForce == old(v.xForce) && v.yForce == old(v.yForce) &&
               v.xVelocityForceDifference == old(v.xVelocityForceDifference) &&
               v.yVelocityForceDifference == old(v.yVelocityForceDifference) &&
               v.xyVelocityForceDifferenceMagnitude == old(v.xyVelocityForceDifferenceMagnitude) &&
               v.gripChangeTimer == old(v.gripChangeTimer) && v.sfx == old(v.sfx)) &&
            // on the ground the polled vehicle's velocity comes from its new heading
            // and its speed after the turn, an unpolled vehicle keeps its velocity,
            // and the forces end equal to the velocities
            (old(Grounded(v) && Spec.ScalarsPolled(v.playerIndex, r.velocityPollTimer)) ==>
               v.xVelocity == Spec.XVelocity(r.VELOCITY_SCALAR_X_LUT, v.heading, turned, v.terrainType) &&
               v.yVelocity == Spec.YVelocity(r.VELOCITY_SCALAR_Y_LUT, v.heading, turned)) &&
            (old(Grounded(v) && !Spec.ScalarsPolled(v.playerIndex, r.velocityPollTimer)) ==>
               v.xVelocity == old(v.xVelocity) && v.yVelocity == old(v.yVelocity)) &&
            (old(Grounded(v)) ==> v.xForce == v.xVelocity && v.yForce == v.yVelocity)
    // the moving flag is latched, never cleared
    ensures v.isMoving == (old(v.isMoving) || v.xForce != 0 || v.yForce != 0)
    // the position accumulates the forces, with 32-bit wrap-around
    ensures v.xPosition == Wrap32(old(v.xPosition) + v.xForce)
    ensures v.yPosition == Wrap32(old(v.yPosition) + v.yForce)
    ensures Timers(r) == MovementSpec.TimersAfterTick(old(Timers(r)))
  {
    PhysicsStep(v, r);
    Move(v);
    StepPollTimers(r);
  }

  /** The physics of a tick: the turn, the cleared drift flag and, on the
      ground, the recomputed velocity and forces. */
  method PhysicsStep(v: VehicleState, r: RaceState)
    requires Valid(v, r)
    modifies v`heading, v`velocity, v`isDrifting, v`xVelocity, v`yVelocity,
             v`xVelocityForceDifference, v`yVelocityForceDifference, v`xyVelocityForceDifferenceMagnitude,
             v`gripChangeTimer, v`xForce, v`yForce, v`sfx
    ensures 0 <= v.heading < 64 && v.velocity != -0x80 && Spec.NoDuplicates(v.sfx)
    // the turn sees the poll timers as they were before the tick
    ensures v.heading == old(Spec.TurnedHeading(v.heading, v.controllerLeft, v.controllerRight,
              Spec.TurnActive(r.countdownTimer, v.spawnState, r.vehicleType, r.turnPollTimer),
              Spec.TurnPolled(r.vehicleType, Spec.UnderPower(v.controllerAccelerate, v.controllerBrake, v.isAIControlledSpeed),
                              r.turnPollTimer, r.tankSlowTurnPollTimer)))
    ensures var turned := old(if Spec.CreepsForward(Spec.TurnActive(r.countdownTimer, v.spawnState, r.vehicleType, r.turnPollTimer),
                                                    v.controllerLeft, v.controllerRight, r.vehicleType, v.isMoving)
                              then 1 else v.velocity);
            // off the ground only the turn acts; the drift flag stays cleared
            (!old(Grounded(v)) ==>
               v.velocity == turned && !v.isDrifting &&
               v.xVelocity == old(v.xVelocity) && v.yVelocity == old(v.yVelocity) &&
               v.xForce == old(v.xForce) && v.yForce == old(v.yForce) &&
               v.xVelocityForceDifference == old(v.xVelocityForceDifference) &&
               v.yVelocityForceDifference == old(v.yVelocityForceDifference) &&
               v.xyVelocityForceDifferenceMagnitude == old(v.xyVelocityForceDifferenceMagnitude) &&
               v.gripChangeTimer == old(v.gripChangeTimer) && v.sfx == old(v.sfx)) &&
            // on the ground the polled vehicle's velocity comes from its new heading
            // and its speed after the turn, an unpolled vehicle keeps its velocity,
            // and the forces end equal to the velocities
            (old(Grounded(v) && Spec.ScalarsPolled(v.playerIndex, r.velocityPollTimer)) ==>
               v.xVelocity == Spec.XVelocity(r.VELOCITY_SCALAR_X_LUT, v.heading, turned, v.terrainType) &&
               v.yVelocity == Spec.YVelocity(r.VELOCITY_SCALAR_Y_LUT, v.heading, turned)) &&
            (old(Grounded(v) && !Spec.ScalarsPolled(v.playerIndex, r.velocityPollTimer)) ==>
               v.xVelocity == old(v.xVelocity) && v.yVelocity == old(v.yVelocity)) &&
            (old(Grounded(v)) ==> v.xForce == v.xVelocity && v.yForce == v.yVelocity)
  {
    Spec.TurnKeepsHeading(v.heading, v.controllerLeft, v.controllerRight,
                          Spec.TurnActive(r.countdownTimer, v.spawnState, r.vehicleType, r.turnPollTimer),
                          Spec.TurnPolled(r.vehicleType, Spec.UnderPower(v.controllerAccelerate, v.controllerBrake, v.isAIControlledSpeed),
                                          r.turnPollTimer, r.tankSlowTurnPollTimer));
    Turn(v, r);
    v.isDrifting := false;
    if v.altitude == 0 && v.terrainType != 14 {
      GroundPhysics(v, r);
    }
  }

  /** On the ground: the velocity is recomputed from the heading and speed, and
      the forces from the velocity; the powerboat step that belongs here is
      not implemented in the source. */
  method GroundPhysics(v: VehicleState, r: RaceState)
    requires 0 <= v.heading < 64 && v.velocity != -0x80 && Spec.NoDuplicates(v.sfx)
    requires MovementSpec.TablesFit(r.VELOCITY_SCALAR_X_LUT, r.VELOCITY_SCALAR_Y_LUT, r.HANDICAP_LUT, v.handicapAmount,
                                    r.DRIFT_THRESHOLD_LUT, r.DRIFT_FORCE_AMOUNT_LUT, r.vehicleType)
    modifies v`xVelocity, v`yVelocity, v`xVelocityForceDifference, v`yVelocityForceDifference,
             v`xyVelocityForceDifferenceMagnitude, v`gripChangeTimer, v`xForce, v`yForce,
             v`velocity, v`isDrifting, v`sfx
    ensures old(Spec.ScalarsPolled(v.playerIndex, r.velocityPollTimer)) ==>
              v.xVelocity == old(Spec.XVelocity(r.VELOCITY_SCALAR_X_LUT, v.heading, v.velocity, v.terrainType)) &&
              v.yVelocity == old(Spec.YVelocity(r.VELOCITY_SCALAR_Y_LUT, v.heading, v.velocity))
    ensures old(!Spec.ScalarsPolled(v.playerIndex, r.velocityPollTimer)) ==>
              v.xVelocity == old(v.xVelocity) && v.yVelocity == old(v.yVelocity)
    ensures v.xForce == v.xVelocity && v.yForce == v.yVelocity
    // a drift keeps the speed within `Math.Abs`'s domain and the queue free of duplicates
    ensures v.velocity != -0x80 && Spec.NoDuplicates(v.sfx)
  {
    CalculateVelocityScalars(v, r);
    MovementSpec.FitDefinesDrift(r.VELOCITY_SCALAR_X_LUT, r.VELOCITY_SCALAR_Y_LUT, r.HANDICAP_LUT, v.handicapAmount,
                                 r.DRIFT_THRESHOLD_LUT, r.DRIFT_FORCE_AMOUNT_LUT, r.vehicleType,
                                 Spec.GripUnlimited(v.hasUnlimitedGrip, r.hasUnlimitedGrip, v.playerIndex),
                                 v.hasUnlimitedGrip, v.isAIControlledSpeed, v.gripChangeTimer, v.driftSoundTimer);
    Spec.DriftSoundKeepsUnique(v.sfx, v.hasUnlimitedGrip, v.driftSoundTimer, r.vehicleType);
    CalculateVelocityForces(v, r);
  }

  /** The moving flag is latched, never cleared, and the position accumulates
      the forces with 32-bit wrap-around. */
  method Move(v: VehicleState)
    modifies v`isMoving, v`xPosition, v`yPosition
    ensures v.isMoving == (old(v.isMoving) || v.xForce != 0 || v.yForce != 0)
    ensures v.xPosition == Wrap32(old(v.xPosition) + v.xForce)
    ensures v.yPosition == Wrap32(old(v.yPosition) + v.yForce)
  {
    var isMoving := v.isMoving;
    if v.xForce != 0 || v.yForce != 0 {
      isMoving := true;
    }
    v.isMoving, v.xPosition, v.yPosition := isMoving, Wrap32(v.xPosition as int + v.xForce), Wrap32(v.yPosition as int + v.yForce);
  }

  /** The poll timers step after the physics of the tick. */
  method StepPollTimers(r: RaceState)
    modifies r`turnPollTimer, r`tankSlowTurnPollTimer, r`velocityPollTimer, r`driftSpeedLossTimer
    ensures Timers(r) == MovementSpec.TimersAfterTick(old(Timers(r)))
  {
    // each timer counts down and reloads with its rate, except the velocity
    // poll timer, whose reload goes to the tank slow-turn timer
    var turnPollTimer := r.turnPollTimer;
    if turnPollTimer > 0 {
      turnPollTimer := turnPollTimer - 1;
    } else {
      turnPollTimer := NORMAL_TURN_POLL_RATE;
    }
    var tankSlowTurnPollTimer := r.tankSlowTurnPollTimer;
    if tankSlowTurnPollTimer > 0 {
      tankSlowTurnPollTimer := tankSlowTurnPollTimer - 1;
    } else {
      tankSlowTurnPollTimer := TANK_SLOW_TURN_POLL_RATE;
    }
    var velocityPollTimer := r.velocityPollTimer;
    if velocityPollTimer > 0 {
      velocityPollTimer := velocityPollTimer - 1;
    } else {
      tankSlowTurnPollTimer := VELOCITY_POLL_RATE;
    }
    var driftSpeedLossTimer := r.driftSpeedLossTimer;
    if driftSpeedLossTimer > 0 {
      driftSpeedLossTimer := driftSpeedLossTimer - 1;
    } else {
      driftSpeedLossTimer := DRIFT_SPEED_LOSS_RATE;
    }
    r.turnPollTimer, r.tankSlowTurnPollTimer, r.velocityPollTimer, r.driftSpeedLossTimer :=
      turnPollTimer, tankSlowTurnPollTimer, velocityPollTimer, driftSpeedLossTimer;
  }
}
