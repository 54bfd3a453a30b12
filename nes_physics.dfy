/** `NESPhysics`: the per-tick physics steps, each updating the vehicle record
    in place; the race record is only read. Every method names in `modifies` the
    only fields it may write, and proves each of them equal to the matching
    function of PhysicsSpec applied to the values the step started from.
    Intermediate values are kept in locals and stored once, which the source's
    sequence of field assignments is equal to, since nothing else reads the
    record in between. */
module NESPhysics {
  import opened Bits
  import opened VehiclePhysics
  import opened VehicleTypes
  import Spec = PhysicsSpec

  method Turn(v: VehicleState, r: RaceState)
    requires (Spec.TurnActive(r.countdownTimer, v.spawnState, r.vehicleType, r.turnPollTimer) &&
              !v.controllerLeft && !v.controllerRight) ==> 0 <= v.heading < |HEADING_CLAMP_LUT|
    modifies v`heading, v`velocity
    ensures v.heading == old(Spec.TurnedHeading(v.heading, v.controllerLeft, v.controllerRight,
              Spec.TurnActive(r.countdownTimer, v.spawnState, r.vehicleType, r.turnPollTimer),
              Spec.TurnPolled(r.vehicleType, Spec.UnderPower(v.controllerAccelerate, v.controllerBrake, v.isAIControlledSpeed),
                              r.turnPollTimer, r.tankSlowTurnPollTimer)))
    ensures v.velocity == if old(Spec.CreepsForward(Spec.TurnActive(r.countdownTimer, v.spawnState, r.vehicleType, r.turnPollTimer),
                                                    v.controllerLeft, v.controllerRight, r.vehicleType, v.isMoving))
                          then 1 else old(v.velocity)
  {
    var heading := v.heading;
    // no turning before the countdown is over
    if r.countdownTimer == 0 {
      if r.vehicleType == TANKS {
        if v.spawnState == ALIVE {
          if !v.controllerLeft && !v.controllerRight {
            v.heading := HEADING_CLAMP_LUT[heading];
          } else {
            // the poll timer depends on the power state
            if !v.controllerAccelerate && !v.controllerBrake && !v.isAIControlledSpeed {
              if r.turnPollTimer != 0 {
                return;
              }
            } else if r.tankSlowTurnPollTimer != 0 {
              return;
            }
            // left has priority over right
            if v.controllerLeft {
              heading := Wrap32(heading - 1);
            } else if v.controllerRight {
              heading := Wrap32(heading + 1);
            }
            if heading < 0 {
              heading := 63;
            } else if heading > 63 {
              heading := 0;
            }
            v.heading := heading;
          }
        }
      } else if r.turnPollTimer == 1 && v.spawnState == ALIVE {
        if !v.controllerLeft && !v.controllerRight {
          v.heading := HEADING_CLAMP_LUT[heading];
        } else {
          // a stationary vehicle other than a chopper creeps forward while turning
          var velocity := v.velocity;
          if !v.isMoving && r.vehicleType != CHOPPERS {
            velocity := 1;
          }
          if v.controllerLeft {
            heading := Wrap32(heading - 1);
          } else if v.controllerRight {
            heading := Wrap32(heading + 1);
          }
          if heading < 0 {
            heading := 63;
          } else if heading > 63 {
            heading := 0;
          }
          v.heading, v.velocity := heading, velocity;
        }
      }
    }
  }

  method CalculateVelocityScalars(v: VehicleState, r: RaceState)
    requires Spec.ScalarsPolled(v.playerIndex, r.velocityPollTimer) ==>
               Spec.ScalarsDefined(r.VELOCITY_SCALAR_X_LUT, r.VELOCITY_SCALAR_Y_LUT, v.heading, v.velocity)
    modifies v`xVelocity, v`yVelocity
    ensures old(Spec.ScalarsPolled(v.playerIndex, r.velocityPollTimer)) ==>
              v.xVelocity == old(Spec.XVelocity(r.VELOCITY_SCALAR_X_LUT, v.heading, v.velocity, v.terrainType)) &&
              v.yVelocity == old(Spec.YVelocity(r.VELOCITY_SCALAR_Y_LUT, v.heading, v.velocity))
    ensures old(!Spec.ScalarsPolled(v.playerIndex, r.velocityPollTimer)) ==>
              v.xVelocity == old(v.xVelocity) && v.yVelocity == old(v.yVelocity)
  {
    // only the vehicle whose turn it is gets recomputed
    if v.playerIndex == r.velocityPollTimer {
      var speed: SByte := Abs(v.velocity);
      var xScalar: SByte;
      if v.velocity < 0 {
        xScalar := Wrap8(-(r.VELOCITY_SCALAR_X_LUT[v.heading] as int));
      } else {
        xScalar := r.VELOCITY_SCALAR_X_LUT[v.heading];
      }
      Spec.ProductBound(xScalar, speed);
      var xVelocity := Wrap16(xScalar * speed);
      if v.terrainType == 0x12 {
        xVelocity := Wrap16(xVelocity + 0x200);
      }

      var yScalar: SByte;
      if v.velocity < 0 {
        yScalar := Wrap8(-(r.VELOCITY_SCALAR_Y_LUT[v.heading] as int));
      } else {
        yScalar := r.VELOCITY_SCALAR_Y_LUT[v.heading];
      }
      Spec.ProductBound(yScalar, speed);
      v.xVelocity, v.yVelocity := xVelocity, Wrap16(yScalar * speed);
    }
  }

  method CalculateVelocityForces(v: VehicleState, r: RaceState)
    requires Spec.ThresholdDefined(Spec.GripUnlimited(v.hasUnlimitedGrip, r.hasUnlimitedGrip, v.playerIndex),
                                   v.gripChangeTimer, r.HANDICAP_LUT, v.handicapAmount, r.DRIFT_THRESHOLD_LUT)
    requires Spec.Drifts(Spec.GripUnlimited(v.hasUnlimitedGrip, r.hasUnlimitedGrip, v.playerIndex), v.gripChangeTimer,
                         Spec.ForceDifference(v.xVelocity, v.xForce), Spec.ForceDifference(v.yVelocity, v.yForce),
                         r.HANDICAP_LUT, v.handicapAmount, r.DRIFT_THRESHOLD_LUT) ==>
               Spec.FrictionDefined(v.hasUnlimitedGrip, r.vehicleType, v.isAIControlledSpeed, v.gripChangeTimer,
                                    r.HANDICAP_LUT, v.handicapAmount, r.DRIFT_FORCE_AMOUNT_LUT, v.driftSoundTimer)
    modifies v`xVelocityForceDifference, v`yVelocityForceDifference,
             v`xyVelocityForceDifferenceMagnitude, v`gripChangeTimer,
             v`xForce, v`yForce, v`velocity, v`isDrifting, v`sfx
    ensures v.xVelocityForceDifference == old(Spec.ForceDifference(v.xVelocity, v.xForce))
    ensures v.yVelocityForceDifference == old(Spec.ForceDifference(v.yVelocity, v.yForce))
    ensures v.gripChangeTimer ==
              old(Spec.GripTimer(Spec.GripUnlimited(v.hasUnlimitedGrip, r.hasUnlimitedGrip, v.playerIndex), v.gripChangeTimer))
    ensures v.xyVelocityForceDifferenceMagnitude ==
              if old(Spec.ChecksDrift(Spec.GripUnlimited(v.hasUnlimitedGrip, r.hasUnlimitedGrip, v.playerIndex), v.gripChangeTimer))
              then Spec.Magnitude(v.xVelocityForceDifference, v.yVelocityForceDifference)
              else old(v.xyVelocityForceDifferenceMagnitude)
    // on every path the forces end equal to the velocities
    ensures v.xForce == v.xVelocity && v.yForce == v.yVelocity
    ensures var drifts := old(Spec.Drifts(Spec.GripUnlimited(v.hasUnlimitedGrip, r.hasUnlimitedGrip, v.playerIndex),
                                          v.gripChangeTimer,
                                          Spec.ForceDifference(v.xVelocity, v.xForce), Spec.ForceDifference(v.yVelocity, v.yForce),
                                          r.HANDICAP_LUT, v.handicapAmount, r.DRIFT_THRESHOLD_LUT));
            v.isDrifting == (old(v.isDrifting) || drifts) &&
            v.velocity == (if drifts then old(Spec.SpeedAfterDrift(v.velocity, Spec.LosesSpeed(r.vehicleType, r.driftSpeedLossTimer)))
                           else old(v.velocity)) &&
            v.sfx == if drifts then old(Spec.DriftSound(v.sfx, v.hasUnlimitedGrip, v.driftSoundTimer, r.vehicleType))
                     else old(v.sfx)
  {
    var xDifference := Wrap16(Abs(v.xVelocity - v.xForce));
    var yDifference := Wrap16(Abs(v.yVelocity - v.yForce));
    v.xVelocityForceDifference, v.yVelocityForceDifference := xDifference, yDifference;

    var driftThresholdIndexLUT := 0;
    if !v.hasUnlimitedGrip && (!r.hasUnlimitedGrip || v.playerIndex != 0) {
      var gripChangeTimer := v.gripChangeTimer;
      if gripChangeTimer >= 0 {
        if gripChangeTimer > 0 {
          gripChangeTimer := gripChangeTimer - 1;
          driftThresholdIndexLUT := 0;
        }
        if gripChangeTimer == 0 {
          driftThresholdIndexLUT := r.HANDICAP_LUT[v.handicapAmount];
        }
        v.gripChangeTimer, v.xyVelocityForceDifferenceMagnitude := gripChangeTimer, Wrap16(yDifference as int + xDifference);
        if v.xyVelocityForceDifferenceMagnitude >= r.DRIFT_THRESHOLD_LUT[driftThresholdIndexLUT] {
          CalculateExternalFriction(v, r);
        }
      } else if gripChangeTimer < 0 {
        gripChangeTimer := Wrap32(gripChangeTimer as int - 1);
        if gripChangeTimer >= 0 {
          gripChangeTimer := 0;
        }
        v.gripChangeTimer := gripChangeTimer;
      }
    } else {
      driftThresholdIndexLUT := 0x15;
      v.xyVelocityForceDifferenceMagnitude := Wrap16(yDifference as int + xDifference);
      if v.xyVelocityForceDifferenceMagnitude >= r.DRIFT_THRESHOLD_LUT[driftThresholdIndexLUT] {
        CalculateExternalFriction(v, r);
      }
    }
    // whatever happened above, the forces end equal to the velocities
    v.xForce, v.yForce := v.xVelocity, v.yVelocity;
  }

  method CalculateExternalFriction(v: VehicleState, r: RaceState)
    requires Spec.FrictionDefined(v.hasUnlimitedGrip, r.vehicleType, v.isAIControlledSpeed, v.gripChangeTimer,
                                  r.HANDICAP_LUT, v.handicapAmount, r.DRIFT_FORCE_AMOUNT_LUT, v.driftSoundTimer)
    modifies v`xForce, v`yForce, v`velocity, v`isDrifting, v`sfx
    ensures v.xForce == old(Spec.FrictionForce(v.xVelocityForceDifference, v.xVelocity, v.xForce,
              r.DRIFT_FORCE_AMOUNT_LUT[Spec.ForceIndex(v.hasUnlimitedGrip, r.vehicleType, v.isAIControlledSpeed,
                                                       v.gripChangeTimer, r.HANDICAP_LUT, v.handicapAmount)]))
    ensures v.yForce == old(Spec.FrictionForce(v.yVelocityForceDifference, v.yVelocity, v.yForce,
              r.DRIFT_FORCE_AMOUNT_LUT[Spec.ForceIndex(v.hasUnlimitedGrip, r.vehicleType, v.isAIControlledSpeed,
                                                       v.gripChangeTimer, r.HANDICAP_LUT, v.handicapAmount)]))
    ensures v.velocity == old(Spec.SpeedAfterDrift(v.velocity, Spec.LosesSpeed(r.vehicleType, r.driftSpeedLossTimer)))
    ensures v.isDrifting
    ensures v.sfx == old(Spec.DriftSound(v.sfx, v.hasUnlimitedGrip, v.driftSoundTimer, r.vehicleType))
  {
    // the drift amount, by priority
    var driftForceIndexLUT: int;
    if !v.hasUnlimitedGrip {
      driftForceIndexLUT := 0x15;
    } else if r.vehicleType == CHOPPERS && !v.isAIControlledSpeed {
      driftForceIndexLUT := 0x0A;
    } else if v.gripChangeTimer > 0 {
      driftForceIndexLUT := 0x16;
    } else {
      driftForceIndexLUT := r.HANDICAP_LUT[v.handicapAmount];
    }
    var amount := r.DRIFT_FORCE_AMOUNT_LUT[driftForceIndexLUT];

    // x force
    var xForce := v.xForce;
    if v.xVelocityForceDifference >= amount {
      if v.xVelocity < xForce {
        xForce := Wrap16(xForce + amount);
      } else if v.xVelocity > xForce {
        xForce := Wrap16(xForce - amount);
      }
    } else {
      xForce := v.xVelocity;
    }

    // y force
    var yForce := v.yForce;
    if v.yVelocityForceDifference >= amount {
      if v.yVelocity < yForce {
        yForce := Wrap16(yForce + amount);
      } else if v.yVelocity > yForce {
        yForce := Wrap16(yForce - amount);
      }
    } else {
      yForce := v.yVelocity;
    }

    // speed loss, except for choppers, when the drift timer is polled
    var velocity := v.velocity;
    if r.vehicleType != CHOPPERS && r.driftSpeedLossTimer == 0 && velocity != 0 {
      if velocity < 0 {
        velocity := velocity + 1;
      } else {
        velocity := velocity - 1;
      }
    }

    // the drift sound; the queue touches only `sfx`, so storing the values above
    // after it rather than before changes nothing
    if v.driftSoundTimer == 0 {
      var soundIndex := DRIFT_SOUND_LUT[r.vehicleType];
      PlayNonEngineSFX(v, soundIndex);
    }
    v.xForce, v.yForce, v.velocity, v.isDrifting := xForce, yForce, velocity, true;
  }

  method PlayNonEngineSFX(v: VehicleState, soundIndex: Byte)
    modifies v`sfx
    ensures v.sfx == Spec.PlayNonEngineSFX(old(v.sfx), v.hasUnlimitedGrip, soundIndex)
  {
    if v.hasUnlimitedGrip {
      return;
    }
    if soundIndex !in v.sfx {
      v.sfx := v.sfx + [soundIndex];
    }
  }

  method CalculateVerticalForces(v: VehicleState, r: RaceState)
    requires Spec.NewZPosition(v.zPosition, v.zForce) <= 0 ==>
               Spec.BounceDefined(v.zForce, v.bounceBehavior, r.vehicleType)
    modifies v`zPosition, v`zForce, v`checkpointIndex
    ensures v.zPosition == old(Spec.NewZPosition(v.zPosition, v.zForce))
    ensures v.zForce == old(Spec.VerticalForce(v.zPosition, v.zForce,
                              Spec.ZForceTimer(v.bounceBehavior, r.changeZForceTimer1, r.changeZForceTimer2)))
    // the ground bounce writes only the checkpoint
    ensures v.checkpointIndex == if v.zPosition <= 0
                                 then old(Spec.BouncedCheckpoint(v.checkpointIndex, v.zForce, v.bounceBehavior))
                                 else old(v.checkpointIndex)
  {
    // a non-negative force never takes the altitude negative
    var newZPosition: SByte;
    if v.zForce >= 0 {
      newZPosition := Wrap8(v.zPosition + v.zForce);
      if newZPosition < 0 {
        newZPosition := 0x7f;
      }
    } else {
      newZPosition := Wrap8(v.zPosition + v.zForce);
    }
    v.zPosition := newZPosition;

    // airborne: gravity on the selected timer; grounded: bounce
    var timer: SByte;
    if v.zPosition > 0 {
      if v.bounceBehavior == 1 {
        timer := r.changeZForceTimer1;
      } else {
        timer := r.changeZForceTimer2;
      }
    } else {
      CalculateVerticalBounce(v, r);
      return;
    }

    if timer == 0 {
      v.zForce := Wrap8(v.zForce - 1);
    }
  }

  method CalculateVerticalBounce(v: VehicleState, r: RaceState)
    requires Spec.BounceDefined(v.zForce, v.bounceBehavior, r.vehicleType)
    modifies v`checkpointIndex
    ensures v.checkpointIndex == old(Spec.BouncedCheckpoint(v.checkpointIndex, v.zForce, v.bounceBehavior))
  {
    var newZPosition := v.zPosition;
    if v.zForce == 0 {
      return;
    }
    if v.bounceBehavior == 2 {
      v.checkpointIndex := -1;
    } else {
      // the rebound this test guards is not performed
      var rebounds := BOUNCE_AMOUNT_LUT[r.vehicleType] + newZPosition >= 0;
    }
  }
}
