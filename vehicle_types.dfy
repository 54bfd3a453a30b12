/** The two records the physics updates in place: the per-vehicle
    `VehicleProperties` and the per-race `RaceProperties`. In the source they
    are structs passed by `ref`, so every step writes the caller's copy; here
    each is a class whose fields the steps assign. Fields the source narrows to
    `sbyte` or `short` carry that range as their type. */
module VehicleTypes {
  import opened Bits

  class VehicleState {
    // controller intent for this tick
    var controllerLeft: bool
    var controllerRight: bool
    var controllerAccelerate: bool
    var controllerBrake: bool
    // timers
    var gripChangeTimer: Int32
    var driftSoundTimer: int
    // vehicle states
    var playerIndex: int
    var spawnState: int
    var isMoving: bool
    var isDrifting: bool
    var isAIControlledSpeed: bool
    // handling
    var terrainType: int
    var hasUnlimitedGrip: bool
    var handicapAmount: int
    // motion and position
    var heading: Int32
    var velocity: SByte
    var altitude: int
    var xVelocity: Short
    var yVelocity: Short
    var xForce: Short
    var yForce: Short
    var xVelocityForceDifference: Short
    var yVelocityForceDifference: Short
    var xyVelocityForceDifferenceMagnitude: Short
    var xPosition: Int32
    var yPosition: Int32
    // altitude
    var zPosition: SByte
    var zForce: SByte
    var bounceBehavior: int
    var checkpointIndex: int
    // pending non-engine sound effects, oldest first
    var sfx: seq<Byte>
  }

  class RaceState {
    // timers
    var countdownTimer: int
    var turnPollTimer: int
    var tankSlowTurnPollTimer: int
    var velocityPollTimer: int
    var driftSpeedLossTimer: int
    var changeZForceTimer1: SByte
    var changeZForceTimer2: SByte
    // general
    var vehicleType: int
    var hasUnlimitedGrip: bool
    // lookup tables of the selected vehicle type
    var VELOCITY_SCALAR_X_LUT: seq<SByte>
    var VELOCITY_SCALAR_Y_LUT: seq<SByte>
    var HANDICAP_LUT: seq<Byte>
    var DRIFT_THRESHOLD_LUT: seq<UShort>
    var DRIFT_FORCE_AMOUNT_LUT: seq<int>
  }
}
