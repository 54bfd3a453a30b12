/** Constants of the base class `VehiclePhysics`, whose source is not part of
    this model. Each is declared without a value, so every proof holds for any
    choice of them; where a tick needs a property of a table, the tick's
    precondition states it. */
module VehiclePhysics {
  import opened Bits

  // spawnState value of a drivable vehicle
  const ALIVE: int

  // vehicleType values
  const TANKS: int
  const CHOPPERS: int
  const POWERBOATS: int

  // reload values of the race poll timers
  const NORMAL_TURN_POLL_RATE: nat
  const TANK_SLOW_TURN_POLL_RATE: nat
  const VELOCITY_POLL_RATE: nat
  const DRIFT_SPEED_LOSS_RATE: nat

  // heading -> heading the vehicle settles to when no turn key is held
  const HEADING_CLAMP_LUT: seq<Int32>
  // vehicleType -> sound played while drifting
  const DRIFT_SOUND_LUT: seq<Byte>
  // vehicleType -> vertical force added by a ground bounce
  const BOUNCE_AMOUNT_LUT: seq<int>
}
