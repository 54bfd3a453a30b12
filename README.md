# NES vehicle physics, modelled in Dafny

This project models the per-tick vehicle physics of a Unity re-creation of an
8-bit (NES) racing game. Each tick updates two records in place: the vehicle's
state (`VehicleProperties`) and the race's state (`RaceProperties`). The NES
physics class performs these steps:

- the turn: heading from the controller, with poll timers, left-over-right
  priority and a heading clamp table;
- the velocity scalars: a heading table times the speed, as a 16-bit value;
- the velocity forces and the external friction: the grip timer, the drift
  threshold, the per-axis force adjustment, the one-unit speed loss and the
  drift sound;
- the deduplicating sound queue;
- the vertical forces and the ground bounce: an 8-bit altitude that overflows
  to 0x7f, and gravity on a timer.

The fixed-tick driver `VehicleMovement.FixedUpdate` sets the order of the
steps. It clears the drift flag, latches the moving flag, accumulates the
position and steps four decrement-or-reload poll timers.

The two records are classes (`VehicleTypes.VehicleState` and
`VehicleTypes.RaceState`). Each step is a method whose `modifies` clause names
the fields it writes. Its `ensures` clauses give each written field as a
function, in module `PhysicsSpec`, of the values the step started from. The
properties the source promises are proved about those functions. The driver's
poll timers over many ticks are modelled in `MovementSpec`.

C# narrowing is written out in module `Bits`:

- `(sbyte)`, `(short)` and the implicit narrowing of compound assignments are
  `Wrap8` and `Wrap16`;
- `heading--` and `xPosition += xForce` on `int` use `Wrap32`;
- `Math.Abs` on the `sbyte` -128 throws in C#, so it is a precondition.

The widths follow how `NESPhysics.cs` uses each field:

- `velocity`, `zPosition`, `zForce` and the velocity scalars are `sbyte`;
- the velocities, forces and differences are `short`;
- `heading`, `gripChangeTimer` and the positions are `int`.

Where the struct declarations in `VehicleTypes.cs` disagree with this use,
the model follows `NESPhysics.cs`. For example, `turnPollTimer` is declared
`bool` but is compared with 1 and decremented, and the scalar tables are
declared `byte[]` but their entries are assigned to an `sbyte` without a cast.

The methods compute in locals and store each written field once. This gives
the same final state as the source's sequence of field assignments, because
nothing else reads the record between them. In `CalculateExternalFriction` the
drift sound is queued before the forces, speed and drift flag are stored. The
queue touches only `sfx`, so the order changes nothing.

`VehicleMovement.FixedUpdate` is one method in the source. Here its body is
three consecutive blocks, each a method:

- `PhysicsStep`, lines 58-70;
- `Move`, lines 71-90;
- `StepPollTimers`, lines 99-130.

The grounded part of the physics is a fourth method, `GroundPhysics`.

Points where the model follows the code as it stands:

- The ground bounce only sets `checkpointIndex` to -1 on a bounce with
  behaviour 2 and a non-zero force (`NESPhysics.cs:343-345`). The respawn reset
  and the rebound that would follow are commented out at
  `NESPhysics.cs:346-357`, and the model leaves them out as well.
- A vehicle on the ground (`zPosition = 0`) with `zForce = 5` does not bounce:
  the altitude first becomes 5, which is positive, so the vehicle is airborne
  (`PhysicsSpec.Lift`).
- `VehicleMovement.cs:64` calls `CalculateVelocityEffects`, while the NES
  physics class defines the step after the scalars as `CalculateVelocityForces`
  (`NESPhysics.cs:153`). The model calls `CalculateVelocityForces`.
- The driver has no acceleration step in this core.

Consequences of the timers as written:

- When the velocity poll timer is at 0, `VehicleMovement.cs:121` loads the
  *tank slow-turn* timer with the velocity poll rate, and the velocity poll
  timer itself stays at 0.
- So once it has run down, only player slot 0 has its velocity recomputed
  (`MovementSpec.OnlySlotZeroPolled`).
- When that rate is not 0, a tank under power never turns again
  (`MovementSpec.PoweredTankStopsTurning`).

## Model

| member | source | states |
|---|---|---|
| NESPhysics.Turn | Assets/Scripts/Physics/NESPhysics.cs:13-107 | writes only `heading` and `velocity`; the heading becomes `TurnedHeading` of the keys, the turn gate (countdown over, alive, non-tank turn timer at 1) and the tank poll (turn timer without power, slow-turn timer under power); velocity becomes 1 exactly when a stationary non-tank, non-chopper vehicle turns, otherwise it is unchanged |
| PhysicsSpec.TurnedHeading | Assets/Scripts/Physics/NESPhysics.cs:16-105 | inactive: heading unchanged; no key held: the clamp table entry; key held but the tank timer not polled: unchanged; otherwise one `TurnStep` |
| PhysicsSpec.TurnStep | Assets/Scripts/Physics/NESPhysics.cs:46-63 | the result is always in [0,63]; on the compass it is heading-1 (left, with priority) or heading+1 (right) modulo 64; -1 becomes 63 and 64 becomes 0 |
| PhysicsSpec.TurnKeepsHeading | Assets/Scripts/Physics/NESPhysics.cs:25-63 | a heading in [0,63] stays in [0,63] after the turn, for every key, gate and timer, when the clamp table holds headings |
| PhysicsSpec.LeftWins | Assets/Scripts/Physics/NESPhysics.cs:46-53 | with both keys held, the heading decreases by one |
| NESPhysics.CalculateVelocityScalars | Assets/Scripts/Physics/NESPhysics.cs:114-151 | when `playerIndex == velocityPollTimer`, `xVelocity` and `yVelocity` become `XVelocity` and `YVelocity`; otherwise both are unchanged; nothing else is written |
| PhysicsSpec.Scalar | Assets/Scripts/Physics/NESPhysics.cs:121-128 | the table entry for the heading, negated when reversing; -128 negated as an sbyte stays -128 |
| PhysicsSpec.ProductBound | Assets/Scripts/Physics/NESPhysics.cs:130 | an sbyte scalar times a speed below 0x80 lies within [-0x80*0x7f, 0x7f*0x7f] |
| PhysicsSpec.ScaledVelocity | Assets/Scripts/Physics/NESPhysics.cs:130 | the `(short)` cast of scalar times speed is the exact product |
| PhysicsSpec.XVelocity | Assets/Scripts/Physics/NESPhysics.cs:117-137 | x velocity = scalar × abs(velocity), plus 0x200 exactly on terrain 0x12 |
| PhysicsSpec.YVelocity | Assets/Scripts/Physics/NESPhysics.cs:139-149 | y velocity = scalar × abs(velocity), with no terrain term |
| PhysicsSpec.RestingVehicle | Assets/Scripts/Physics/NESPhysics.cs:120-149 | at speed 0 the y velocity is 0 and the x velocity is the terrain push alone |
| PhysicsSpec.ReverseMirrors | Assets/Scripts/Physics/NESPhysics.cs:141-149 | reversing negates the y velocity, unless the table entry is -128 |
| PhysicsSpec.ForwardOnHeadingZero | Assets/Scripts/Physics/NESPhysics.cs:120-130 | heading 0, speed 10 and table entry 80 give x velocity 800 |
| NESPhysics.CalculateVelocityForces | Assets/Scripts/Physics/NESPhysics.cs:153-200 | the differences become `ForceDifference`; the grip timer becomes `GripTimer`; the magnitude is the wrapped sum when the drift check runs and is unchanged otherwise; on every path the forces end equal to the velocities; when `Drifts` holds, the speed, drift flag and sound queue are as after friction, and otherwise they are unchanged |
| PhysicsSpec.ForceDifference | Assets/Scripts/Physics/NESPhysics.cs:156-157 | the absolute gap when below 0x8000; otherwise the gap minus 0x10000, which is negative |
| PhysicsSpec.GripTimerAfter | Assets/Scripts/Physics/NESPhysics.cs:163-187 | a positive timer drops by 1; 0 stays 0; a negative timer drops by 1; the 32-bit minimum wraps and is reset to 0 |
| PhysicsSpec.GripTimer | Assets/Scripts/Physics/NESPhysics.cs:161-187 | under unlimited grip the timer is unchanged; a non-negative timer never becomes negative or grows; a positive timer drops by exactly 1 |
| PhysicsSpec.DriftThresholdIndex | Assets/Scripts/Physics/NESPhysics.cs:160-191 | 0x15 under unlimited grip; the handicap entry when the limited-grip timer has reached 0; 0 while it runs |
| PhysicsSpec.Magnitude | Assets/Scripts/Physics/NESPhysics.cs:174 | the sum of two non-negative differences when it fits in a short |
| PhysicsSpec.NegativeTimerNeverDrifts | Assets/Scripts/Physics/NESPhysics.cs:180-187 | under limited grip, a negative grip timer means no threshold test and no friction |
| PhysicsSpec.ForceIndexIgnoresTimerUpdate | Assets/Scripts/Physics/NESPhysics.cs:165-177 | friction, which reads the already-updated grip timer, picks the same drift-force index as it would from the old timer |
| NESPhysics.CalculateExternalFriction | Assets/Scripts/Physics/NESPhysics.cs:201-278 | each force becomes `FrictionForce` with the amount at `ForceIndex`; velocity becomes `SpeedAfterDrift`; `isDrifting` becomes true; the queue becomes `DriftSound`; nothing else is written |
| PhysicsSpec.ForceIndex | Assets/Scripts/Physics/NESPhysics.cs:204-220 | the priority chain: limited grip gives 0x15, then a player-driven chopper gives 0x0A, then a running grip timer gives 0x16, otherwise the handicap entry |
| PhysicsSpec.FrictionForce | Assets/Scripts/Physics/NESPhysics.cs:222-254 | a gap below the amount snaps the force to the velocity; otherwise the force moves by exactly the amount (up when the velocity is below it, down when above, as a short) or stays when the two are equal |
| PhysicsSpec.FrictionWidensGap | Assets/Scripts/Physics/NESPhysics.cs:225-231 | as written, the adjustment moves the force away from the velocity: the gap grows by the amount |
| PhysicsSpec.SpeedAfterDrift | Assets/Scripts/Physics/NESPhysics.cs:256-267 | when speed is lost, the magnitude drops by exactly 1 and the sign never flips; otherwise the speed is unchanged; a speed other than -128 never becomes -128 |
| PhysicsSpec.DriftSound | Assets/Scripts/Physics/NESPhysics.cs:271-277 | the vehicle type's drift sound is queued only when `driftSoundTimer` is 0 |
| PhysicsSpec.DriftSoundKeepsUnique | Assets/Scripts/Physics/NESPhysics.cs:273-277 | a drift never puts a second copy of a sound in the queue |
| NESPhysics.PlayNonEngineSFX | Assets/Scripts/Physics/NESPhysics.cs:280-290 | writes only `sfx`, which becomes `PhysicsSpec.PlayNonEngineSFX` of the old queue |
| PhysicsSpec.PlayNonEngineSFX | Assets/Scripts/Physics/NESPhysics.cs:280-290 | under unlimited grip the queue is unchanged; otherwise the sound is in the queue afterwards |
| PhysicsSpec.QueueGrowsByOne | Assets/Scripts/Physics/NESPhysics.cs:286-289 | afterwards the queue holds exactly the old sounds plus the asked-for one (absent under unlimited grip); the old queue is a prefix; it grows by at most one; a queue without duplicates keeps none |
| PhysicsSpec.PlayTwice | Assets/Scripts/Physics/NESPhysics.cs:280-290 | asking twice for a sound is the same as asking once |
| PhysicsSpec.AtMostOnce | Assets/Scripts/Physics/NESPhysics.cs:286-289 | in a queue without duplicates each sound occurs at most once |
| NESPhysics.CalculateVerticalForces | Assets/Scripts/Physics/NESPhysics.cs:292-334 | `zPosition` becomes `NewZPosition`; `zForce` becomes `VerticalForce` with the timer chosen by `bounceBehavior`; the checkpoint changes only through the bounce, and only when the new altitude is not positive |
| PhysicsSpec.NewZPosition | Assets/Scripts/Physics/NESPhysics.cs:295-308 | with a non-negative force the altitude is never negative: a sum in [0, 0x80) is exact, and a sum outside it gives 0x7f; with a negative force it is the sbyte-wrapped sum |
| PhysicsSpec.ZForceTimer | Assets/Scripts/Physics/NESPhysics.cs:313-322 | behaviour 1 selects `changeZForceTimer1`; any other behaviour selects `changeZForceTimer2` |
| PhysicsSpec.Gravity | Assets/Scripts/Physics/NESPhysics.cs:330-333 | one unit less, with -128 wrapping to 127 |
| PhysicsSpec.VerticalForce | Assets/Scripts/Physics/NESPhysics.cs:310-333 | the force drops by one only when the vehicle is airborne and the selected timer is 0; otherwise it is unchanged |
| PhysicsSpec.Lift | Assets/Scripts/Physics/NESPhysics.cs:295-313 | a positive force from the ground with a sum below 0x80 gives the exact positive altitude, so there is no bounce |
| NESPhysics.CalculateVerticalBounce | Assets/Scripts/Physics/NESPhysics.cs:336-360 | writes only `checkpointIndex`, which becomes `BouncedCheckpoint` |
| PhysicsSpec.BouncedCheckpoint | Assets/Scripts/Physics/NESPhysics.cs:339-348 | -1 exactly when the force is non-zero and the behaviour is 2; otherwise the checkpoint is unchanged |
| VehicleMovement.FixedUpdate | Assets/Scripts/VehicleMovement.cs:56-133 | keeps `Valid`; the turn sees the pre-tick timers; off the ground or on terrain 14 only the turn acts (velocities, forces, differences, magnitude, grip timer and queue unchanged) and the drift flag stays cleared; on the ground the polled vehicle's velocity comes from its new heading and post-turn speed, an unpolled vehicle keeps its velocity, and the forces end equal to the velocities; `isMoving` is latched and never cleared; each position accumulates its force with 32-bit wrap-around; the timers become `TimersAfterTick` of the old ones |
| VehicleMovement.PhysicsStep | Assets/Scripts/VehicleMovement.cs:58-70 | the turn, then the cleared drift flag, then the grounded physics, with the same heading, velocity, force and off-ground frame results as `FixedUpdate`; the heading stays on the compass, the speed never becomes -128, and the queue gets no duplicate |
| VehicleMovement.GroundPhysics | Assets/Scripts/VehicleMovement.cs:61-70 | the scalars and then the forces: the polled vehicle's velocities are recomputed, the forces end equal to the velocities, the speed never becomes -128, and the queue gets no duplicate |
| VehicleMovement.Move | Assets/Scripts/VehicleMovement.cs:71-90 | `isMoving` becomes true when a force is non-zero and is never cleared; `xPosition` and `yPosition` add the forces, wrapped to 32 bits |
| VehicleMovement.StepPollTimers | Assets/Scripts/VehicleMovement.cs:99-130 | the four timers become `MovementSpec.TimersAfterTick` of their old values |
| MovementSpec.Countdown | Assets/Scripts/VehicleMovement.cs:99-106 | one decrement-or-reload step keeps a timer in [0, rate]; it either decreases or is reloaded with the rate |
| MovementSpec.CountdownDrains | Assets/Scripts/VehicleMovement.cs:99-106 | counting down from `t` for `n <= t` ticks gives `t - n` |
| MovementSpec.CountdownPeriod | Assets/Scripts/VehicleMovement.cs:99-106 | a timer in [0, rate] returns to the same value every rate+1 ticks, so it reads 0 once per period |
| MovementSpec.TimersAfterTick | Assets/Scripts/VehicleMovement.cs:99-130 | the turn and drift-speed-loss timers count down and reload; while the velocity poll timer is positive, it and the slow-turn timer count down; at 0 it stays 0 and the slow-turn timer is overwritten with the velocity poll rate |
| MovementSpec.TickKeepsRange | Assets/Scripts/VehicleMovement.cs:99-130 | one tick keeps every timer within its reload range |
| MovementSpec.TicksKeepRange | Assets/Scripts/VehicleMovement.cs:99-130 | any number of ticks keeps every timer within its reload range |
| MovementSpec.IndependentTimers | Assets/Scripts/VehicleMovement.cs:99-130 | over n ticks the turn and drift-speed-loss timers follow their own countdowns |
| MovementSpec.VelocityTimerSettles | Assets/Scripts/VehicleMovement.cs:115-122 | the velocity poll timer counts down once to 0 and then stays at 0 |
| MovementSpec.TankTimerPinned | Assets/Scripts/VehicleMovement.cs:115-122 | once the velocity poll timer has reached 0, every later tick leaves the slow-turn timer at the velocity poll rate |
| MovementSpec.PoweredTankStopsTurning | Assets/Scripts/VehicleMovement.cs:115-122 | hence, when the velocity poll rate is not 0, a tank under power holding a key keeps its heading |
| MovementSpec.OnlySlotZeroPolled | Assets/Scripts/VehicleMovement.cs:115-122 | hence, once the velocity poll timer has run down, the scalars are recomputed exactly for player slot 0 |
| MovementSpec.FitDefinesDrift | Assets/Scripts/Physics/NESPhysics.cs:160-220 | tables large enough for the handicap entry and the fixed indices define every drift-threshold and drift-force lookup |

## Left out

- VehicleMovement.FixedUpdate: the drift outcome on the ground (differences, grip timer, magnitude, drift flag, speed loss and sound) is stated by `NESPhysics.CalculateVelocityForces` and `NESPhysics.CalculateExternalFriction`. The tick's contract only carries its invariants: the speed never becomes -128 and the queue gets no duplicate.
- VehicleMovement.PhysicsStep: states the drift outcome only through the same invariants, for the same reason.
- VehicleMovement.GroundPhysics: states the drift outcome only through the same invariants, for the same reason.
- PhysicsSpec.Magnitude: states the sum only when it does not wrap. A wrapped sum is `Bits.Wrap16` of it.
- `Controls.cs`: generated input plumbing. The controller flags are plain fields.
- Unity glue in `VehicleMovement.cs` is left out:
  - `Awake`, `OnEnable` and `OnDisable`;
  - `Update`;
  - `SelectGamePhysics`, whose `fixedDeltaTime` is floating point;
  - the float transform's rotation and position.
- `LoadVehicleProperties`: it copies tables from the base physics class. The tables are fields of `RaceState`, constrained by `MovementSpec.TablesFit`.
- The base class `VehiclePhysics` is not part of this model:
  - its constants are opaque;
  - the vehicle types, the alive state and the poll rates have no values;
  - the sizes of the heading clamp, drift sound and bounce tables appear as preconditions.
- `TurnTanks`: its body is empty.
- The commented-out calls in the ground bounce are not modelled (`PhysicsReset`, `unkE193`, and the `unk0438`/`doC59F` rebound). The guard before the rebound is evaluated, and nothing follows it.
- The unimplemented steps marked TODO in the driver are not modelled: the powerboat step, `$8265`, `$EA96` and `$DD5B`.
- `CalculateVerticalForces` is modelled but is not called by the driver, as in the source.
- The two records are `ref` structs in the source. Here they are two distinct objects, so aliasing between them is not modelled.
- `sfx` is a `List<byte>`. It is modelled as a sequence; only `Contains` and `Add` are used.
- The race's poll timers are unbounded integers. The driver only decrements them while they are positive, so they cannot wrap. Nothing in this core writes `driftSoundTimer` or `countdownTimer`, so no wrap can happen there either.
