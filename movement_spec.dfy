/** What the fixed-tick driver does to the race's four poll timers, and what
    that implies over many ticks. A timer counts down to 0 and is then
    reloaded with its rate, except the velocity poll timer: at 0 it is left
    at 0 and the tank slow-turn timer is loaded with the velocity poll rate
    instead. */
module MovementSpec {
  import opened Bits
  import opened VehiclePhysics
  import Spec = PhysicsSpec

  /** The race's poll timers, in the order the driver updates them. */
  datatype PollTimers = PollTimers(turn: int, tankSlowTurn: int, velocity: int, driftSpeedLoss: int)

  /** One decrement-or-reload step of a poll timer. */
  function Countdown(t: int, rate: nat): (u: int)
    ensures 0 <= t <= rate ==> 0 <= u <= rate
    ensures u < t || u == rate
  {
    if t > 0 then t - 1 else rate
  }

  /** `n` steps of one poll timer. */
  function CountdownFor(t: int, rate: nat, n: nat): int
    decreases n
  {
    if n == 0 then t else CountdownFor(Countdown(t, rate), rate, n - 1)
  }

  lemma {:induction false} CountdownForSplit(t: int, rate: nat, n: nat, m: nat)
    ensures CountdownFor(t, rate, n + m) == CountdownFor(CountdownFor(t, rate, n), rate, m)
    decreases n
  {
    if n > 0 {
      CountdownForSplit(Countdown(t, rate), rate, n - 1, m);
    }
  }

  /** Counting down from a positive value loses one per tick. */
  lemma {:induction false} CountdownDrains(t: int, rate: nat, n: nat)
    requires n <= t
    ensures CountdownFor(t, rate, n) == t - n
    decreases n
  {
    if n > 0 {
      CountdownDrains(t - 1, rate, n - 1);
    }
  }

  /** A poll timer in [0, rate] comes back to the same value every `rate + 1`
      ticks: it fires once per period. */
  lemma {:induction false} CountdownPeriod(t: int, rate: nat)
    requires 0 <= t <= rate
    ensures CountdownFor(t, rate, rate + 1) == t
  {
    CountdownForSplit(t, rate, t + 1, rate - t);
    CountdownForSplit(t, rate, t, 1);
    CountdownDrains(t, rate, t);
    CountdownDrains(rate, rate, rate - t);
  }

  /** The timers after one tick of the driver, as written: the velocity poll
      timer at 0 overwrites the tank slow-turn timer just updated. */
  function TimersAfterTick(t: PollTimers): (u: PollTimers)
    ensures u.turn == Countdown(t.turn, NORMAL_TURN_POLL_RATE)
    ensures u.driftSpeedLoss == Countdown(t.driftSpeedLoss, DRIFT_SPEED_LOSS_RATE)
    ensures t.velocity > 0 ==> u.velocity == t.velocity - 1 &&
                               u.tankSlowTurn == Countdown(t.tankSlowTurn, TANK_SLOW_TURN_POLL_RATE)
    ensures t.velocity <= 0 ==> u.velocity == t.velocity && u.tankSlowTurn == VELOCITY_POLL_RATE
  {
    var turn := Countdown(t.turn, NORMAL_TURN_POLL_RATE);
    var tankSlowTurn := Countdown(t.tankSlowTurn, TANK_SLOW_TURN_POLL_RATE);
    var velocity := t.velocity;
    if velocity > 0 then
      PollTimers(turn, tankSlowTurn, velocity - 1, Countdown(t.driftSpeedLoss, DRIFT_SPEED_LOSS_RATE))
    else
      PollTimers(turn, VELOCITY_POLL_RATE, velocity, Countdown(t.driftSpeedLoss, DRIFT_SPEED_LOSS_RATE))
  }

  /** The timers after `n` ticks. */
  function TimersAfter(t: PollTimers, n: nat): PollTimers
    decreases n
  {
    if n == 0 then t else TimersAfter(TimersAfterTick(t), n - 1)
  }

  /** Every timer within its reload range. */
  predicate InRange(t: PollTimers) {
    0 <= t.turn <= NORMAL_TURN_POLL_RATE &&
    0 <= t.tankSlowTurn <= (if TANK_SLOW_TURN_POLL_RATE < VELOCITY_POLL_RATE then VELOCITY_POLL_RATE
                             else TANK_SLOW_TURN_POLL_RATE) &&
    0 <= t.velocity <= VELOCITY_POLL_RATE &&
    0 <= t.driftSpeedLoss <= DRIFT_SPEED_LOSS_RATE
  }

  /** A tick keeps the timers in range. */
  lemma TickKeepsRange(t: PollTimers)
    requires InRange(t)
    ensures InRange(TimersAfterTick(t))
  {
  }

  /** Any number of ticks keeps the timers in range. */
  lemma {:induction false} TicksKeepRange(t: PollTimers, n: nat)
    requires InRange(t)
    ensures InRange(TimersAfter(t, n))
    decreases n
  {
    if n > 0 {
      TickKeepsRange(t);
      TicksKeepRange(TimersAfterTick(t), n - 1);
    }
  }

  /** The turn and drift speed loss timers each follow their own countdown. */
  lemma {:induction false} IndependentTimers(t: PollTimers, n: nat)
    ensures TimersAfter(t, n).turn == CountdownFor(t.turn, NORMAL_TURN_POLL_RATE, n)
    ensures TimersAfter(t, n).driftSpeedLoss == CountdownFor(t.driftSpeedLoss, DRIFT_SPEED_LOSS_RATE, n)
    decreases n
  {
    if n > 0 {
      IndependentTimers(TimersAfterTick(t), n - 1);
    }
  }

  /** The velocity poll timer is never reloaded: it counts down once and
      then stays at 0. */
  lemma {:induction false} VelocityTimerSettles(t: PollTimers, n: nat)
    requires t.velocity >= 0
    ensures TimersAfter(t, n).velocity == if n < t.velocity then t.velocity - n else 0
    decreases n
  {
    if n > 0 {
      VelocityTimerSettles(TimersAfterTick(t), n - 1);
    }
  }

  /** Once the velocity poll timer has reached 0, every tick leaves the tank
      slow-turn timer at the velocity poll rate. */
  lemma {:induction false} TankTimerPinned(t: PollTimers, n: nat)
    requires 0 <= t.velocity < n
    ensures TimersAfter(t, n).tankSlowTurn == VELOCITY_POLL_RATE
    decreases n
  {
    if t.velocity > 0 || n > 1 {
      TankTimerPinned(TimersAfterTick(t), n - 1);
    }
  }

  /** Consequence for turning: when the velocity poll rate is not 0, a tank
      under power never turns once the velocity poll timer has run out. */
  lemma PoweredTankStopsTurning(t: PollTimers, n: nat, heading: Int32, left: bool, right: bool, active: bool)
    requires 0 <= t.velocity < n && VELOCITY_POLL_RATE > 0
    requires left || right
    ensures var later := TimersAfter(t, n);
            Spec.TurnedHeading(heading, left, right, active,
                               Spec.TurnPolled(TANKS, true, later.turn, later.tankSlowTurn)) == heading
  {
    TankTimerPinned(t, n);
  }

  /** Consequence for the velocity scalars: once the velocity poll timer has
      run out, only player slot 0 is ever recomputed. */
  lemma OnlySlotZeroPolled(t: PollTimers, n: nat, playerIndex: int)
    requires 0 <= t.velocity <= n
    ensures Spec.ScalarsPolled(playerIndex, TimersAfter(t, n).velocity) <==> playerIndex == 0
  {
    VelocityTimerSettles(t, n);
  }

  /** The lookup tables a tick indexes are large enough for every index it can
      form: the heading tables cover the compass, the handicap entry indexes
      both drift tables, and the fixed indices 0, 0x0A, 0x15 and 0x16 exist. */
  predicate TablesFit(lutX: seq<SByte>, lutY: seq<SByte>, handicapLut: seq<Byte>, handicapAmount: int,
                      thresholdLut: seq<UShort>, forceLut: seq<int>, vehicleType: int) {
    Spec.ClampTableFits() &&
    |lutX| >= 64 && |lutY| >= 64 &&
    0 <= handicapAmount < |handicapLut| &&
    handicapLut[handicapAmount] < |thresholdLut| && handicapLut[handicapAmount] < |forceLut| &&
    |thresholdLut| > 0x15 && |forceLut| > 0x16 &&
    0 <= vehicleType < |DRIFT_SOUND_LUT|
  }

  /** Tables that fit define the drift threshold and the drift force for every
      grip setting and grip timer. */
  lemma FitDefinesDrift(lutX: seq<SByte>, lutY: seq<SByte>, handicapLut: seq<Byte>, handicapAmount: int,
                        thresholdLut: seq<UShort>, forceLut: seq<int>, vehicleType: int,
                        unlimited: bool, hasUnlimitedGrip: bool, aiControlledSpeed: bool, g: Int32, driftSoundTimer: int)
    requires TablesFit(lutX, lutY, handicapLut, handicapAmount, thresholdLut, forceLut, vehicleType)
    ensures Spec.ThresholdDefined(unlimited, g, handicapLut, handicapAmount, thresholdLut)
    ensures Spec.FrictionDefined(hasUnlimitedGrip, vehicleType, aiControlledSpeed, g, handicapLut, handicapAmount,
                                 forceLut, driftSoundTimer)
  {
  }
}
