/**
 * The flywheel subsystem: a velocity setpoint latched by setVelocity, which
 * also hands one bang-bang output to the flywheel's IO, and an at-goal test of
 * the last reading against the setpoint. The readings the IO supplies on each
 * periodic pass are a parameter; the outputs handed over are kept in order.
 */
module Flywheel {
  import opened MathUtil

  const VelocityTolerance: real := 0.05

  datatype Mode = COAST | DUTY_CYCLE_BANG_BANG | TORQUE_CURRENT_BANG_BANG

  datatype FlywheelInputs = FlywheelInputs(
    connected: bool, positionRads: real, velocityRadsPerSec: real, appliedVoltage: real,
    supplyCurrentAmps: real, torqueCurrentAmps: real, tempCelsius: real)

  /** The readings before the first update: disconnected, everything zero. */
  const DefaultInputs := FlywheelInputs(false, 0.0, 0.0, 0.0, 0.0, 0.0, 0.0)

  datatype FlywheelOutputs = FlywheelOutputs(mode: Mode, velocityRadsPerSec: real)

  /** A velocity reading within tolerance of a setpoint. */
  predicate NearSetpoint(velocity: real, setpoint: real)
  {
    Abs(velocity - setpoint) < VelocityTolerance
  }

  /** The tolerance is strict and symmetric: a reading exactly 0.05 away is not at goal, from either side. */
  lemma NearSetpointStrict(setpoint: real)
    ensures NearSetpoint(setpoint, setpoint)
    ensures !NearSetpoint(setpoint + 0.05, setpoint) && !NearSetpoint(setpoint - 0.05, setpoint)
    ensures NearSetpoint(setpoint + 0.049, setpoint) && NearSetpoint(setpoint - 0.049, setpoint)
  {
  }

  class Flywheel {
    var setpoint: real
    var inputs: FlywheelInputs
    /** Outputs handed to the IO, oldest first. */
    var sent: seq<FlywheelOutputs>

    /** A fresh flywheel has setpoint 0 and reads 0, so it is at goal. */
    constructor ()
      ensures setpoint == 0.0 && inputs == DefaultInputs && sent == []
      ensures AtGoal()
    {
      setpoint := 0.0;
      inputs := DefaultInputs;
      sent := [];
    }

    /** Take the IO's new readings; the setpoint is kept. */
    method Periodic(reading: FlywheelInputs)
      modifies this`inputs
      ensures inputs == reading
    {
      inputs := reading;
    }

    /** Latch the setpoint and hand the IO exactly one torque-current bang-bang output at that velocity. */
    method SetVelocity(velocityRadsPerSec: real)
      modifies this`setpoint, this`sent
      ensures setpoint == velocityRadsPerSec
      ensures sent == old(sent) + [FlywheelOutputs(TORQUE_CURRENT_BANG_BANG, velocityRadsPerSec)]
    {
      setpoint := velocityRadsPerSec;
      var outputs := FlywheelOutputs(TORQUE_CURRENT_BANG_BANG, setpoint);
      sent := sent + [outputs];
    }

    predicate AtGoal()
      reads this
    {
      NearSetpoint(inputs.velocityRadsPerSec, setpoint)
    }
  }
}
