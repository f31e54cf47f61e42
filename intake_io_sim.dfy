/**
 * The simulated intake IO: the arm integrates its voltage as an acceleration
 * over a 20 ms step (first velocity, then position from the new velocity), the
 * roller's speed is proportional to its voltage, and currents are proportional
 * to the magnitude of the voltage.
 */
module IntakeIOSim {
  import opened MathUtil

  const StepSeconds: real := 0.02

  datatype IntakeInputs = IntakeInputs(
    armPositionRad: real, armVelocityRadPerSec: real, armAppliedVolts: real, armCurrentAmps: real,
    rollerVelocityRadPerSec: real, rollerAppliedVolts: real, rollerCurrentAmps: real)

  datatype Arm = Arm(position: real, velocity: real)

  /** One semi-implicit Euler step of the arm under a voltage. */
  function ArmStep(arm: Arm, volts: real): Arm
  {
    var velocity := arm.velocity + volts * StepSeconds;
    Arm(arm.position + velocity * StepSeconds, velocity)
  }

  /** n steps under the same voltage. */
  function ArmSteps(arm: Arm, volts: real, n: nat): Arm
    decreases n
  {
    if n == 0 then arm else ArmSteps(ArmStep(arm, volts), volts, n - 1)
  }

  /**
   * Under a constant voltage the arm velocity grows by volts * 0.02 per step;
   * with no voltage it stays put and the position advances by velocity * 0.02
   * per step.
   */
  lemma {:induction false} ArmUnderConstantVolts(arm: Arm, volts: real, n: nat)
    ensures ArmSteps(arm, volts, n).velocity == arm.velocity + n as real * volts * StepSeconds
    ensures volts == 0.0 ==> ArmSteps(arm, volts, n).position == arm.position + n as real * arm.velocity * StepSeconds
    decreases n
  {
    if n > 0 {
      var next := ArmStep(arm, volts);
      ArmUnderConstantVolts(next, volts, n - 1);
      assert (n - 1) as real * volts * StepSeconds + volts * StepSeconds == n as real * volts * StepSeconds;
      if volts == 0.0 {
        assert (n - 1) as real * arm.velocity * StepSeconds + arm.velocity * StepSeconds
          == n as real * arm.velocity * StepSeconds;
      }
    }
  }

  class IntakeIOSim {
    var armPos: real
    var armVel: real
    var armVolts: real
    var rollerVel: real
    var rollerVolts: real

    constructor ()
      ensures armPos == 0.0 && armVel == 0.0 && armVolts == 0.0 && rollerVel == 0.0 && rollerVolts == 0.0
    {
      armPos, armVel, armVolts := 0.0, 0.0, 0.0;
      rollerVel, rollerVolts := 0.0, 0.0;
    }

    /**
     * Advance the arm one step under the stored voltage, set the roller speed
     * to 100 times its voltage, and report: applied volts are the last commanded
     * ones and currents are 2 and 1.5 times their magnitudes.
     */
    method UpdateInputs() returns (inputs: IntakeInputs)
      modifies this`armPos, this`armVel, this`rollerVel
      ensures Arm(armPos, armVel) == ArmStep(Arm(old(armPos), old(armVel)), armVolts)
      ensures rollerVel == rollerVolts * 100.0
      ensures inputs.armPositionRad == armPos && inputs.armVelocityRadPerSec == armVel
      ensures inputs.armAppliedVolts == armVolts && inputs.rollerAppliedVolts == rollerVolts
      ensures inputs.rollerVelocityRadPerSec == rollerVel
      ensures inputs.armCurrentAmps == 2.0 * Abs(armVolts) && inputs.armCurrentAmps >= 0.0
      ensures inputs.rollerCurrentAmps == 1.5 * Abs(rollerVolts) && inputs.rollerCurrentAmps >= 0.0
    {
      armVel := armVel + armVolts * 0.02;
      armPos := armPos + armVel * 0.02;

      rollerVel := rollerVolts * 100.0;

      inputs := IntakeInputs(
        armPos, armVel, armVolts, Abs(armVolts) * 2.0,
        rollerVel, rollerVolts, Abs(rollerVolts) * 1.5);
    }

    /** Only stores the voltage; nothing moves until the next update. */
    method SetArmVoltage(volts: real)
      modifies this`armVolts
      ensures armVolts == volts
    {
      armVolts := volts;
    }

    method SetRollerVoltage(volts: real)
      modifies this`rollerVolts
      ensures rollerVolts == volts
    {
      rollerVolts := volts;
    }
  }
}
