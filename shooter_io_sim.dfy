/**
 * The simulated shooter IO: the flywheel jumps to its commanded speed (or to
 * 500 times a commanded voltage), the feeder fires on any positive voltage,
 * and the readings are derived from those two values.
 */
module ShooterIOSim {

  datatype ShooterInputs = ShooterInputs(
    mainVelocityRPM: real, followerVelocityRPM: real, feederVelocityRPM: real,
    mainCurrentAmps: real, followerCurrentAmps: real, feederCurrentAmps: real,
    appliedOutput: real, isFiring: bool)

  class ShooterIOSim {
    var velocity: real
    var firing: bool

    constructor ()
      ensures velocity == 0.0 && !firing
    {
      velocity := 0.0;
      firing := false;
    }

    /**
     * Both flywheel motors read the simulated speed at 5 A; the feeder reads
     * 100 RPM at 2 A while firing and 0 RPM at 0.5 A otherwise; the applied
     * output is the speed over 5000.
     */
    method UpdateInputs() returns (inputs: ShooterInputs)
      ensures inputs.mainVelocityRPM == velocity && inputs.followerVelocityRPM == velocity
      ensures inputs.mainCurrentAmps == 5.0 && inputs.followerCurrentAmps == 5.0
      ensures inputs.isFiring == firing
      ensures inputs.feederVelocityRPM == (if firing then 100.0 else 0.0)
      ensures inputs.feederCurrentAmps == (if firing then 2.0 else 0.5)
      ensures inputs.appliedOutput * 5000.0 == velocity
    {
      inputs := ShooterInputs(
        velocity, velocity, if firing then 100.0 else 0.0,
        5.0, 5.0, if firing then 2.0 else 0.5,
        velocity / 5000.0, firing);
    }

    /** The speed is applied at once; the feedforward is ignored. */
    method SetShooterVelocity(velocityRPM: real, ffVolts: real)
      modifies this`velocity
      ensures velocity == velocityRPM
    {
      velocity := velocityRPM;
    }

    method SetShooterVoltage(volts: real)
      modifies this`velocity
      ensures velocity == volts * 500.0
    {
      velocity := volts * 500.0;
    }

    /** Firing exactly while the feeder voltage is positive. */
    method SetFeederVoltage(volts: real)
      modifies this`firing
      ensures firing <==> volts > 0.0
    {
      firing := volts > 0.0;
    }
  }

  /** After an open-loop voltage command, the applied output reads a tenth of that voltage. */
  method VoltageThenRead(sim: ShooterIOSim, volts: real) returns (inputs: ShooterInputs)
    modifies sim
    ensures inputs.appliedOutput == volts / 10.0
    ensures inputs.isFiring == old(sim.firing)
  {
    sim.SetShooterVoltage(volts);
    inputs := sim.UpdateInputs();
  }
}
