/**
 * The hood subsystem over the simulated hood: a position setpoint latched by
 * setPosition, which also hands one POSITION output to the IO, an at-goal test
 * of the last reading against the setpoint, and a periodic pass that takes
 * new readings from the IO.
 */
module Hood {
  import opened MathUtil
  import opened HoodIOSim

  const PositionTolerance: real := 0.01

  /** A position reading within tolerance of a setpoint. */
  predicate NearSetpoint(position: real, setpoint: real)
  {
    Abs(position - setpoint) < PositionTolerance
  }

  /** The tolerance is strict and symmetric: a reading exactly 0.01 away is not at goal, from either side. */
  lemma NearSetpointStrict(setpoint: real)
    ensures NearSetpoint(setpoint, setpoint)
    ensures !NearSetpoint(setpoint + 0.01, setpoint) && !NearSetpoint(setpoint - 0.01, setpoint)
    ensures NearSetpoint(setpoint + 0.009, setpoint) && NearSetpoint(setpoint - 0.009, setpoint)
  {
  }

  class Hood {
    const io: HoodIOSim
    var setpoint: real
    var inputs: HoodInputs
    /** Outputs handed to the IO, oldest first. */
    var sent: seq<HoodOutputs>

    /** A fresh hood has setpoint 0 and reads 0, so it is at goal. */
    constructor (io: HoodIOSim)
      ensures this.io == io && setpoint == 0.0 && inputs == DefaultInputs && sent == []
      ensures AtGoal()
    {
      this.io := io;
      setpoint := 0.0;
      inputs := DefaultInputs;
      sent := [];
    }

    /** Take the IO's readings: the simulated position, at rest. The setpoint is kept. */
    method Periodic()
      modifies this`inputs
      ensures inputs == HoodInputs(io.simulatedPosition, 0.0)
    {
      inputs := io.UpdateInputs();
    }

    /** Latch the setpoint and hand the IO exactly one POSITION output at that position. */
    method SetPosition(positionRad: real)
      modifies this`setpoint, this`sent, io
      ensures setpoint == positionRad
      ensures sent == old(sent) + [HoodOutputs(positionRad, 0.0, 0.0, POSITION)]
      ensures io.simulatedPosition == positionRad
    {
      setpoint := positionRad;
      var outputs := HoodOutputs(setpoint, 0.0, 0.0, POSITION);
      sent := sent + [outputs];
      io.ApplyOutputs(outputs);
    }

    predicate AtGoal()
      reads this
    {
      NearSetpoint(inputs.positionRad, setpoint)
    }
  }

  /** Over the simulation, commanding a position and running one periodic pass reaches the goal. */
  method SetAndSettle(hood: Hood, positionRad: real)
    modifies hood, hood.io
    ensures hood.setpoint == positionRad && hood.inputs.positionRad == positionRad
    ensures hood.AtGoal()
  {
    hood.SetPosition(positionRad);
    hood.Periodic();
  }
}
