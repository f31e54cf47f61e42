/**
 * The hood's IO records and its simulation: the simulated hood jumps to any
 * position it is commanded in POSITION mode, ignores VOLTAGE mode, and reports
 * that position with zero velocity.
 */
module HoodIOSim {

  datatype Mode = POSITION | VOLTAGE

  datatype HoodInputs = HoodInputs(positionRad: real, velocityRadPerSec: real)

  /** The readings before the first update. */
  const DefaultInputs := HoodInputs(0.0, 0.0)

  datatype HoodOutputs = HoodOutputs(positionRad: real, voltagePercent: real, dutyCycleFeedforward: real, mode: Mode)

  class HoodIOSim {
    var simulatedPosition: real

    constructor ()
      ensures simulatedPosition == 0.0
    {
      simulatedPosition := 0.0;
    }

    /** Report the simulated position, at rest; the simulation itself is unchanged. */
    method UpdateInputs() returns (inputs: HoodInputs)
      ensures inputs.positionRad == simulatedPosition && inputs.velocityRadPerSec == 0.0
    {
      inputs := HoodInputs(simulatedPosition, 0.0);
    }

    /** A POSITION output moves the hood to its position; a VOLTAGE output leaves it where it is. */
    method ApplyOutputs(outputs: HoodOutputs)
      modifies this
      ensures outputs.mode == POSITION ==> simulatedPosition == outputs.positionRad
      ensures outputs.mode == VOLTAGE ==> simulatedPosition == old(simulatedPosition)
    {
      if outputs.mode == POSITION {
        simulatedPosition := outputs.positionRad;
      }
    }
  }
}
