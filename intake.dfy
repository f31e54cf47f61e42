/**
 * The intake subsystem: a goal chosen by commands and, on each periodic pass,
 * one roller voltage command derived from it. The roller's calls are kept in
 * order as a sequence.
 */
module Intake {

  const RollerIntakeVolts: real := 8.0
  const RollerOuttakeVolts: real := -8.0

  datatype Goal = INTAKE | OUTTAKE | STOP

  /** A call made on the roller system: its own periodic update, or a voltage command. */
  datatype RollerCall = RollerPeriodic | SetVolts(volts: real)

  /** The roller voltage for a goal: the intake or outtake setting, or 0 V when stopped. */
  function RollerVolts(goal: Goal): real
  {
    match goal
    case INTAKE => RollerIntakeVolts
    case OUTTAKE => RollerOuttakeVolts
    case STOP => 0.0
  }

  /**
   * The goals drive the roller in opposite directions with equal strength, and
   * only STOP leaves it unpowered.
   */
  lemma RollerVoltsDirection(goal: Goal)
    ensures RollerVolts(INTAKE) > 0.0 && RollerVolts(OUTTAKE) == -RollerVolts(INTAKE)
    ensures RollerVolts(goal) == 0.0 <==> goal == STOP
  {
  }

  class Intake {
    var goal: Goal
    var roller: seq<RollerCall>

    constructor ()
      ensures goal == STOP && roller == []
    {
      goal := STOP;
      roller := [];
    }

    method SetGoal(goal: Goal)
      modifies this`goal
      ensures this.goal == goal
    {
      this.goal := goal;
    }

    /** Update the roller, then command it exactly once with the goal's voltage; the goal is kept. */
    method Periodic()
      modifies this`roller
      ensures roller == old(roller) + [RollerPeriodic, SetVolts(RollerVolts(goal))]
    {
      roller := roller + [RollerPeriodic];
      var rollerVolts := 0.0;
      match goal {
        case INTAKE => rollerVolts := RollerIntakeVolts;
        case OUTTAKE => rollerVolts := RollerOuttakeVolts;
        case STOP => rollerVolts := 0.0;
      }
      roller := roller + [SetVolts(rollerVolts)];
    }
  }
}
