/**
 * The shooter's readiness gate: a shot may be fed only when it is valid and
 * the flywheel speed, the hood angle and the robot heading are each within a
 * tolerance of the shot's targets. Angles are in degrees and compared by their
 * shortest signed difference. The gate is a pure function of the shot and the
 * readings taken when it is asked, so nothing is latched between calls.
 */
module Shooter {
  import opened MathUtil
  import Rotation

  const FlywheelTolerance: real := 100.0
  const HoodToleranceDegrees: real := 1.0
  const RotationToleranceDegrees: real := 2.0

  /** The record the gate reads from the shot calculator. */
  datatype Shot = Shot(isValid: bool, flywheelSpeed: real, hoodAngle: real, robotYaw: real)

  predicate FlywheelMatches(actual: real, target: real)
  {
    Abs(actual - target) < FlywheelTolerance
  }

  predicate HoodMatches(actual: real, target: real)
  {
    Abs(Rotation.Minus(actual, target)) < HoodToleranceDegrees
  }

  predicate RotationMatches(current: real, target: real)
  {
    Abs(Rotation.Minus(current, target)) < RotationToleranceDegrees
  }

  /** Shooter.isReadyToShoot, over the readings of flywheel, hood and robot heading. */
  predicate IsReadyToShoot(shot: Shot, flywheelVelocity: real, hoodAngle: real, robotHeading: real)
  {
    if !shot.isValid then false
    else
      && FlywheelMatches(flywheelVelocity, shot.flywheelSpeed)
      && HoodMatches(hoodAngle, shot.hoodAngle)
      && RotationMatches(robotHeading, shot.robotYaw)
  }

  /** actual comes within tol of target after adding k whole turns. */
  predicate WithinAfterTurns(actual: real, target: real, k: int, tol: real)
  {
    Abs(actual - target + 360.0 * k as real) < tol
  }

  /**
   * The meaning of an angular tolerance test: the wrapped difference is under
   * tol exactly when some whole number of turns brings the raw difference under tol.
   */
  lemma AngularTolerance(actual: real, target: real, tol: real)
    requires 0.0 < tol <= 180.0
    ensures Abs(Rotation.Minus(actual, target)) < tol <==> exists k :: WithinAfterTurns(actual, target, k, tol)
  {
    var d := actual - target;
    if Abs(Rotation.Minus(actual, target)) < tol {
      assert WithinAfterTurns(actual, target, Rotation.Turns(d), tol);
    }
    if k :| WithinAfterTurns(actual, target, k, tol) {
      Rotation.WrapUnique(d, d + 360.0 * k as real, k);
    }
  }

  /** An invalid shot is never ready, whatever the readings. */
  lemma InvalidShotNeverReady(shot: Shot, flywheelVelocity: real, hoodAngle: real, robotHeading: real)
    requires !shot.isValid
    ensures !IsReadyToShoot(shot, flywheelVelocity, hoodAngle, robotHeading)
  {
  }

  /**
   * Readiness, stated without the wrapping function: valid, flywheel within
   * 100 either way, and hood and heading within 1 and 2 degrees up to whole turns.
   */
  lemma ReadyIffAllWithinTolerance(shot: Shot, flywheelVelocity: real, hoodAngle: real, robotHeading: real)
    ensures IsReadyToShoot(shot, flywheelVelocity, hoodAngle, robotHeading) <==>
      && shot.isValid
      && shot.flywheelSpeed - 100.0 < flywheelVelocity < shot.flywheelSpeed + 100.0
      && (exists k :: WithinAfterTurns(hoodAngle, shot.hoodAngle, k, 1.0))
      && (exists k :: WithinAfterTurns(robotHeading, shot.robotYaw, k, 2.0))
  {
    AngularTolerance(hoodAngle, shot.hoodAngle, 1.0);
    AngularTolerance(robotHeading, shot.robotYaw, 2.0);
  }

  /** The flywheel test is strict: a difference of exactly 100 fails, in either direction. */
  lemma FlywheelToleranceStrict(target: real)
    ensures !FlywheelMatches(target + 100.0, target) && !FlywheelMatches(target - 100.0, target)
    ensures FlywheelMatches(target + 99.9, target) && FlywheelMatches(target - 99.9, target)
  {
  }

  /** Headings either side of the 0/360 seam match: 359.5 and 0.5 degrees are 1 degree apart. */
  lemma RotationAcrossSeam()
    ensures RotationMatches(359.5, 0.5) && RotationMatches(0.5, 359.5)
    ensures !RotationMatches(3.0, 0.5)
  {
    Rotation.WrapUnique(359.5 - 0.5, -1.0, -1);
    Rotation.WrapUnique(0.5 - 359.5, 1.0, 1);
    Rotation.WrapIdentity(3.0 - 0.5);
  }

  /** Whole turns of the robot heading do not change the rotation test. */
  lemma RotationIgnoresWholeTurns(current: real, target: real, k: int)
    ensures RotationMatches(current + 360.0 * k as real, target) == RotationMatches(current, target)
  {
    assert current + 360.0 * k as real - target == (current - target) + 360.0 * k as real;
    Rotation.WrapPeriodic(current - target, k);
  }

  /** Each match test gives the same answer with actual and target exchanged. */
  lemma MatchesSymmetric(a: real, b: real)
    ensures FlywheelMatches(a, b) == FlywheelMatches(b, a)
    ensures HoodMatches(a, b) == HoodMatches(b, a)
    ensures RotationMatches(a, b) == RotationMatches(b, a)
  {
    if Rotation.Minus(a, b) != 180.0 {
      Rotation.MinusAntisymmetric(a, b);
    } else {
      assert Rotation.Minus(b, a) == 180.0 by {
        Rotation.WrapUnique(b - a, 180.0, 1 - Rotation.Turns(a - b));
      }
    }
  }
}
