# Shot aiming, readiness gating and mechanism state machines

This project is a Dafny model of the shooting logic of an FRC robot, with proofs of its properties.

- **Shot calculator.** Three calibration tables map distance to hood angle, flywheel speed and time of flight. Each lookup clamps at the ends and blends linearly between breakpoints, as WPILib's `InterpolatingTreeMap` does.
  - The calculator moves the pose forward by a phase delay and looks up the time of flight at the distance to the target.
  - It projects a lookahead position as position plus velocity times time of flight.
  - It marks the shot valid exactly when the lookahead distance lies in the inclusive envelope [1.34, 5.60] m.
  - The result is cached until the cache is cleared.
- **Readiness gate.** A shot is ready when it is valid and the flywheel, hood and heading are each within a strict tolerance of the shot's targets. The angle differences are wrapped to (−180°, 180°].
- **Mechanism state machines:**
  - the shot stagger, a pair of gates that swap which side blocks once per switch period;
  - the intake goal and the roller voltage it selects;
  - the flywheel and hood setpoint latches and their at-goal tests;
  - the simulated hood, shooter and intake IO.

Module layout:

- `MathUtil` (math_util.dfy): clamp, interpolate and inverse interpolate, as in WPILib's `MathUtil`.
- `Rotation` (rotation.dfy): angles in degrees. A rotation keeps the value it was built with. Only the results of `minus` and `plus`, and so of `interpolate`, are normalised to (−180, 180], as `Rotation2d` does through `atan2`. The module holds that normalisation, the angle difference and the shortest-way interpolation.
- `Interpolation` (interpolation.dfy): a breakpoint table kept as a key-sorted sequence.
  - `Put` inserts or overwrites a key.
  - `Get` is the clamp-and-blend lookup.
- `ShotCalculator` (shot_calculator.dfy): the three tables, the pure shot computation `Calculate`, and the caching `Calculator` class.
- `Shooter` (shooter.dfy): the readiness gate.
- `ShotStagger` (shot_stagger.dfy): a pure step function `Step`, and the `Stagger` class whose methods are proved against it.
- `Intake`, `Flywheel`, `Hood`, `HoodIOSim`, `ShooterIOSim`, `IntakeIOSim`: one class per mechanism. Each class's fields are the source's fields. Commands sent to hardware are recorded as sequences, oldest first.

Time, pose, velocity and sensor readings are method parameters. Three operations of the robot code are not part of this model: `Pose2d.exp` (exponential-map pose update), `Translation2d.getDistance`, and the alliance-flipped hub position.

- The two geometry functions are the fields of a `Geometry` value.
- `GeometryLaws` holds the two facts the proofs use: the zero twist leaves a pose unchanged, and distances are non-negative.
- The target is a constructor parameter of `Calculator`.

WPILib's `MathUtil`, `Rotation2d` and `InterpolatingTreeMap` are not in the robot repository. They are modelled from their documented behaviour. Their table rows cite the `ShotCalculator.java` lines that use them.

Facts about the code that the model keeps:

- `getParameters` takes a single lookahead step (`ShotCalculator.java:112-117`); there is no fixed-point loop.
- It adds the robot-relative `vx`/`vy` to the field position without rotating them.
- It computes no heading.
- The readiness gate reads a shot record `{isValid, flywheelSpeed, hoodAngle, robotYaw}` that `ShotCalculator` does not define (`Shooter.java:80-86`). It is modelled as the `Shooter.Shot` datatype.

## Model

| member | source | states |
|---|---|---|
| MathUtil.Clamp | src/main/java/frc/robot/subsystems/shooter/ShotCalculator.java:50-51 | The result lies in [low, high]. It equals the value inside the range and the nearer bound outside it. |
| MathUtil.InterpolateBetween | src/main/java/frc/robot/subsystems/shooter/ShotCalculator.java:52-55 | A linear blend of start and end always lies between them, whichever is larger. |
| MathUtil.InterpolateEnds | src/main/java/frc/robot/subsystems/shooter/ShotCalculator.java:52-55 | The blend at t = 0 is the start and at t = 1 is the end. |
| MathUtil.InterpolateMonotone | src/main/java/frc/robot/subsystems/shooter/ShotCalculator.java:52-55 | For start ≤ end, the blend is non-decreasing in t. |
| MathUtil.InverseInterpolateInside | src/main/java/frc/robot/subsystems/shooter/ShotCalculator.java:52-55 | A query strictly between start and end maps to a fraction strictly between 0 and 1. |
| MathUtil.InverseInterpolateMonotone | src/main/java/frc/robot/subsystems/shooter/ShotCalculator.java:52-55 | The fraction is non-decreasing in the query, including where it is pinned to 0 by a degenerate range. |
| Rotation.Wrap | src/main/java/frc/robot/subsystems/shooter/Shooter.java:97 | A normalised angle lies in (−180, 180] and differs from the input by a whole number of turns. |
| Rotation.WrapIdentity | src/main/java/frc/robot/subsystems/shooter/Shooter.java:97 | An angle already in (−180, 180] is left unchanged. |
| Rotation.WrapUnique | src/main/java/frc/robot/subsystems/shooter/Shooter.java:97 | The normalised angle is the only value in (−180, 180] that is a whole number of turns from the input. |
| Rotation.WrapPeriodic | src/main/java/frc/robot/subsystems/shooter/Shooter.java:103 | Adding whole turns does not change the normalised angle. |
| Rotation.MinusAntisymmetric | src/main/java/frc/robot/subsystems/shooter/Shooter.java:97 | Swapping the operands negates the difference whenever it is not exactly 180°. |
| Rotation.InterpolateIsLinear | src/main/java/frc/robot/subsystems/shooter/ShotCalculator.java:50-51 | For angles within a quarter turn of zero, the shortest-way interpolation equals the plain linear blend. |
| Interpolation.StepwiseOrderedIsOrdered | src/main/java/frc/robot/subsystems/shooter/ShotCalculator.java:62-88 | A table ordered neighbour by neighbour is sorted by key and non-decreasing in value throughout. |
| Interpolation.Put | src/main/java/frc/robot/subsystems/shooter/ShotCalculator.java:62-88 | Inserting keeps the table sorted and non-empty. It gives the key-to-value map of the old table with the key overwritten. A strict lower bound of every old key and of the new key is a strict lower bound of every key of the result. |
| Interpolation.PutAfterLast | src/main/java/frc/robot/subsystems/shooter/ShotCalculator.java:73-82 | A key beyond the last one is appended at the end. |
| Interpolation.PutBeforeFirst | src/main/java/frc/robot/subsystems/shooter/ShotCalculator.java:84-88 | A key before the first one is prepended at the front. |
| Interpolation.Get | src/main/java/frc/robot/subsystems/shooter/ShotCalculator.java:112 | A lookup yields a value exactly when the table is non-empty; an empty table yields nothing. |
| Interpolation.GetSingle | src/main/java/frc/robot/subsystems/shooter/ShotCalculator.java:112 | A one-entry table returns its value for every key. |
| Interpolation.GetClampLow | src/main/java/frc/robot/subsystems/shooter/ShotCalculator.java:112 | A key at or below the first key returns the first value. |
| Interpolation.GetClampHigh | src/main/java/frc/robot/subsystems/shooter/ShotCalculator.java:112 | On a sorted table, a key at or above the last key returns the last value. |
| Interpolation.GetAtKey | src/main/java/frc/robot/subsystems/shooter/ShotCalculator.java:65 | On a sorted table, a lookup at a stored key returns the stored value. |
| Interpolation.GetBetween | src/main/java/frc/robot/subsystems/shooter/ShotCalculator.java:120 | A key strictly between two neighbouring keys returns the blend of their values at the key's fraction of the interval. |
| Interpolation.GetBetweenBounded | src/main/java/frc/robot/subsystems/shooter/ShotCalculator.java:131 | Such a lookup lies between the two bracketing values. |
| Interpolation.GetBounds | src/main/java/frc/robot/subsystems/shooter/ShotCalculator.java:112 | On a sorted table with non-decreasing values, every lookup lies between the first and the last value. |
| Interpolation.GetMonotone | src/main/java/frc/robot/subsystems/shooter/ShotCalculator.java:131 | On such a table, the lookup is non-decreasing in the key. |
| Interpolation.AngularIsScalar | src/main/java/frc/robot/subsystems/shooter/ShotCalculator.java:120 | When all values lie within a quarter turn of zero, the angle table lookup equals the plain numeric lookup. |
| ShotCalculator.PutAll | src/main/java/frc/robot/subsystems/shooter/ShotCalculator.java:57-89 | Filling a table by successive puts keeps it sorted, and it is non-empty once any entry is put. |
| ShotCalculator.PutAllAscending | src/main/java/frc/robot/subsystems/shooter/ShotCalculator.java:62-82 | Putting entries in ascending key order yields exactly those entries, in order. |
| ShotCalculator.PutAllIntoEmpty | src/main/java/frc/robot/subsystems/shooter/ShotCalculator.java:62-82 | Putting entries in ascending key order into an empty table yields exactly those entries, in order. |
| ShotCalculator.CalibrationEntriesOrdered | src/main/java/frc/robot/subsystems/shooter/ShotCalculator.java:62-88 | The hood, flywheel and time-of-flight breakpoints are sorted by distance and non-decreasing in value. The hood angles lie within a quarter turn. |
| ShotCalculator.HoodAngleEntriesOrdered | src/main/java/frc/robot/subsystems/shooter/ShotCalculator.java:62-71 | The hood breakpoints are sorted by distance, their angles never decrease, and every angle lies within a quarter turn. |
| ShotCalculator.FlywheelSpeedEntriesOrdered | src/main/java/frc/robot/subsystems/shooter/ShotCalculator.java:73-82 | The flywheel breakpoints are sorted by distance and their speeds never decrease. |
| ShotCalculator.TimeOfFlightBreakpointsOrdered | src/main/java/frc/robot/subsystems/shooter/ShotCalculator.java:84-88 | The time-of-flight breakpoints, in distance order, are sorted and their times never decrease. |
| ShotCalculator.AscendingMapContents | src/main/java/frc/robot/subsystems/shooter/ShotCalculator.java:62-82 | The hood and flywheel tables hold exactly the ten calibrated breakpoints in order. |
| ShotCalculator.HoodAngleMapContents | src/main/java/frc/robot/subsystems/shooter/ShotCalculator.java:62-71 | The hood table holds exactly its ten calibrated breakpoints, in order. |
| ShotCalculator.FlywheelSpeedMapContents | src/main/java/frc/robot/subsystems/shooter/ShotCalculator.java:73-82 | The flywheel table holds exactly its ten calibrated breakpoints, in order. |
| ShotCalculator.TimeOfFlightMapContents | src/main/java/frc/robot/subsystems/shooter/ShotCalculator.java:84-88 | The time-of-flight table, filled in descending order, ends up ordered by ascending distance. |
| ShotCalculator.CalibrationMaps | src/main/java/frc/robot/subsystems/shooter/ShotCalculator.java:57-89 | All three tables, as filled, are sorted and non-decreasing. |
| ShotCalculator.StaticCalibrationFacts | src/main/java/frc/robot/subsystems/shooter/ShotCalculator.java:57-89 | The calibration as built is usable (no table empty) and holds the calibrated breakpoints. |
| ShotCalculator.StaticHoodAngle | src/main/java/frc/robot/subsystems/shooter/ShotCalculator.java:62-71 | The calibration as built is usable, and its hood table is the sorted, non-decreasing list of hood breakpoints. |
| ShotCalculator.StaticFlywheelSpeed | src/main/java/frc/robot/subsystems/shooter/ShotCalculator.java:73-82 | The calibration as built is usable, and its flywheel table is the sorted, non-decreasing list of flywheel breakpoints. |
| ShotCalculator.StaticTimeOfFlight | src/main/java/frc/robot/subsystems/shooter/ShotCalculator.java:84-88 | The calibration as built is usable, and its time-of-flight table is the sorted, non-decreasing list of time-of-flight breakpoints. |
| ShotCalculator.HoodAngleIsScalar | src/main/java/frc/robot/subsystems/shooter/ShotCalculator.java:120 | The hood angle lookup, done with angle interpolation, equals the plain numeric lookup. |
| ShotCalculator.HoodAngleClamps | src/main/java/frc/robot/subsystems/shooter/ShotCalculator.java:62-71 | At or below 1.34 m the hood angle is 19°; at or above 5.60 m it is 35°. |
| ShotCalculator.FlywheelSpeedClamps | src/main/java/frc/robot/subsystems/shooter/ShotCalculator.java:73-82 | At or below 1.34 m the flywheel speed is 210; at or above 5.60 m it is 290. |
| ShotCalculator.TimeOfFlightClamps | src/main/java/frc/robot/subsystems/shooter/ShotCalculator.java:84-88 | At or below 1.38 m the time of flight is 0.90; at or above 5.68 m it is 1.16. |
| ShotCalculator.LookupsClamp | src/main/java/frc/robot/subsystems/shooter/ShotCalculator.java:62-88 | At or below 1.34 m the hood angle is 19° and the flywheel speed is 210. At or above 5.60 m they are 35° and 290. The time of flight is 0.90 at or below 1.38 m and 1.16 at or above 5.68 m. |
| ShotCalculator.LookupsAtBreakpoint | src/main/java/frc/robot/subsystems/shooter/ShotCalculator.java:62-88 | A lookup at any calibrated distance returns that breakpoint's calibrated value, in each table. |
| ShotCalculator.HoodAngleAtBreakpoint | src/main/java/frc/robot/subsystems/shooter/ShotCalculator.java:62-71 | A hood lookup at any calibrated distance returns that breakpoint's angle. |
| ShotCalculator.FlywheelSpeedAtBreakpoint | src/main/java/frc/robot/subsystems/shooter/ShotCalculator.java:73-82 | A flywheel lookup at any calibrated distance returns that breakpoint's speed. |
| ShotCalculator.TimeOfFlightAtBreakpoint | src/main/java/frc/robot/subsystems/shooter/ShotCalculator.java:84-88 | A time-of-flight lookup at any calibrated distance returns that breakpoint's time. |
| ShotCalculator.AtTwoPointEightOneMeters | src/main/java/frc/robot/subsystems/shooter/ShotCalculator.java:65-76 | At 2.81 m the hood angle is 27° and the flywheel speed is 230. |
| ShotCalculator.FlywheelSpeedBetweenBreakpoints | src/main/java/frc/robot/subsystems/shooter/ShotCalculator.java:73-82 | Between two neighbouring breakpoints, the flywheel speed lies between their speeds. |
| ShotCalculator.LookupsMonotone | src/main/java/frc/robot/subsystems/shooter/ShotCalculator.java:62-88 | All three lookups are non-decreasing in distance. |
| ShotCalculator.LookupsBounded | src/main/java/frc/robot/subsystems/shooter/ShotCalculator.java:62-88 | For every distance, the hood angle is in [19, 35], the flywheel speed in [210, 290] and the time of flight in [0.90, 1.16]. |
| ShotCalculator.HoodAngleBounded | src/main/java/frc/robot/subsystems/shooter/ShotCalculator.java:62-71 | For every distance, the hood angle is in [19, 35]. |
| ShotCalculator.FlywheelSpeedBounded | src/main/java/frc/robot/subsystems/shooter/ShotCalculator.java:73-82 | For every distance, the flywheel speed is in [210, 290]. |
| ShotCalculator.TimeOfFlightBounded | src/main/java/frc/robot/subsystems/shooter/ShotCalculator.java:84-88 | For every distance, the time of flight is in [0.90, 1.16]. |
| ShotCalculator.Calculate | src/main/java/frc/robot/subsystems/shooter/ShotCalculator.java:126-131 | The shot is valid exactly when 1.34 ≤ lookahead distance ≤ 5.60. |
| ShotCalculator.CalculateBounded | src/main/java/frc/robot/subsystems/shooter/ShotCalculator.java:120-131 | Every computed shot, valid or not, asks for a hood angle in [19, 35] and a flywheel speed in [210, 290]. |
| ShotCalculator.EnvelopeInclusive | src/main/java/frc/robot/subsystems/shooter/ShotCalculator.java:128 | Both envelope bounds are inside the envelope, and every distance outside [1.34, 5.60] is outside it. |
| ShotCalculator.StationaryLookahead | src/main/java/frc/robot/subsystems/shooter/ShotCalculator.java:99-117 | With zero velocity, the lookahead distance is the raw distance from the sampled pose to the target. |
| ShotCalculator.FartherLookaheadRaisesSetpoints | src/main/java/frc/robot/subsystems/shooter/ShotCalculator.java:117-131 | When motion carries the lookahead point farther from the target, the hood angle and flywheel speed are at least those of the stationary shot. |
| ShotCalculator.Calculator.constructor | src/main/java/frc/robot/subsystems/shooter/ShotCalculator.java:45 | A new calculator has no cached parameters and has logged nothing. |
| ShotCalculator.Calculator.GetParameters | src/main/java/frc/robot/subsystems/shooter/ShotCalculator.java:92-137 | With a cached record, it returns that record whatever the pose and velocity, and changes and logs nothing. Otherwise it returns, caches and logs the freshly computed shot. |
| ShotCalculator.Calculator.ClearShootingParameters | src/main/java/frc/robot/subsystems/shooter/ShotCalculator.java:139-141 | The cache is empty afterwards. |
| ShotCalculator.OneTick | src/main/java/frc/robot/subsystems/shooter/ShotCalculator.java:92-141 | After a clear, two calls in a row return the same record. That record is the one computed from the first call's inputs, and exactly one lookahead distance is logged. |
| Shooter.AngularTolerance | src/main/java/frc/robot/subsystems/shooter/Shooter.java:95-104 | A wrapped difference is under a tolerance exactly when some whole number of turns brings the two angles within it. |
| Shooter.InvalidShotNeverReady | src/main/java/frc/robot/subsystems/shooter/Shooter.java:82 | An invalid shot is never ready, whatever the readings. |
| Shooter.ReadyIffAllWithinTolerance | src/main/java/frc/robot/subsystems/shooter/Shooter.java:79-87 | Ready exactly when the shot is valid, the flywheel is within 100, and the hood is within 1° and the heading within 2° up to whole turns. |
| Shooter.FlywheelToleranceStrict | src/main/java/frc/robot/subsystems/shooter/Shooter.java:90-93 | A flywheel difference of exactly 100, either way, fails; 99.9 passes. |
| Shooter.RotationAcrossSeam | src/main/java/frc/robot/subsystems/shooter/Shooter.java:100-104 | 359.5° against 0.5° matches in both orders, while 3.0° against 0.5° does not. |
| Shooter.RotationIgnoresWholeTurns | src/main/java/frc/robot/subsystems/shooter/Shooter.java:100-104 | Adding whole turns to the heading does not change whether it matches. |
| Shooter.MatchesSymmetric | src/main/java/frc/robot/subsystems/shooter/Shooter.java:90-104 | Each of the three checks gives the same answer with actual and target swapped. |
| ShotStagger.GateStates | src/main/java/frc/robot/subsystems/indexer/ShotStagger.java:49-57 | Exactly one gate is at the block voltage and the other at the open voltage. The left gate blocks exactly when `leftBlocking` holds. |
| ShotStagger.NoSwitchWithinPeriod | src/main/java/frc/robot/subsystems/indexer/ShotStagger.java:72-75 | After a switch at t, the switch time becomes t, and any step before t + 0.25 changes nothing. |
| ShotStagger.TwoSwitchesRestore | src/main/java/frc/robot/subsystems/indexer/ShotStagger.java:59-62 | Two switches restore which side blocks. |
| ShotStagger.RunParity | src/main/java/frc/robot/subsystems/indexer/ShotStagger.java:68-77 | Over any sequence of steps, the blocking side has flipped exactly when an odd number of switches happened. The last switch time is that of the last switch, or the initial one if none happened. |
| ShotStagger.SwitchesSpaced | src/main/java/frc/robot/subsystems/indexer/ShotStagger.java:72-75 | Over any sequence of steps, consecutive switch times are at least 0.25 s apart. |
| ShotStagger.Stagger.constructor | src/main/java/frc/robot/subsystems/indexer/ShotStagger.java:33-41 | Left blocking, switch time 0. The left gate is commanded to block and the right gate to open. |
| ShotStagger.Stagger.ApplyGateStates | src/main/java/frc/robot/subsystems/indexer/ShotStagger.java:49-57 | One command goes to each gate, the pair chosen by `leftBlocking`; the state is unchanged. |
| ShotStagger.Stagger.Toggle | src/main/java/frc/robot/subsystems/indexer/ShotStagger.java:59-62 | `leftBlocking` is negated, then one command for the new state goes to each gate. |
| ShotStagger.Stagger.StaggerShots | src/main/java/frc/robot/subsystems/indexer/ShotStagger.java:68-77 | The new state is `Step` of the old one. When a switch is due, each gate gets one command for the new state; otherwise no command is issued. |
| ShotStagger.Stagger.Stop | src/main/java/frc/robot/subsystems/indexer/ShotStagger.java:82-87 | Both gates are commanded to 0 V; `leftBlocking` and the switch time are unchanged. |
| Intake.RollerVoltsDirection | src/main/java/frc/robot/subsystems/intake/Intake.java:36-48 | INTAKE drives the roller forward and OUTTAKE backward with equal strength. Only STOP gives 0 V. |
| Intake.Intake.constructor | src/main/java/frc/robot/subsystems/intake/Intake.java:26 | A new intake has goal STOP and has made no roller calls. |
| Intake.Intake.SetGoal | src/main/java/frc/robot/subsystems/intake/Intake.java:26 | The goal becomes the given one, and nothing else changes. |
| Intake.Intake.Periodic | src/main/java/frc/robot/subsystems/intake/Intake.java:32-50 | The roller's periodic update comes first, then exactly one voltage command: 8 V, −8 V or 0 V by goal. The goal is unchanged. |
| Flywheel.NearSetpointStrict | src/main/java/frc/robot/subsystems/shooter/flywheel/Flywheel.java:27-29 | A reading equal to the setpoint is at goal, 0.049 away is at goal, and exactly 0.05 away on either side is not. |
| Flywheel.Flywheel.constructor | src/main/java/frc/robot/subsystems/shooter/flywheel/Flywheel.java:7-12 | Setpoint 0, default readings and no outputs sent, so a fresh flywheel is at goal. |
| Flywheel.Flywheel.Periodic | src/main/java/frc/robot/subsystems/shooter/flywheel/Flywheel.java:14-17 | The readings are refreshed; the setpoint and the outputs sent are unchanged. |
| Flywheel.Flywheel.SetVelocity | src/main/java/frc/robot/subsystems/shooter/flywheel/Flywheel.java:19-25 | The setpoint becomes v, and exactly one output (TORQUE_CURRENT_BANG_BANG, v) is sent. |
| Hood.NearSetpointStrict | src/main/java/frc/robot/subsystems/shooter/hood/Hood.java:27-29 | A reading equal to the setpoint is at goal, 0.009 away is at goal, and exactly 0.01 away on either side is not. |
| Hood.Hood.constructor | src/main/java/frc/robot/subsystems/shooter/hood/Hood.java:7-12 | Setpoint 0, default readings and no outputs sent, so a fresh hood is at goal. |
| Hood.Hood.Periodic | src/main/java/frc/robot/subsystems/shooter/hood/Hood.java:14-17 | The readings become the simulated position at rest; the setpoint is unchanged. |
| Hood.Hood.SetPosition | src/main/java/frc/robot/subsystems/shooter/hood/Hood.java:19-25 | The setpoint becomes p, exactly one POSITION output at p is sent, and the simulated hood moves to p. |
| Hood.SetAndSettle | src/main/java/frc/robot/subsystems/shooter/hood/Hood.java:14-29 | Over the simulated hood, `setPosition(p)` followed by `periodic` reaches the goal. |
| HoodIOSim.HoodIOSim.constructor | src/main/java/frc/robot/subsystems/shooter/hood/HoodIOSim.java:4 | The simulated position starts at 0. |
| HoodIOSim.HoodIOSim.UpdateInputs | src/main/java/frc/robot/subsystems/shooter/hood/HoodIOSim.java:6-10 | It reports the simulated position with zero velocity and changes nothing. |
| HoodIOSim.HoodIOSim.ApplyOutputs | src/main/java/frc/robot/subsystems/shooter/hood/HoodIOSim.java:12-17 | A POSITION output moves the simulated hood to its position; a VOLTAGE output leaves it where it is. |
| ShooterIOSim.ShooterIOSim.constructor | src/main/java/frc/robot/subsystems/shooter/ShooterIOSim.java:8-9 | Velocity 0, not firing. |
| ShooterIOSim.ShooterIOSim.UpdateInputs | src/main/java/frc/robot/subsystems/shooter/ShooterIOSim.java:11-23 | Both flywheel readings are the velocity at 5 A. The feeder reads 100 at 2 A when firing and 0 at 0.5 A otherwise. Applied output × 5000 is the velocity. Nothing changes. |
| ShooterIOSim.ShooterIOSim.SetShooterVelocity | src/main/java/frc/robot/subsystems/shooter/ShooterIOSim.java:25-28 | The velocity becomes the commanded speed; the feedforward is ignored and `firing` is untouched. |
| ShooterIOSim.ShooterIOSim.SetShooterVoltage | src/main/java/frc/robot/subsystems/shooter/ShooterIOSim.java:30-33 | The velocity becomes 500 × volts; `firing` is untouched. |
| ShooterIOSim.ShooterIOSim.SetFeederVoltage | src/main/java/frc/robot/subsystems/shooter/ShooterIOSim.java:35-38 | Firing exactly when the voltage is positive; the velocity is untouched. |
| ShooterIOSim.VoltageThenRead | src/main/java/frc/robot/subsystems/shooter/ShooterIOSim.java:21-33 | After a voltage command, the applied output reads a tenth of the voltage, and the firing flag is unchanged. |
| IntakeIOSim.ArmUnderConstantVolts | src/main/java/frc/robot/subsystems/intake/IntakeIOSim.java:14-15 | Over n updates at a constant voltage, the arm velocity grows by n × volts × 0.02. At 0 V the velocity stays constant and the position advances by velocity × 0.02 per update. |
| IntakeIOSim.IntakeIOSim.constructor | src/main/java/frc/robot/subsystems/intake/IntakeIOSim.java:5-10 | All arm and roller state starts at 0. |
| IntakeIOSim.IntakeIOSim.UpdateInputs | src/main/java/frc/robot/subsystems/intake/IntakeIOSim.java:12-27 | The arm takes one Euler step, velocity first and then position from the new velocity. The roller speed is 100 × volts. Applied volts are the last commanded ones. The currents are 2 × and 1.5 × the voltage magnitudes, so they are non-negative. |
| IntakeIOSim.IntakeIOSim.SetArmVoltage | src/main/java/frc/robot/subsystems/intake/IntakeIOSim.java:29-32 | Only the arm voltage is stored; nothing moves. |
| IntakeIOSim.IntakeIOSim.SetRollerVoltage | src/main/java/frc/robot/subsystems/intake/IntakeIOSim.java:34-37 | Only the roller voltage is stored; nothing moves. |

## Left out

- Geometry: `Pose2d.exp` (trigonometry) and `Translation2d.getDistance` (square root) are abstract functions. They are constrained only by the zero-twist identity and non-negative distances.
- The alliance flip of the hub position: the target is a parameter.
- Angle units: hood angles and headings are in degrees throughout. The conversion of the hood angle to radians in the returned record is not modelled.
- The hood-velocity moving-average filter and the fields behind it (`hoodAngle`, `lastHoodAngle`, `hoodVelocity`), and the record's `hoodVelocity` component. The filter is a library component.
- Logging: `Logger.recordOutput` of the lookahead distance is a sequence that `GetParameters` appends to.
- The singleton `getInstance`: the calculator is one explicit object.
- Tunable numbers: `LoggedTunableNumber` values are constants at their default values; live tuning is not modelled.
- Hardware and timing: the gate motors' and roller's own `periodic` updates, `periodicAfterScheduler`, and the FPGA timestamp. The timestamp is a parameter; the gate commands are sequences of voltages.
- `FlywheelIOSim` and the other hardware IO classes: the flywheel's readings are a parameter of `Periodic`.
- Hood: modelled over `HoodIOSim` only, not over any `HoodIO`; `HoodIOReal` is a hardware driver.
- ShotCalculator.Calculator.constructor: takes the calibration as a parameter, required to be usable, rather than always building over `StaticCalibration()`; the lemmas about the static maps are stated on `StaticCalibration()`.
- Floating point: all quantities are real numbers, without IEEE rounding or NaN.
- ShotCalculator.FartherLookaheadRaisesSetpoints: states "at least", not "strictly larger", because the tables have flat segments (19° from 1.34 to 1.78 m, 32° from 4.77 to 5.57 m).
- The mode-selecting constructors, command-framework glue and behaviour-free IO interfaces are outside the modelled core.
