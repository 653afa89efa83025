# 2018 FRC robot (team 2461) in Dafny

This project models the control logic of team 2461's 2018 FIRST Robotics Competition robot. The robot is a
swerve-drive chassis. It carries a box intake (the "collector"), a box lifter and a climbing lift, and it has
three autonomous routines. Each Java class of the robot becomes one module of immutable records and pure
functions. A periodic `run()` call becomes a function from the old record and this tick's inputs to the new
record:
- `JavaSemantics`: the Java behaviour the model needs.
  - `Option`, and `Result` with `NullPointerException` and `StringIndexOutOfBoundsException` as failures.
  - Java's truncating `int` division.
  - The `(int)` cast of a `double`.
- `PidLoop`: a WPILib PID controller, as seen from the robot code. It has a setpoint, an enabled flag, a reset
  count, and the controller's error and on-target readings. `reset()` also disables the loop, as WPILib's does.
- `MA3Encoder`: the steering encoder's calibrated rescale of the 12-bit analog reading, and its angle in degrees.
- `MetalSkinsController`: the gamepad's dead zone and optional squared ramp.
- `AutoCommand` and `AutoCommandFactory`: autonomous drive commands, each a heading per wheel plus one
  distance, and the factory's fixed commands.
- `SwerveMotor`: one swerve module, a steering loop plus a drive loop, with its timed self-test.
- `SwerveDrive`: the four-wheel chassis.
  - Teleop drive: stick reading, wheel vectors, speed normalisation.
  - Autonomous: a FIFO command queue and the command in progress.
- `BoxCollector`, `BoxLifter`, `BoxManager`, `RobotLift`: the intake, the box lifter, the state machine that
  runs both, and the climbing lift. All four are state machines driven by switches, triggers and bumpers.
- `DriveForwardAuto`, `DriveForwardAutoBasic`, `MoveSideAuto`: the autonomous routines. `MoveSideAuto`
  covers both `MoveLeftAuto` and `MoveRightAuto`, with the side as a parameter.
- `Robot`:
  - `autonomousInit`'s choice of routine from the dashboard selection and the plate layout;
  - `testInit` and `testPeriodic`;
  - `disabledInit`.

Hardware values are explicit inputs:
- switch readings, which are normally open, so a pressed switch reads `false`;
- stick axes and buttons;
- PID errors and on-target flags;
- the clock, as a `now` argument.

The routines share the robot's subsystems with it, so each routine record keeps only its own control state.
Each tick takes the chassis, box manager, collector or lifter it commands, and returns it.

Several behaviours are stated as written, because they are what the code does:
- `DriveForwardAuto` advances a leg only while the wheels are NOT all on target.
- The side routines never give their states a value, so their first tick throws.
- Even with a value set, their BEGIN state would queue a forward leg on every tick.
- A manual box lifter (one without a middle switch) reads its high switch the wrong way round while lifting. With that switch released, the lift stops after one tick and reports HIGH. With it pressed, the lift keeps moving while the bumper is held. The standalone `BoxLifter` does the same for lowering.
- The last queued drive command gets a single tick.
- `SwerveMotor.getDistanceSetPoint` always returns 0.
- `MA3Encoder.getDirection` compares against an angle that is never updated.

Lemmas named `…AsWritten` and the rows below that say "as written" mark these behaviours.

## Model

| member | source | states |
|---|---|---|
| JavaSemantics.TruncDiv | 2018FRCRobot/src/org/usfirst/frc/team2461/robot/MA3Encoder.java:79-86 | Java's `int` division: the remainder is smaller than the divisor in magnitude and carries the dividend's sign, so the quotient rounds toward zero |
| JavaSemantics.TruncToInt | 2018FRCRobot/src/org/usfirst/frc/team2461/robot/SwerveMotor.java:447-466 | Java's `(int)` cast of a `double`: the integer part, rounded toward zero |
| JavaSemantics.TruncDivMonotone | 2018FRCRobot/src/org/usfirst/frc/team2461/robot/MA3Encoder.java:79-86 | Truncating division by a positive divisor never reverses the order of two dividends |
| PidLoop.Freeze | 2018FRCRobot/src/org/usfirst/frc/team2461/robot/SwerveMotor.java:282-288 | Holding a loop where it is moves the setpoint back by the current error; enablement and reset count stay as they were |
| MA3Encoder.SetPidSourceType | 2018FRCRobot/src/org/usfirst/frc/team2461/robot/MA3Encoder.java:31-34 | Only the PID source type changes; the last angle is kept |
| MA3Encoder.Map | 2018FRCRobot/src/org/usfirst/frc/team2461/robot/MA3Encoder.java:79-86 | The linear rescale from the calibrated range [6, 4037] to [0, 1023], with each step in Java `int` arithmetic; a reading below 6 gives a quotient that rounds toward zero |
| MA3Encoder.MapEndPoints | 2018FRCRobot/src/org/usfirst/frc/team2461/robot/MA3Encoder.java:79-86 | The calibration ends map onto the ends of the output range |
| MA3Encoder.MapOutsideCalibration | 2018FRCRobot/src/org/usfirst/frc/team2461/robot/MA3Encoder.java:79-86 | Nothing clamps a reading outside the calibration: 0 maps to -1 and 4095 maps to 1037 |
| MA3Encoder.MapMonotone | 2018FRCRobot/src/org/usfirst/frc/team2461/robot/MA3Encoder.java:79-86 | A higher reading never maps to a lower value |
| MA3Encoder.MapRange | 2018FRCRobot/src/org/usfirst/frc/team2461/robot/MA3Encoder.java:79-86 | A reading inside the calibration maps into [0, 1023] |
| MA3Encoder.ToAngleEndPoints | 2018FRCRobot/src/org/usfirst/frc/team2461/robot/MA3Encoder.java:92-99 | The ends of the 10-bit range give 0 and 359 degrees |
| MA3Encoder.ToAngleMonotone | 2018FRCRobot/src/org/usfirst/frc/team2461/robot/MA3Encoder.java:92-99 | The degree conversion preserves order |
| MA3Encoder.GetAngleRange | 2018FRCRobot/src/org/usfirst/frc/team2461/robot/MA3Encoder.java:72-77 | Every calibrated reading gives an angle in [0, 359] degrees |
| MA3Encoder.DirectionOfNewEncoder | 2018FRCRobot/src/org/usfirst/frc/team2461/robot/MA3Encoder.java:51-59 | A new encoder's last angle is 0, so its direction is "positive" exactly when the current angle is above zero, which means a raw reading of at least 10 |
| MetalSkinsController.New | 2018FRCRobot/src/org/usfirst/frc/team2461/robot/MetalSkinsController.java:18-22 | A new pad has the default 0.15 precision and the requested ramp setting |
| MetalSkinsController.Condition | 2018FRCRobot/src/org/usfirst/frc/team2461/robot/MetalSkinsController.java:25-45 | Axis conditioning. Inside the dead zone the value is zero. Without the ramp, any other value passes through. With the ramp, the magnitude is the square of the dead-zoned value and the sign is kept. A value in [-1, 1] never grows |
| MetalSkinsController.StickLeft | 2018FRCRobot/src/org/usfirst/frc/team2461/robot/MetalSkinsController.java:74-78 | The left stick is the conditioned left X and Y axes, in that order |
| MetalSkinsController.StickRight | 2018FRCRobot/src/org/usfirst/frc/team2461/robot/MetalSkinsController.java:84-88 | The right stick is the conditioned right X and Y axes, in that order |
| MetalSkinsController.SetPrecision | 2018FRCRobot/src/org/usfirst/frc/team2461/robot/MetalSkinsController.java:112-118 | A negative precision is ignored and any other value is taken, so a non-negative precision stays non-negative |
| MetalSkinsController.SameConditioning | 2018FRCRobot/src/org/usfirst/frc/team2461/robot/MetalSkinsController.java:25-68 | `getX` and `getY` condition their raw axis in the same way |
| MetalSkinsController.ConditionOdd | 2018FRCRobot/src/org/usfirst/frc/team2461/robot/MetalSkinsController.java:25-45 | Conditioning is symmetric: negating the axis negates the result |
| MetalSkinsController.ConditionMonotone | 2018FRCRobot/src/org/usfirst/frc/team2461/robot/MetalSkinsController.java:25-45 | With a non-negative precision, pushing the stick further never gives a smaller output |
| AutoCommandFactory.GoForward | 2018FRCRobot/src/org/usfirst/frc/team2461/robot/SwerveDriveAutoCommandFactory.java:35-39 | All four wheels point at 180 degrees, with the given distance |
| AutoCommandFactory.GoBackward | 2018FRCRobot/src/org/usfirst/frc/team2461/robot/SwerveDriveAutoCommandFactory.java:47-51 | All four wheels point at 0 degrees, with the given distance |
| AutoCommandFactory.TurnLeft | 2018FRCRobot/src/org/usfirst/frc/team2461/robot/SwerveDriveAutoCommandFactory.java:59-63 | Wheels at 225, 315, 135 and 45 degrees. The distance is the arc of radius 32.5 in through the given angle |
| AutoCommandFactory.TurnRight | 2018FRCRobot/src/org/usfirst/frc/team2461/robot/SwerveDriveAutoCommandFactory.java:71-75 | Wheels at 45, 135, 315 and 225 degrees, with the same arc length as the left turn |
| AutoCommandFactory.Stop | 2018FRCRobot/src/org/usfirst/frc/team2461/robot/SwerveDriveAutoCommandFactory.java:82-86 | Zero distance, with every wheel at 0 degrees |
| AutoCommandFactory.MoveLeft | 2018FRCRobot/src/org/usfirst/frc/team2461/robot/SwerveDriveAutoCommandFactory.java:88-91 | All wheels point at 90 degrees, with the given distance |
| AutoCommandFactory.MoveRight | 2018FRCRobot/src/org/usfirst/frc/team2461/robot/SwerveDriveAutoCommandFactory.java:93-96 | All wheels point at 270 degrees, with the given distance |
| AutoCommandFactory.StopIsGoBackwardZero | 2018FRCRobot/src/org/usfirst/frc/team2461/robot/SwerveDriveAutoCommandFactory.java:82-86 | The stop command is the backward command with distance zero |
| AutoCommandFactory.OppositePairs | 2018FRCRobot/src/org/usfirst/frc/team2461/robot/SwerveDriveAutoCommandFactory.java:35-96 | Backward is forward with every wheel turned half round, right is left turned round, and the right turn is the left turn turned round |
| AutoCommandFactory.TurnDistanceLinear | 2018FRCRobot/src/org/usfirst/frc/team2461/robot/SwerveDriveAutoCommandFactory.java:59-75 | Turn distance is additive in the angle and equal for both turns. Zero degrees gives no distance, and a full turn gives 2π times the robot width |
| SwerveMotor.New | 2018FRCRobot/src/org/usfirst/frc/team2461/robot/SwerveMotor.java:196-209 | A new wheel has its steering loop enabled and its drive loop disabled, measures displacement, and has no self-test state |
| SwerveMotor.SteeringSetpoint | 2018FRCRobot/src/org/usfirst/frc/team2461/robot/SwerveMotor.java:216-243 | The requested direction is mirrored before it reaches the steering loop: a negative angle becomes its magnitude, and a non-negative one becomes its complement to 360 |
| SwerveMotor.SteeringSetpointRange | 2018FRCRobot/src/org/usfirst/frc/team2461/robot/SwerveMotor.java:216-243 | A direction in [0, 359] gives a steering setpoint in [1, 360], and 0 gives 360 |
| SwerveMotor.SteeringSetpointWraps | 2018FRCRobot/src/org/usfirst/frc/team2461/robot/SwerveMotor.java:216-243 | A negative direction gives the same setpoint as the same heading expressed positively |
| SwerveMotor.SteeringSetpointInjective | 2018FRCRobot/src/org/usfirst/frc/team2461/robot/SwerveMotor.java:216-243 | Distinct headings in [0, 360) never share a steering setpoint |
| SwerveMotor.SetDirectionSetPoint | 2018FRCRobot/src/org/usfirst/frc/team2461/robot/SwerveMotor.java:121-124 | Only the steering setpoint changes |
| SwerveMotor.SetDistanceSetPoint | 2018FRCRobot/src/org/usfirst/frc/team2461/robot/SwerveMotor.java:140-148 | The drive loop switches to displacement and takes the distance; nothing else changes |
| SwerveMotor.SetDrivePowerSetpoint | 2018FRCRobot/src/org/usfirst/frc/team2461/robot/SwerveMotor.java:154-162 | The drive loop switches to rate and takes the power; nothing else changes |
| SwerveMotor.DriveSpeedSetpoint | 2018FRCRobot/src/org/usfirst/frc/team2461/robot/SwerveMotor.java:320-328 | The speed setpoint reads zero while the drive loop measures displacement |
| SwerveMotor.DriveSpeedSetpointReadsBack | 2018FRCRobot/src/org/usfirst/frc/team2461/robot/SwerveMotor.java:320-328 | A power setpoint reads back until a distance setpoint replaces it, after which the reading is zero |
| SwerveMotor.Drive | 2018FRCRobot/src/org/usfirst/frc/team2461/robot/SwerveMotor.java:216-243 | Teleop drive: the steering loop is enabled with the mirrored setpoint, and the drive loop takes the power in rate mode. The motor receives the power directly. The drive loop's enablement, the reset counts, the distance and the test state are kept |
| SwerveMotor.DrivePowerIgnoresAim | 2018FRCRobot/src/org/usfirst/frc/team2461/robot/SwerveMotor.java:216-243 | The motor output does not depend on how far the wheel still is from its heading |
| SwerveMotor.DriveAuto | 2018FRCRobot/src/org/usfirst/frc/team2461/robot/SwerveMotor.java:251-276 | Autonomous step. Steering stays enabled. Off its heading, the drive loop is left as it was. On its heading, the drive loop is enabled, unless it is on target with the wheel stopped, in which case it is reset instead. Setpoints are kept, and the result reports whether the drive loop is on target |
| SwerveMotor.Stop | 2018FRCRobot/src/org/usfirst/frc/team2461/robot/SwerveMotor.java:282-288 | Both loops are held where they are and disabled; reset counts are kept |
| SwerveMotor.ResetPIDDrive | 2018FRCRobot/src/org/usfirst/frc/team2461/robot/SwerveMotor.java:330-334 | The drive loop is disabled and reset, and the encoder distance returns to zero |
| SwerveMotor.ResetPIDTurn | 2018FRCRobot/src/org/usfirst/frc/team2461/robot/SwerveMotor.java:336-338 | The steering loop is disabled and reset; nothing else changes |
| SwerveMotor.EnableDrivePID | 2018FRCRobot/src/org/usfirst/frc/team2461/robot/SwerveMotor.java:343-349 | Only the drive loop is enabled |
| SwerveMotor.EnableTurnPID | 2018FRCRobot/src/org/usfirst/frc/team2461/robot/SwerveMotor.java:354-360 | Only the steering loop is enabled |
| SwerveMotor.EnableDriveAndTurnPID | 2018FRCRobot/src/org/usfirst/frc/team2461/robot/SwerveMotor.java:368-372 | Both loops are enabled; nothing else changes |
| SwerveMotor.Disable | 2018FRCRobot/src/org/usfirst/frc/team2461/robot/SwerveMotor.java:394-397 | Both loops are disabled and reset |
| SwerveMotor.DriveFollowsTurnPreserved | 2018FRCRobot/src/org/usfirst/frc/team2461/robot/SwerveMotor.java:216-397 | Every wheel operation except a bare `enableDrivePID` keeps this invariant: the drive loop is never enabled while the steering loop is off |
| SwerveMotor.InitTest | 2018FRCRobot/src/org/usfirst/frc/team2461/robot/SwerveMotor.java:471-473 | The self-test restarts from BEGIN; nothing else changes |
| SwerveMotor.TurnTestAngle | 2018FRCRobot/src/org/usfirst/frc/team2461/robot/SwerveMotor.java:447-466 | The steering test aims at 120 degrees, then 240, then 0 degrees, one second each, chosen by the whole seconds that remain |
| SwerveMotor.RunTest | 2018FRCRobot/src/org/usfirst/frc/team2461/robot/SwerveMotor.java:410-466 | The self-test throws before `initTest`. Otherwise it never goes back a stage and reports completion exactly at END. BEGIN starts the drive test with a deadline 3 s ahead and changes nothing else. While a drive or turn test has time left, it keeps its stage and its deadline |
| SwerveMotor.DriveTestRamp | 2018FRCRobot/src/org/usfirst/frc/team2461/robot/SwerveMotor.java:434-445 | During the 3 s drive test the motor power falls from 1 toward 0 as time passes and stays positive |
| SwerveMotor.TurnTestSequence | 2018FRCRobot/src/org/usfirst/frc/team2461/robot/SwerveMotor.java:447-466 | During the steering test the wheel aims at 120, then 240, then 0 degrees (steering setpoints 240, 120 and 360 once mirrored) with the motor stopped |
| SwerveMotor.TestStageEnds | 2018FRCRobot/src/org/usfirst/frc/team2461/robot/SwerveMotor.java:434-466 | A test stage whose time is up hands over to the next stage with both loops disabled and the motor at 0. The turn test it starts gets a fresh deadline 3 s ahead |
| SwerveMotor.TestStagesInOrder | 2018FRCRobot/src/org/usfirst/frc/team2461/robot/SwerveMotor.java:410-466 | A self-test started in BEGIN goes through DRIVE_TEST and TURN_TEST, 3 s each, to END, and then reports done |
| SwerveMotor.DistanceSetPointAlwaysZero | 2018FRCRobot/src/org/usfirst/frc/team2461/robot/SwerveMotor.java:164-167 | The distance setpoint getter reads the never-assigned field, so it returns 0 whatever was commanded |
| SwerveMotor.KeepsSetPointDrive | 2018FRCRobot/src/org/usfirst/frc/team2461/robot/SwerveMotor.java:23 | No wheel operation writes the `setPointDrive` field |
| SwerveDrive.New | 2018FRCRobot/src/org/usfirst/frc/team2461/robot/SwerveDrive.java:49-65 | A new drivetrain has the given wheels, an empty command queue and no command in progress |
| SwerveDrive.ReadSticks | 2018FRCRobot/src/org/usfirst/frc/team2461/robot/SwerveDrive.java:74-76 | Forward is the conditioned left Y, strafe is the negated conditioned left X, and rotation is the conditioned right X |
| SwerveDrive.WheelVectors | 2018FRCRobot/src/org/usfirst/frc/team2461/robot/SwerveDrive.java:89-92 | The four wheel vectors share components in pairs. Their differences are the rotation scaled by the frame ratios, and their averages are the strafe and forward requests |
| SwerveDrive.NoRotationSameVector | 2018FRCRobot/src/org/usfirst/frc/team2461/robot/SwerveDrive.java:89-92 | Without rotation, every wheel gets the same (strafe, forward) vector |
| SwerveDrive.MaxOf4 | 2018FRCRobot/src/org/usfirst/frc/team2461/robot/SwerveDrive.java:108 | The largest of the four wheel speeds, attained by one of them |
| SwerveDrive.Normalize | 2018FRCRobot/src/org/usfirst/frc/team2461/robot/SwerveDrive.java:108-113 | Speeds are left alone unless the fastest exceeds 1. Otherwise each is divided by the fastest, so multiplying back gives the original |
| SwerveDrive.NormalizeAtMostOne | 2018FRCRobot/src/org/usfirst/frc/team2461/robot/SwerveDrive.java:108-113 | After normalisation no wheel speed exceeds 1 |
| SwerveDrive.NormalizeReachesOne | 2018FRCRobot/src/org/usfirst/frc/team2461/robot/SwerveDrive.java:108-113 | When a speed exceeded 1, the fastest wheel is normalised to exactly 1 |
| SwerveDrive.NormalizeNonNegative | 2018FRCRobot/src/org/usfirst/frc/team2461/robot/SwerveDrive.java:108-113 | Normalisation keeps a non-negative speed non-negative |
| SwerveDrive.Drive | 2018FRCRobot/src/org/usfirst/frc/team2461/robot/SwerveDrive.java:72-118 | Teleop drive. Each wheel is driven at the oracle's atan2 heading of its own vector, and at its normalised hypotenuse scaled by the power factor. The autonomous queue and current command are untouched |
| SwerveDrive.DrivePowerBounded | 2018FRCRobot/src/org/usfirst/frc/team2461/robot/SwerveDrive.java:108-117 | Given non-negative hypotenuses, every wheel's power lies in [0, POWER_FACTOR] |
| SwerveDrive.DriveWithoutRotation | 2018FRCRobot/src/org/usfirst/frc/team2461/robot/SwerveDrive.java:72-118 | With the rotation stick at rest, all four wheels get the same heading and the same power |
| SwerveDrive.AddAutoCommand | 2018FRCRobot/src/org/usfirst/frc/team2461/robot/SwerveDrive.java:154-157 | The command is appended at the back of the queue; the wheels and the current command are kept |
| SwerveDrive.LoadAutoCommand | 2018FRCRobot/src/org/usfirst/frc/team2461/robot/SwerveDrive.java:425-433 | Each wheel takes its own heading from the command, and the shared distance as its distance setpoint. Its turn loop is enabled and otherwise kept, and the rest of the wheel keeps its motors and encoder |
| SwerveDrive.DriveByAutoCommand | 2018FRCRobot/src/org/usfirst/frc/team2461/robot/SwerveDrive.java:169-175 | Every wheel takes one autonomous step, with its setpoints kept |
| SwerveDrive.Dequeued | 2018FRCRobot/src/org/usfirst/frc/team2461/robot/SwerveDrive.java:125-144 | At most one command is taken per tick, and always from the front |
| SwerveDrive.DriveAuto | 2018FRCRobot/src/org/usfirst/frc/team2461/robot/SwerveDrive.java:125-144 | A tick removes at most the front command, and the rest of the queue keeps its order. An empty queue means nothing happens |
| SwerveDrive.DriveAutoLoadsHead | 2018FRCRobot/src/org/usfirst/frc/team2461/robot/SwerveDrive.java:125-144 | With no command in progress, the front command is loaded on the wheels and driven straight away |
| SwerveDrive.DriveAutoAimsAtHead | 2018FRCRobot/src/org/usfirst/frc/team2461/robot/SwerveDrive.java:125-144 | After that tick, every wheel's heading and distance setpoints are the front command's |
| SwerveDrive.DriveAutoContinues | 2018FRCRobot/src/org/usfirst/frc/team2461/robot/SwerveDrive.java:125-144 | With a command in progress, the queue is left alone and the wheels keep driving it |
| SwerveDrive.ClearAutoCommands | 2018FRCRobot/src/org/usfirst/frc/team2461/robot/SwerveDrive.java:443-446 | The queue is emptied and no command is in progress; the wheels are untouched |
| SwerveDrive.Reset | 2018FRCRobot/src/org/usfirst/frc/team2461/robot/SwerveDrive.java:329-335 | Both loops of every wheel are reset; the queue and current command are kept |
| SwerveDrive.GetDistanceAvg | 2018FRCRobot/src/org/usfirst/frc/team2461/robot/SwerveDrive.java:263-271 | The mean of the four wheel distances |
| SwerveDrive.DistanceAvgBounds | 2018FRCRobot/src/org/usfirst/frc/team2461/robot/SwerveDrive.java:263-271 | The mean lies between any bounds on the wheel distances, and it is zero after a reset |
| SwerveDrive.SetDistanceSetpoint | 2018FRCRobot/src/org/usfirst/frc/team2461/robot/SwerveDrive.java:404-408 | Every wheel takes the same distance setpoint |
| SwerveDrive.SetDirectionSetpoint | 2018FRCRobot/src/org/usfirst/frc/team2461/robot/SwerveDrive.java:414-418 | Every wheel takes the same steering setpoint |
| SwerveDrive.QueueIsFifo | 2018FRCRobot/src/org/usfirst/frc/team2461/robot/SwerveDrive.java:125-157 | Over any run of enqueues and ticks, the commands taken followed by those still queued are the original queue followed by everything enqueued |
| SwerveDrive.LastCommandDrivenOnce | 2018FRCRobot/src/org/usfirst/frc/team2461/robot/SwerveDrive.java:125-144 | As written, a command that does not finish on its first tick stays current with an empty queue, and later ticks change nothing |
| SwerveDrive.ClearedStaysIdle | 2018FRCRobot/src/org/usfirst/frc/team2461/robot/SwerveDrive.java:443-446 | A cleared drivetrain ignores autonomous ticks |
| BoxCollector.New | 2018FRCRobot/src/org/usfirst/frc/team2461/robot/BoxCollector.java:29-37 | The right-hand motors are inverted, the left-hand ones are not, and the ram solenoid is off |
| BoxCollector.ArmsRetract | 2018FRCRobot/src/org/usfirst/frc/team2461/robot/BoxCollector.java:47-49 | The ram is set forward and nothing else changes |
| BoxCollector.ArmsExtend | 2018FRCRobot/src/org/usfirst/frc/team2461/robot/BoxCollector.java:59-61 | The ram is set reverse and nothing else changes |
| BoxCollector.ArmsReadBack | 2018FRCRobot/src/org/usfirst/frc/team2461/robot/BoxCollector.java:65-71 | The arms read extended after extending and closed after retracting or construction. In general they read extended exactly when the ram is neither forward nor off |
| BoxCollector.SetArmMotors | 2018FRCRobot/src/org/usfirst/frc/team2461/robot/BoxCollector.java:73-86 | Both arm motors get the command, and the rear motors and ram are untouched |
| BoxCollector.SetRearMotors | 2018FRCRobot/src/org/usfirst/frc/team2461/robot/BoxCollector.java:88-101 | Both rear motors get the command, and the arm motors and ram are untouched |
| BoxCollector.MirroredOutputs | 2018FRCRobot/src/org/usfirst/frc/team2461/robot/BoxCollector.java:29-37 | The left and right motors of each pair always turn in opposite directions |
| BoxLifter.NewAutomatic | 2018FRCRobot/src/org/usfirst/frc/team2461/robot/BoxLifter.java:44-53 | A lifter with a middle switch starts in BEGIN in automatic mode with its motor inverted |
| BoxLifter.NewManual | 2018FRCRobot/src/org/usfirst/frc/team2461/robot/BoxLifter.java:63-71 | A lifter without a middle switch starts in BEGIN in manual mode |
| BoxLifter.SwitchMiddle | 2018FRCRobot/src/org/usfirst/frc/team2461/robot/BoxLifter.java:414-416 | Reading the middle switch throws when there is none. Otherwise it is pressed when the raw reading is false |
| BoxLifter.Run | 2018FRCRobot/src/org/usfirst/frc/team2461/robot/BoxLifter.java:81-108 | One tick. It throws exactly when BEGIN in manual mode finds neither end switch. It keeps the mode and the motor/state invariant, and BEGIN always stops the motor |
| BoxLifter.BeginPriority | 2018FRCRobot/src/org/usfirst/frc/team2461/robot/BoxLifter.java:135-148 | BEGIN checks the low switch first, then the high switch, then (automatic only) the middle switch |
| BoxLifter.ParkedStatesFollowBumpers | 2018FRCRobot/src/org/usfirst/frc/team2461/robot/BoxLifter.java:174-342 | A parked lifter never throws. It stays put with no bumper, and the right bumper wins over the left. It never drives past the end it rests at |
| BoxLifter.AutomaticTravel | 2018FRCRobot/src/org/usfirst/frc/team2461/robot/BoxLifter.java:201-280 | In automatic mode, travel stops at the middle switch unless it just left it, and otherwise at the end switch |
| BoxLifter.ManualTravelAsWritten | 2018FRCRobot/src/org/usfirst/frc/team2461/robot/BoxLifter.java:201-280 | As written, a manual lifter lowering with the low switch released stops after one tick and reports LOW. With the switch pressed it keeps lowering while the bumper is held. Lifting mirrors this with the high switch |
| BoxLifter.RunTest | 2018FRCRobot/src/org/usfirst/frc/team2461/robot/BoxLifter.java:110-288 | The test tick throws exactly when lowering from HIGH without a middle switch. It reports completion exactly in MIDDLE, and parked states are left alone. BEGIN, remembered as previous, lifts if the low switch is pressed and lowers otherwise. Lowering that has not yet been to the top turns up at the low switch, remembering LOW, and otherwise keeps going |
| BoxLifter.TestRouteFromBegin | 2018FRCRobot/src/org/usfirst/frc/team2461/robot/BoxLifter.java:110-288 | An automatic lifter's test goes from BEGIN down to the low switch, up to the high switch, and down to the middle switch, where it reports done |
| BoxLifter.TestRoute | 2018FRCRobot/src/org/usfirst/frc/team2461/robot/BoxLifter.java:227-288 | The test lift turns round at the high switch, then stops at the middle switch, where the test reports done |
| BoxLifter.Reset | 2018FRCRobot/src/org/usfirst/frc/team2461/robot/BoxLifter.java:418-420 | Back to BEGIN, with the motor, the mode and the previous state kept |
| BoxLifter.ResetStops | 2018FRCRobot/src/org/usfirst/frc/team2461/robot/BoxLifter.java:135-148 | The tick after a reset stops the motor and parks the lifter |
| BoxManager.New | 2018FRCRobot/src/org/usfirst/frc/team2461/robot/BoxManager.java:34-41 | Both machines start in BEGIN with no previous state and an unknown arm position |
| BoxManager.ArmDeploy | 2018FRCRobot/src/org/usfirst/frc/team2461/robot/BoxManager.java:185-188 | The arms are marked deployed and extended; nothing else changes |
| BoxManager.ArmRetract | 2018FRCRobot/src/org/usfirst/frc/team2461/robot/BoxManager.java:196-199 | The arms are marked retracted and closed; nothing else changes |
| BoxManager.SpitBoxOut | 2018FRCRobot/src/org/usfirst/frc/team2461/robot/BoxManager.java:300-306 | The rear motors spit. The arm motors spit too, but only with the lifter at its low switch |
| BoxManager.SuckBoxIn | 2018FRCRobot/src/org/usfirst/frc/team2461/robot/BoxManager.java:316-322 | The rear motors suck. The arm motors suck too, but only with the lifter at its low switch |
| BoxManager.StopBoxSucker | 2018FRCRobot/src/org/usfirst/frc/team2461/robot/BoxManager.java:332-335 | All intake motors stop and the ram is untouched |
| BoxManager.RunCollector | 2018FRCRobot/src/org/usfirst/frc/team2461/robot/BoxManager.java:162-289 | The collector tick leaves the lifter alone. Holding a state changes nothing. Entering SUCK_IN issues exactly the suck-in motor commands, and entering SPIT_OUT exactly the spit-out ones. Arriving at REST means the intake is stopped, or nothing changed |
| BoxManager.CollectorFollowsTriggers | 2018FRCRobot/src/org/usfirst/frc/team2461/robot/BoxManager.java:214-289 | From REST, a fully pulled right trigger alone runs the rear motors at +1, and the arm motors too at the low switch. The left trigger alone does the same at -1. Otherwise the arm motors and ram are untouched. Releasing the trigger of the running action returns to REST with all four intake motors stopped |
| BoxManager.PartialTriggerIgnored | 2018FRCRobot/src/org/usfirst/frc/team2461/robot/BoxManager.java:214-226 | A trigger counts only when pulled fully to 1.0 |
| BoxManager.RunLifter | 2018FRCRobot/src/org/usfirst/frc/team2461/robot/BoxManager.java:337-555 | The lifter tick throws exactly when the manual BEGIN finds no end switch. It leaves the collector alone and keeps the motor/state invariant |
| BoxManager.Run | 2018FRCRobot/src/org/usfirst/frc/team2461/robot/BoxManager.java:51-95 | A teleop tick is the collector tick followed by the lifter tick, and it throws exactly when the lifter tick does |
| BoxManager.LifterMovesArms | 2018FRCRobot/src/org/usfirst/frc/team2461/robot/BoxManager.java:337-539 | In either mode, leaving BEGIN for LOW opens the arms, and leaving it for HIGH or MIDDLE closes them. Heading down from MIDDLE opens them and heading up closes them. Only a manual lifter leaving BEGIN between the end switches throws |
| BoxManager.ParkedStatesFollowBumpers | 2018FRCRobot/src/org/usfirst/frc/team2461/robot/BoxManager.java:385-555 | A parked lifter never throws, and with no bumper it stays put. From IDLE or MIDDLE, the right bumper starts lifting with the motor at +1 and wins over the left, which starts lowering at -1. LOW answers only the right bumper and HIGH only the left. Every move records the state it left |
| BoxManager.AutomaticTravel | 2018FRCRobot/src/org/usfirst/frc/team2461/robot/BoxManager.java:412-477 | In automatic mode, travel stops with the motor off at the middle switch unless it has just left MIDDLE. Otherwise it runs on until the end switch in its direction is pressed |
| BoxManager.ManualTravelAsWritten | 2018FRCRobot/src/org/usfirst/frc/team2461/robot/BoxManager.java:412-491 | As written, manual lowering stops at a pressed low switch and otherwise continues while the left bumper is held. Manual lifting with the high switch released stops after one tick and reports HIGH. With it pressed, lifting continues while the right bumper is held and goes to IDLE when it is let go |
| BoxManager.CollectorSuckInTest | 2018FRCRobot/src/org/usfirst/frc/team2461/robot/BoxManager.java:248-269 | The timed intake test. Arm motors spit for 2 s, then stop for 2 s. The rear motors then suck for 2 s and spit for 2 s. At +8 s the collector rests with the rear stopped and the arms retracted; nothing happens before the start time |
| BoxManager.RunTestCollector | 2018FRCRobot/src/org/usfirst/frc/team2461/robot/BoxManager.java:127-141 | The collector test reports completion exactly at rest and never touches the lifter |
| BoxManager.RunTestLifter | 2018FRCRobot/src/org/usfirst/frc/team2461/robot/BoxManager.java:143-500 | The lifter test throws exactly when a manual lifter lowers from HIGH. It reports completion exactly at MIDDLE. Starting from BEGIN opens the arms and lifts at the low switch or else lowers. Lowering that has not yet been to the top turns up at the low switch |
| BoxManager.TestLifterAgrees | 2018FRCRobot/src/org/usfirst/frc/team2461/robot/BoxManager.java:103-160 | The manager's lifter test throws, moves and reports done exactly as the lifter's own test would. So it follows the promised route: lower to low, raise to high, lower to middle |
| BoxManager.RunTest | 2018FRCRobot/src/org/usfirst/frc/team2461/robot/BoxManager.java:117-125 | The collector test runs first, and the lifter test only once the collector is at rest |
| BoxManager.CollectorTestTimeline | 2018FRCRobot/src/org/usfirst/frc/team2461/robot/BoxManager.java:127-269 | From BEGIN, the first tick starts the intake test. A tick at least 10 s later ends it with the arms retracted, and the tick after that reports done |
| BoxManager.Reset | 2018FRCRobot/src/org/usfirst/frc/team2461/robot/BoxManager.java:649-654 | Both machines go back to BEGIN and remember the state they left. The hardware is untouched |
| BoxManager.InitTest | 2018FRCRobot/src/org/usfirst/frc/team2461/robot/BoxManager.java:359-362 | Both machines go back to BEGIN without touching the previous states |
| BoxManager.RestartsAgree | 2018FRCRobot/src/org/usfirst/frc/team2461/robot/BoxManager.java:649-654 | A reset and a test restart differ only in the previous states they record. After a restart, the next teleop tick stops the lifter motor and rests the collector with the intake stopped |
| RobotLift.New | 2018FRCRobot/src/org/usfirst/frc/team2461/robot/RobotLift.java:26-35 | The lift starts in BEGIN with both motors stopped |
| RobotLift.SetMotor | 2018FRCRobot/src/org/usfirst/frc/team2461/robot/RobotLift.java:124-127 | Both motors get the same command |
| RobotLift.Run | 2018FRCRobot/src/org/usfirst/frc/team2461/robot/RobotLift.java:37-61 | A tick keeps the two motors agreeing and keeps the motor/state invariant. It never stays in BEGIN |
| RobotLift.InvariantHolds | 2018FRCRobot/src/org/usfirst/frc/team2461/robot/RobotLift.java:37-127 | From construction, the motors run up exactly while LIFTING, down exactly while LOWERING, and are stopped otherwise |
| RobotLift.InvariantFrom | 2018FRCRobot/src/org/usfirst/frc/team2461/robot/RobotLift.java:37-127 | The invariant, once true, survives any sequence of ticks |
| RobotLift.StopsAtLimits | 2018FRCRobot/src/org/usfirst/frc/team2461/robot/RobotLift.java:86-108 | Travel stops on reaching the switch at its end |
| RobotLift.TravelHeldByButton | 2018FRCRobot/src/org/usfirst/frc/team2461/robot/RobotLift.java:86-108 | Between the switches, the lift keeps moving exactly while its button is held |
| RobotLift.ButtonsFromRest | 2018FRCRobot/src/org/usfirst/frc/team2461/robot/RobotLift.java:74-122 | From IDLE, Y climbs, X descends and both together do nothing. At an end only the button leading away from it acts |
| RobotLift.BeginSettles | 2018FRCRobot/src/org/usfirst/frc/team2461/robot/RobotLift.java:63-72 | BEGIN checks the bottom switch before the top one and stops the motors |
| DriveForwardAuto.New | 2018FRCRobot/src/org/usfirst/frc/team2461/robot/autonomous/DriveForwardAuto.java:23-28 | A new routine starts in BEGIN |
| DriveForwardAuto.Decide | 2018FRCRobot/src/org/usfirst/frc/team2461/robot/autonomous/DriveForwardAuto.java:30-139 | One tick's decision. BEGIN clears the queue, queues the first leg and arms a 0.1 s delay. A leg advances exactly when its delay has passed and, as written, the wheels are not all done. The last leg queues the stop command without a drivetrain tick. STOP only ticks |
| DriveForwardAuto.Reset | 2018FRCRobot/src/org/usfirst/frc/team2461/robot/autonomous/DriveForwardAuto.java:165-169 | The routine restarts from BEGIN. The drivetrain's loops are reset, and its queue is cleared with no command in progress |
| DriveForwardAuto.DecideKeepsPlan | 2018FRCRobot/src/org/usfirst/frc/team2461/robot/autonomous/DriveForwardAuto.java:62-129 | Each tick keeps the queued legs a prefix of the plan: 24 in forward, 60 in left, 120 in forward, stop |
| DriveForwardAuto.PlanFollowed | 2018FRCRobot/src/org/usfirst/frc/team2461/robot/autonomous/DriveForwardAuto.java:62-129 | Over any run of ticks, the routine has queued exactly a prefix of its plan and never more |
| DriveForwardAuto.StartsOnPlan | 2018FRCRobot/src/org/usfirst/frc/team2461/robot/autonomous/DriveForwardAuto.java:23-28 | A new or reset routine has queued nothing yet |
| DriveForwardAuto.BeginLoadsFirstLeg | 2018FRCRobot/src/org/usfirst/frc/team2461/robot/autonomous/DriveForwardAuto.java:62-68 | After the BEGIN tick, every wheel aims at 180 degrees with a 24 in distance setpoint, and the queue is empty |
| DriveForwardAuto.LegGuardAsWritten | 2018FRCRobot/src/org/usfirst/frc/team2461/robot/autonomous/DriveForwardAuto.java:80-129 | No leg is judged before its delay. As written, a leg whose wheels are all on target never advances |
| DriveForwardAutoBasic.New | 2018FRCRobot/src/org/usfirst/frc/team2461/robot/autonomous/DriveForwardAutoBasic.java:44-48 | A new routine starts in BEGIN with no previous state and no drive command |
| DriveForwardAutoBasic.Run | 2018FRCRobot/src/org/usfirst/frc/team2461/robot/autonomous/DriveForwardAutoBasic.java:51-82 | BEGIN closes the arms and drives forward at full power with a 1.5 s deadline. The drive stops exactly when the clock is past the deadline, and STOP does nothing |
| DriveForwardAutoBasic.Reset | 2018FRCRobot/src/org/usfirst/frc/team2461/robot/autonomous/DriveForwardAutoBasic.java:97-100 | Back to BEGIN, remembering the state left; the drive command is untouched |
| DriveForwardAutoBasic.RunKeepsCommanding | 2018FRCRobot/src/org/usfirst/frc/team2461/robot/autonomous/DriveForwardAutoBasic.java:68-82 | While driving, the command is full power forward with the arms closed; once stopped, it is zero |
| DriveForwardAutoBasic.DrivesForLongerThanDeadline | 2018FRCRobot/src/org/usfirst/frc/team2461/robot/autonomous/DriveForwardAutoBasic.java:68-82 | The drive stops on a later tick exactly when that tick comes more than 1.5 s after BEGIN |
| DriveForwardAutoBasic.StatePreviousString | 2018FRCRobot/src/org/usfirst/frc/team2461/robot/autonomous/DriveForwardAutoBasic.java:91-94 | Naming the previous state throws exactly when there is none yet |
| DriveForwardAutoBasic.PreviousReadableAfterTick | 2018FRCRobot/src/org/usfirst/frc/team2461/robot/autonomous/DriveForwardAutoBasic.java:27-105 | After any state change or reset the previous state can be named, and distinct states have distinct names |
| MoveSideAuto.New | 2018FRCRobot/src/org/usfirst/frc/team2461/robot/autonomous/MoveLeftAuto.java:35-39 | Neither the driving state nor the box state is set by the constructor |
| MoveSideAuto.SideCommand | 2018FRCRobot/src/org/usfirst/frc/team2461/robot/autonomous/MoveLeftAuto.java:102-109 | The sideways leg points at 90 degrees for the left routine and 270 degrees for the right one |
| MoveSideAuto.SidesOpposite | 2018FRCRobot/src/org/usfirst/frc/team2461/robot/autonomous/MoveRightAuto.java:102-109 | The two routines' sideways legs are each other turned round |
| MoveSideAuto.DriveStep | 2018FRCRobot/src/org/usfirst/frc/team2461/robot/autonomous/MoveLeftAuto.java:86-113 | The driving machine. BEGIN queues the 60 in forward leg and stays. A leg advances exactly when the wheels report done. Leaving the forward leg queues the 48 in sideways leg and starts the box rising. STOP queues nothing |
| MoveSideAuto.BeginRepeats | 2018FRCRobot/src/org/usfirst/frc/team2461/robot/autonomous/MoveLeftAuto.java:86-88 | As written, BEGIN never advances, and after n ticks n copies of the forward leg are queued |
| MoveSideAuto.RunBox | 2018FRCRobot/src/org/usfirst/frc/team2461/robot/autonomous/MoveLeftAuto.java:115-159 | The box machine throws exactly when RISING reads a missing middle switch. It keeps the lifter motor matching its state and never touches the drivetrain. LOWERING goes to IDLE exactly at the low switch, stopping the lifter, and IDLE changes nothing |
| MoveSideAuto.Run | 2018FRCRobot/src/org/usfirst/frc/team2461/robot/autonomous/MoveLeftAuto.java:41-83 | A tick throws while the driving state is unset, or while the box state is unset outside DRIVE_FORWARD. It keeps the lifter invariant and the side |
| MoveSideAuto.ConstructedRoutineThrows | 2018FRCRobot/src/org/usfirst/frc/team2461/robot/autonomous/MoveLeftAuto.java:35-83 | A freshly constructed side routine throws on its first tick |
| MoveSideAuto.ArmsTimeline | 2018FRCRobot/src/org/usfirst/frc/team2461/robot/autonomous/MoveLeftAuto.java:115-127 | BEGIN opens the arms, and the lifter lowers only after the 0.5 s wait |
| MoveSideAuto.SpitTimeline | 2018FRCRobot/src/org/usfirst/frc/team2461/robot/autonomous/MoveLeftAuto.java:136-155 | At the middle switch the lifter stops and the box is spat out for 2 s, then the intake stops and the lifter lowers |
| Robot.Choose | 2018FRCRobot/src/org/usfirst/frc/team2461/robot/Robot.java:199-236 | Routine selection. It throws for a side or centre selection with an empty plate layout, gives nothing for an unknown selection, and always gives the timed routine for the default |
| Robot.SelectionTable | 2018FRCRobot/src/org/usfirst/frc/team2461/robot/Robot.java:206-232 | Centre goes to the switch on the plate's side, or drives forward when the layout names neither side. A side start crosses the field only when the plate is on that same side; otherwise it takes the timed routine |
| Robot.OnlyFirstPlateMatters | 2018FRCRobot/src/org/usfirst/frc/team2461/robot/Robot.java:206-232 | Only the first character of the plate layout affects the choice |
| Robot.AutonomousInit | 2018FRCRobot/src/org/usfirst/frc/team2461/robot/Robot.java:199-236 | The chosen routine replaces the current one, and an unknown selection keeps the current one |
| Robot.SideChoiceCannotRun | 2018FRCRobot/src/org/usfirst/frc/team2461/robot/Robot.java:206-232 | A side routine chosen here throws on its first tick |
| Robot.TestInit | 2018FRCRobot/src/org/usfirst/frc/team2461/robot/Robot.java:264-270 | Every wheel's self-test and the box manager's test restart from BEGIN |
| Robot.TestWheels | 2018FRCRobot/src/org/usfirst/frc/team2461/robot/Robot.java:278-290 | The wheels' self-tests run in order, one wheel at a time |
| Robot.TestWheelsSteps | 2018FRCRobot/src/org/usfirst/frc/team2461/robot/Robot.java:278-290 | Only the first unfinished wheel is stepped, and all report done exactly when every wheel is at END |
| Robot.TestPeriodic | 2018FRCRobot/src/org/usfirst/frc/team2461/robot/Robot.java:278-290 | The box manager's test is left alone while a wheel test is still running |
| Robot.BoxTestLast | 2018FRCRobot/src/org/usfirst/frc/team2461/robot/Robot.java:278-290 | Once every wheel is done, the tick runs the box manager's test |
| Robot.TestNeedsInit | 2018FRCRobot/src/org/usfirst/frc/team2461/robot/Robot.java:264-290 | Without `testInit` the first test tick throws. After it, the tick cannot throw and steps only the front-left wheel |
| Robot.ResetAutoCode | 2018FRCRobot/src/org/usfirst/frc/team2461/robot/Robot.java:318-319 | Resetting the drive-forward routine clears the drivetrain queue. The other routines keep it. The loops stay off |
| Robot.DisabledCalls | 2018FRCRobot/src/org/usfirst/frc/team2461/robot/Robot.java:313-320 | Disabling resets the drivetrain, the box manager and the climbing lift, in that order, then the routine if there is one |
| Robot.DisabledState | 2018FRCRobot/src/org/usfirst/frc/team2461/robot/Robot.java:313-320 | After disabling, every drivetrain loop is off and the box manager is reset. The queue is cleared only for the drive-forward routine |
| Robot.DisabledRestartsRoutine | 2018FRCRobot/src/org/usfirst/frc/team2461/robot/Robot.java:313-320 | A disabled drive-forward or timed routine is back in BEGIN |

## Left out

- Port numbers and hardware construction. `SwerveMotor.New` and `RobotLift.New` take the motors' inversion as a value. `BoxCollector.New`, `BoxLifter.NewAutomatic` and `BoxLifter.NewManual` fix their motors' inversion and the ram as the Java constructors do.
- `Robot.robotInit`: it sets the PID gains, the compressor, the camera and the dashboard chooser, which is configuration with no modelled effect. It also makes two calls with effect:
  - `boxManager.boxCollectorArmRetract()`. This is the operation `BoxManager.ArmRetract` models, but robotInit's call of it is not modelled.
  - `boxManager.setBoxLifterModeAutomatic(false)`. No such method is defined in the repository. The model fixes a lifter's mode at construction instead, through `BoxLifter.NewAutomatic` or `BoxLifter.NewManual`.
- `Robot.teleopPeriodic`: it calls `SwerveDrive.Drive`, `BoxManager.Run` and `RobotLift.Run` in turn. Each is modelled; the three calls act on separate records.
- `Robot.autonomousPeriodic`: a direct call of the chosen routine's `run`, which each routine models as its `Run`. With no routine chosen, the field is null and the call throws; that dispatch is not a separate member.
- WPILib's PID arithmetic, speed controllers and solenoids: out of reach of the repository's code. The loops' error and on-target readings are inputs, and a motor is its last command plus its inversion flag.
- `Math.hypot` and `Math.atan2` are floating point. They are supplied as a `Trig` value. Only the hypotenuse's non-negativity is assumed, where a lemma needs it.
- The timer: each tick reads the clock once, as `now`. `DriveForwardAuto.driveForward`, `DriveForwardAuto.driveLeft` and `SwerveMotor.testDrive` each read it twice in one tick. The model uses one reading for both.
- Dashboard output, `toString` of the state enums, and the state-string getters, except `DriveForwardAutoBasic.getStatePreviousString`, whose null dereference is modelled. These only produce display text.
- The `AutoCode` interface: the choice of routine is the `Robot.AutoCode` datatype.
- Calls to methods the repository does not define are modelled through stand-ins, and the called code is not part of this model:
  - `driveManual`: becomes `DriveForwardAutoBasic`'s `manual` field.
  - `spitBoxOut`/`stopBoxSucker` on the collector: become `MoveSideAuto`'s `intake` log.
  - `robotLift.reset()`: becomes an entry in `Robot.DisabledCalls` and leaves the lift unchanged.
  - `BoxLifter.getMode()`: read as the lifter record's `mode` field.
  - `SwerveMotor.getDriveOntarget()`: read as the drive loop's `onTarget` flag.
  - `MoveLeftAuto.reset()`/`MoveRightAuto.reset()`: an entry in `Robot.DisabledCalls` that leaves the routine unchanged (`Robot.ResetAutoCode`).
  - `setBoxLifterModeAutomatic`: see `robotInit` above.
- Floating point: every Java `double` is an exact real. This covers the timer, the trigger test `== 1.0`, `toRadians`, the 0.75 power factor, the ramp's square and the wheel-speed division. Rounding is not modelled. Two properties hold over reals but not in general over IEEE doubles:
  - `SwerveDrive.Normalize`'s "multiplying back by the fastest speed gives the original";
  - `AutoCommandFactory.TurnDistanceLinear`'s additivity in the angle.
- Effects a Java method makes before it throws are not kept. A `Failure` result carries no state.
- `BoxLifter.initTest`: the lifter's own test entry is not called by `BoxManager.initTest` or `Robot`, so only the manager's test restart is modelled.
- A null dashboard selection in `autonomousInit` would throw in the `switch`. The model takes the selection as a string that is always present.
- SwerveDrive.Normalize: states the ratio-preserving division as "multiplying back by the fastest speed gives the original", not as a closed-form quotient.
- Robot.DisabledState: states the end state of `disabledInit` through the reset functions it calls. `Robot.DisabledCalls` gives their order. `DisabledInit` itself pairs the two and carries no contract of its own.
- SwerveDrive.Drive: states each wheel's power and heading through the `Trig` oracle's hypotenuse and atan2, not as numbers. The oracle is assumed only to give non-negative hypotenuses, and only where a lemma needs it. The content beyond that composition is in `SwerveDrive.DrivePowerBounded` and `SwerveDrive.DriveWithoutRotation`.
