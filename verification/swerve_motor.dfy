/** One swerve module: a drive motor closed over a quadrature encoder by the
    drive PID loop, and a steering motor closed over the MA3 absolute encoder
    by the turn PID loop. The loops and encoders are hardware; what the wheel
    reads from them (loop errors and on-target verdicts, travelled distance,
    whether the drive encoder has stopped) comes in through `Observe`. */
module SwerveMotor {
  import opened JavaSemantics
  import PidLoop

  /** Stages of the self-test started by `initTest`. */
  datatype TestState = Begin | DriveTest | TurnTest | End

  /** `source` is the drive encoder's PID source type, which decides whether
      the drive loop regulates distance or speed. `motorOutput` is the last
      value written directly to the drive motor. `setPointDrive` is the
      field behind `getDistanceSetPoint`. `test` is null until `initTest`. */
  datatype Wheel = Wheel(
    turn: PidLoop.Loop,
    drive: PidLoop.Loop,
    source: PidLoop.SourceType,
    distance: real,
    stopped: bool,
    motorOutput: real,
    setPointDrive: real,
    inverted: bool,
    test: Option<TestState>,
    testTime: real)

  /** What the constructors leave behind: the turn loop is enabled by
      `setupPIDControllers`, the drive loop starts disabled, the encoder
      reports displacement, and no test has been set up. */
  function New(inverted: bool): (w: Wheel)
    ensures w.turn.enabled && !w.drive.enabled
    ensures w.source == PidLoop.Displacement && w.setPointDrive == 0.0
    ensures w.inverted == inverted && w.test == None
  {
    Wheel(PidLoop.New(true), PidLoop.New(false), PidLoop.Displacement,
          0.0, false, 0.0, 0.0, inverted, None, 0.0)
  }

  /** A new reading of the sensors behind the wheel. */
  datatype Sensors = Sensors(
    turnError: real, turnOnTarget: bool,
    driveError: real, driveOnTarget: bool,
    distance: real, stopped: bool)

  function Observe(w: Wheel, s: Sensors): (r: Wheel)
    ensures r.turn == PidLoop.Observe(w.turn, s.turnError, s.turnOnTarget)
    ensures r.drive == PidLoop.Observe(w.drive, s.driveError, s.driveOnTarget)
    ensures r.distance == s.distance && r.stopped == s.stopped
    ensures r.(turn := w.turn, drive := w.drive, distance := w.distance, stopped := w.stopped) == w
  {
    w.(turn := PidLoop.Observe(w.turn, s.turnError, s.turnOnTarget),
       drive := PidLoop.Observe(w.drive, s.driveError, s.driveOnTarget),
       distance := s.distance, stopped := s.stopped)
  }

  /** The turn setpoint `drive` derives from a requested direction: a
      negative direction is negated, anything else is taken from 360. */
  function SteeringSetpoint(direction: real): (s: real)
    ensures direction < 0.0 ==> s == -direction
    ensures direction >= 0.0 ==> s + direction == 360.0
  {
    if direction < 0.0 then -direction else 360.0 - direction
  }

  /** For the documented directions [0, 359] the setpoint lies in [1, 360],
      and straight ahead (0) becomes 360 rather than 0. */
  lemma SteeringSetpointRange(direction: real)
    requires 0.0 <= direction <= 359.0
    ensures 1.0 <= SteeringSetpoint(direction) <= 360.0
    ensures direction == 0.0 ==> SteeringSetpoint(direction) == 360.0
  {
  }

  /** A negative direction is steered like the same angle one turn up, so
      the two branches agree on angles modulo 360. */
  lemma SteeringSetpointWraps(direction: real)
    requires -360.0 < direction < 0.0
    ensures SteeringSetpoint(direction) == SteeringSetpoint(direction + 360.0)
  {
  }

  /** Distinct directions in [0, 360) get distinct setpoints. */
  lemma SteeringSetpointInjective(d1: real, d2: real)
    requires 0.0 <= d1 < 360.0 && 0.0 <= d2 < 360.0
    requires SteeringSetpoint(d1) == SteeringSetpoint(d2)
    ensures d1 == d2
  {
  }

  function SetDirectionSetPoint(w: Wheel, setPoint: real): (r: Wheel)
    ensures r.turn.setpoint == setPoint
    ensures r == w.(turn := r.turn) && r.turn == w.turn.(setpoint := setPoint)
  {
    w.(turn := PidLoop.WithSetpoint(w.turn, setPoint))
  }

  /** `setDistanceSetPoint`: regulate distance, towards `setPoint`. */
  function SetDistanceSetPoint(w: Wheel, setPoint: real): (r: Wheel)
    ensures r.source == PidLoop.Displacement && r.drive.setpoint == setPoint
    ensures r == w.(source := r.source, drive := w.drive.(setpoint := setPoint))
  {
    w.(source := PidLoop.Displacement, drive := PidLoop.WithSetpoint(w.drive, setPoint))
  }

  /** `setDrivePowerSetpoint`: regulate speed, towards `setPoint`. */
  function SetDrivePowerSetpoint(w: Wheel, setPoint: real): (r: Wheel)
    ensures r.source == PidLoop.Rate && r.drive.setpoint == setPoint
    ensures r == w.(source := r.source, drive := w.drive.(setpoint := setPoint))
  {
    w.(source := PidLoop.Rate, drive := PidLoop.WithSetpoint(w.drive, setPoint))
  }

  /** `getDriveSpeedSetpoint`: the drive setpoint read as a speed, which
      only means something while the loop regulates speed. */
  function DriveSpeedSetpoint(w: Wheel): (v: real)
    ensures w.source == PidLoop.Displacement ==> v == 0.0
  {
    if w.source == PidLoop.Rate then w.drive.setpoint else 0.0
  }

  /** `getDistanceSetPoint` reads a field that nothing writes. */
  function DistanceSetPoint(w: Wheel): real {
    w.setPointDrive
  }

  /** A speed set with `setDrivePowerSetpoint` reads back as set, and a
      distance set with `setDistanceSetPoint` hides it. */
  lemma DriveSpeedSetpointReadsBack(w: Wheel, speed: real, distance: real)
    ensures DriveSpeedSetpoint(SetDrivePowerSetpoint(w, speed)) == speed
    ensures DriveSpeedSetpoint(SetDistanceSetPoint(SetDrivePowerSetpoint(w, speed), distance)) == 0.0
    ensures DriveSpeedSetpoint(SetDrivePowerSetpoint(SetDistanceSetPoint(w, distance), speed)) == speed
  {
  }

  /** `drive`: teleop steering and power. The drive loop is switched to speed
      regulation with the power as its setpoint, the turn loop is enabled,
      and the power also goes straight to the drive motor, whether or not
      the wheel already points the right way. */
  function Drive(w: Wheel, direction: real, drivePower: real): (r: Wheel)
    ensures r.turn.setpoint == SteeringSetpoint(direction) && r.turn.enabled
    ensures r.source == PidLoop.Rate && r.drive.setpoint == drivePower
    ensures r.motorOutput == drivePower
    ensures r.drive.enabled == w.drive.enabled
    ensures r.turn.resets == w.turn.resets && r.drive.resets == w.drive.resets
    ensures r.distance == w.distance && r.test == w.test && r.testTime == w.testTime
    ensures r.setPointDrive == w.setPointDrive
  {
    var steered := SetDirectionSetPoint(w, SteeringSetpoint(direction));
    var powered := SetDrivePowerSetpoint(steered, drivePower);
    var enabled := EnableTurnPID(powered);
    if enabled.turn.onTarget then
      enabled.(motorOutput := drivePower)
    else
      enabled.(motorOutput := drivePower)
  }

  /** The commanded power does not depend on the turn loop's verdict. */
  lemma DrivePowerIgnoresAim(w: Wheel, direction: real, drivePower: real, error: real)
    ensures Drive(w, direction, drivePower).motorOutput
         == Drive(w.(turn := PidLoop.Observe(w.turn, error, !w.turn.onTarget)), direction, drivePower).motorOutput
  {
  }

  /** `driveAuto`: one autonomous tick of the wheel. The turn loop is always
      enabled; the drive loop is enabled only once the wheel points the
      right way, and is reset (which disables it) when it has reached its
      distance and the wheel has stopped. The result is the drive loop's
      on-target verdict. */
  function DriveAuto(w: Wheel): (r: (Wheel, bool))
    ensures r.0.turn == w.turn.(enabled := true)
    ensures r.1 == w.drive.onTarget
    ensures !w.turn.onTarget ==> r.0.drive == w.drive
    ensures w.turn.onTarget ==>
              r.0.drive.enabled == !(w.drive.onTarget && w.stopped)
    ensures r.0.drive.resets
              == w.drive.resets + (if w.turn.onTarget && w.drive.onTarget && w.stopped then 1 else 0)
    ensures r.0.drive.setpoint == w.drive.setpoint && r.0.drive.onTarget == w.drive.onTarget
    ensures r.0 == w.(turn := r.0.turn, drive := r.0.drive)
  {
    var aiming := EnableTurnPID(w);
    if aiming.turn.onTarget then
      var driving := EnableDrivePID(aiming);
      var settled := if driving.drive.onTarget && driving.stopped
                     then driving.(drive := PidLoop.Reset(driving.drive))
                     else driving;
      (settled, settled.drive.onTarget)
    else
      (aiming, aiming.drive.onTarget)
  }

  /** `stop`: both setpoints are moved onto the values the loops currently
      measure, so the wheel holds where it is, and both loops are disabled. */
  function Stop(w: Wheel): (r: Wheel)
    ensures r.turn.setpoint + w.turn.error == w.turn.setpoint
    ensures r.drive.setpoint + w.drive.error == w.drive.setpoint
    ensures !r.turn.enabled && !r.drive.enabled
    ensures r.turn.resets == w.turn.resets && r.drive.resets == w.drive.resets
    ensures r == w.(turn := r.turn, drive := r.drive)
  {
    w.(turn := PidLoop.Disable(PidLoop.Freeze(w.turn)),
       drive := PidLoop.Disable(PidLoop.Freeze(w.drive)))
  }

  /** `resetPIDDrive`: reset the drive loop and zero the drive encoder. */
  function ResetPIDDrive(w: Wheel): (r: Wheel)
    ensures !r.drive.enabled && r.drive.resets == w.drive.resets + 1
    ensures r.distance == 0.0
    ensures r == w.(drive := r.drive, distance := r.distance)
  {
    w.(drive := PidLoop.Reset(w.drive), distance := 0.0)
  }

  function ResetPIDTurn(w: Wheel): (r: Wheel)
    ensures !r.turn.enabled && r.turn.resets == w.turn.resets + 1
    ensures r == w.(turn := r.turn)
  {
    w.(turn := PidLoop.Reset(w.turn))
  }

  function EnableDrivePID(w: Wheel): (r: Wheel)
    ensures r.drive.enabled && r == w.(drive := w.drive.(enabled := true))
  {
    if !w.drive.enabled then w.(drive := PidLoop.Enable(w.drive)) else w
  }

  function EnableTurnPID(w: Wheel): (r: Wheel)
    ensures r.turn.enabled && r == w.(turn := w.turn.(enabled := true))
  {
    if !w.turn.enabled then w.(turn := PidLoop.Enable(w.turn)) else w
  }

  function EnableDriveAndTurnPID(w: Wheel): (r: Wheel)
    ensures r.drive.enabled && r.turn.enabled
    ensures r == w.(drive := w.drive.(enabled := true), turn := w.turn.(enabled := true))
  {
    EnableTurnPID(EnableDrivePID(w))
  }

  /** `disable`: reset both loops; the encoder count is kept. */
  function Disable(w: Wheel): (r: Wheel)
    ensures !r.drive.enabled && !r.turn.enabled
    ensures r.drive.resets == w.drive.resets + 1 && r.turn.resets == w.turn.resets + 1
    ensures r == w.(drive := r.drive, turn := r.turn)
  {
    w.(drive := PidLoop.Reset(w.drive), turn := PidLoop.Reset(w.turn))
  }

  /** The wheel never drives without steering: the drive loop runs only
      while the turn loop does. */
  predicate DriveFollowsTurn(w: Wheel) {
    w.drive.enabled ==> w.turn.enabled
  }

  /** Every operation the drivetrain uses keeps the drive loop behind the
      turn loop, and a fresh wheel starts that way. Resetting only the turn
      loop, or enabling only the drive loop, would break it, which is why
      the drivetrain always resets both and enables the drive loop through
      `driveAuto` alone. */
  lemma DriveFollowsTurnPreserved(w: Wheel, direction: real, power: real, s: Sensors, setPoint: real)
    requires DriveFollowsTurn(w)
    ensures DriveFollowsTurn(New(w.inverted))
    ensures DriveFollowsTurn(Drive(w, direction, power))
    ensures DriveFollowsTurn(DriveAuto(w).0)
    ensures DriveFollowsTurn(Stop(w))
    ensures DriveFollowsTurn(Disable(w))
    ensures DriveFollowsTurn(ResetPIDTurn(ResetPIDDrive(w)))
    ensures DriveFollowsTurn(EnableTurnPID(w)) && DriveFollowsTurn(EnableDriveAndTurnPID(w))
    ensures DriveFollowsTurn(Observe(w, s))
    ensures DriveFollowsTurn(SetDirectionSetPoint(w, setPoint))
    ensures DriveFollowsTurn(SetDistanceSetPoint(w, setPoint))
    ensures DriveFollowsTurn(SetDrivePowerSetpoint(w, setPoint))
    ensures w.turn.enabled ==> !DriveFollowsTurn(EnableDrivePID(ResetPIDTurn(w)))
  {
  }

  /** `initTest`. */
  function InitTest(w: Wheel): (r: Wheel)
    ensures r.test == Some(Begin) && r == w.(test := r.test)
  {
    w.(test := Some(Begin))
  }

  /** The direction the turn test asks for, from the time left in the test:
      `(int)` of the remaining seconds, then 0, 240 or 120 degrees. */
  function TurnTestAngle(remaining: real): (angle: real)
    requires remaining > 0.0
    ensures remaining < 1.0 ==> angle == 0.0
    ensures 1.0 <= remaining < 2.0 ==> angle == 240.0
    ensures 2.0 <= remaining ==> angle == 120.0
  {
    var whole := TruncToInt(remaining);
    if whole < 1 then 0.0 else if whole < 2 then 240.0 else 120.0
  }

  /** `runTest`: one tick of the self-test. Calling it before `initTest`
      switches on a null state. The result is whether the test is over. */
  function RunTest(w: Wheel, now: real): (r: Result<(Wheel, bool)>)
    ensures r.Failure? <==> w.test == None
    ensures r.Success? ==> (r.value.1 <==> w.test == Some(End))
    ensures r.Success? ==> r.value.0.test.Some?
    ensures r.Success? ==> Rank(w.test.value) <= Rank(r.value.0.test.value) <= Rank(w.test.value) + 1
    ensures w.test == Some(Begin) ==>
              r.Success? && !r.value.1 &&
              r.value.0 == w.(test := Some(DriveTest), testTime := now + 3.0)
    ensures (w.test == Some(DriveTest) || w.test == Some(TurnTest)) && now < w.testTime ==>
              r.Success? && !r.value.1 && r.value.0.test == w.test && r.value.0.testTime == w.testTime
  {
    match w.test
    case None => Failure(NullPointer)
    case Some(Begin) => Success((w.(test := Some(DriveTest), testTime := now + 3.0), false))
    case Some(DriveTest) =>
      if now < w.testTime then
        Success((Drive(w, 0.0, (w.testTime - now) / 3.0), false))
      else
        var done := Disable(Drive(w, 0.0, 0.0));
        Success((done.(test := Some(TurnTest), testTime := now + 3.0), false))
    case Some(TurnTest) =>
      if now < w.testTime then
        Success((Drive(w, TurnTestAngle(w.testTime - now), 0.0), false))
      else
        var done := Disable(Drive(w, 0.0, 0.0));
        Success((done.(test := Some(End)), false))
    case Some(End) => Success((w, true))
  }

  /** Position of a test stage in the order BEGIN, DRIVE_TEST, TURN_TEST, END. */
  function Rank(t: TestState): nat {
    match t
    case Begin => 0
    case DriveTest => 1
    case TurnTest => 2
    case End => 3
  }

  /** During the drive test (entered at `start`, so due to end at
      `start + 3`) the commanded power ramps down from full forward to 0:
      it lies in (0, 1] and falls as time passes. */
  lemma DriveTestRamp(w: Wheel, start: real, t1: real, t2: real)
    requires w.test == Some(DriveTest) && w.testTime == start + 3.0
    requires start <= t1 <= t2 < w.testTime
    ensures RunTest(w, t1).Success? && RunTest(w, t2).Success?
    ensures 0.0 < RunTest(w, t2).value.0.motorOutput <= RunTest(w, t1).value.0.motorOutput <= 1.0
  {
  }

  /** During the turn test the wheel is steered to 120, then 240, then 0
      degrees; through `drive` those become turn setpoints 240, 120, 360. */
  lemma TurnTestSequence(w: Wheel, now: real)
    requires w.test == Some(TurnTest) && now < w.testTime
    ensures RunTest(w, now).Success?
    ensures var sp := RunTest(w, now).value.0.turn.setpoint;
            (w.testTime - now >= 2.0 ==> sp == 240.0) &&
            (1.0 <= w.testTime - now < 2.0 ==> sp == 120.0) &&
            (w.testTime - now < 1.0 ==> sp == 360.0)
    ensures RunTest(w, now).value.0.motorOutput == 0.0
  {
  }

  /** Once its time is up a stage hands over to the next with both loops
      reset and the drive motor commanded to 0. */
  lemma TestStageEnds(w: Wheel, now: real)
    requires w.test == Some(DriveTest) || w.test == Some(TurnTest)
    requires now >= w.testTime
    ensures RunTest(w, now).Success?
    ensures var r := RunTest(w, now).value.0;
            !r.drive.enabled && !r.turn.enabled && r.motorOutput == 0.0 &&
            Rank(r.test.value) == Rank(w.test.value) + 1 &&
            (w.test == Some(DriveTest) ==> r.test == Some(TurnTest) && r.testTime == now + 3.0)
  {
  }

  /** A whole self-test: BEGIN at `t0` starts a 3 s drive test; a tick at
      `t1`, once that is over, starts a 3 s turn test; a tick at `t2`, once
      that is over, reaches END, and the tick after reports the test done.
      Ticks in between leave the stage and its deadline alone. */
  lemma TestStagesInOrder(w: Wheel, t0: real, t1: real, t2: real, t3: real)
    requires w.test == Some(Begin)
    requires t0 + 3.0 <= t1 && t1 + 3.0 <= t2
    ensures var w1 := RunTest(w, t0).value.0;
            w1.test == Some(DriveTest) && w1.testTime == t0 + 3.0 &&
            var w2 := RunTest(w1, t1).value.0;
            w2.test == Some(TurnTest) && w2.testTime == t1 + 3.0 &&
            var w3 := RunTest(w2, t2).value.0;
            w3.test == Some(End) && RunTest(w3, t3) == Success((w3, true))
  {

  }

  /** Every public mutator of the wheel, for reasoning about what any
      sequence of calls can do. */
  datatype Op =
    | OpObserve(s: Sensors)
    | OpDrive(direction: real, power: real)
    | OpDriveAuto
    | OpStop
    | OpSetDirection(setPoint: real)
    | OpSetDistance(setPoint: real)
    | OpSetPower(setPoint: real)
    | OpResetDrive
    | OpResetTurn
    | OpEnableDrive
    | OpEnableTurn
    | OpDisable
    | OpInitTest
    | OpRunTest(now: real)

  function Apply(w: Wheel, op: Op): Wheel {
    match op
    case OpObserve(s) => Observe(w, s)
    case OpDrive(direction, power) => Drive(w, direction, power)
    case OpDriveAuto => DriveAuto(w).0
    case OpStop => Stop(w)
    case OpSetDirection(sp) => SetDirectionSetPoint(w, sp)
    case OpSetDistance(sp) => SetDistanceSetPoint(w, sp)
    case OpSetPower(sp) => SetDrivePowerSetpoint(w, sp)
    case OpResetDrive => ResetPIDDrive(w)
    case OpResetTurn => ResetPIDTurn(w)
    case OpEnableDrive => EnableDrivePID(w)
    case OpEnableTurn => EnableTurnPID(w)
    case OpDisable => Disable(w)
    case OpInitTest => InitTest(w)
    case OpRunTest(now) => match RunTest(w, now) case Success((r, _)) => r case Failure(_) => w
  }

  function ApplyAll(w: Wheel, ops: seq<Op>): Wheel
    decreases |ops|
  {
    if ops == [] then w else ApplyAll(Apply(w, ops[0]), ops[1..])
  }

  /** `getDistanceSetPoint` returns 0 whatever the wheel has been through:
      the field it reads is initialised to 0 and never assigned. */
  lemma {:induction false} DistanceSetPointAlwaysZero(inverted: bool, ops: seq<Op>)
    ensures DistanceSetPoint(ApplyAll(New(inverted), ops)) == 0.0
  {
    KeepsSetPointDrive(New(inverted), ops);
  }

  lemma {:induction false} KeepsSetPointDrive(w: Wheel, ops: seq<Op>)
    ensures ApplyAll(w, ops).setPointDrive == w.setPointDrive
    decreases |ops|
  {
    if ops != [] {
      KeepsSetPointDrive(Apply(w, ops[0]), ops[1..]);
    }
  }
}
