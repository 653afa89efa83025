/** The robot's mode hooks that carry decisions: which autonomous routine
    `autonomousInit` picks from the dashboard selection and the field's
    plate layout, the order in which `testPeriodic` steps the self-tests,
    and what `disabledInit` resets. */
module Robot {
  import opened JavaSemantics
  import SwerveMotor
  import SwerveDrive
  import BoxManager
  import BoxLifter
  import RobotLift
  import DriveForwardAuto
  import DriveForwardAutoBasic
  import MoveSideAuto

  const DefaultAuto: string := "Default"
  const CenterAuto: string := "Robot Center"
  const LeftAuto: string := "Robot Left"
  const RightAuto: string := "Robot Right"

  // ------------------------------------------------------- autonomousInit

  /** The routines `autonomousInit` can pick. */
  datatype Choice = Basic | Forward | MoveLeft | MoveRight

  /** The selection table. `None` means the selection matched no case and
      the routine already chosen stays. Every starting position other than
      the default reads the first character of the plate layout, which
      throws on an empty layout. */
  function Choose(selected: string, layout: string): (r: Result<Option<Choice>>)
    ensures r.Failure? <==> (selected == LeftAuto || selected == CenterAuto || selected == RightAuto) && |layout| == 0
    ensures r.Success? && r.value.None? <==>
              selected != DefaultAuto && selected != LeftAuto && selected != CenterAuto && selected != RightAuto
    ensures selected == DefaultAuto ==> r == Success(Some(Basic))
  {
    if selected == DefaultAuto then Success(Some(Basic))
    else if selected == LeftAuto then
      if |layout| == 0 then Failure(StringIndexOutOfBounds)
      else if layout[0] == 'L' then Success(Some(MoveRight)) else Success(Some(Basic))
    else if selected == CenterAuto then
      if |layout| == 0 then Failure(StringIndexOutOfBounds)
      else if layout[0] == 'L' then Success(Some(MoveLeft))
      else if layout[0] == 'R' then Success(Some(MoveRight))
      else Success(Some(Forward))
    else if selected == RightAuto then
      if |layout| == 0 then Failure(StringIndexOutOfBounds)
      else if layout[0] == 'R' then Success(Some(MoveLeft)) else Success(Some(Basic))
    else Success(None)
  }

  /** The side a routine moves to, if it is one of the side routines. */
  function MovesTo(c: Choice): Option<MoveSideAuto.Side> {
    match c
    case MoveLeft => Some(MoveSideAuto.Left)
    case MoveRight => Some(MoveSideAuto.Right)
    case _ => None
  }

  /** From the centre the robot moves to the side of its plate, and drives
      straight on when the plate character is neither 'L' nor 'R'. From a
      side position it moves only when the plate is on that same side, and
      then moves across, towards the other side; otherwise it falls back to
      the timed drive. The default never looks at the layout. */
  lemma SelectionTable(layout: string, other: string)
    requires |layout| > 0
    ensures Choose(CenterAuto, layout) ==
              Success(Some(if layout[0] == 'L' then MoveLeft else if layout[0] == 'R' then MoveRight else Forward))
    ensures Choose(LeftAuto, layout) == Success(Some(if layout[0] == 'L' then MoveRight else Basic))
    ensures Choose(RightAuto, layout) == Success(Some(if layout[0] == 'R' then MoveLeft else Basic))
    ensures Choose(DefaultAuto, layout) == Choose(DefaultAuto, other)
  {
  }

  /** Only the first character of the layout matters, and a side routine
      is chosen only from the centre or from the side the plate is on. */
  lemma OnlyFirstPlateMatters(selected: string, l1: string, l2: string)
    requires |l1| > 0 && |l2| > 0 && l1[0] == l2[0]
    ensures Choose(selected, l1) == Choose(selected, l2)
    ensures Choose(selected, l1).Success? && Choose(selected, l1).value.Some? &&
            MovesTo(Choose(selected, l1).value.value).Some? ==>
              selected == CenterAuto || (selected == LeftAuto && l1[0] == 'L') || (selected == RightAuto && l1[0] == 'R')
  {
  }

  /** The routine objects `autonomousInit` builds. */
  datatype AutoCode =
    | BasicCode(basic: DriveForwardAutoBasic.Basic)
    | ForwardCode(forward: DriveForwardAuto.Auto)
    | SideCode(side: MoveSideAuto.Routine)

  function Build(c: Choice): AutoCode {
    match c
    case Basic => BasicCode(DriveForwardAutoBasic.New())
    case Forward => ForwardCode(DriveForwardAuto.New())
    case MoveLeft => SideCode(MoveSideAuto.New(MoveSideAuto.Left))
    case MoveRight => SideCode(MoveSideAuto.New(MoveSideAuto.Right))
  }

  /** `autonomousInit`: a fresh routine per the table, the current one kept
      on an unknown selection, or the exception of an empty layout. */
  function AutonomousInit(selected: string, layout: string, current: Option<AutoCode>): (r: Result<Option<AutoCode>>)
    ensures r.Failure? <==> Choose(selected, layout).Failure?
    ensures r.Success? && Choose(selected, layout).value.None? ==> r.value == current
    ensures r.Success? && Choose(selected, layout).value.Some? ==>
              r.value.Some? && r.value.value == Build(Choose(selected, layout).value.value)
  {
    var choice :- Choose(selected, layout);
    match choice
    case None => Success(current)
    case Some(c) => Success(Some(Build(c)))
  }

  /** A side routine chosen at the start of autonomous throws on its very
      first tick, since its states are never given a value. */
  lemma SideChoiceCannotRun(selected: string, layout: string, current: Option<AutoCode>,
                            p: MoveSideAuto.Plant, now: real, sw: BoxLifter.Switches)
    requires AutonomousInit(selected, layout, current).Success?
    requires var r := AutonomousInit(selected, layout, current).value;
             r.Some? && r.value.SideCode? && r != current
    ensures MoveSideAuto.Run(AutonomousInit(selected, layout, current).value.value.side, p, now, sw).Failure?
  {
  }

  // --------------------------------------------------------- testPeriodic

  /** The wheel self-tests in order, each one run only when every earlier
      one reported its test over; the flag says whether all were over. */
  function TestWheels(ws: seq<SwerveMotor.Wheel>, now: real): (r: Result<(seq<SwerveMotor.Wheel>, bool)>)
    ensures r.Success? ==> |r.value.0| == |ws|
    decreases |ws|
  {
    if ws == [] then Success(([], true))
    else
      var (w, done) :- SwerveMotor.RunTest(ws[0], now);
      if !done then Success(([w] + ws[1..], false))
      else
        var (rest, allDone) :- TestWheels(ws[1..], now);
        Success(([w] + rest, allDone))
  }

  /** The first wheel whose test is not over, or `|ws|` if all are. */
  function FirstPending(ws: seq<SwerveMotor.Wheel>): (k: nat)
    ensures k <= |ws|
    ensures forall j :: 0 <= j < k ==> ws[j].test == Some(SwerveMotor.End)
    ensures k < |ws| ==> ws[k].test != Some(SwerveMotor.End)
    decreases |ws|
  {
    if ws == [] || ws[0].test != Some(SwerveMotor.End) then 0 else 1 + FirstPending(ws[1..])
  }

  /** Only the first wheel whose test is not over is stepped (a wheel whose
      test is over is left as it is), the tests are over together only when
      every one is, and the tick throws exactly when the wheel it reaches
      was never given a test. */
  lemma {:induction false} TestWheelsSteps(ws: seq<SwerveMotor.Wheel>, now: real)
    ensures var k := FirstPending(ws);
            var r := TestWheels(ws, now);
            (r.Failure? <==> k < |ws| && ws[k].test == None) &&
            (r.Success? ==> (r.value.1 <==> k == |ws|)) &&
            (r.Success? && k == |ws| ==> r.value.0 == ws) &&
            (r.Success? && k < |ws| ==> r.value.0 == ws[k := SwerveMotor.RunTest(ws[k], now).value.0])
    decreases |ws|
  {
    if ws != [] {
      TestWheelsSteps(ws[1..], now);
      if ws[0].test == Some(SwerveMotor.End) {
        assert FirstPending(ws) == 1 + FirstPending(ws[1..]);
        var r := TestWheels(ws, now);
        if r.Success? && FirstPending(ws) < |ws| {
          var k := FirstPending(ws[1..]);
          assert r.value.0 == [ws[0]] + ws[1..][k := SwerveMotor.RunTest(ws[1..][k], now).value.0];
        }
      }
    }
  }

  /** `testInit`: every wheel's self-test and the box manager's test start
      from BEGIN. */
  function TestInit(ws: SwerveDrive.Wheels, box: BoxManager.Manager): (r: (SwerveDrive.Wheels, BoxManager.Manager))
    ensures forall j :: 0 <= j < 4 ==> r.0[j] == SwerveMotor.InitTest(ws[j])
    ensures r.1 == BoxManager.InitTest(box)
  {
    ([SwerveMotor.InitTest(ws[0]), SwerveMotor.InitTest(ws[1]), SwerveMotor.InitTest(ws[2]), SwerveMotor.InitTest(ws[3])],
     BoxManager.InitTest(box))
  }

  /** `testPeriodic`: front-left, front-right, rear-left and rear-right
      wheel tests, then the box manager's, each only when every earlier
      one returned true on this tick. */
  function TestPeriodic(ws: SwerveDrive.Wheels, box: BoxManager.Manager, now: real,
                        sw: BoxLifter.Switches): (r: Result<(SwerveDrive.Wheels, BoxManager.Manager)>)
    ensures r.Success? && FirstPending(ws) < 4 ==> r.value.1 == box
  {
    var (ws', allDone) :- TestWheels(ws, now);
    TestWheelsSteps(ws, now);
    if !allDone then Success((ws', box))
    else
      var (b, _) :- BoxManager.RunTest(box, now, sw);
      Success((ws', b))
  }

  /** Once every wheel test is over the wheels are left alone and the tick
      belongs to the box manager's test. */
  lemma BoxTestLast(ws: SwerveDrive.Wheels, box: BoxManager.Manager, now: real, sw: BoxLifter.Switches)
    requires forall j :: 0 <= j < 4 ==> ws[j].test == Some(SwerveMotor.End)
    ensures var r := TestPeriodic(ws, box, now, sw);
            (r.Failure? <==> BoxManager.RunTest(box, now, sw).Failure?) &&
            (r.Success? ==> r.value.0 == ws && r.value.1 == BoxManager.RunTest(box, now, sw).value.0)
  {
    TestWheelsSteps(ws, now);
  }

  /** Without `testInit` the first wheel's test state is null and the first
      test tick throws; after it the first tick cannot throw, steps only the
      front-left wheel and leaves the box manager alone. */
  lemma {:induction false} TestNeedsInit(ws: SwerveDrive.Wheels, box: BoxManager.Manager, now: real,
                                         sw: BoxLifter.Switches)
    ensures ws[0].test == None ==> TestPeriodic(ws, box, now, sw).Failure?
    ensures var (ws', box') := TestInit(ws, box);
            var r := TestPeriodic(ws', box', now, sw);
            r.Success? && r.value.1 == box' &&
            r.value.0 == ws'[0 := SwerveMotor.RunTest(ws'[0], now).value.0]
  {
    TestWheelsSteps(ws, now);
    var (ws', box') := TestInit(ws, box);
    TestWheelsSteps(ws', now);
    assert FirstPending(ws') == 0;
  }

  // --------------------------------------------------------- disabledInit

  /** The resets `disabledInit` asks for, in order. The lift and the side
      routines have no `reset` of their own, so the request is recorded and
      they are left as they are. The routines share the robot's drivetrain,
      so the drive-forward routine's reset acts on the same one. */
  datatype ResetCall = ChassisReset | BoxManagerReset | RobotLiftReset | AutoCodeReset

  datatype Subsystems = Subsystems(chassis: SwerveDrive.Chassis, box: BoxManager.Manager,
                                   lift: RobotLift.Lift, autoCode: Option<AutoCode>)

  /** Every drive and steering loop of the drivetrain is disabled. */
  predicate LoopsOff(c: SwerveDrive.Chassis) {
    forall i :: 0 <= i < 4 ==> !c.wheels[i].drive.enabled && !c.wheels[i].turn.enabled
  }

  /** `autoCode.reset()`: only the drive-forward routine touches the
      drivetrain, clearing its queue and resetting its loops again. */
  function ResetAutoCode(a: AutoCode, c: SwerveDrive.Chassis): (r: (AutoCode, SwerveDrive.Chassis))
    ensures LoopsOff(c) ==> LoopsOff(r.1)
    ensures r.1.queue == (if a.ForwardCode? then [] else c.queue)
    ensures a.SideCode? ==> r.0 == a
    ensures a.ForwardCode? <==> r.0.ForwardCode?
  {
    match a
    case BasicCode(b) => (BasicCode(DriveForwardAutoBasic.Reset(b)), c)
    case ForwardCode(f) =>
      var (f', c') := DriveForwardAuto.Reset(f, c);
      (ForwardCode(f'), c')
    case SideCode(s) => (a, c)
  }

  /** The resets `disabledInit` asks for: the drivetrain, the box manager
      and the lift, then the autonomous routine only if one was ever
      chosen. */
  function DisabledCalls(r: Subsystems): (calls: seq<ResetCall>)
    ensures |calls| == (if r.autoCode.Some? then 4 else 3)
    ensures calls[..3] == [ChassisReset, BoxManagerReset, RobotLiftReset]
    ensures r.autoCode.Some? ==> calls[3] == AutoCodeReset
  {
    [ChassisReset, BoxManagerReset, RobotLiftReset] + if r.autoCode.Some? then [AutoCodeReset] else []
  }

  /** What those resets leave: every drive and steering loop disabled, the
      box manager's machines restarted, the lift untouched, and the
      drivetrain's queue cleared exactly when the drive-forward routine was
      chosen. */
  function DisabledState(r: Subsystems): (out: Subsystems)
    ensures out.autoCode.None? <==> r.autoCode.None?
    ensures out.box == BoxManager.Reset(r.box) && out.lift == r.lift
    ensures LoopsOff(out.chassis)
    ensures out.chassis.queue == (if r.autoCode.Some? && r.autoCode.value.ForwardCode? then [] else r.chassis.queue)
  {
    var c := SwerveDrive.Reset(r.chassis);
    var box := BoxManager.Reset(r.box);
    match r.autoCode
    case None => Subsystems(c, box, r.lift, None)
    case Some(a) =>
      var x := ResetAutoCode(a, c);
      Subsystems(x.1, box, r.lift, Some(x.0))
  }

  /** `disabledInit`. */
  function DisabledInit(r: Subsystems): (Subsystems, seq<ResetCall>) {
    (DisabledState(r), DisabledCalls(r))
  }

  /** After `disabledInit` every routine that has a reset starts over from
      BEGIN. */
  lemma DisabledRestartsRoutine(r: Subsystems)
    requires r.autoCode.Some? && !r.autoCode.value.SideCode?
    ensures var a := DisabledInit(r).0.autoCode.value;
            (a.BasicCode? && a.basic.state == DriveForwardAutoBasic.Begin) ||
            (a.ForwardCode? && a.forward.state == DriveForwardAuto.Begin && DisabledInit(r).0.chassis.queue == [])
  {
  }
}
