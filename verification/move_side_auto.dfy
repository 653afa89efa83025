/** The switch-scoring routines `MoveLeftAuto` and `MoveRightAuto`, which
    differ only in the side they move to. Two sub-machines share one tick:
    a driving machine that feeds the drivetrain's queue, then a box machine
    that works the intake arms, the box lifter and the intake motors.
    Neither state field is given a value by the constructor, so both are
    optional here and switching on an unset one throws. The subsystems are
    the robot's own, shared with it, so they are passed to each tick. */
module MoveSideAuto {
  import opened JavaSemantics
  import opened AutoCommand
  import Factory = AutoCommandFactory
  import SwerveDrive
  import BoxCollector
  import BoxLifter

  datatype Side = Left | Right

  datatype DrivingState = Begin | DriveForward | MoveSide | Stop

  datatype BoxState = BoxBegin | ExtendingArms | Lowering | Rising | SpittingOut | Idle

  /** The intake requests the routines make of the collector by name
      (`spitBoxOut`, `stopBoxSucker`); the collector has no such
      operations, so the requests are kept as a log. */
  datatype IntakeCall = SpitBoxOut | StopBoxSucker

  const AutoSwitchDistance: real := 60.0
  const AutoMoveSideDistance: real := 48.0
  /** Seconds the arms get to open, and seconds the box is spat out for. */
  const ArmsDelay: real := 0.5
  const SpitOutTime: real := 2.0

  datatype Routine = Routine(
    side: Side,
    driving: Option<DrivingState>,
    box: Option<BoxState>,
    timeFuture: real,
    intake: seq<IntakeCall>)

  /** The subsystems a routine commands. */
  datatype Plant = Plant(chassis: SwerveDrive.Chassis, collector: BoxCollector.Collector, lifter: BoxLifter.Lifter)

  /** The constructor: both states unset. */
  function New(side: Side): (a: Routine)
    ensures a.driving == None && a.box == None && a.intake == [] && a.side == side
  {
    Routine(side, None, None, 0.0, [])
  }

  /** The sideways leg: `command_MoveLeft` or `command_MoveRight`. */
  function SideCommand(side: Side, distance: real): (c: Command)
    ensures c.distance == distance && WellFormed(c)
    ensures side == Left ==> c.directions == Uniform(90.0)
    ensures side == Right ==> c.directions == Uniform(270.0)
  {
    match side
    case Left => Factory.MoveLeft(distance)
    case Right => Factory.MoveRight(distance)
  }

  /** The two routines move to opposite sides. */
  lemma SidesOpposite(distance: real)
    ensures Reversed(SideCommand(Left, distance)) == SideCommand(Right, distance)
  {
    Factory.OppositePairs(distance, 0.0);
  }

  function DrivingRank(s: DrivingState): nat {
    match s
    case Begin => 0
    case DriveForward => 1
    case MoveSide => 2
    case Stop => 3
  }

  // ---------------------------------------------------------------- driving

  /** The drivetrain tick every driving state but BEGIN starts with. */
  function Tick(c: SwerveDrive.Chassis, s: DrivingState): SwerveDrive.Chassis {
    if s == Begin then c else SwerveDrive.DriveAuto(c)
  }

  /** The driving half of `run`, after `Tick`, given whether the drivetrain
      then reports every wheel on target; the result is the new routine and
      the command to queue, if any. BEGIN queues the forward leg on every
      tick and never moves on. A driving leg that reports on target queues
      the next leg; leaving DRIVE_FORWARD also sends the box machine to
      RISING. STOP queues nothing. */
  function DriveStep(a: Routine, s: DrivingState, done: bool): (r: (Routine, Option<Command>))
    requires a.driving == Some(s)
    ensures r.0.driving.Some? && DrivingRank(r.0.driving.value) in {DrivingRank(s), DrivingRank(s) + 1}
    ensures s == Begin ==> r == (a, Some(Factory.GoForward(AutoSwitchDistance)))
    ensures s in {DriveForward, MoveSide} ==> (r.0.driving != a.driving <==> done)
    ensures s == DriveForward && done ==>
              r == (a.(driving := Some(MoveSide), box := Some(Rising)), Some(SideCommand(a.side, AutoMoveSideDistance)))
    ensures s == MoveSide && done ==> r == (a.(driving := Some(Stop)), Some(Factory.Stop()))
    ensures s != Begin && r.0.driving == a.driving ==> r == (a, None)
  {
    match s
    case Begin => (a, Some(Factory.GoForward(AutoSwitchDistance)))
    case DriveForward =>
      if done then
        (a.(driving := Some(MoveSide), box := Some(Rising)), Some(SideCommand(a.side, AutoMoveSideDistance)))
      else (a, None)
    case MoveSide =>
      if done then (a.(driving := Some(Stop)), Some(Factory.Stop())) else (a, None)
    case Stop => (a, None)
  }

  function Enqueue(c: SwerveDrive.Chassis, cmd: Option<Command>): SwerveDrive.Chassis {
    match cmd
    case None => c
    case Some(x) => SwerveDrive.AddAutoCommand(c, x)
  }

  /** The driving half of `run` on the drivetrain. */
  function RunDriving(a: Routine, s: DrivingState, c: SwerveDrive.Chassis): (Routine, SwerveDrive.Chassis)
    requires a.driving == Some(s)
  {
    var t := Tick(c, s);
    var (b, cmd) := DriveStep(a, s, SwerveDrive.IsDone(t.wheels));
    (b, Enqueue(t, cmd))
  }

  /** `n` ticks of the driving machine alone, with the drivetrain. */
  function DrivingTicks(a: Routine, c: SwerveDrive.Chassis, n: nat): (Routine, SwerveDrive.Chassis)
    requires a.driving.Some?
    decreases n
  {
    if n == 0 then (a, c)
    else
      var (b, c') := RunDriving(a, a.driving.value, c);
      DrivingTicks(b, c', n - 1)
  }

  /** As written, BEGIN never hands over to DRIVE_FORWARD: every tick just
      queues another 60 in forward leg behind the ones before. */
  lemma {:induction false} BeginRepeats(a: Routine, c: SwerveDrive.Chassis, n: nat)
    requires a.driving == Some(Begin)
    ensures DrivingTicks(a, c, n).0.driving == Some(Begin)
    ensures DrivingTicks(a, c, n).1.queue == c.queue + seq(n, _ => Factory.GoForward(AutoSwitchDistance))
    decreases n
  {
    if n > 0 {
      var (b, c') := RunDriving(a, Begin, c);
      BeginRepeats(b, c', n - 1);
      assert c.queue + seq(n, _ => Factory.GoForward(AutoSwitchDistance))
          == c'.queue + seq(n - 1, _ => Factory.GoForward(AutoSwitchDistance));
    }
  }

  // -------------------------------------------------------------------- box

  /** The lifter motor implied by the box state after a full tick: down
      while LOWERING, up while RISING, off while spitting out or idle. */
  predicate LifterMatches(box: Option<BoxState>, lifter: BoxLifter.Lifter) {
    match box
    case Some(Lowering) => lifter.motor.value == -1.0
    case Some(Rising) => lifter.motor.value == 1.0
    case Some(SpittingOut) => lifter.motor.value == 0.0
    case Some(Idle) => lifter.motor.value == 0.0
    case _ => true
  }

  /** The box half of `run` at time `now`. BEGIN opens the arms and waits
      0.5 s in EXTENDING_ARMS, then the lifter is lowered until the low
      switch stops it in IDLE. RISING drives the lifter up every tick until
      the middle switch, then stops it, spits the box out and waits 2 s in
      SPIITING_OUT before stopping the intake and lowering again. Reading
      the middle switch throws on a lifter built without one. */
  function RunBox(a: Routine, s: BoxState, p: Plant, now: real, sw: BoxLifter.Switches): (r: Result<(Routine, Plant)>)
    requires a.box == Some(s)
    ensures r.Failure? <==> s == Rising && !BoxLifter.HasMiddleSwitch(p.lifter)
    ensures r.Success? && (LifterMatches(a.box, p.lifter) || s in {BoxBegin, ExtendingArms, Rising}) ==>
              LifterMatches(r.value.0.box, r.value.1.lifter)
    ensures r.Success? ==> r.value.0.driving == a.driving && r.value.0.side == a.side && r.value.1.chassis == p.chassis
    ensures r.Success? ==> r.value.0.box.Some? && |r.value.0.intake| <= |a.intake| + 1
    ensures s == Lowering ==> r.Success? && (r.value.0.box == Some(Idle) <==> BoxLifter.SwitchLow(sw))
    ensures s == Lowering && BoxLifter.SwitchLow(sw) ==>
              r.Success? && r.value.1.lifter.motor.value == 0.0 && r.value.1.collector == p.collector
    ensures s == Idle ==> r == Success((a, p))
  {
    match s
    case BoxBegin =>
      Success((a.(timeFuture := now + ArmsDelay, box := Some(ExtendingArms)),
               p.(collector := BoxCollector.ArmsExtend(p.collector))))
    case ExtendingArms =>
      if now >= a.timeFuture then Success((a.(box := Some(Lowering)), p.(lifter := BoxLifter.Lower(p.lifter))))
      else Success((a, p))
    case Lowering =>
      if BoxLifter.SwitchLow(sw) then Success((a.(box := Some(Idle)), p.(lifter := BoxLifter.Stop(p.lifter))))
      else Success((a, p))
    case Rising =>
      var rising := BoxLifter.Rise(p.lifter);
      var middle :- BoxLifter.SwitchMiddle(rising, sw);
      if middle then
        Success((a.(intake := a.intake + [SpitBoxOut], timeFuture := now + SpitOutTime, box := Some(SpittingOut)),
                 p.(lifter := BoxLifter.Stop(rising))))
      else Success((a, p.(lifter := rising)))
    case SpittingOut =>
      if now >= a.timeFuture then
        Success((a.(intake := a.intake + [StopBoxSucker], box := Some(Lowering)),
                 p.(lifter := BoxLifter.Lower(p.lifter))))
      else Success((a, p))
    case Idle => Success((a, p))
  }

  // -------------------------------------------------------------------- run

  /** `run`: the driving machine, then the box machine (which sees the
      RISING the driving machine may just have set). Either unset state
      throws. */
  function Run(a: Routine, p: Plant, now: real, sw: BoxLifter.Switches): (r: Result<(Routine, Plant)>)
    ensures a.driving == None ==> r.Failure?
    ensures a.driving.Some? && a.box == None && a.driving != Some(DriveForward) ==> r.Failure?
    ensures r.Success? && LifterMatches(a.box, p.lifter) ==> LifterMatches(r.value.0.box, r.value.1.lifter)
    ensures r.Success? ==> r.value.0.side == a.side && |r.value.0.intake| <= |a.intake| + 1
  {
    match a.driving
    case None => Failure(NullPointer)
    case Some(d) =>
      var (b, c) := RunDriving(a, d, p.chassis);
      match b.box
      case None => Failure(NullPointer)
      case Some(x) => RunBox(b, x, p.(chassis := c), now, sw)
  }

  /** A routine as constructed cannot run a single tick. */
  lemma ConstructedRoutineThrows(side: Side, p: Plant, now: real, sw: BoxLifter.Switches)
    ensures Run(New(side), p, now, sw) == Failure(NullPointer)
  {
  }

  /** The box timings: the arms get at least 0.5 s before the lifter is
      lowered, the box is spat out for at least 2 s, and the intake requests
      come in the order spit, then stop. */
  lemma ArmsTimeline(a: Routine, p: Plant, t0: real, t1: real, sw: BoxLifter.Switches)
    requires a.box == Some(BoxBegin)
    ensures var (b, q) := RunBox(a, BoxBegin, p, t0, sw).value;
            BoxCollector.ArmsExtended(q.collector) && b.box == Some(ExtendingArms) &&
            (RunBox(b, ExtendingArms, q, t1, sw).value.0.box == Some(Lowering) <==> t1 >= t0 + ArmsDelay)
  {
  }

  lemma SpitTimeline(a: Routine, p: Plant, t0: real, t1: real, sw: BoxLifter.Switches)
    requires a.box == Some(Rising)
    requires BoxLifter.SwitchMiddle(p.lifter, sw) == Success(true)
    ensures var (b, q) := RunBox(a, Rising, p, t0, sw).value;
            b.box == Some(SpittingOut) && b.intake == a.intake + [SpitBoxOut] && q.lifter.motor.value == 0.0 &&
            (RunBox(b, SpittingOut, q, t1, sw).value.0.box == Some(Lowering) <==> t1 >= t0 + SpitOutTime) &&
            (t1 >= t0 + SpitOutTime ==>
               RunBox(b, SpittingOut, q, t1, sw).value.0.intake == a.intake + [SpitBoxOut, StopBoxSucker])
  {
  }
}
