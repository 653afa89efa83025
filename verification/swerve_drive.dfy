/** The four-wheel swerve drivetrain: teleop driving from the pad's sticks,
    and autonomous driving from a first-in first-out queue of commands of
    which at most one is loaded into the wheels at a time. */
module SwerveDrive {
  import opened JavaSemantics
  import PidLoop
  import SwerveMotor
  import MetalSkinsController
  import opened AutoCommand

  /** Front-left, front-right, rear-left, rear-right. */
  type Wheels = s: seq<SwerveMotor.Wheel> | |s| == 4
    witness [SwerveMotor.New(false), SwerveMotor.New(false), SwerveMotor.New(false), SwerveMotor.New(false)]

  /** `queue` is the pending command list, `current` the loaded command
      (null when none is loaded). */
  datatype Chassis = Chassis(wheels: Wheels, queue: seq<Command>, current: Option<Command>)

  function New(wheels: Wheels): (c: Chassis)
    ensures c.wheels == wheels && c.queue == [] && c.current == None
  {
    Chassis(wheels, [], None)
  }

  /** Scale applied to every teleop wheel power. */
  const PowerFactor: real := 0.75

  /** Chassis length and width, equal, so the robot is treated as square. */
  const Length: real := 1.0
  const Width: real := 1.0

  /** `Math.hypot(LENGTH, WIDTH)` as the double it evaluates to. */
  const Radius: real := 1.4142135623730951

  /** `Math.hypot` and `Math.toDegrees(Math.atan2(y, x))`, supplied by the
      caller: the drivetrain arithmetic around them is what is modelled. */
  datatype Trig = Trig(hypot: (real, real) -> real, atan2Degrees: (real, real) -> real)

  // ---------------------------------------------------------------- teleop

  /** The driver's request: forward from the left stick's Y, strafe from the
      negated left stick X, rotation from the right stick X. */
  datatype Request = Request(forward: real, strafe: real, azimuth: real)

  function ReadSticks(pad: MetalSkinsController.Pad, axes: MetalSkinsController.Axes): (q: Request)
    ensures q.forward == MetalSkinsController.Condition(pad, axes.leftY)
    ensures q.strafe == -MetalSkinsController.Condition(pad, axes.leftX)
    ensures q.azimuth == MetalSkinsController.Condition(pad, axes.rightX)
  {
    var left := MetalSkinsController.StickLeft(pad, axes);
    var right := MetalSkinsController.StickRight(pad, axes);
    Request(left[1], -left[0], right[0])
  }

  /** The (x, y) vector whose length and angle drive each wheel: wheel i is
      given (b, d), (b, c), (a, d), (a, c) for i = 0..3, where a and b are
      the strafe plus and minus the rotation component and c and d the
      forward plus and minus it. */
  function WheelVectors(q: Request): (v: seq<(real, real)>)
    ensures |v| == 4
    ensures v[0].0 == v[1].0 && v[2].0 == v[3].0
    ensures v[0].1 == v[2].1 && v[1].1 == v[3].1
    ensures v[2].0 - v[0].0 == 2.0 * q.azimuth * (Length / Radius)
    ensures v[1].1 - v[0].1 == 2.0 * q.azimuth * (Width / Radius)
    ensures v[0].0 + v[2].0 == 2.0 * q.strafe && v[0].1 + v[1].1 == 2.0 * q.forward
  {
    var a := q.strafe + q.azimuth * (Length / Radius);
    var b := q.strafe - q.azimuth * (Length / Radius);
    var c := q.forward + q.azimuth * (Width / Radius);
    var d := q.forward - q.azimuth * (Width / Radius);
    [(b, d), (b, c), (a, d), (a, c)]
  }

  /** With no rotation requested every wheel gets the same vector,
      (strafe, forward): the robot translates without turning. */
  lemma NoRotationSameVector(q: Request)
    requires q.azimuth == 0.0
    ensures forall i :: 0 <= i < 4 ==> WheelVectors(q)[i] == (q.strafe, q.forward)
  {
  }

  function MaxOf4(ws: seq<real>): (m: real)
    requires |ws| == 4
    ensures forall i :: 0 <= i < 4 ==> ws[i] <= m
    ensures m == ws[0] || m == ws[1] || m == ws[2] || m == ws[3]
  {
    Max(Max(ws[0], ws[1]), Max(ws[2], ws[3]))
  }

  function Max(x: real, y: real): real {
    if x >= y then x else y
  }

  /** The wheel-speed normalisation: when the fastest wheel is asked for more
      than full power, every speed is divided by that speed, so all keep
      their ratios to one another. */
  function Normalize(ws: seq<real>): (r: seq<real>)
    requires |ws| == 4
    ensures |r| == 4
    ensures MaxOf4(ws) <= 1.0 ==> r == ws
    ensures MaxOf4(ws) > 1.0 ==> forall i :: 0 <= i < 4 ==> r[i] * MaxOf4(ws) == ws[i]
  {
    var m := MaxOf4(ws);
    if m > 1.0 then
      DivideBack(ws[0], m);
      DivideBack(ws[1], m);
      DivideBack(ws[2], m);
      DivideBack(ws[3], m);
      [ws[0] / m, ws[1] / m, ws[2] / m, ws[3] / m]
    else ws
  }

  lemma DivideBack(x: real, m: real)
    requires m != 0.0
    ensures (x / m) * m == x
  {
  }

  /** After normalisation no speed exceeds 1. */
  lemma {:induction false} NormalizeAtMostOne(ws: seq<real>)
    requires |ws| == 4
    ensures forall i :: 0 <= i < 4 ==> Normalize(ws)[i] <= 1.0
  {
    var m := MaxOf4(ws);
    if m > 1.0 {
      forall i | 0 <= i < 4
        ensures Normalize(ws)[i] <= 1.0
      {
        DivideByLarger(ws[i], m);
      }
    }
  }

  /** When scaling happened the fastest wheel ends at exactly full power. */
  lemma {:induction false} NormalizeReachesOne(ws: seq<real>)
    requires |ws| == 4 && MaxOf4(ws) > 1.0
    ensures MaxOf4(Normalize(ws)) == 1.0
  {
    var m := MaxOf4(ws);
    var r := Normalize(ws);
    NormalizeAtMostOne(ws);
    assert r[0] == 1.0 || r[1] == 1.0 || r[2] == 1.0 || r[3] == 1.0;
  }

  /** Normalisation keeps a non-negative speed non-negative. */
  lemma {:induction false} NormalizeNonNegative(ws: seq<real>, i: nat)
    requires |ws| == 4 && i < 4 && 0.0 <= ws[i]
    ensures 0.0 <= Normalize(ws)[i]
  {
    if MaxOf4(ws) > 1.0 {
      DivideByLarger(ws[i], MaxOf4(ws));
    }
  }

  lemma DivideByLarger(x: real, m: real)
    requires m > 1.0 && x <= m
    ensures x / m <= 1.0
    ensures 0.0 <= x ==> 0.0 <= x / m
  {
  }

  function Speeds(trig: Trig, v: seq<(real, real)>): (ws: seq<real>)
    requires |v| == 4
    ensures |ws| == 4 && forall i :: 0 <= i < 4 ==> ws[i] == trig.hypot(v[i].0, v[i].1)
  {
    [trig.hypot(v[0].0, v[0].1), trig.hypot(v[1].0, v[1].1),
     trig.hypot(v[2].0, v[2].1), trig.hypot(v[3].0, v[3].1)]
  }

  function Angles(trig: Trig, v: seq<(real, real)>): (wa: seq<real>)
    requires |v| == 4
    ensures |wa| == 4 && forall i :: 0 <= i < 4 ==> wa[i] == trig.atan2Degrees(v[i].0, v[i].1)
  {
    [trig.atan2Degrees(v[0].0, v[0].1), trig.atan2Degrees(v[1].0, v[1].1),
     trig.atan2Degrees(v[2].0, v[2].1), trig.atan2Degrees(v[3].0, v[3].1)]
  }

  /** `drive`: one teleop tick. Wheel i is steered to the angle of its
      vector and given its normalised speed scaled by the power factor. The
      autonomous queue is not touched. */
  function Drive(c: Chassis, pad: MetalSkinsController.Pad, axes: MetalSkinsController.Axes, trig: Trig): (r: Chassis)
    ensures r.queue == c.queue && r.current == c.current
    ensures var v := WheelVectors(ReadSticks(pad, axes));
            forall i :: 0 <= i < 4 ==>
              r.wheels[i] == SwerveMotor.Drive(c.wheels[i], Angles(trig, v)[i],
                                               Normalize(Speeds(trig, v))[i] * PowerFactor)
  {
    var v := WheelVectors(ReadSticks(pad, axes));
    var ws := Normalize(Speeds(trig, v));
    var wa := Angles(trig, v);
    c.(wheels := [SwerveMotor.Drive(c.wheels[0], wa[0], ws[0] * PowerFactor),
                  SwerveMotor.Drive(c.wheels[1], wa[1], ws[1] * PowerFactor),
                  SwerveMotor.Drive(c.wheels[2], wa[2], ws[2] * PowerFactor),
                  SwerveMotor.Drive(c.wheels[3], wa[3], ws[3] * PowerFactor)])
  }

  /** `Math.hypot` never returns a negative length. */
  ghost predicate HypotNonNegative(trig: Trig) {
    forall x: real, y: real :: 0.0 <= trig.hypot(x, y)
  }

  /** Every teleop power command lies in [0, 0.75]. */
  lemma {:induction false} DrivePowerBounded(c: Chassis, pad: MetalSkinsController.Pad,
                                             axes: MetalSkinsController.Axes, trig: Trig)
    requires HypotNonNegative(trig)
    ensures forall i :: 0 <= i < 4 ==> 0.0 <= Drive(c, pad, axes, trig).wheels[i].motorOutput <= PowerFactor
  {
    var v := WheelVectors(ReadSticks(pad, axes));
    var ws := Speeds(trig, v);
    NormalizeAtMostOne(ws);
    forall i | 0 <= i < 4
      ensures 0.0 <= Drive(c, pad, axes, trig).wheels[i].motorOutput <= PowerFactor
    {
      assert 0.0 <= ws[i];
      NormalizeNonNegative(ws, i);
      ScaleUnit(Normalize(ws)[i], PowerFactor);
    }
  }

  lemma ScaleUnit(x: real, k: real)
    requires 0.0 <= x <= 1.0 && 0.0 <= k
    ensures 0.0 <= x * k <= k
  {
  }

  /** With the rotation stick centred all four wheels are steered to the
      same setpoint and given the same power. */
  lemma {:induction false} DriveWithoutRotation(c: Chassis, pad: MetalSkinsController.Pad,
                                                axes: MetalSkinsController.Axes, trig: Trig)
    requires MetalSkinsController.Condition(pad, axes.rightX) == 0.0
    ensures forall i :: 0 <= i < 4 ==>
              Drive(c, pad, axes, trig).wheels[i].turn.setpoint == Drive(c, pad, axes, trig).wheels[0].turn.setpoint &&
              Drive(c, pad, axes, trig).wheels[i].motorOutput == Drive(c, pad, axes, trig).wheels[0].motorOutput
  {
    var v := WheelVectors(ReadSticks(pad, axes));
    NoRotationSameVector(ReadSticks(pad, axes));
    var ws := Speeds(trig, v);
    assert ws[0] == ws[1] == ws[2] == ws[3];
    var wa := Angles(trig, v);
    assert wa[0] == wa[1] == wa[2] == wa[3];
  }

  // ------------------------------------------------------------ autonomous

  /** `addAutoCommand`: append at the tail of the queue. */
  function AddAutoCommand(c: Chassis, cmd: Command): (r: Chassis)
    ensures |r.queue| == |c.queue| + 1
    ensures r.queue[..|c.queue|] == c.queue && r.queue[|c.queue|] == cmd
    ensures r.wheels == c.wheels && r.current == c.current
  {
    c.(queue := c.queue + [cmd])
  }

  /** `loadAutoCommand`: each wheel is steered to its direction, given the
      distance, has its drive loop reset and encoder zeroed, and has its
      turn loop enabled. */
  function LoadAutoCommand(ws: Wheels, cmd: Command): (r: Wheels)
    ensures forall i :: 0 <= i < 4 ==>
              r[i].turn.setpoint == cmd.directions[i] && r[i].turn.enabled &&
              r[i].drive.setpoint == cmd.distance && !r[i].drive.enabled &&
              r[i].source == PidLoop.Displacement && r[i].distance == 0.0 &&
              r[i].drive.resets == ws[i].drive.resets + 1
    ensures forall i :: 0 <= i < 4 ==>
              r[i].turn == ws[i].turn.(setpoint := cmd.directions[i], enabled := true) &&
              r[i] == ws[i].(turn := r[i].turn, drive := r[i].drive, source := r[i].source, distance := r[i].distance)
  {
    [LoadWheel(ws[0], cmd.directions[0], cmd.distance),
     LoadWheel(ws[1], cmd.directions[1], cmd.distance),
     LoadWheel(ws[2], cmd.directions[2], cmd.distance),
     LoadWheel(ws[3], cmd.directions[3], cmd.distance)]
  }

  function LoadWheel(w: SwerveMotor.Wheel, direction: real, distance: real): SwerveMotor.Wheel {
    var steered := SwerveMotor.SetDirectionSetPoint(w, direction);
    var aimed := SwerveMotor.SetDistanceSetPoint(steered, distance);
    SwerveMotor.EnableTurnPID(SwerveMotor.ResetPIDDrive(aimed))
  }

  /** `isDone`: every drive loop reports on target. */
  predicate IsDone(ws: Wheels) {
    ws[0].drive.onTarget && ws[1].drive.onTarget && ws[2].drive.onTarget && ws[3].drive.onTarget
  }

  /** `driveByAutoCommand`: one `driveAuto` tick of every wheel. */
  function DriveByAutoCommand(ws: Wheels): (r: Wheels)
    ensures forall i :: 0 <= i < 4 ==> r[i] == SwerveMotor.DriveAuto(ws[i]).0
    ensures forall i :: 0 <= i < 4 ==>
              r[i].turn.setpoint == ws[i].turn.setpoint && r[i].drive.setpoint == ws[i].drive.setpoint
  {
    [SwerveMotor.DriveAuto(ws[0]).0, SwerveMotor.DriveAuto(ws[1]).0,
     SwerveMotor.DriveAuto(ws[2]).0, SwerveMotor.DriveAuto(ws[3]).0]
  }

  /** The command `driveAuto` takes off the queue on this tick, if any. */
  function Dequeued(c: Chassis): (d: seq<Command>)
    ensures |d| <= 1 && |d| <= |c.queue| && d == c.queue[..|d|]
  {
    if c.current == None && c.queue != [] then [c.queue[0]] else []
  }

  /** `driveAuto`: one autonomous tick of the drivetrain. With nothing loaded
      and commands pending, the head of the queue is loaded. An empty queue
      otherwise ends the tick. Then the loaded command is dropped if every
      wheel is on target, and the wheels are driven towards it if not. */
  function DriveAuto(c: Chassis): (r: Chassis)
    ensures Dequeued(c) + r.queue == c.queue
    ensures c.queue == [] ==> r == c
  {
    if c.current == None && c.queue != [] then
      var head := c.queue[0];
      Advance(c.(current := Some(head), queue := c.queue[1..], wheels := LoadAutoCommand(c.wheels, head)))
    else if c.queue == [] then
      c
    else
      Advance(c)
  }

  function Advance(c: Chassis): Chassis {
    if IsDone(c.wheels) then c.(current := None) else c.(wheels := DriveByAutoCommand(c.wheels))
  }

  /** With nothing loaded, the head of the queue is loaded and then, unless
      the wheels already all report on target, driven for one tick. */
  lemma DriveAutoLoadsHead(c: Chassis)
    requires c.queue != [] && c.current == None
    ensures var loaded := LoadAutoCommand(c.wheels, c.queue[0]);
            var r := DriveAuto(c);
            r.queue == c.queue[1..] &&
            if IsDone(loaded) then r.current == None && r.wheels == loaded
            else r.current == Some(c.queue[0]) && r.wheels == DriveByAutoCommand(loaded)
  {
  }

  /** Whatever the wheels report, the tick that loads a command leaves every
      wheel steered to the command's direction for it and aimed at its
      distance, and takes exactly that command off the queue. */
  lemma {:induction false} DriveAutoAimsAtHead(c: Chassis)
    requires c.queue != [] && c.current == None
    ensures var r := DriveAuto(c);
            r.queue == c.queue[1..] &&
            forall i :: 0 <= i < 4 ==>
              r.wheels[i].turn.setpoint == c.queue[0].directions[i] &&
              r.wheels[i].drive.setpoint == c.queue[0].distance
  {
    DriveAutoLoadsHead(c);
  }

  /** With a command loaded and more waiting, the loaded one is dropped once
      every wheel is on target; until then each wheel gets one `driveAuto`. */
  lemma DriveAutoContinues(c: Chassis)
    requires c.queue != [] && c.current != None
    ensures var r := DriveAuto(c);
            r.queue == c.queue &&
            if IsDone(c.wheels) then r.current == None && r.wheels == c.wheels
            else r.current == c.current && r.wheels == DriveByAutoCommand(c.wheels)
  {
  }

  /** `clearAutoCommands`. */
  function ClearAutoCommands(c: Chassis): (r: Chassis)
    ensures r.queue == [] && r.current == None && r.wheels == c.wheels
  {
    c.(queue := [], current := None)
  }

  /** `reset`: both loops of every wheel are reset and the drive encoders
      zeroed; the queue and loaded command are left alone. */
  function Reset(c: Chassis): (r: Chassis)
    ensures r.queue == c.queue && r.current == c.current
    ensures forall i :: 0 <= i < 4 ==>
              !r.wheels[i].drive.enabled && !r.wheels[i].turn.enabled && r.wheels[i].distance == 0.0 &&
              r.wheels[i].drive.resets == c.wheels[i].drive.resets + 1 &&
              r.wheels[i].turn.resets == c.wheels[i].turn.resets + 1
  {
    c.(wheels := [ResetWheel(c.wheels[0]), ResetWheel(c.wheels[1]), ResetWheel(c.wheels[2]), ResetWheel(c.wheels[3])])
  }

  function ResetWheel(w: SwerveMotor.Wheel): SwerveMotor.Wheel {
    SwerveMotor.ResetPIDTurn(SwerveMotor.ResetPIDDrive(w))
  }

  /** `getDistanceAvg`. */
  function GetDistanceAvg(c: Chassis): (avg: real)
    ensures avg * 4.0 == c.wheels[0].distance + c.wheels[1].distance + c.wheels[2].distance + c.wheels[3].distance
  {
    var sum := 0.0 + c.wheels[0].distance + c.wheels[1].distance + c.wheels[2].distance + c.wheels[3].distance;
    sum / 4.0
  }

  /** The average lies between the shortest and the longest wheel distance,
      and is 0 right after a reset. */
  lemma DistanceAvgBounds(c: Chassis, lo: real, hi: real)
    requires forall i :: 0 <= i < 4 ==> lo <= c.wheels[i].distance <= hi
    ensures lo <= GetDistanceAvg(c) <= hi
    ensures GetDistanceAvg(Reset(c)) == 0.0
  {
  }

  function SetDistanceSetpoint(c: Chassis, distance: real): (r: Chassis)
    ensures forall i :: 0 <= i < 4 ==>
              r.wheels[i] == SwerveMotor.SetDistanceSetPoint(c.wheels[i], distance)
    ensures r.queue == c.queue && r.current == c.current
  {
    var ws := c.wheels;
    c.(wheels := [SwerveMotor.SetDistanceSetPoint(ws[0], distance), SwerveMotor.SetDistanceSetPoint(ws[1], distance),
                  SwerveMotor.SetDistanceSetPoint(ws[2], distance), SwerveMotor.SetDistanceSetPoint(ws[3], distance)])
  }

  function SetDirectionSetpoint(c: Chassis, direction: real): (r: Chassis)
    ensures forall i :: 0 <= i < 4 ==> r.wheels[i].turn.setpoint == direction
    ensures forall i :: 0 <= i < 4 ==> r.wheels[i] == SwerveMotor.SetDirectionSetPoint(c.wheels[i], direction)
    ensures r.queue == c.queue && r.current == c.current
  {
    var ws := c.wheels;
    c.(wheels := [SwerveMotor.SetDirectionSetPoint(ws[0], direction), SwerveMotor.SetDirectionSetPoint(ws[1], direction),
                  SwerveMotor.SetDirectionSetPoint(ws[2], direction), SwerveMotor.SetDirectionSetPoint(ws[3], direction)])
  }

  /** What happens to the drivetrain between and during autonomous ticks. */
  datatype Event =
    | Add(cmd: Command)
    | Tick
    | Sense(readings: seq<SwerveMotor.Sensors>)

  function Step(c: Chassis, e: Event): Chassis {
    match e
    case Add(cmd) => AddAutoCommand(c, cmd)
    case Tick => DriveAuto(c)
    case Sense(readings) =>
      if |readings| == 4 then
        c.(wheels := [SwerveMotor.Observe(c.wheels[0], readings[0]), SwerveMotor.Observe(c.wheels[1], readings[1]),
                      SwerveMotor.Observe(c.wheels[2], readings[2]), SwerveMotor.Observe(c.wheels[3], readings[3])])
      else c
  }

  function Run(c: Chassis, events: seq<Event>): Chassis
    decreases |events|
  {
    if events == [] then c else Run(Step(c, events[0]), events[1..])
  }

  /** The command one event takes off the queue, if any. */
  function StepTaken(c: Chassis, e: Event): seq<Command> {
    if e.Tick? then Dequeued(c) else []
  }

  /** The command one event adds to the queue, if any. */
  function StepAdded(e: Event): seq<Command> {
    if e.Add? then [e.cmd] else []
  }

  /** The commands taken off the queue during a run, in order. */
  function Taken(c: Chassis, events: seq<Event>): seq<Command>
    decreases |events|
  {
    if events == [] then [] else StepTaken(c, events[0]) + Taken(Step(c, events[0]), events[1..])
  }

  /** The commands added during a run, in order. */
  function Added(events: seq<Event>): seq<Command>
    decreases |events|
  {
    if events == [] then [] else StepAdded(events[0]) + Added(events[1..])
  }

  /** One event keeps the queue first in, first out. */
  lemma StepFifo(c: Chassis, e: Event)
    ensures StepTaken(c, e) + Step(c, e).queue == c.queue + StepAdded(e)
  {
    match e
    case Add(cmd) =>
    case Tick =>
    case Sense(_) =>
  }

  /** First in, first out: whatever sensing and ticking happens, the
      commands taken off so far followed by those still waiting are exactly
      the commands that were waiting at the start followed by those added. */
  lemma {:induction false} QueueIsFifo(c: Chassis, events: seq<Event>)
    ensures Taken(c, events) + Run(c, events).queue == c.queue + Added(events)
    decreases |events|
  {
    if events != [] {
      var e, rest := events[0], events[1..];
      var c' := Step(c, e);
      QueueIsFifo(c', rest);
      StepFifo(c, e);
      assert Taken(c, events) == StepTaken(c, e) + Taken(c', rest);
      assert Run(c, events) == Run(c', rest);
      assert Added(events) == StepAdded(e) + Added(rest);
      SplicedFifo(StepTaken(c, e), Taken(c', rest), Run(c', rest).queue, c'.queue, c.queue, StepAdded(e), Added(rest));
    }
  }

  /** Two first-in-first-out stretches, the first step and the rest of a
      run, make one. */
  lemma SplicedFifo<T>(taken: seq<T>, takenLater: seq<T>, left: seq<T>, middle: seq<T>, start: seq<T>,
                       added: seq<T>, addedLater: seq<T>)
    requires taken + middle == start + added
    requires takenLater + left == middle + addedLater
    ensures (taken + takenLater) + left == start + (added + addedLater)
  {
    calc {
      (taken + takenLater) + left;
      taken + (takenLater + left);
      taken + (middle + addedLater);
      (taken + middle) + addedLater;
      (start + added) + addedLater;
    }
  }

  /** As written, the last command in the queue is driven for a single tick:
      loading it empties the queue, and on every later tick an empty queue
      ends `driveAuto` at once, although the command is still loaded. */
  lemma {:induction false} LastCommandDrivenOnce(c: Chassis, cmd: Command)
    requires c.current == None && c.queue == [cmd]
    requires !IsDone(LoadAutoCommand(c.wheels, cmd))
    ensures DriveAuto(c).current == Some(cmd) && DriveAuto(c).queue == []
    ensures DriveAuto(DriveAuto(c)) == DriveAuto(c)
  {
  }

  /** Nothing is ever loaded from an empty queue, and clearing leaves the
      drivetrain idle for every later tick. */
  lemma ClearedStaysIdle(c: Chassis)
    ensures DriveAuto(ClearAutoCommands(c)) == ClearAutoCommands(c)
  {
  }
}
