/** The "drive forward" autonomous routine: 24 in forward, 60 in to the left,
    then 120 in forward to the auto line, then stop. Each leg is queued on
    the drivetrain when the previous one is judged finished, and the
    judgement waits 0.1 s after a leg is queued. The drivetrain is shared
    with the robot, so it is passed to each tick rather than kept here. */
module DriveForwardAuto {
  import opened JavaSemantics
  import opened AutoCommand
  import Factory = AutoCommandFactory
  import SwerveDrive

  datatype State = Begin | DriveForward | DriveLeft | DriveToLine | Stop

  const DistanceDriveForward: real := 24.0
  const DistanceDriveToSide: real := 60.0
  const AutoLineDistance: real := 120.0
  /** How long after queueing a leg the routine waits before judging it. */
  const Delay: real := 0.1

  /** `issued` lists the commands this routine has queued since the
      drivetrain's queue was last cleared; the source keeps no such list,
      it is here to state the routine's plan. */
  datatype Auto = Auto(state: State, previous: State, timeFuture: real, issued: seq<Command>)

  /** What one tick asks of the drivetrain, in order. */
  datatype Request = ClearQueue | Enqueue(cmd: Command) | Tick

  function New(): (a: Auto)
    ensures a.state == Begin && a.previous == Begin && a.issued == []
  {
    Auto(Begin, Begin, 0.0, [])
  }

  /** The legs in the order the routine queues them. */
  function Plan(): seq<Command> {
    [Factory.GoForward(DistanceDriveForward), Factory.MoveLeft(DistanceDriveToSide),
     Factory.GoForward(AutoLineDistance), Factory.Stop()]
  }

  /** Position of a state along the routine. */
  function Rank(s: State): nat {
    match s
    case Begin => 0
    case DriveForward => 1
    case DriveLeft => 2
    case DriveToLine => 3
    case Stop => 4
  }

  /** `setNextState` after queueing `cmd`, with the judging time moved to
      `timeFuture`. */
  function Leg(a: Auto, cmd: Command, next: State, timeFuture: real): (r: Auto)
    ensures r.state == next && r.previous == a.state && r.timeFuture == timeFuture
    ensures r.issued == a.issued + [cmd]
  {
    Auto(next, a.state, timeFuture, a.issued + [cmd])
  }

  /** `run`'s decision at time `now`, given whether the drivetrain reports
      every wheel on target. BEGIN clears the queue, queues the first leg
      and ticks the drivetrain. Each driving leg, once the clock is past its
      judging time and (as written) the wheels are NOT all on target, queues
      the next leg and ticks the drivetrain; the last queues the stop
      command without a tick and without a new judging time. STOP only
      ticks the drivetrain. */
  function Decide(a: Auto, done: bool, now: real): (r: (Auto, seq<Request>))
    ensures var (b, reqs) := r;
            b.state == a.state || (Rank(b.state) == Rank(a.state) + 1 && b.previous == a.state)
    ensures a.state == Begin ==>
              r.0.state == DriveForward && r.0.timeFuture == now + Delay &&
              r.1 == [ClearQueue, Enqueue(Plan()[0]), Tick]
    ensures a.state in {DriveForward, DriveLeft, DriveToLine} ==>
              (r.0.state != a.state <==> now > a.timeFuture && !done)
    ensures a.state in {DriveForward, DriveLeft} && r.0.state != a.state ==>
              r.0.timeFuture == now + Delay && r.1 == [Enqueue(Plan()[Rank(a.state)]), Tick]
    ensures a.state == DriveToLine && r.0.state != a.state ==>
              r.0.timeFuture == a.timeFuture && r.1 == [Enqueue(Factory.Stop())]
    ensures a.state == Stop ==> r == (a, [Tick])
    ensures a.state != Stop && r.0.state == a.state ==> r == (a, [])
    ensures r.0.state != a.state ==>
              r.0.issued == (if a.state == Begin then [] else a.issued) + [Plan()[Rank(a.state)]]
  {
    match a.state
    case Begin =>
      (Leg(a.(issued := []), Factory.GoForward(DistanceDriveForward), DriveForward, now + Delay),
       [ClearQueue, Enqueue(Factory.GoForward(DistanceDriveForward)), Tick])
    case DriveForward =>
      if now > a.timeFuture && !done then
        (Leg(a, Factory.MoveLeft(DistanceDriveToSide), DriveLeft, now + Delay),
         [Enqueue(Factory.MoveLeft(DistanceDriveToSide)), Tick])
      else (a, [])
    case DriveLeft =>
      if now > a.timeFuture && !done then
        (Leg(a, Factory.GoForward(AutoLineDistance), DriveToLine, now + Delay),
         [Enqueue(Factory.GoForward(AutoLineDistance)), Tick])
      else (a, [])
    case DriveToLine =>
      if now > a.timeFuture && !done then
        (Leg(a, Factory.Stop(), Stop, a.timeFuture), [Enqueue(Factory.Stop())])
      else (a, [])
    case Stop => (a, [Tick])
  }

  /** Carry out the requests on the drivetrain, in order. */
  function Apply(c: SwerveDrive.Chassis, reqs: seq<Request>): SwerveDrive.Chassis
    decreases |reqs|
  {
    if reqs == [] then c
    else
      var c' := match reqs[0]
                case ClearQueue => SwerveDrive.ClearAutoCommands(c)
                case Enqueue(cmd) => SwerveDrive.AddAutoCommand(c, cmd)
                case Tick => SwerveDrive.DriveAuto(c);
      Apply(c', reqs[1..])
  }

  /** `run`: one autonomous tick on the shared drivetrain. */
  function Run(a: Auto, c: SwerveDrive.Chassis, now: real): (Auto, SwerveDrive.Chassis) {
    var (b, reqs) := Decide(a, SwerveDrive.IsDone(c.wheels), now);
    (b, Apply(c, reqs))
  }

  /** `reset`: the drivetrain's loops are reset and its queue cleared, and
      the routine starts over from BEGIN without touching `previous`. */
  function Reset(a: Auto, c: SwerveDrive.Chassis): (r: (Auto, SwerveDrive.Chassis))
    ensures r.0.state == Begin && r.0.previous == a.previous && r.0.issued == []
    ensures r.1.queue == [] && r.1.current == None
    ensures forall i :: 0 <= i < 4 ==> !r.1.wheels[i].drive.enabled && !r.1.wheels[i].turn.enabled
  {
    (a.(state := Begin, issued := []), SwerveDrive.ClearAutoCommands(SwerveDrive.Reset(c)))
  }

  /** The routine's plan: whatever it has queued since the last clear is the
      first `Rank(state)` legs of the plan. */
  predicate OnPlan(a: Auto) {
    a.issued == Plan()[..Rank(a.state)]
  }

  lemma {:induction false} DecideKeepsPlan(a: Auto, done: bool, now: real)
    requires OnPlan(a)
    ensures OnPlan(Decide(a, done, now).0)
  {
    var r := Decide(a, done, now).0;
    if r.state != a.state {
      assert Plan()[..Rank(r.state)] == Plan()[..Rank(a.state)] + [Plan()[Rank(a.state)]];
    }
  }

  /** Decides at each of the given (on-target reading, time) pairs. */
  function DecideAll(a: Auto, ticks: seq<(bool, real)>): Auto
    decreases |ticks|
  {
    if ticks == [] then a else DecideAll(Decide(a, ticks[0].0, ticks[0].1).0, ticks[1..])
  }

  /** From construction or after a reset, and whatever the drivetrain
      reports and the clock reads, the routine has queued a prefix of its
      plan, one leg per state passed, and never more than the plan. */
  lemma {:induction false} PlanFollowed(a: Auto, ticks: seq<(bool, real)>)
    requires OnPlan(a)
    ensures OnPlan(DecideAll(a, ticks))
    ensures |DecideAll(a, ticks).issued| <= |Plan()|
    decreases |ticks|
  {
    if ticks != [] {
      DecideKeepsPlan(a, ticks[0].0, ticks[0].1);
      PlanFollowed(Decide(a, ticks[0].0, ticks[0].1).0, ticks[1..]);
    } else {
      assert |a.issued| == Rank(a.state) <= 4;
    }
  }

  lemma StartsOnPlan(a: Auto, c: SwerveDrive.Chassis)
    ensures OnPlan(New()) && OnPlan(Reset(a, c).0)
  {
  }

  /** After the BEGIN tick the first leg is loaded on every wheel: steered
      to 180 degrees with a 24 in distance setpoint, and nothing else is
      queued. */
  lemma BeginLoadsFirstLeg(a: Auto, c: SwerveDrive.Chassis, now: real)
    requires a.state == Begin
    ensures var r := Run(a, c, now).1;
            r.queue == [] &&
            forall i :: 0 <= i < 4 ==>
              r.wheels[i].turn.setpoint == 180.0 && r.wheels[i].drive.setpoint == DistanceDriveForward
  {
    var cmd := Factory.GoForward(DistanceDriveForward);
    var queued := SwerveDrive.AddAutoCommand(SwerveDrive.ClearAutoCommands(c), cmd);
    var cleared := SwerveDrive.ClearAutoCommands(c);
    assert Apply(c, [ClearQueue, Enqueue(cmd), Tick]) == Apply(cleared, [Enqueue(cmd), Tick]) by {
      assert [ClearQueue, Enqueue(cmd), Tick][1..] == [Enqueue(cmd), Tick];
    }
    assert Apply(cleared, [Enqueue(cmd), Tick]) == Apply(queued, [Tick]) by {
      assert [Enqueue(cmd), Tick][1..] == [Tick];
    }
    assert Apply(queued, [Tick]) == Apply(SwerveDrive.DriveAuto(queued), []);
    SwerveDrive.DriveAutoAimsAtHead(queued);
  }

  /** No leg is judged before its 0.1 s delay has run out, and, as written,
      a leg whose wheels all report on target is never judged over: the
      routine advances only while some wheel is still short of its
      distance. */
  lemma LegGuardAsWritten(a: Auto, c: SwerveDrive.Chassis, now: real)
    requires a.state in {DriveForward, DriveLeft, DriveToLine}
    ensures now <= a.timeFuture ==> Run(a, c, now) == (a, c)
    ensures SwerveDrive.IsDone(c.wheels) ==> Run(a, c, now) == (a, c)
    ensures now > a.timeFuture && !SwerveDrive.IsDone(c.wheels) ==> Run(a, c, now).0.state != a.state
  {
  }
}
