/** The timed fallback routine: close the intake arms and drive straight
    ahead at full power for 1.5 s, then stop. It drives the chassis through
    an open-loop `driveManual(x, y)` call, whose last arguments are kept as
    the routine's output. The box manager is the robot's own, so it is
    passed to each tick. */
module DriveForwardAutoBasic {
  import opened JavaSemantics
  import BoxManager

  datatype State = Begin | DriveForward | Stop

  /** Seconds to drive forward. */
  const TimeToDriveForward: real := 1.5

  /** `previous` is null until the first state change; `manual` is the last
      `driveManual` command, none before the first. */
  datatype Basic = Basic(state: State, previous: Option<State>, timeFuture: real,
                         manual: Option<(real, real)>)

  function New(): (a: Basic)
    ensures a.state == Begin && a.previous == None && a.manual == None
  {
    Basic(Begin, None, 0.0, None)
  }

  function SetNextState(a: Basic, next: State): Basic {
    a.(previous := Some(a.state), state := next)
  }

  /** `run`: BEGIN closes the arms, drives forward at full power and sets
      the deadline; DRIVE_FORWARD stops the robot once the clock is strictly
      past the deadline; STOP does nothing. */
  function Run(a: Basic, box: BoxManager.Manager, now: real): (r: (Basic, BoxManager.Manager))
    ensures a.state == Begin ==>
              r.0.state == DriveForward && r.0.manual == Some((0.0, 1.0)) &&
              r.1.arms == Some(BoxManager.Retracted) && r.0.timeFuture == now + TimeToDriveForward
    ensures a.state == DriveForward ==> (r.0.state == Stop <==> now > a.timeFuture)
    ensures a.state == DriveForward && r.0.state == Stop ==> r.0.manual == Some((0.0, 0.0))
    ensures a.state != Begin ==> r.1 == box && r.0.timeFuture == a.timeFuture
    ensures a.state == Stop ==> r == (a, box)
    ensures r.0.state != a.state ==> r.0.previous == Some(a.state)
  {
    match a.state
    case Begin =>
      (SetNextState(a, DriveForward).(manual := Some((0.0, 1.0)), timeFuture := now + TimeToDriveForward),
       BoxManager.ArmRetract(box))
    case DriveForward =>
      if now > a.timeFuture then (SetNextState(a, Stop).(manual := Some((0.0, 0.0))), box) else (a, box)
    case Stop => (a, box)
  }

  /** `reset`: back to BEGIN through `setNextState`, so the state left is
      remembered; the drive command in force is not touched. */
  function Reset(a: Basic): (r: Basic)
    ensures r.state == Begin && r.previous == Some(a.state)
    ensures r.manual == a.manual
  {
    SetNextState(a, Begin)
  }

  /** What the routine commands in each state it can be in after a tick:
      full power forward with the arms closed while driving, and zero once
      stopped. */
  predicate Commanding(a: Basic, box: BoxManager.Manager) {
    (a.state == DriveForward ==> a.manual == Some((0.0, 1.0)) && box.arms == Some(BoxManager.Retracted)) &&
    (a.state == Stop ==> a.manual == Some((0.0, 0.0)))
  }

  lemma RunKeepsCommanding(a: Basic, box: BoxManager.Manager, now: real)
    requires Commanding(a, box)
    ensures var (b, box') := Run(a, box, now); Commanding(b, box')
  {
  }

  /** The drive lasts strictly longer than 1.5 s: a DRIVE_FORWARD tick that
      stops the robot comes more than 1.5 s after the BEGIN tick. */
  lemma DrivesForLongerThanDeadline(a: Basic, box: BoxManager.Manager, t0: real, t1: real)
    requires a.state == Begin
    ensures var (b, box') := Run(a, box, t0);
            Run(b, box', t1).0.state == Stop <==> t1 > t0 + TimeToDriveForward
  {
  }

  /** `toString` of the state enum. */
  function StateName(s: State): string {
    match s
    case Begin => "BEGIN"
    case DriveForward => "DRIVE_FORWARD"
    case Stop => "STOP"
  }

  /** `getStatePreviousString`: the previous state is null until the first
      state change, and calling `toString` on it then throws. */
  function StatePreviousString(a: Basic): (r: Result<string>)
    ensures r.Failure? <==> a.previous == None
    ensures r.Success? ==> r.value == StateName(a.previous.value)
  {
    match a.previous
    case None => Failure(NullPointer)
    case Some(p) => Success(StateName(p))
  }

  /** Once the routine has changed state, by a tick or a reset, the previous
      state can be read; and distinct states have distinct names. */
  lemma PreviousReadableAfterTick(a: Basic, box: BoxManager.Manager, now: real, s1: State, s2: State)
    ensures var b := Run(a, box, now).0;
            StatePreviousString(b).Failure? ==> a.previous == None && b.state == a.state
    ensures StatePreviousString(Reset(a)).Success?
    ensures StateName(s1) == StateName(s2) ==> s1 == s2
  {
  }
}
