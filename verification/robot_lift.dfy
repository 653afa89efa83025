/** The climbing lift: two motors driven together, a limit switch at each
    end (normally open, so a pressed switch reads false), and the X and Y
    buttons of the second pad. */
module RobotLift {
  import opened Actuators
  import MetalSkinsController

  datatype State = Begin | Low | Lowering | High | Lifting | Idle

  datatype Lift = Lift(state: State, first: Motor, second: Motor)

  /** Raw readings of the two limit switches. */
  datatype Switches = Switches(bottomRaw: bool, topRaw: bool)

  /** The constructor: both motors stopped, state BEGIN. */
  function New(first: Motor, second: Motor): (l: Lift)
    ensures l.state == Begin && MotorsAgree(l) && l.first.value == 0.0
    ensures l.first.inverted == first.inverted && l.second.inverted == second.inverted
  {
    SetMotor(Lift(Begin, first, second), 0.0)
  }

  /** `setMotor`: the same command to both motors. */
  function SetMotor(l: Lift, value: real): (r: Lift)
    ensures r.first.value == value && r.second.value == value
    ensures r.state == l.state && r.first.inverted == l.first.inverted && r.second.inverted == l.second.inverted
  {
    l.(first := Set(l.first, value), second := Set(l.second, value))
  }

  predicate MotorsAgree(l: Lift) {
    l.first.value == l.second.value
  }

  function Go(l: Lift, value: real, next: State): Lift {
    SetMotor(l, value).(state := next)
  }

  predicate AtBottom(s: Switches) { !s.bottomRaw }
  predicate AtTop(s: Switches) { !s.topRaw }

  /** `run`: one tick of the lift.
      BEGIN stops and settles in LOW, HIGH or IDLE by the switches (bottom
      first); IDLE climbs on Y alone and descends on X alone; LIFTING stops
      in HIGH at the top switch or in IDLE once Y is released; LOWERING
      likewise with the bottom switch and X; HIGH only answers X and LOW
      only answers Y. */
  function Run(l: Lift, s: Switches, b: MetalSkinsController.Buttons): (r: Lift)
    ensures MotorsAgree(l) ==> MotorsAgree(r)
    ensures MotorMatchesState(l) ==> MotorMatchesState(r)
    ensures r.first.inverted == l.first.inverted && r.second.inverted == l.second.inverted
    ensures r.state != Begin
  {
    match l.state
    case Begin =>
      if AtBottom(s) then Go(l, 0.0, Low)
      else if AtTop(s) then Go(l, 0.0, High)
      else Go(l, 0.0, Idle)
    case Idle =>
      if b.yButton && b.xButton then l
      else if b.yButton then Go(l, 1.0, Lifting)
      else if b.xButton then Go(l, -1.0, Lowering)
      else l
    case Lifting =>
      if !AtTop(s) then
        if !b.yButton then Go(l, 0.0, Idle) else l
      else Go(l, 0.0, High)
    case Lowering =>
      if !AtBottom(s) then
        if !b.xButton then Go(l, 0.0, Idle) else l
      else Go(l, 0.0, Low)
    case High =>
      if b.xButton then Go(l, -1.0, Lowering) else l
    case Low =>
      if b.yButton then Go(l, 1.0, Lifting) else l
  }

  /** The motors run up exactly while LIFTING, down exactly while LOWERING,
      and are stopped in every other state. */
  predicate MotorMatchesState(l: Lift) {
    MotorsAgree(l) &&
    match l.state
    case Lifting => l.first.value == 1.0
    case Lowering => l.first.value == -1.0
    case _ => l.first.value == 0.0
  }

  /** A fresh lift satisfies the motor invariant, so every state reached by
      ticking it does too. */
  lemma {:induction false} InvariantHolds(first: Motor, second: Motor, ticks: seq<(Switches, MetalSkinsController.Buttons)>)
    ensures MotorMatchesState(RunAll(New(first, second), ticks))
    decreases |ticks|
  {
    if ticks != [] {
      var l := New(first, second);
      InvariantFrom(Run(l, ticks[0].0, ticks[0].1), ticks[1..]);
    }
  }

  lemma {:induction false} InvariantFrom(l: Lift, ticks: seq<(Switches, MetalSkinsController.Buttons)>)
    requires MotorMatchesState(l)
    ensures MotorMatchesState(RunAll(l, ticks))
    decreases |ticks|
  {
    if ticks != [] {
      InvariantFrom(Run(l, ticks[0].0, ticks[0].1), ticks[1..]);
    }
  }

  /** Ticks the lift through a sequence of readings. */
  function RunAll(l: Lift, ticks: seq<(Switches, MetalSkinsController.Buttons)>): Lift
    decreases |ticks|
  {
    if ticks == [] then l else RunAll(Run(l, ticks[0].0, ticks[0].1), ticks[1..])
  }

  /** The lift never drives past a limit switch: moving up with the top
      switch pressed, or down with the bottom one pressed, it stops. */
  lemma StopsAtLimits(l: Lift, s: Switches, b: MetalSkinsController.Buttons)
    ensures l.state == Lifting && AtTop(s) ==> Run(l, s, b).state == High && Run(l, s, b).first.value == 0.0
    ensures l.state == Lowering && AtBottom(s) ==> Run(l, s, b).state == Low && Run(l, s, b).first.value == 0.0
  {
  }

  /** Travel is held by the button: between the switches the lift keeps
      moving exactly while its button is held. */
  lemma TravelHeldByButton(l: Lift, s: Switches, b: MetalSkinsController.Buttons)
    ensures l.state == Lifting && !AtTop(s) ==> (Run(l, s, b).state == Lifting <==> b.yButton)
    ensures l.state == Lowering && !AtBottom(s) ==> (Run(l, s, b).state == Lowering <==> b.xButton)
    ensures l.state == Lifting && !AtTop(s) && !b.yButton ==> Run(l, s, b).state == Idle
    ensures l.state == Lowering && !AtBottom(s) && !b.xButton ==> Run(l, s, b).state == Idle
  {
  }

  /** From IDLE the two buttons together cancel out; alone, Y climbs and X
      descends. At an end only the button leading away from it acts. */
  lemma ButtonsFromRest(l: Lift, s: Switches, b: MetalSkinsController.Buttons)
    ensures l.state == Idle ==>
              Run(l, s, b).state == (if b.yButton && b.xButton then Idle
                                     else if b.yButton then Lifting
                                     else if b.xButton then Lowering else Idle)
    ensures l.state == High ==> Run(l, s, b).state == (if b.xButton then Lowering else High)
    ensures l.state == Low ==> Run(l, s, b).state == (if b.yButton then Lifting else Low)
  {
  }

  /** BEGIN reads the bottom switch before the top one. */
  lemma BeginSettles(l: Lift, s: Switches, b: MetalSkinsController.Buttons)
    requires l.state == Begin
    ensures Run(l, s, b).state == (if AtBottom(s) then Low else if AtTop(s) then High else Idle)
    ensures Run(l, s, b).first.value == 0.0
  {
  }
}
