/** The box lifter: a motor that raises and lowers the intake between limit
    switches at the bottom, the middle (only when fitted) and the top,
    driven by the pad's bumpers through a state machine. */
module BoxLifter {
  import opened JavaSemantics
  import opened Actuators

  datatype State = Begin | Idle | Low | Middle | High | Lifting | Lowering

  /** AUTOMATIC lifters have a middle switch and stop at it; MANUAL ones
      have none. */
  datatype Mode = Automatic | Manual

  /** `previous` is null until the first transition. */
  datatype Lifter = Lifter(state: State, previous: Option<State>, mode: Mode, motor: Motor)

  /** The raw `DigitalInput.get()` readings. The switches are normally open
      and pulled up, so a pressed switch reads false. */
  datatype Switches = Switches(lowRaw: bool, middleRaw: bool, highRaw: bool)

  /** The bumpers the lifter reads. */
  datatype Bumpers = Bumpers(left: bool, right: bool)

  /** The five-argument constructor: middle switch fitted, AUTOMATIC. */
  function NewAutomatic(): (l: Lifter)
    ensures l.state == Begin && l.mode == Automatic && l.previous == None && l.motor.inverted
  {
    Lifter(Begin, None, Automatic, Motor(0.0, true))
  }

  /** The four-argument constructor: no middle switch, MANUAL. */
  function NewManual(): (l: Lifter)
    ensures l.state == Begin && l.mode == Manual && l.previous == None && l.motor.inverted
  {
    Lifter(Begin, None, Manual, Motor(0.0, true))
  }

  /** Whether the lifter was built with a middle switch. */
  predicate HasMiddleSwitch(l: Lifter) {
    l.mode == Automatic
  }

  predicate SwitchLow(s: Switches) { !s.lowRaw }
  predicate SwitchHigh(s: Switches) { !s.highRaw }

  /** `getSwitchMiddle`: through a null reference when no middle switch is
      fitted. */
  function SwitchMiddle(l: Lifter, s: Switches): (r: Result<bool>)
    ensures r.Success? <==> HasMiddleSwitch(l)
    ensures r.Success? ==> (r.value <==> !s.middleRaw)
  {
    if HasMiddleSwitch(l) then Success(!s.middleRaw) else Failure(NullPointer)
  }

  function Rise(l: Lifter): Lifter { l.(motor := Set(l.motor, 1.0)) }
  function Lower(l: Lifter): Lifter { l.(motor := Set(l.motor, -1.0)) }
  function Stop(l: Lifter): Lifter { l.(motor := Set(l.motor, 0.0)) }

  /** Move to `next`, recording `from` as the previous state. */
  function Go(l: Lifter, next: State, from: State): Lifter {
    l.(state := next, previous := Some(from))
  }

  /** The motor command each settled state implies: up while lifting, down
      while lowering, off when parked. BEGIN implies nothing. */
  predicate MotorMatchesState(l: Lifter) {
    match l.state
    case Begin => true
    case Lifting => l.motor.value == 1.0
    case Lowering => l.motor.value == -1.0
    case _ => l.motor.value == 0.0
  }

  /** `begin`: stop, then settle on the first pressed switch in the order
      low, high, middle, or IDLE if none is. */
  function RunBegin(l: Lifter, s: Switches): Result<Lifter> {
    var stopped := Stop(l).(previous := Some(Begin));
    if SwitchLow(s) then Success(stopped.(state := Low))
    else if SwitchHigh(s) then Success(stopped.(state := High))
    else
      var middle :- SwitchMiddle(l, s);
      if middle then Success(stopped.(state := Middle)) else Success(stopped.(state := Idle))
  }

  /** `idle` and `middle`: the right bumper lifts, and wins over the left,
      which lowers. */
  function RunParkedBoth(l: Lifter, b: Bumpers): Lifter {
    if b.right then Go(Rise(l), Lifting, l.state)
    else if b.left then Go(Lower(l), Lowering, l.state)
    else l
  }

  /** `lowering`. In AUTOMATIC mode the lifter stops at the middle switch
      unless it has just left it, and otherwise at the low switch. The
      MANUAL branch tests the low switch the other way round from its
      description: with the switch pressed it only stops once the left
      bumper is released (to IDLE), and with it released it stops at once
      and claims LOW. */
  function RunLowering(l: Lifter, s: Switches, b: Bumpers): Result<Lifter> {
    if l.mode == Automatic then
      var middle :- SwitchMiddle(l, s);
      if middle && l.previous != Some(Middle) then Success(Go(Stop(l), Middle, Lowering))
      else if SwitchLow(s) then Success(Go(Stop(l), Low, Lowering))
      else Success(l)
    else if SwitchLow(s) then
      if !b.left then Success(Go(Stop(l), Idle, Lowering)) else Success(l)
    else
      Success(Go(Stop(l), Low, Lowering))
  }

  /** `lifting`: the mirror image of `lowering`, with the high switch and
      the right bumper. */
  function RunLifting(l: Lifter, s: Switches, b: Bumpers): Result<Lifter> {
    if l.mode == Automatic then
      var middle :- SwitchMiddle(l, s);
      if middle && l.previous != Some(Middle) then Success(Go(Stop(l), Middle, Lifting))
      else if SwitchHigh(s) then Success(Go(Stop(l), High, Lifting))
      else Success(l)
    else if SwitchHigh(s) then
      if !b.right then Success(Go(Stop(l), Idle, Lifting)) else Success(l)
    else
      Success(Go(Stop(l), High, Lifting))
  }

  /** `run`: one teleop tick. LOW only answers the right bumper and HIGH
      only the left one. */
  function Run(l: Lifter, s: Switches, b: Bumpers): (r: Result<Lifter>)
    ensures r.Failure? <==> l.state == Begin && l.mode == Manual && !SwitchLow(s) && !SwitchHigh(s)
    ensures r.Success? ==> r.value.mode == l.mode && r.value.motor.inverted == l.motor.inverted
    ensures MotorMatchesState(l) && r.Success? ==> MotorMatchesState(r.value)
    ensures l.state == Begin ==> r.Success? ==> r.value.motor.value == 0.0 && r.value.previous == Some(Begin)
  {
    match l.state
    case Begin => RunBegin(l, s)
    case Idle => Success(RunParkedBoth(l, b))
    case Middle => Success(RunParkedBoth(l, b))
    case Low => Success(if b.right then Go(Rise(l), Lifting, Low) else l)
    case High => Success(if b.left then Go(Lower(l), Lowering, High) else l)
    case Lowering => RunLowering(l, s, b)
    case Lifting => RunLifting(l, s, b)
  }

  /** BEGIN settles by priority: low beats high beats middle beats none. */
  lemma BeginPriority(l: Lifter, s: Switches, b: Bumpers)
    requires l.state == Begin
    ensures SwitchLow(s) ==> Run(l, s, b) == Success(Stop(l).(state := Low, previous := Some(Begin)))
    ensures !SwitchLow(s) && SwitchHigh(s) ==> Run(l, s, b).Success? && Run(l, s, b).value.state == High
    ensures !SwitchLow(s) && !SwitchHigh(s) && l.mode == Automatic ==>
              Run(l, s, b).Success? && Run(l, s, b).value.state == (if s.middleRaw then Idle else Middle)
  {
  }

  /** Parked states answer the bumpers and nothing else: IDLE and MIDDLE
      both ways (right first), LOW only upwards, HIGH only downwards; with
      no bumper pressed the lifter stays as it is. */
  lemma ParkedStatesFollowBumpers(l: Lifter, s: Switches, b: Bumpers)
    requires l.state in {Idle, Middle, Low, High}
    ensures Run(l, s, b).Success?
    ensures !b.left && !b.right ==> Run(l, s, b).value == l
    ensures b.right && l.state != High ==> Run(l, s, b).value.state == Lifting
    ensures b.left && !b.right && l.state != Low ==> Run(l, s, b).value.state == Lowering
    ensures l.state == Low ==> Run(l, s, b).value.state in {Low, Lifting}
    ensures l.state == High ==> Run(l, s, b).value.state in {High, Lowering}
  {
  }

  /** Automatic travel stops at the middle switch on the way through, but
      not at the one it has just left, and otherwise at the end switch. */
  lemma AutomaticTravel(l: Lifter, s: Switches, b: Bumpers)
    requires l.mode == Automatic && (l.state == Lowering || l.state == Lifting)
    ensures Run(l, s, b).Success?
    ensures !s.middleRaw && l.previous != Some(Middle) ==> Run(l, s, b).value.state == Middle
    ensures (s.middleRaw || l.previous == Some(Middle)) && l.state == Lowering ==>
              Run(l, s, b).value.state == (if SwitchLow(s) then Low else Lowering)
    ensures (s.middleRaw || l.previous == Some(Middle)) && l.state == Lifting ==>
              Run(l, s, b).value.state == (if SwitchHigh(s) then High else Lifting)
  {
  }

  /** As written, a MANUAL lifter that starts lowering with the low switch
      released stops after a single tick and reports LOW, whatever the
      driver does; with the switch pressed it keeps lowering while the left
      bumper is held. Lifting behaves the same way with the high switch. */
  lemma ManualTravelAsWritten(l: Lifter, s: Switches, b: Bumpers)
    requires l.mode == Manual
    ensures l.state == Lowering && !SwitchLow(s) ==>
              Run(l, s, b) == Success(Go(Stop(l), Low, Lowering))
    ensures l.state == Lowering && SwitchLow(s) ==>
              Run(l, s, b) == Success(if b.left then l else Go(Stop(l), Idle, Lowering))
    ensures l.state == Lifting && !SwitchHigh(s) ==>
              Run(l, s, b) == Success(Go(Stop(l), High, Lifting))
    ensures l.state == Lifting && SwitchHigh(s) ==>
              Run(l, s, b) == Success(if b.right then l else Go(Stop(l), Idle, Lifting))
  {
  }

  /** `runTest`: BEGIN heads down unless already at the bottom, LIFTING
      turns round at the top, and LOWERING after the top stops at the
      middle switch (the test's goal) or, before reaching the top, turns
      round at the bottom. The result is true only in MIDDLE; other parked
      states never move. */
  function RunTest(l: Lifter, s: Switches): (r: Result<(Lifter, bool)>)
    ensures r.Failure? <==> l.state == Lowering && l.previous == Some(High) && l.mode == Manual
    ensures r.Success? ==> (r.value.1 <==> l.state == Middle)
    ensures r.Success? ==> r.value.0.mode == l.mode
    ensures MotorMatchesState(l) && r.Success? ==> MotorMatchesState(r.value.0)
    ensures l.state in {Idle, Low, High, Middle} ==> r == Success((l, l.state == Middle))
    ensures l.state == Begin ==>
              r.Success? && r.value.0.previous == Some(Begin) &&
              r.value.0.state == (if SwitchLow(s) then Lifting else Lowering) &&
              r.value.0.motor.value == (if SwitchLow(s) then 1.0 else -1.0)
    ensures l.state == Lowering && l.previous != Some(High) ==>
              r.Success? &&
              (SwitchLow(s) ==> r.value.0.state == Lifting && r.value.0.previous == Some(Low) &&
                                r.value.0.motor.value == 1.0) &&
              (!SwitchLow(s) ==> r.value.0 == l)
    ensures l.state == Lifting && !SwitchHigh(s) ==> r == Success((l, false))
  {
    match l.state
    case Begin =>
      var stopped := Stop(l).(previous := Some(Begin));
      if SwitchLow(s) then Success((Rise(stopped).(state := Lifting), false))
      else Success((Lower(stopped).(state := Lowering), false))
    case Lifting =>
      if SwitchHigh(s) then Success((Go(Lower(l), Lowering, High), false)) else Success((l, false))
    case Lowering =>
      if l.previous == Some(High) then
        var middle :- SwitchMiddle(l, s);
        if middle then Success((Go(Stop(l), Middle, Lowering), false)) else Success((l, false))
      else if SwitchLow(s) then Success((Go(Rise(l), Lifting, Low), false))
      else Success((l, false))
    case Middle => Success((l, true))
    case _ => Success((l, false))
  }

  /** The test route: from LIFTING at the top it turns to LOWERING with HIGH
      remembered, and from there the middle switch ends the test. */
  lemma TestRoute(l: Lifter, s: Switches)
    requires l.mode == Automatic
    ensures l.state == Lifting && SwitchHigh(s) ==>
              RunTest(l, s) == Success((Go(Lower(l), Lowering, High), false))
    ensures l.state == Lowering && l.previous == Some(High) && !s.middleRaw ==>
              RunTest(l, s).Success? && RunTest(l, s).value.0.state == Middle &&
              RunTest(RunTest(l, s).value.0, s) == Success((RunTest(l, s).value.0, true))
  {
  }

  /** The whole test route of an automatic lifter, one tick per switch
      event: from BEGIN away from the bottom it lowers, turns round at the
      low switch, turns round again at the high switch, stops at the middle
      switch, and the next tick reports the test done. */
  lemma TestRouteFromBegin(l: Lifter, away: Switches, low: Switches, high: Switches, middle: Switches)
    requires l.mode == Automatic && l.state == Begin
    requires !SwitchLow(away) && SwitchLow(low) && SwitchHigh(high) && !middle.middleRaw
    ensures var l1 := RunTest(l, away).value.0;
            l1.state == Lowering &&
            var l2 := RunTest(l1, low).value.0;
            l2.state == Lifting &&
            var l3 := RunTest(l2, high).value.0;
            l3.state == Lowering && l3.previous == Some(High) &&
            var l4 := RunTest(l3, middle).value.0;
            l4.state == Middle && RunTest(l4, middle) == Success((l4, true))
  {

  }

  /** `reset`: back to BEGIN; previous state and mode are kept. */
  function Reset(l: Lifter): (r: Lifter)
    ensures r.state == Begin && r.previous == l.previous && r.mode == l.mode && r.motor == l.motor
  {
    l.(state := Begin)
  }

  /** After a reset the next tick always stops the motor. */
  lemma ResetStops(l: Lifter, s: Switches, b: Bumpers)
    requires Run(Reset(l), s, b).Success?
    ensures Run(Reset(l), s, b).value.motor.value == 0.0
    ensures Run(Reset(l), s, b).value.state in {Low, High, Middle, Idle}
  {
  }
}
