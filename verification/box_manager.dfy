/** The box subsystem as the robot runs it: a collector state machine on the
    triggers and a lifter state machine on the bumpers, sharing the intake
    arms. The manager keeps its own lifter state and commands the lifter's
    motor directly, reading the lifter's switches. */
module BoxManager {
  import opened JavaSemantics
  import BoxCollector
  import BoxLifter
  import MetalSkinsController

  datatype CollectorState = Begin | Rest | SuckIn | SpitOut

  /** What the manager last did to the arms (null before the first time). */
  datatype ArmsState = Retracted | Deployed

  datatype Manager = Manager(
    collector: BoxCollector.Collector,
    lifter: BoxLifter.Lifter,
    collectorState: CollectorState,
    collectorPrevious: Option<CollectorState>,
    lifterState: BoxLifter.State,
    lifterPrevious: Option<BoxLifter.State>,
    arms: Option<ArmsState>,
    testTime: real)

  /** Everything one tick reads: the lifter's raw switches and the pad. */
  datatype Inputs = Inputs(switches: BoxLifter.Switches, buttons: MetalSkinsController.Buttons)

  function New(collector: BoxCollector.Collector, lifter: BoxLifter.Lifter): (m: Manager)
    ensures m.collectorState == Begin && m.lifterState == BoxLifter.Begin
    ensures m.collectorPrevious == None && m.lifterPrevious == None && m.arms == None
  {
    Manager(collector, lifter, Begin, None, BoxLifter.Begin, None, None, 0.0)
  }

  // --------------------------------------------------------- arms and intake

  /** `boxCollectorArmDeploy`. */
  function ArmDeploy(m: Manager): (r: Manager)
    ensures r.arms == Some(Deployed) && BoxCollector.ArmsExtended(r.collector)
    ensures r == m.(arms := r.arms, collector := BoxCollector.ArmsExtend(m.collector))
  {
    m.(collector := BoxCollector.ArmsExtend(m.collector), arms := Some(Deployed))
  }

  /** `boxCollectorArmRetract`. */
  function ArmRetract(m: Manager): (r: Manager)
    ensures r.arms == Some(Retracted) && !BoxCollector.ArmsExtended(r.collector)
    ensures r == m.(arms := r.arms, collector := BoxCollector.ArmsRetract(m.collector))
  {
    m.(collector := BoxCollector.ArmsRetract(m.collector), arms := Some(Retracted))
  }

  /** The arms record agrees with the solenoid. */
  predicate ArmsAgree(m: Manager) {
    m.arms.Some? ==> (m.arms == Some(Deployed) <==> BoxCollector.ArmsExtended(m.collector))
  }

  /** `spitBoxOut`: the rear motors always spit; the arm motors join in only
      while the lifter sits on its low switch. */
  function SpitBoxOut(m: Manager, s: BoxLifter.Switches): (r: Manager)
    ensures r.collector.rearLeft.value == -1.0 && r.collector.rearRight.value == -1.0
    ensures BoxLifter.SwitchLow(s) ==> r.collector.armLeft.value == -1.0 && r.collector.armRight.value == -1.0
    ensures !BoxLifter.SwitchLow(s) ==> r.collector.armLeft == m.collector.armLeft && r.collector.armRight == m.collector.armRight
    ensures r == m.(collector := r.collector) && r.collector.ram == m.collector.ram
  {
    var c := if BoxLifter.SwitchLow(s) then BoxCollector.SetArmMotorsSpitOut(m.collector) else m.collector;
    m.(collector := BoxCollector.SetRearMotorsSpitOut(c))
  }

  /** `suckBoxIn`: as `spitBoxOut`, the other way. */
  function SuckBoxIn(m: Manager, s: BoxLifter.Switches): (r: Manager)
    ensures r.collector.rearLeft.value == 1.0 && r.collector.rearRight.value == 1.0
    ensures BoxLifter.SwitchLow(s) ==> r.collector.armLeft.value == 1.0 && r.collector.armRight.value == 1.0
    ensures !BoxLifter.SwitchLow(s) ==> r.collector.armLeft == m.collector.armLeft && r.collector.armRight == m.collector.armRight
    ensures r == m.(collector := r.collector) && r.collector.ram == m.collector.ram
  {
    var c := if BoxLifter.SwitchLow(s) then BoxCollector.SetArmMotorsSuckIn(m.collector) else m.collector;
    m.(collector := BoxCollector.SetRearMotorsSuckIn(c))
  }

  /** `stopBoxSucker`: all four intake motors off. */
  function StopBoxSucker(m: Manager): (r: Manager)
    ensures IntakeStopped(r)
    ensures r == m.(collector := r.collector) && r.collector.ram == m.collector.ram
  {
    m.(collector := BoxCollector.SetRearMotorsStop(BoxCollector.SetArmMotorsStop(m.collector)))
  }

  predicate IntakeStopped(m: Manager) {
    m.collector.armLeft.value == 0.0 && m.collector.armRight.value == 0.0 &&
    m.collector.rearLeft.value == 0.0 && m.collector.rearRight.value == 0.0
  }

  // -------------------------------------------------------- collector, teleop

  /** A trigger counts only when pulled all the way: `getTriggerAxis == 1`. */
  predicate Pulled(axis: real) { axis == 1.0 }

  function CollectorGo(m: Manager, next: CollectorState): Manager {
    m.(collectorPrevious := Some(m.collectorState), collectorState := next)
  }

  /** The collector half of `run`. BEGIN opens the arms, stops the intake
      and rests. REST sucks in on the right trigger and spits out on the
      left one, but does nothing when both are pulled. SUCK_IN and SPIT_OUT
      stop everything and rest as soon as their trigger is not fully
      pulled. */
  function RunCollector(m: Manager, inp: Inputs): (r: Manager)
    ensures r.lifter == m.lifter && r.lifterState == m.lifterState && r.lifterPrevious == m.lifterPrevious
    ensures r.collectorState == Rest ==> IntakeStopped(r) || (m.collectorState == Rest && r.collector == m.collector)
    ensures m.collectorState == Rest && Pulled(inp.buttons.rightTrigger) && Pulled(inp.buttons.leftTrigger) ==> r == m
    ensures m.collectorState == Rest && !Pulled(inp.buttons.rightTrigger) && !Pulled(inp.buttons.leftTrigger) ==> r == m
    ensures r.collectorState == SuckIn && m.collectorState != SuckIn ==> r.collector == SuckBoxIn(m, inp.switches).collector
    ensures r.collectorState == SpitOut && m.collectorState != SpitOut ==> r.collector == SpitBoxOut(m, inp.switches).collector
    ensures r.collectorState == m.collectorState ==> r == m
  {
    var b := inp.buttons;
    match m.collectorState
    case Begin =>
      var c := BoxCollector.SetRearMotorsStop(BoxCollector.SetArmMotorsStop(BoxCollector.ArmsExtend(m.collector)));
      m.(collector := c, collectorState := Rest, collectorPrevious := Some(Begin))
    case Rest =>
      if Pulled(b.rightTrigger) && Pulled(b.leftTrigger) then m
      else if Pulled(b.rightTrigger) then CollectorGo(SuckBoxIn(m, inp.switches), SuckIn)
      else if Pulled(b.leftTrigger) then CollectorGo(SpitBoxOut(m, inp.switches), SpitOut)
      else m
    case SuckIn =>
      if Pulled(b.rightTrigger) then m else CollectorGo(StopBoxSucker(m), Rest)
    case SpitOut =>
      if Pulled(b.leftTrigger) then m else CollectorGo(StopBoxSucker(m), Rest)
  }

  /** The collector's states follow the triggers: from REST exactly one
      fully pulled trigger starts the matching action, and an action ends
      the moment its trigger eases off. */
  lemma CollectorFollowsTriggers(m: Manager, inp: Inputs)
    ensures var r := RunCollector(m, inp);
            var right := Pulled(inp.buttons.rightTrigger);
            var left := Pulled(inp.buttons.leftTrigger);
            (m.collectorState == Rest ==>
               r.collectorState == (if right && !left then SuckIn else if left && !right then SpitOut else Rest)) &&
            (m.collectorState == SuckIn ==> r.collectorState == (if right then SuckIn else Rest)) &&
            (m.collectorState == SpitOut ==> r.collectorState == (if left then SpitOut else Rest)) &&
            (m.collectorState == Begin ==> r.collectorState == Rest && IntakeStopped(r) &&
                                           BoxCollector.ArmsExtended(r.collector))
    ensures var r := RunCollector(m, inp);
            var right := Pulled(inp.buttons.rightTrigger);
            var left := Pulled(inp.buttons.leftTrigger);
            var low := BoxLifter.SwitchLow(inp.switches);
            (m.collectorState == Rest && right && !left ==>
               r.collector.rearLeft.value == 1.0 && r.collector.rearRight.value == 1.0 &&
               (low ==> r.collector.armLeft.value == 1.0 && r.collector.armRight.value == 1.0) &&
               (!low ==> r.collector.armLeft == m.collector.armLeft && r.collector.armRight == m.collector.armRight) &&
               r.collector.ram == m.collector.ram) &&
            (m.collectorState == Rest && left && !right ==>
               r.collector.rearLeft.value == -1.0 && r.collector.rearRight.value == -1.0 &&
               (low ==> r.collector.armLeft.value == -1.0 && r.collector.armRight.value == -1.0) &&
               (!low ==> r.collector.armLeft == m.collector.armLeft && r.collector.armRight == m.collector.armRight) &&
               r.collector.ram == m.collector.ram) &&
            ((m.collectorState == SuckIn && !right) || (m.collectorState == SpitOut && !left) ==>
               IntakeStopped(r) && r.collector.ram == m.collector.ram)
  {
  }

  /** A trigger short of fully pulled is the same as a released one. */
  lemma PartialTriggerIgnored(m: Manager, inp: Inputs, right: real, left: real)
    requires right < 1.0 && left < 1.0
    requires m.collectorState == Rest
    ensures RunCollector(m, inp.(buttons := inp.buttons.(rightTrigger := right, leftTrigger := left))) == m
  {
  }

  // ----------------------------------------------------------- lifter, teleop

  /** The lifter's own `rise`, `lower` and `stop`, applied to the managed lifter. */
  function LifterRise(m: Manager): Manager { m.(lifter := BoxLifter.Rise(m.lifter)) }
  function LifterLower(m: Manager): Manager { m.(lifter := BoxLifter.Lower(m.lifter)) }
  function LifterStop(m: Manager): Manager { m.(lifter := BoxLifter.Stop(m.lifter)) }

  function LifterGo(m: Manager, next: BoxLifter.State, from: BoxLifter.State): Manager {
    m.(lifterState := next, lifterPrevious := Some(from))
  }

  /** The lifter half of `run`. It follows `BoxLifter.run`, with three
      differences: leaving BEGIN for LOW opens the arms and for HIGH or
      MIDDLE closes them; leaving MIDDLE upwards closes the arms and
      downwards opens them; and MANUAL lowering reads the low switch the
      right way round (pressed: stop in LOW; released: stop in IDLE once
      the left bumper is let go), while MANUAL lifting keeps the inverted
      test of the high switch. */
  function RunLifter(m: Manager, inp: Inputs): (r: Result<Manager>)
    ensures r.Failure? <==> m.lifterState == BoxLifter.Begin && m.lifter.mode == BoxLifter.Manual &&
                            !BoxLifter.SwitchLow(inp.switches) && !BoxLifter.SwitchHigh(inp.switches)
    ensures r.Success? ==> r.value.collectorState == m.collectorState && r.value.lifter.mode == m.lifter.mode
    ensures r.Success? && LifterMotorMatches(m) ==> LifterMotorMatches(r.value)
  {
    var s := inp.switches;
    var b := inp.buttons;
    match m.lifterState
    case Begin =>
      var stopped := LifterStop(m).(lifterPrevious := Some(BoxLifter.Begin));
      if BoxLifter.SwitchLow(s) then Success(ArmDeploy(stopped).(lifterState := BoxLifter.Low))
      else if BoxLifter.SwitchHigh(s) then Success(ArmRetract(stopped).(lifterState := BoxLifter.High))
      else
        var middle :- BoxLifter.SwitchMiddle(m.lifter, s);
        if middle then Success(ArmRetract(stopped).(lifterState := BoxLifter.Middle))
        else Success(stopped.(lifterState := BoxLifter.Idle))
    case Idle =>
      if b.rightBumper then Success(LifterGo(LifterRise(m), BoxLifter.Lifting, BoxLifter.Idle))
      else if b.leftBumper then Success(LifterGo(LifterLower(m), BoxLifter.Lowering, BoxLifter.Idle))
      else Success(m)
    case Lowering =>
      if m.lifter.mode == BoxLifter.Automatic then
        var middle := BoxLifter.SwitchMiddle(m.lifter, s).value;
        if middle && m.lifterPrevious != Some(BoxLifter.Middle) then
          Success(LifterGo(LifterStop(m), BoxLifter.Middle, BoxLifter.Lowering))
        else if BoxLifter.SwitchLow(s) then
          Success(LifterGo(LifterStop(m), BoxLifter.Low, BoxLifter.Lowering))
        else Success(m)
      else if BoxLifter.SwitchLow(s) then
        Success(LifterGo(LifterStop(m), BoxLifter.Low, BoxLifter.Lowering))
      else if !b.leftBumper then
        Success(LifterGo(LifterStop(m), BoxLifter.Idle, BoxLifter.Lowering))
      else Success(m)
    case Lifting =>
      if m.lifter.mode == BoxLifter.Automatic then
        var middle := BoxLifter.SwitchMiddle(m.lifter, s).value;
        if middle && m.lifterPrevious != Some(BoxLifter.Middle) then
          Success(LifterGo(LifterStop(m), BoxLifter.Middle, BoxLifter.Lifting))
        else if BoxLifter.SwitchHigh(s) then
          Success(LifterGo(LifterStop(m), BoxLifter.High, BoxLifter.Lifting))
        else Success(m)
      else if BoxLifter.SwitchHigh(s) then
        if !b.rightBumper then Success(LifterGo(LifterStop(m), BoxLifter.Idle, BoxLifter.Lifting))
        else Success(m)
      else
        Success(LifterGo(LifterStop(m), BoxLifter.High, BoxLifter.Lifting))
    case Low =>
      if b.rightBumper then Success(LifterGo(LifterRise(m), BoxLifter.Lifting, BoxLifter.Low))
      else Success(m)
    case Middle =>
      if b.rightBumper then
        Success(LifterGo(ArmRetract(LifterRise(m)), BoxLifter.Lifting, BoxLifter.Middle))
      else if b.leftBumper then
        Success(LifterGo(ArmDeploy(LifterLower(m)), BoxLifter.Lowering, BoxLifter.Middle))
      else Success(m)
    case High =>
      if b.leftBumper then Success(LifterGo(LifterLower(m), BoxLifter.Lowering, BoxLifter.High))
      else Success(m)
  }

  /** The lifter motor command implied by the manager's lifter state. */
  predicate LifterMotorMatches(m: Manager) {
    match m.lifterState
    case Begin => true
    case Lifting => m.lifter.motor.value == 1.0
    case Lowering => m.lifter.motor.value == -1.0
    case _ => m.lifter.motor.value == 0.0
  }

  /** `run`: the collector, then the lifter. */
  function Run(m: Manager, inp: Inputs): (r: Result<Manager>)
    ensures r.Failure? <==> m.lifterState == BoxLifter.Begin && m.lifter.mode == BoxLifter.Manual &&
                            !BoxLifter.SwitchLow(inp.switches) && !BoxLifter.SwitchHigh(inp.switches)
    ensures r.Success? && LifterMotorMatches(m) ==> LifterMotorMatches(r.value)
    ensures r.Success? ==> r.value.collectorState == RunCollector(m, inp).collectorState
  {
    RunLifter(RunCollector(m, inp), inp)
  }

  /** Which way the arms go when the lifter leaves BEGIN or MIDDLE: open
      when it settles low or heads down from the middle, closed when it
      settles high or in the middle or heads up from the middle. This holds
      in either mode; only a manual lifter leaving BEGIN away from both end
      switches can throw, on its missing middle switch. */
  lemma LifterMovesArms(m: Manager, inp: Inputs)
    requires m.lifterState == BoxLifter.Begin || m.lifterState == BoxLifter.Middle
    requires ArmsAgree(m)
    ensures m.lifter.mode == BoxLifter.Automatic || m.lifterState == BoxLifter.Middle ==> RunLifter(m, inp).Success?
    ensures RunLifter(m, inp).Success? ==>
            var r := RunLifter(m, inp).value;
            (r.lifterState in {BoxLifter.Low, BoxLifter.Lowering} ==> r.arms == Some(Deployed)) &&
            (r.lifterState in {BoxLifter.High, BoxLifter.Lifting} ==> r.arms == Some(Retracted)) &&
            (m.lifterState == BoxLifter.Begin && r.lifterState == BoxLifter.Middle ==> r.arms == Some(Retracted)) &&
            ArmsAgree(r)
  {
  }

  /** The parked states under the bumpers: with neither pressed nothing
      changes; from IDLE or MIDDLE the right bumper starts lifting and wins
      over the left, which starts lowering; LOW answers only the right
      bumper and HIGH only the left. Every move records where it came from. */
  lemma ParkedStatesFollowBumpers(m: Manager, inp: Inputs)
    requires m.lifterState in {BoxLifter.Idle, BoxLifter.Middle, BoxLifter.Low, BoxLifter.High}
    ensures RunLifter(m, inp).Success?
    ensures !inp.buttons.leftBumper && !inp.buttons.rightBumper ==> RunLifter(m, inp).value == m
    ensures inp.buttons.rightBumper && m.lifterState != BoxLifter.High ==>
              RunLifter(m, inp).value.lifterState == BoxLifter.Lifting &&
              RunLifter(m, inp).value.lifter.motor.value == 1.0
    ensures inp.buttons.leftBumper && !inp.buttons.rightBumper && m.lifterState != BoxLifter.Low ==>
              RunLifter(m, inp).value.lifterState == BoxLifter.Lowering &&
              RunLifter(m, inp).value.lifter.motor.value == -1.0
    ensures m.lifterState == BoxLifter.Low ==> RunLifter(m, inp).value.lifterState in {BoxLifter.Low, BoxLifter.Lifting}
    ensures m.lifterState == BoxLifter.High ==> RunLifter(m, inp).value.lifterState in {BoxLifter.High, BoxLifter.Lowering}
    ensures RunLifter(m, inp).value.lifterState != m.lifterState ==>
              RunLifter(m, inp).value.lifterPrevious == Some(m.lifterState)
  {
  }

  /** Automatic travel: the lifter stops in MIDDLE when the middle switch is
      pressed, unless MIDDLE is where it has just come from; otherwise it
      runs on until the end switch in its direction is pressed. */
  lemma AutomaticTravel(m: Manager, inp: Inputs)
    requires m.lifter.mode == BoxLifter.Automatic
    requires m.lifterState == BoxLifter.Lowering || m.lifterState == BoxLifter.Lifting
    ensures RunLifter(m, inp).Success?
    ensures !inp.switches.middleRaw && m.lifterPrevious != Some(BoxLifter.Middle) ==>
              RunLifter(m, inp).value.lifterState == BoxLifter.Middle &&
              RunLifter(m, inp).value.lifter.motor.value == 0.0
    ensures (inp.switches.middleRaw || m.lifterPrevious == Some(BoxLifter.Middle)) &&
            m.lifterState == BoxLifter.Lowering ==>
              RunLifter(m, inp).value.lifterState ==
              (if BoxLifter.SwitchLow(inp.switches) then BoxLifter.Low else BoxLifter.Lowering)
    ensures (inp.switches.middleRaw || m.lifterPrevious == Some(BoxLifter.Middle)) &&
            m.lifterState == BoxLifter.Lifting ==>
              RunLifter(m, inp).value.lifterState ==
              (if BoxLifter.SwitchHigh(inp.switches) then BoxLifter.High else BoxLifter.Lifting)
    ensures RunLifter(m, inp).value.lifterState != m.lifterState ==>
              RunLifter(m, inp).value.lifter.motor.value == 0.0 &&
              RunLifter(m, inp).value.lifterPrevious == Some(m.lifterState)
  {
  }

  /** The manual branches as written: lowering stops at a pressed low
      switch, but lifting with the high switch released stops after one
      tick and claims HIGH, while with it pressed the lift keeps going until
      the right bumper is let go. */
  lemma ManualTravelAsWritten(m: Manager, inp: Inputs)
    requires m.lifter.mode == BoxLifter.Manual
    ensures m.lifterState == BoxLifter.Lowering && BoxLifter.SwitchLow(inp.switches) ==>
              RunLifter(m, inp).Success? && RunLifter(m, inp).value.lifterState == BoxLifter.Low
    ensures m.lifterState == BoxLifter.Lowering && !BoxLifter.SwitchLow(inp.switches) ==>
              RunLifter(m, inp).Success? &&
              RunLifter(m, inp).value.lifterState == (if inp.buttons.leftBumper then BoxLifter.Lowering else BoxLifter.Idle)
    ensures m.lifterState == BoxLifter.Lifting && !BoxLifter.SwitchHigh(inp.switches) ==>
              RunLifter(m, inp).Success? && RunLifter(m, inp).value.lifterState == BoxLifter.High
    ensures m.lifterState == BoxLifter.Lifting && BoxLifter.SwitchHigh(inp.switches) ==>
              RunLifter(m, inp).Success? &&
              RunLifter(m, inp).value.lifterState == (if inp.buttons.rightBumper then BoxLifter.Lifting else BoxLifter.Idle)
  {
  }

  // ------------------------------------------------------------------ tests

  /** The timed collector test, stepped once `SUCK_IN` is reached: arms
      spit from the start time, stop 2 s later, the rear motors suck at
      +4 s and spit at +6 s, and at +8 s the test rests with the rear
      stopped and the arms closed. Before the start time nothing happens. */
  function CollectorSuckInTest(m: Manager, now: real): (r: Manager)
    ensures now >= m.testTime + 8.0 ==>
              r.collectorState == Rest && r.arms == Some(Retracted) &&
              r.collector.rearLeft.value == 0.0 && r.collector.rearRight.value == 0.0
    ensures now < m.testTime + 8.0 ==> r.collectorState == m.collectorState && r.arms == m.arms
    ensures m.testTime + 6.0 <= now < m.testTime + 8.0 ==> r.collector.rearLeft.value == -1.0
    ensures m.testTime + 4.0 <= now < m.testTime + 6.0 ==> r.collector.rearLeft.value == 1.0
    ensures m.testTime + 2.0 <= now < m.testTime + 4.0 ==> r.collector.armLeft.value == 0.0
    ensures m.testTime <= now < m.testTime + 2.0 ==> r.collector.armLeft.value == -1.0
    ensures now < m.testTime ==> r == m
  {
    var c := m.collector;
    if now >= m.testTime + 8.0 then
      ArmRetract(m.(collector := BoxCollector.SetRearMotorsStop(c), collectorState := Rest,
                    collectorPrevious := Some(SuckIn)))
    else if now >= m.testTime + 6.0 then m.(collector := BoxCollector.SetRearMotorsSpitOut(c))
    else if now >= m.testTime + 4.0 then m.(collector := BoxCollector.SetRearMotorsSuckIn(c))
    else if now >= m.testTime + 2.0 then m.(collector := BoxCollector.SetArmMotorsStop(c))
    else if now >= m.testTime then m.(collector := BoxCollector.SetArmMotorsSpitOut(c))
    else m
  }

  /** `runTestBoxCollector`: BEGIN opens the arms, sucks with them and
      starts the clock 2 s ahead; SUCK_IN runs the timed steps; REST means
      done. */
  function RunTestCollector(m: Manager, now: real): (r: (Manager, bool))
    ensures r.1 <==> m.collectorState == Rest
    ensures r.0.lifterState == m.lifterState && r.0.lifter == m.lifter
    ensures m.collectorState == Begin ==>
              r.0.collectorState == SuckIn && r.0.testTime == now + 2.0 &&
              BoxCollector.ArmsExtended(r.0.collector) && r.0.collector.armLeft.value == 1.0
  {
    match m.collectorState
    case Begin =>
      var c := BoxCollector.ArmsExtend(BoxCollector.SetArmMotorsSuckIn(m.collector));
      (m.(collector := c, collectorState := SuckIn, collectorPrevious := Some(Begin), testTime := now + 2.0), false)
    case Rest => (m, true)
    case SuckIn => (CollectorSuckInTest(m, now), false)
    case SpitOut => (m, false)
  }

  /** `runTestBoxLifter`, the same route as `BoxLifter.runTest`, opening the
      arms as it starts. */
  function RunTestLifter(m: Manager, s: BoxLifter.Switches): (r: Result<(Manager, bool)>)
    ensures r.Failure? <==> m.lifterState == BoxLifter.Lowering && m.lifterPrevious == Some(BoxLifter.High) &&
                            m.lifter.mode == BoxLifter.Manual
    ensures r.Success? ==> (r.value.1 <==> m.lifterState == BoxLifter.Middle)
    ensures r.Success? && LifterMotorMatches(m) ==> LifterMotorMatches(r.value.0)
    ensures r.Success? ==> r.value.0.collectorState == m.collectorState
    ensures m.lifterState == BoxLifter.Begin ==>
              r.Success? && r.value.0.arms == Some(Deployed) && r.value.0.collector.ram.Reverse? &&
              r.value.0.lifterPrevious == Some(BoxLifter.Begin) &&
              r.value.0.lifterState == (if BoxLifter.SwitchLow(s) then BoxLifter.Lifting else BoxLifter.Lowering)
    ensures m.lifterState == BoxLifter.Lowering && m.lifterPrevious != Some(BoxLifter.High) &&
            BoxLifter.SwitchLow(s) ==>
              r.Success? && r.value.0.lifterState == BoxLifter.Lifting &&
              r.value.0.lifterPrevious == Some(BoxLifter.Low)
  {
    match m.lifterState
    case Begin =>
      var stopped := ArmDeploy(LifterStop(m)).(lifterPrevious := Some(BoxLifter.Begin));
      if BoxLifter.SwitchLow(s) then Success((LifterRise(stopped).(lifterState := BoxLifter.Lifting), false))
      else Success((LifterLower(stopped).(lifterState := BoxLifter.Lowering), false))
    case Lifting =>
      if BoxLifter.SwitchHigh(s) then
        Success((LifterGo(LifterLower(m), BoxLifter.Lowering, BoxLifter.High), false))
      else Success((m, false))
    case Lowering =>
      if m.lifterPrevious == Some(BoxLifter.High) then
        var middle :- BoxLifter.SwitchMiddle(m.lifter, s);
        if middle then Success((LifterGo(LifterStop(m), BoxLifter.Middle, BoxLifter.Lowering), false))
        else Success((m, false))
      else if BoxLifter.SwitchLow(s) then
        Success((LifterGo(LifterRise(m), BoxLifter.Lifting, BoxLifter.Low), false))
      else Success((m, false))
    case Middle => Success((m, true))
    case _ => Success((m, false))
  }

  /** The manager's lifter test takes the same steps as the lifter's own
      `runTest`, run on a lifter in the manager's lifter state: it throws in
      the same case and otherwise reaches the same state, previous state
      and motor command. So the manager's test follows the route of
      `BoxLifter.TestRouteFromBegin`: down to the low switch, up to the
      high switch, down to the middle switch. */
  lemma TestLifterAgrees(m: Manager, s: BoxLifter.Switches)
    ensures var l := m.lifter.(state := m.lifterState, previous := m.lifterPrevious);
            (RunTestLifter(m, s).Success? <==> BoxLifter.RunTest(l, s).Success?) &&
            (RunTestLifter(m, s).Success? ==>
               RunTestLifter(m, s).value.0.lifterState == BoxLifter.RunTest(l, s).value.0.state &&
               RunTestLifter(m, s).value.0.lifterPrevious == BoxLifter.RunTest(l, s).value.0.previous &&
               RunTestLifter(m, s).value.0.lifter.motor == BoxLifter.RunTest(l, s).value.0.motor &&
               RunTestLifter(m, s).value.1 == BoxLifter.RunTest(l, s).value.1)
  {
  }

  /** `runTest`: the lifter test runs only once the collector test rests,
      and the whole test is done only with the collector in REST and the
      lifter in MIDDLE. */
  function RunTest(m: Manager, now: real, s: BoxLifter.Switches): (r: Result<(Manager, bool)>)
    ensures m.collectorState != Rest ==> r == Success(RunTestCollector(m, now))
    ensures r.Success? ==> (r.value.1 <==> m.collectorState == Rest && m.lifterState == BoxLifter.Middle)
    ensures r.Success? && LifterMotorMatches(m) ==> LifterMotorMatches(r.value.0)
  {
    var (m1, collectorDone) := RunTestCollector(m, now);
    if !collectorDone then Success((m1, false))
    else
      var (m2, lifterDone) :- RunTestLifter(m1, s);
      if !lifterDone then Success((m2, false)) else Success((m2, true))
  }

  /** Run from BEGIN with the clock at t0, the collector test reaches REST
      with the arms closed on the first tick at or after t0 + 10 s. */
  lemma CollectorTestTimeline(m: Manager, t0: real, t1: real)
    requires m.collectorState == Begin && t1 >= t0 + 10.0
    ensures var m1 := RunTestCollector(m, t0).0;
            var m2 := RunTestCollector(m1, t1).0;
            m1.collectorState == SuckIn && m2.collectorState == Rest && m2.arms == Some(Retracted) &&
            RunTestCollector(m2, t1).1
  {
  }

  // ---------------------------------------------------------- reset, initTest

  /** `reset`: each current state becomes the previous one and both
      machines restart from BEGIN. */
  function Reset(m: Manager): (r: Manager)
    ensures r.collectorState == Begin && r.lifterState == BoxLifter.Begin
    ensures r.collectorPrevious == Some(m.collectorState) && r.lifterPrevious == Some(m.lifterState)
    ensures r.collector == m.collector && r.lifter == m.lifter && r.arms == m.arms
  {
    m.(collectorPrevious := Some(m.collectorState), collectorState := Begin,
       lifterPrevious := Some(m.lifterState), lifterState := BoxLifter.Begin)
  }

  /** `initTest`: both machines back to BEGIN, previous states untouched. */
  function InitTest(m: Manager): (r: Manager)
    ensures r.collectorState == Begin && r.lifterState == BoxLifter.Begin
    ensures r == m.(collectorState := Begin, lifterState := BoxLifter.Begin)
  {
    m.(collectorState := Begin, lifterState := BoxLifter.Begin)
  }

  /** Reset and initTest restart the same machines; they differ only in the
      previous states they leave behind. After either, the next teleop tick
      stops the lifter motor and brings the collector to REST with the
      intake stopped. */
  lemma RestartsAgree(m: Manager, inp: Inputs)
    ensures Reset(m).(collectorPrevious := m.collectorPrevious, lifterPrevious := m.lifterPrevious) == InitTest(m)
    ensures Run(InitTest(m), inp).Success? ==>
              Run(InitTest(m), inp).value.lifter.motor.value == 0.0 &&
              Run(InitTest(m), inp).value.collectorState == Rest && IntakeStopped(Run(InitTest(m), inp).value)
  {
  }
}
