/** The box intake: two motors on the arms and two at the rear, each pair
    mirror-mounted, and a double solenoid that opens and closes the arms.
    Every operation is a plain actuator command. */
module BoxCollector {
  import opened Actuators

  datatype Collector = Collector(
    armLeft: Motor, armRight: Motor,
    rearLeft: Motor, rearRight: Motor,
    ram: Solenoid)

  /** The constructor inverts the right-hand motor of each pair; the
      solenoid starts off. */
  function New(): (c: Collector)
    ensures c.armRight.inverted && c.rearRight.inverted
    ensures !c.armLeft.inverted && !c.rearLeft.inverted
    ensures c.ram == Off
  {
    Collector(Motor(0.0, false), Motor(0.0, true), Motor(0.0, false), Motor(0.0, true), Off)
  }

  /** `armsRetract`: the solenoid to kForward. */
  function ArmsRetract(c: Collector): (r: Collector)
    ensures r.ram == Forward && r == c.(ram := Forward)
  {
    c.(ram := Forward)
  }

  /** `armsExtend`: the solenoid to kReverse. */
  function ArmsExtend(c: Collector): (r: Collector)
    ensures r.ram == Reverse && r == c.(ram := Reverse)
  {
    c.(ram := Reverse)
  }

  /** `getArmsExtended`: only kReverse counts as extended. */
  predicate ArmsExtended(c: Collector) {
    c.ram == Reverse
  }

  /** Extending reads back as extended and retracting as not; a solenoid
      that was never set reads as not extended. */
  lemma ArmsReadBack(c: Collector)
    ensures ArmsExtended(ArmsExtend(c))
    ensures !ArmsExtended(ArmsRetract(c))
    ensures !ArmsExtended(New())
    ensures ArmsExtended(c) <==> c.ram != Forward && c.ram != Off
  {
  }

  function SetArmMotors(c: Collector, value: real): (r: Collector)
    ensures r.armLeft.value == value && r.armRight.value == value
    ensures r.rearLeft == c.rearLeft && r.rearRight == c.rearRight && r.ram == c.ram
    ensures r.armLeft.inverted == c.armLeft.inverted && r.armRight.inverted == c.armRight.inverted
  {
    c.(armLeft := Set(c.armLeft, value), armRight := Set(c.armRight, value))
  }

  function SetRearMotors(c: Collector, value: real): (r: Collector)
    ensures r.rearLeft.value == value && r.rearRight.value == value
    ensures r.armLeft == c.armLeft && r.armRight == c.armRight && r.ram == c.ram
    ensures r.rearLeft.inverted == c.rearLeft.inverted && r.rearRight.inverted == c.rearRight.inverted
  {
    c.(rearLeft := Set(c.rearLeft, value), rearRight := Set(c.rearRight, value))
  }

  function SetArmMotorsSuckIn(c: Collector): Collector { SetArmMotors(c, 1.0) }
  function SetArmMotorsSpitOut(c: Collector): Collector { SetArmMotors(c, -1.0) }
  function SetArmMotorsStop(c: Collector): Collector { SetArmMotors(c, 0.0) }
  function SetRearMotorsSuckIn(c: Collector): Collector { SetRearMotors(c, 1.0) }
  function SetRearMotorsSpitOut(c: Collector): Collector { SetRearMotors(c, -1.0) }
  function SetRearMotorsStop(c: Collector): Collector { SetRearMotors(c, 0.0) }

  /** The two motors of each pair turn opposite ways for the same command. */
  predicate Mirrored(c: Collector) {
    c.armLeft.inverted != c.armRight.inverted && c.rearLeft.inverted != c.rearRight.inverted
  }

  /** The constructor mirrors both pairs and no command changes that, so
      after any pair command the two sides drive equal and opposite
      outputs: for sucking in, the left motor forward and the right one
      backward. */
  lemma MirroredOutputs(c: Collector, value: real)
    requires Mirrored(c)
    ensures Mirrored(New())
    ensures Mirrored(SetArmMotors(c, value)) && Mirrored(SetRearMotors(c, value))
    ensures Mirrored(ArmsExtend(c)) && Mirrored(ArmsRetract(c))
    ensures Applied(SetArmMotors(c, value).armLeft) + Applied(SetArmMotors(c, value).armRight) == 0.0
    ensures Applied(SetRearMotors(c, value).rearLeft) + Applied(SetRearMotors(c, value).rearRight) == 0.0
    ensures var s := SetArmMotorsSuckIn(New()); Applied(s.armLeft) == 1.0 && Applied(s.armRight) == -1.0
  {
  }
}
