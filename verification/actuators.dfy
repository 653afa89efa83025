/** The WPILib actuators the mechanisms command: a speed controller, which
    remembers the last value set and whether it is inverted, and a double
    solenoid with its three positions. */
module Actuators {

  datatype Motor = Motor(value: real, inverted: bool)

  /** `SpeedController.set`: a new command; the inversion is kept. */
  function Set(m: Motor, value: real): (r: Motor)
    ensures r.value == value && r.inverted == m.inverted
  {
    m.(value := value)
  }

  /** The output the motor actually drives: the command, negated when the
      controller is inverted. */
  function Applied(m: Motor): (v: real)
    ensures m.inverted ==> v + m.value == 0.0
    ensures !m.inverted ==> v == m.value
  {
    if m.inverted then -m.value else m.value
  }

  /** `DoubleSolenoid.Value`: kOff, kForward, kReverse. */
  datatype Solenoid = Off | Forward | Reverse
}
