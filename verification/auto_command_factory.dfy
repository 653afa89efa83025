/** The named autonomous commands. Turns are driven in place: each wheel
    points along the tangent of the circle through the four wheels and
    travels the arc `ROBOT_WIDTH * toRadians(degree)`. */
module AutoCommandFactory {
  import opened AutoCommand

  const RobotWidth: real := 32.5

  /** Java's `Math.PI`. */
  const Pi: real := 3.141592653589793

  /** `Math.toRadians`. */
  function ToRadians(degree: real): real {
    degree / 180.0 * Pi
  }

  function GoForward(distance: real): (c: Command)
    ensures c.distance == distance && c.directions == Uniform(180.0)
    ensures WellFormed(c)
  {
    Command(distance, [180.0, 180.0, 180.0, 180.0])
  }

  function GoBackward(distance: real): (c: Command)
    ensures c.distance == distance && c.directions == Uniform(0.0)
    ensures WellFormed(c)
  {
    Command(distance, [0.0, 0.0, 0.0, 0.0])
  }

  function TurnLeft(degree: real): (c: Command)
    ensures c.distance == RobotWidth * ToRadians(degree)
    ensures c.directions == [225.0, 315.0, 135.0, 45.0]
    ensures WellFormed(c)
  {
    Command(RobotWidth * ToRadians(degree), [360.0 - 135.0, 360.0 - 45.0, 135.0, 45.0])
  }

  function TurnRight(degree: real): (c: Command)
    ensures c.distance == RobotWidth * ToRadians(degree)
    ensures c.directions == [45.0, 135.0, 315.0, 225.0]
    ensures WellFormed(c)
  {
    Command(RobotWidth * ToRadians(degree), [45.0, 135.0, 360.0 - 45.0, 360.0 - 135.0])
  }

  function Stop(): (c: Command)
    ensures c.distance == 0.0 && c.directions == Uniform(0.0)
    ensures WellFormed(c)
  {
    Command(0.0, [0.0, 0.0, 0.0, 0.0])
  }

  function MoveLeft(distance: real): (c: Command)
    ensures c.distance == distance && c.directions == Uniform(90.0)
    ensures WellFormed(c)
  {
    Command(distance, [90.0, 90.0, 90.0, 90.0])
  }

  function MoveRight(distance: real): (c: Command)
    ensures c.distance == distance && c.directions == Uniform(270.0)
    ensures WellFormed(c)
  {
    Command(distance, [270.0, 270.0, 270.0, 270.0])
  }

  /** `command_Stop` is a zero-length backward drive. */
  lemma StopIsGoBackwardZero()
    ensures Stop() == GoBackward(0.0)
  {
  }

  /** The opposite pairs: backward reverses forward, right reverses left,
      for the sideways moves and for the turns alike. */
  lemma OppositePairs(distance: real, degree: real)
    ensures Reversed(GoForward(distance)) == GoBackward(distance)
    ensures Reversed(MoveLeft(distance)) == MoveRight(distance)
    ensures Reversed(TurnLeft(degree)) == TurnRight(degree)
  {
    assert Reversed(GoForward(distance)).directions == GoBackward(distance).directions;
    assert Reversed(MoveLeft(distance)).directions == MoveRight(distance).directions;
    assert Reversed(TurnLeft(degree)).directions == TurnRight(degree).directions;
  }

  /** The turn distance is an arc length: proportional to the angle, the
      same for both turn directions, and 2 * pi * width for a full turn. */
  lemma TurnDistanceLinear(a: real, b: real)
    ensures TurnLeft(a + b).distance == TurnLeft(a).distance + TurnLeft(b).distance
    ensures TurnRight(a).distance == TurnLeft(a).distance
    ensures TurnLeft(360.0).distance == 2.0 * Pi * RobotWidth
    ensures TurnLeft(0.0).distance == 0.0
  {
  }
}
