/** One step of an autonomous drive: how far every wheel travels and the
    direction each of the four wheels points in, front-left, front-right,
    rear-left, rear-right. The value is immutable: both parts are fixed when
    it is constructed and only read back afterwards. */
module AutoCommand {

  /** Exactly one direction per wheel. The constructor does not check the
      length of the array it is given, but every consumer reads entries 0
      to 3, so a shorter array is not a usable command. */
  type Quad = s: seq<real> | |s| == 4 witness [0.0, 0.0, 0.0, 0.0]

  datatype Command = Command(distance: real, directions: Quad)

  /** All four wheels pointing the same way. */
  function Uniform(direction: real): (q: Quad)
    ensures forall i :: 0 <= i < 4 ==> q[i] == direction
  {
    [direction, direction, direction, direction]
  }

  /** Every direction is an angle in [0, 360). */
  predicate WellFormed(c: Command) {
    forall i :: 0 <= i < 4 ==> 0.0 <= c.directions[i] < 360.0
  }

  /** The same angle half a turn away, kept in [0, 360). */
  function Opposite(angle: real): (r: real)
    requires 0.0 <= angle < 360.0
    ensures 0.0 <= r < 360.0
    ensures r == angle + 180.0 || r == angle - 180.0
  {
    if angle < 180.0 then angle + 180.0 else angle - 180.0
  }

  /** The command that drives every wheel the same distance the other way. */
  function Reversed(c: Command): (r: Command)
    requires WellFormed(c)
    ensures WellFormed(r) && r.distance == c.distance
    ensures forall i :: 0 <= i < 4 ==> r.directions[i] == Opposite(c.directions[i])
  {
    var d := c.directions;
    Command(c.distance, [Opposite(d[0]), Opposite(d[1]), Opposite(d[2]), Opposite(d[3])])
  }

  /** Reversing twice gives the command back. */
  lemma ReversedTwice(c: Command)
    requires WellFormed(c)
    ensures Reversed(Reversed(c)) == c
  {
    var r := Reversed(Reversed(c));
    assert r.directions == c.directions by {
      forall i | 0 <= i < 4
        ensures r.directions[i] == c.directions[i]
      {
      }
    }
  }
}
