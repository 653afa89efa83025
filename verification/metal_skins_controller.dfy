/** The driver's Xbox pad with the team's stick conditioning: a symmetric
    deadband, then optionally a sign-preserving square ("ramp"). The raw
    readings of the pad are an input snapshot. */
module MetalSkinsController {
  import opened JavaSemantics

  const DefaultPrecision: real := 0.15

  datatype Hand = LeftHand | RightHand

  /** Raw stick axes as `XboxController.getX/getY` report them, in [-1, 1]. */
  datatype Axes = Axes(leftX: real, leftY: real, rightX: real, rightY: real)

  /** Raw buttons and triggers (these pass through unconditioned). */
  datatype Buttons = Buttons(
    leftBumper: bool, rightBumper: bool,
    leftTrigger: real, rightTrigger: real,
    xButton: bool, yButton: bool)

  /** The conditioning settings: deadband half-width and ramp flag. */
  datatype Pad = Pad(precision: real, ramp: bool)

  function New(ramped: bool): (p: Pad)
    ensures p.precision == DefaultPrecision && p.ramp == ramped
  {
    Pad(DefaultPrecision, ramped)
  }

  function RawX(axes: Axes, hand: Hand): real {
    if hand == LeftHand then axes.leftX else axes.rightX
  }

  function RawY(axes: Axes, hand: Hand): real {
    if hand == LeftHand then axes.leftY else axes.rightY
  }

  function Deadband(precision: real, value: real): real {
    if value < precision && value > -precision then 0.0 else value
  }

  /** The conditioning shared by `getX` and `getY`. */
  function Condition(pad: Pad, value: real): (r: real)
    ensures -pad.precision < value < pad.precision ==> r == 0.0
    ensures !pad.ramp && !(-pad.precision < value < pad.precision) ==> r == value
    ensures pad.ramp ==> AbsReal(r) == Square(Deadband(pad.precision, value))
    ensures pad.ramp ==> (r < 0.0 <==> Deadband(pad.precision, value) < 0.0)
    ensures -1.0 <= value <= 1.0 ==> -1.0 <= r <= 1.0 && AbsReal(r) <= AbsReal(value)
  {
    var v := Deadband(pad.precision, value);
    if pad.ramp then
      SquareShrinks(v);
      SquarePositive(v);
      if v < 0.0 then -Square(v) else Square(v)
    else v
  }

  /** `Math.pow(x, n)` for a natural exponent. */
  function Pow(x: real, n: nat): real {
    if n == 0 then 1.0 else x * Pow(x, n - 1)
  }

  /** The squared magnitude of the ramp. */
  function Square(v: real): real {
    Pow(v, 2)
  }

  lemma PowOne(x: real)
    ensures Pow(x, 1) == x
  {
    assert Pow(x, 0) == 1.0;
  }

  lemma MulLe(a: real, b: real, c: real)
    requires a >= 0.0 && b <= c
    ensures a * b <= a * c
  {
  }

  lemma SquareEven(v: real)
    ensures Square(-v) == Square(v)
  {
    PowOne(v);
    PowOne(-v);
  }

  /** Squaring a value of magnitude at most 1 does not increase its magnitude. */
  lemma SquareShrinks(v: real)
    ensures -1.0 <= v <= 1.0 ==> Square(v) <= AbsReal(v) <= 1.0
  {
    if -1.0 <= v <= 1.0 {
      SquareEven(v);
      SquareShrinksOnUnit(AbsReal(v));
    }
  }

  lemma SquareShrinksOnUnit(m: real)
    requires 0.0 <= m <= 1.0
    ensures Square(m) <= m
  {
    PowOne(m);
    MulLe(m, Pow(m, 1), 1.0);
  }

  lemma SquarePositive(v: real)
    ensures Square(v) >= 0.0 && (v != 0.0 ==> Square(v) > 0.0)
  {
    PowOne(v);
  }

  lemma SquareMonotone(a: real, b: real)
    requires 0.0 <= a <= b
    ensures Square(a) <= Square(b)
  {
    PowOne(a);
    PowOne(b);
  }

  function GetX(pad: Pad, axes: Axes, hand: Hand): real {
    Condition(pad, RawX(axes, hand))
  }

  function GetY(pad: Pad, axes: Axes, hand: Hand): real {
    Condition(pad, RawY(axes, hand))
  }

  /** `getStickLeft`: [x, y] of the left stick, in that order. */
  function StickLeft(pad: Pad, axes: Axes): (s: seq<real>)
    ensures |s| == 2
    ensures s[0] == Condition(pad, axes.leftX) && s[1] == Condition(pad, axes.leftY)
  {
    [GetX(pad, axes, LeftHand), GetY(pad, axes, LeftHand)]
  }

  /** `getStickRight`: [x, y] of the right stick, in that order. */
  function StickRight(pad: Pad, axes: Axes): (s: seq<real>)
    ensures |s| == 2
    ensures s[0] == Condition(pad, axes.rightX) && s[1] == Condition(pad, axes.rightY)
  {
    [GetX(pad, axes, RightHand), GetY(pad, axes, RightHand)]
  }

  /** `setPercision`: a negative deadband is refused, anything else replaces
      the current one. */
  function SetPrecision(pad: Pad, value: real): (r: Pad)
    ensures value >= 0.0 ==> r.precision == value
    ensures value < 0.0 ==> r.precision == pad.precision
    ensures r.ramp == pad.ramp
    ensures pad.precision >= 0.0 ==> r.precision >= 0.0
  {
    if value >= 0.0 then pad.(precision := value) else pad
  }

  /** The X and Y axes are conditioned identically: equal raw readings give
      equal outputs, whichever axis and hand they come from. */
  lemma SameConditioning(pad: Pad, axes: Axes, h: Hand, axes': Axes, h': Hand)
    requires RawX(axes, h) == RawY(axes', h')
    ensures GetX(pad, axes, h) == GetY(pad, axes', h')
  {
  }

  /** Conditioning is odd: mirroring the stick mirrors the output. */
  lemma {:induction false} ConditionOdd(pad: Pad, value: real)
    ensures Condition(pad, -value) == -Condition(pad, value)
  {
    var v := Deadband(pad.precision, value);
    assert Deadband(pad.precision, -value) == -v;
    if pad.ramp {
      SquareEven(v);
    }
  }

  /** With a non-negative deadband, conditioning never reverses the order of
      two stick positions. */
  lemma {:induction false} ConditionMonotone(pad: Pad, v1: real, v2: real)
    requires pad.precision >= 0.0 && v1 <= v2
    ensures Condition(pad, v1) <= Condition(pad, v2)
  {
    var d1 := Deadband(pad.precision, v1);
    var d2 := Deadband(pad.precision, v2);
    assert d1 <= d2;
    if pad.ramp {
      if 0.0 <= d1 {
        SquareMonotone(d1, d2);
      } else if d2 < 0.0 {
        SquareEven(d1);
        SquareEven(d2);
        SquareMonotone(-d2, -d1);
      }
    }
  }
}
