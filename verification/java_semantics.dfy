/** Java run-time behaviour the robot code relies on: references that may be
    null, the exceptions a null dereference or a bad string index raises, and
    Java's integer division and double-to-int cast, which both truncate toward
    zero (Dafny's own `/` on `int` is Euclidean). */
module JavaSemantics {

  /** A field that may still hold Java's `null`. */
  datatype Option<+T> = None | Some(value: T)

  /** The run-time exceptions the modelled code can raise. */
  datatype Fault =
    | NullPointer            // a switch on, or a call through, a null field
    | StringIndexOutOfBounds // String.charAt past the end

  /** Normal completion with a value, or an exception. */
  datatype Result<+T> = Success(value: T) | Failure(fault: Fault) {

    predicate IsFailure() {
      Failure?
    }

    function PropagateFailure<U>(): Result<U>
      requires Failure?
    {
      Failure(fault)
    }

    function Extract(): T
      requires Success?
    {
      value
    }
  }

  function Abs(x: int): nat {
    if x < 0 then -x else x
  }

  function AbsReal(x: real): real {
    if x < 0.0 then -x else x
  }

  /** Java's `a / b` on `int`: the quotient rounded toward zero, so that the
      remainder `a - q * b` is smaller than `b` in magnitude and takes the
      sign of the dividend (JLS 15.17.2). */
  function TruncDiv(a: int, b: int): (q: int)
    requires b != 0
    ensures Abs(a - q * b) < Abs(b)
    ensures a - q * b == 0 || (a - q * b < 0 <==> a < 0)
  {
    var q0 := Abs(a) / Abs(b);
    DivBounds(Abs(a), Abs(b));
    if (a < 0) == (b < 0) then q0 else -q0
  }

  lemma DivBounds(n: nat, d: nat)
    requires d > 0
    ensures 0 <= n - (n / d) * d < d
  {
  }

  /** Java's `(int) x` for a double `x` inside the int range: the integer
      part, rounded toward zero. */
  function TruncToInt(x: real): (n: int)
    ensures AbsReal(n as real) <= AbsReal(x) < AbsReal(n as real) + 1.0
    ensures n == 0 || (n < 0 <==> x < 0.0)
  {
    if x >= 0.0 then x.Floor else -((-x).Floor)
  }

  /** For a positive divisor, truncation is floor division on the magnitude
      of the dividend with the dividend's sign put back. */
  lemma TruncDivByPositive(a: int, b: int)
    requires b > 0
    ensures TruncDiv(a, b) == if a >= 0 then a / b else -((-a) / b)
  {
  }

  /** Truncating division by a positive divisor is monotone in the dividend. */
  lemma {:induction false} TruncDivMonotone(a1: int, a2: int, b: int)
    requires a1 <= a2 && b > 0
    ensures TruncDiv(a1, b) <= TruncDiv(a2, b)
  {
    TruncDivByPositive(a1, b);
    TruncDivByPositive(a2, b);
    if a1 >= 0 {
      DivMonotone(a1, a2, b);
    } else if a2 < 0 {
      DivMonotone(-a2, -a1, b);
    } else {
      assert -((-a1) / b) <= 0 <= a2 / b;
    }
  }

  lemma {:induction false} DivMonotone(n1: nat, n2: nat, d: nat)
    requires n1 <= n2 && d > 0
    ensures n1 / d <= n2 / d
  {
    if n1 / d > n2 / d {
      DivBounds(n1, d);
      DivBounds(n2, d);
      MulMonotone(n2 / d + 1, n1 / d, d);
      assert false;
    }
  }

  lemma MulMonotone(x: nat, y: nat, d: nat)
    requires x <= y
    ensures x * d <= y * d
  {
  }
}
