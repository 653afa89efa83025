/** The MA3 10-bit absolute encoder read through a 12-bit analog input: raw
    counts are rescaled to the encoder's 0..1023 range with Java integer
    arithmetic and then to degrees with double arithmetic. */
module MA3Encoder {
  import opened JavaSemantics
  import PidLoop

  /** What `AnalogInput.getValue()` can return: a 12-bit count. */
  type AnalogValue = x: int | 0 <= x <= 4095

  const InMin: int := 6
  const InMax: int := 4037
  const OutMin: int := 0
  const OutMax: int := 1023

  /** The encoder's own state: `angleLast` is initialised to 0 and never
      assigned again; the PID source type is only stored and read back. */
  datatype Encoder = Encoder(angleLast: int, pidSource: PidLoop.SourceType)

  function New(): Encoder {
    Encoder(0, PidLoop.Displacement)
  }

  function SetPidSourceType(e: Encoder, source: PidLoop.SourceType): (r: Encoder)
    ensures r.pidSource == source && r.angleLast == e.angleLast
  {
    e.(pidSource := source)
  }

  /** `map`: the linear rescale of [6, 4037] onto [0, 1023], divided the Java
      way (toward zero). Inputs are 12-bit, so the product never overflows. */
  function Map(x: AnalogValue): (v: int)
    ensures x >= InMin ==> v == (x - InMin) * (OutMax - OutMin) / (InMax - InMin) + OutMin
    ensures x < InMin ==> v == -(((InMin - x) * (OutMax - OutMin)) / (InMax - InMin)) + OutMin
  {
    TruncDivByPositive((x - InMin) * (OutMax - OutMin), InMax - InMin);
    TruncDiv((x - InMin) * (OutMax - OutMin), InMax - InMin) + OutMin
  }

  /** `toAngle`: the linear rescale of [0, 1023] onto [0, 359] in doubles. */
  function ToAngle(v: real): real {
    (v - 0.0) * (359.0 - 0.0) / (1023.0 - 0.0) + 0.0
  }

  /** `getAngle`: raw count to degrees. */
  function GetAngle(raw: AnalogValue): real {
    ToAngle(Map(raw) as real)
  }

  /** `getDirection`: whether the angle exceeds `angleLast`. */
  function GetDirection(e: Encoder, raw: AnalogValue): bool {
    (e.angleLast as real) < GetAngle(raw)
  }

  /** The calibration end points land on the end points of the encoder range. */
  lemma MapEndPoints()
    ensures Map(InMin) == OutMin && Map(InMax) == OutMax
  {
  }

  /** Below the calibration range the truncating division rounds toward zero:
      raw 0 maps to -1, where floor division would give -2; above it nothing
      clamps, so raw 4095 maps to 1037. */
  lemma MapOutsideCalibration()
    ensures Map(0) == -1 && Map(4095) == 1037
    ensures ((0 - InMin) * (OutMax - OutMin)) / (InMax - InMin) == -2
  {
  }

  lemma {:induction false} MapMonotone(x1: AnalogValue, x2: AnalogValue)
    requires x1 <= x2
    ensures Map(x1) <= Map(x2)
  {
    TruncDivMonotone((x1 - InMin) * (OutMax - OutMin), (x2 - InMin) * (OutMax - OutMin), InMax - InMin);
  }

  /** Every raw read inside the calibration range maps into [0, 1023]. */
  lemma {:induction false} MapRange(x: AnalogValue)
    requires InMin <= x <= InMax
    ensures OutMin <= Map(x) <= OutMax
  {
    MapMonotone(InMin, x);
    MapMonotone(x, InMax);
    MapEndPoints();
  }

  lemma ToAngleEndPoints()
    ensures ToAngle(0.0) == 0.0 && ToAngle(1023.0) == 359.0
  {
  }

  lemma ToAngleMonotone(v1: real, v2: real)
    requires v1 <= v2
    ensures ToAngle(v1) <= ToAngle(v2)
  {
  }

  /** Inside the calibration range the reported angle lies in [0, 359]. */
  lemma {:induction false} GetAngleRange(raw: AnalogValue)
    requires InMin <= raw <= InMax
    ensures 0.0 <= GetAngle(raw) <= 359.0
  {
    MapRange(raw);
    ToAngleMonotone(0.0, Map(raw) as real);
    ToAngleMonotone(Map(raw) as real, 1023.0);
  }

  /** Because `angleLast` stays 0, `getDirection` only says whether the angle
      is positive, which happens exactly from raw count 10 upwards. */
  lemma {:induction false} DirectionOfNewEncoder(raw: AnalogValue)
    ensures GetDirection(New(), raw) <==> GetAngle(raw) > 0.0
    ensures GetDirection(New(), raw) <==> raw >= 10
  {
    if raw >= 10 {
      MapMonotone(10, raw);
      assert Map(10) == 1;
    } else {
      MapMonotone(raw, 9);
      assert Map(9) == 0;
    }
  }
}
