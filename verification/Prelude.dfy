/** Stock types shared by every module of the model. */
module Prelude {

  datatype Option<+T> = None | Some(value: T) {
    function GetOr(default: T): T {
      match this
      case Some(v) => v
      case None => default
    }
  }

  /** What a foreign call reports: the device took the value, refused it, or the call raised. */
  datatype Outcome = Accepted | Refused | Raised

  function Max(x: int, y: int): int {
    if x > y then x else y
  }

  function Min(x: int, y: int): int {
    if x < y then x else y
  }

  function Clamp(low: int, high: int, x: int): int {
    Max(low, Min(high, x))
  }

  function Abs(x: int): nat {
    if x < 0 then -x else x
  }

  function RealMax(x: real, y: real): real {
    if x > y then x else y
  }

  function RealMin(x: real, y: real): real {
    if x < y then x else y
  }

  function RealAbs(x: real): real {
    if x < 0.0 then -x else x
  }

  /** Python's `int()` on a float: truncation toward zero. */
  function Trunc(x: real): (t: int)
    ensures RealAbs(t as real) <= RealAbs(x) < RealAbs(t as real) + 1.0
    ensures x >= 0.0 ==> t >= 0
    ensures x <= 0.0 ==> t <= 0
  {
    if x >= 0.0 then x.Floor else -((-x).Floor)
  }

  /** Python's `round()` on a float: to the nearest integer, ties to the even one. */
  function Round(x: real): (r: int)
    ensures RealAbs(r as real - x) <= 0.5
    ensures RealAbs(r as real - x) == 0.5 ==> r % 2 == 0
  {
    var f := x.Floor;
    var rest := x - f as real;
    if rest < 0.5 then f
    else if rest > 0.5 then f + 1
    else if f % 2 == 0 then f else f + 1
  }
}
