/** Small shared vocabulary: optional values, Python's exceptions as results, and
    the wall-clock instants every component reads. */
module Prelude {

  datatype Option<+T> = None | Some(value: T)

  /** The exceptions the modelled code raises on purpose or by arithmetic. */
  datatype Error = ValueError | DivisionByZero

  datatype Result<+T> = Ok(value: T) | Err(error: Error)

  /** One instant: absolute UTC seconds, plus the ET calendar day and the ET
      time of day (seconds after midnight) that the time-zone tables give for it. */
  datatype Moment = Moment(utc: int, etDate: int, etTime: int)

  /** Seconds after midnight of a wall-clock time. */
  function At(hours: nat, minutes: nat): nat {
    hours * 3600 + minutes * 60
  }

  function Max(a: real, b: real): real {
    if a >= b then a else b
  }

  function MaxInt(a: int, b: int): int {
    if a >= b then a else b
  }

  function MinInt(a: int, b: int): int {
    if a <= b then a else b
  }

  function Abs(x: real): real {
    if x < 0.0 then -x else x
  }

  /** Python's int(): truncation toward zero of a quotient by a positive divisor. */
  function TruncDiv(a: int, b: int): (q: int)
    requires b > 0
    ensures a >= 0 ==> 0 <= a - q * b < b
    ensures a < 0 ==> 0 <= q * b - a < b
  {
    if a >= 0 then a / b else -((-a) / b)
  }

  /** Decimal.quantize to an integer: round half to even. */
  function HalfEven(x: real): (n: int)
    ensures x - 0.5 <= n as real <= x + 0.5
    ensures x == x.Floor as real ==> n == x.Floor
    ensures x - x.Floor as real == 0.5 ==> n % 2 == 0
  {
    var below := x.Floor;
    var part := x - below as real;
    if part < 0.5 || (part == 0.5 && below % 2 == 0) then below else below + 1
  }

  function HalfEvenCents(x: real): real {
    HalfEven(x * 100.0) as real / 100.0
  }
}
