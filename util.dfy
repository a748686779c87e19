/** Shared vocabulary: optional values, the Python exceptions the core raises,
    real-number helpers, ASCII upper-casing, and the two abstract numeric
    primitives (pi and sqrt) the robot code takes from Python's `math`. */
module Util {

  datatype Option<T> = None | Some(value: T)

  /** A value, or the exception raised instead of producing it. */
  datatype Result<T> = Ok(value: T) | Err(error: ErrorKind)

  /** The exception classes the modelled code raises or lets escape. */
  datatype ErrorKind =
    | TypeError
    | ValueError
    | KeyError
    | IndexError
    | ZeroDivisionError
    | AssertionError
    | AttributeError

  type PosReal = r: real | r > 0.0 witness 1.0

  /** `math.pi`, kept abstract: only its positivity is known. */
  const Pi: PosReal

  /** The contract `math.sqrt` is trusted to meet on non-negative arguments. */
  ghost predicate IsSqrt(sqrt: real -> real) {
    forall x: real {:trigger sqrt(x)} :: x >= 0.0 ==> sqrt(x) >= 0.0 && sqrt(x) * sqrt(x) == x
  }

  function Abs(x: real): real {
    if x < 0.0 then -x else x
  }

  function Max(a: real, b: real): real {
    if a >= b then a else b
  }

  function Min(a: real, b: real): real {
    if a <= b then a else b
  }

  /** `math.radians` */
  function Radians(degrees: real): real {
    degrees * Pi / 180.0
  }

  function UpperChar(c: char): char {
    if 'a' <= c <= 'z' then (c as int - 'a' as int + 'A' as int) as char else c
  }

  /** Python's `str.upper()`, restricted to ASCII letters. */
  function Upper(s: string): (u: string)
    ensures |u| == |s|
    ensures forall i :: 0 <= i < |s| ==> u[i] == UpperChar(s[i])
  {
    if s == [] then [] else [UpperChar(s[0])] + Upper(s[1..])
  }
}
