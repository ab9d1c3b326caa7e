/** Small shared vocabulary: optional values, error results, real arithmetic and
    the six-digit rounding the investigation code applies to confidences. */
module Prelude {

  datatype Option<+T> = None | Some(value: T) {
    function GetOr(default_: T): T { if Some? then value else default_ }
  }

  datatype Result<+T, +E> = Ok(value: T) | Err(error: E)

  function Min(a: real, b: real): real { if a <= b then a else b }

  function Max(a: real, b: real): real { if a >= b then a else b }

  function Abs(a: real): real { if a < 0.0 then -a else a }

  /** `part / whole if whole else 0`. */
  function Ratio(part: nat, whole: nat): real { if whole == 0 then 0.0 else part as real / whole as real }

  lemma NonNegativeProduct(a: real, b: real)
    requires a >= 0.0 && b >= 0.0
    ensures a * b >= 0.0
  {
  }

  /** `max(0.0, min(1.0, x))`. */
  function Clamp01(x: real): (r: real)
    ensures 0.0 <= r <= 1.0
  {
    Max(0.0, Min(1.0, x))
  }

  /** Nearest integer, ties to even: Python's `round` on an exact value. */
  function RoundHalfEven(x: real): int {
    var f := x.Floor;
    var d := x - f as real;
    if d < 0.5 then f
    else if d > 0.5 then f + 1
    else if f % 2 == 0 then f
    else f + 1
  }

  /** `round(x, 6)`. */
  function Round6(x: real): real {
    RoundHalfEven(x * 1000000.0) as real / 1000000.0
  }

  /** The result is one of the nearest integers, and the even one of two. */
  lemma RoundHalfEvenNearest(x: real)
    ensures -0.5 <= RoundHalfEven(x) as real - x <= 0.5
    ensures RoundHalfEven(x) as real - x == 0.5 || x - RoundHalfEven(x) as real == 0.5 ==> RoundHalfEven(x) % 2 == 0
  {
  }

  /** `round(x, 6)` is a multiple of a millionth and no further than half of one from `x`. */
  lemma Round6Nearest(x: real)
    ensures -0.0000005 <= Round6(x) - x <= 0.0000005
    ensures (Round6(x) * 1000000.0).Floor as real == Round6(x) * 1000000.0
  {
    var n := RoundHalfEven(x * 1000000.0);
    RoundHalfEvenNearest(x * 1000000.0);
    assert (n as real).Floor == n;
    assert Round6(x) * 1000000.0 == n as real;
  }

  lemma RoundHalfEvenMonotone(x: real, y: real)
    requires x <= y
    ensures RoundHalfEven(x) <= RoundHalfEven(y)
  {
    assert x.Floor <= y.Floor;
  }

  lemma RoundHalfEvenOfInt(n: int)
    ensures RoundHalfEven(n as real) == n
  {
  }

  lemma Round6Monotone(x: real, y: real)
    requires x <= y
    ensures Round6(x) <= Round6(y)
  {
    RoundHalfEvenMonotone(x * 1000000.0, y * 1000000.0);
  }

  lemma Round6Idempotent(x: real)
    ensures Round6(Round6(x)) == Round6(x)
  {
    var n := RoundHalfEven(x * 1000000.0);
    assert Round6(x) * 1000000.0 == n as real;
    RoundHalfEvenOfInt(n);
  }

  /** Multiples of a millionth are left alone. */
  lemma Round6OnGrid(n: int)
    ensures Round6(n as real / 1000000.0) == n as real / 1000000.0
  {
    assert n as real / 1000000.0 * 1000000.0 == n as real;
    RoundHalfEvenOfInt(n);
  }

  /** Rounding a value that was already capped and rounded changes nothing:
      the cap may be rounded upwards once, but only once. */
  lemma Round6Cap(x: real, cap: real)
    ensures Round6(Min(Round6(Min(x, cap)), cap)) == Round6(Min(x, cap))
  {
    var r := Round6(Min(x, cap));
    Round6Monotone(Min(x, cap), cap);
    Round6Idempotent(Min(x, cap));
    if r > cap {
      Round6Monotone(cap, r);
    }
  }
}
