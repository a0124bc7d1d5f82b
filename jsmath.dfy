/** The JavaScript `Math` functions the components apply, on integers. */
module JsMath {

  function Max(a: int, b: int): int { if a >= b then a else b }

  function Min(a: int, b: int): int { if a <= b then a else b }

  function Abs(a: int): nat { if a < 0 then -a else a }

  /** `Math.ceil(a / b)` for a positive divisor: the least integer whose multiple of `b` reaches `a`. */
  function CeilDiv(a: int, b: int): (r: int)
    requires b > 0
    ensures b * (r - 1) < a <= b * r
    ensures a == 0 ==> r == 0
    ensures a > 0 ==> r >= 1
  {
    if a % b == 0 then a / b else a / b + 1
  }

  /** `Math.round(a / b)` for a positive divisor: the nearest integer, halves rounded up. */
  function RoundDiv(a: int, b: int): (r: int)
    requires b > 0
    ensures 2 * b * r - b <= 2 * a < 2 * b * r + b
  {
    (2 * a + b) / (2 * b)
  }
}
