/** Integer money. Amounts are whole rupees; a product of the form
    `Math.round(x * 0.1)` is the rounding of an exact fraction n/d. */
module Money {

  /** The floor of a / b, for either sign of b. */
  function FloorDiv(a: int, b: int): (q: int)
    requires b != 0
    ensures b > 0 ==> b * q <= a < b * q + b
    ensures b < 0 ==> b * q >= a > b * q + b
  {
    if b > 0 then a / b else (-a) / (-b)
  }

  /** `Math.round(n / d)`: the integer nearest to n/d, halves rounded up
      (towards positive infinity), i.e. floor(n/d + 1/2). */
  function Round(n: int, d: int): (r: int)
    requires d != 0
    ensures d > 0 ==> 2 * d * r - d <= 2 * n < 2 * d * r + d
    ensures d < 0 ==> 2 * d * r - d >= 2 * n > 2 * d * r + d
  {
    FloorDiv(2 * n + d, 2 * d)
  }

  function Max(a: int, b: int): (r: int)
    ensures r >= a && r >= b && (r == a || r == b)
  {
    if a >= b then a else b
  }

  function Min(a: int, b: int): (r: int)
    ensures r <= a && r <= b && (r == a || r == b)
  {
    if a <= b then a else b
  }

  /** `Math.round(x * 0.1)` for a whole-rupee amount x. */
  function TenPercent(x: int): (r: int)
    ensures 20 * r - 10 <= 2 * x < 20 * r + 10
    ensures x >= 0 ==> 0 <= r <= x
  {
    Round(x, 10)
  }

  /** `Math.round(x * 0.05)` for a whole-rupee amount x. */
  function FivePercent(x: int): (r: int)
    ensures 40 * r - 20 <= 2 * x < 40 * r + 20
    ensures x >= 0 ==> 0 <= r <= x
  {
    Round(x, 20)
  }
}
