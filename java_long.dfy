/**
 * Java's 64-bit `long` arithmetic as the tracing plugin uses it: the value
 * range, two's-complement wrap-around of `+`/`-`, `/` truncating toward zero,
 * and `TimeUnit.MILLISECONDS.toNanos`, which saturates instead of wrapping.
 */
module JavaLong {

  const MinLong: int := -0x8000_0000_0000_0000
  const MaxLong: int := 0x7FFF_FFFF_FFFF_FFFF
  const Modulus: int := 0x1_0000_0000_0000_0000

  /** Values a Java `long` can hold. */
  type Long = x: int | MinLong <= x <= MaxLong

  /** Nanoseconds per millisecond. */
  const NanosPerMilli: int := 1_000_000

  /** The `long` that Java's `+` or `-` yields when the exact result is x. */
  function Wrap(x: int): (r: Long)
    ensures (x - r) % Modulus == 0
    ensures MinLong <= x <= MaxLong ==> r == x
  {
    (x - MinLong) % Modulus + MinLong
  }

  /** Java's `a / d` for a positive divisor: the quotient truncated toward zero. */
  function Div(a: int, d: int): (q: int)
    requires d > 0
    ensures 0 <= a ==> 0 <= q && q * d <= a < q * d + d
    ensures a < 0 ==> q <= 0 && q * d - d < a <= q * d
  {
    if a >= 0 then FloorBounds(a, d); a / d
    else FloorBounds(-a, d); -((-a) / d)
  }

  /** Bounds of Dafny's quotient for a non-negative dividend. */
  lemma FloorBounds(n: int, d: int)
    requires n >= 0 && d > 0
    ensures 0 <= n / d && (n / d) * d <= n < (n / d) * d + d
  {
    var q, m := n / d, n % d;
    assert n == d * q + m && 0 <= m < d;
    assert q * d == d * q;
  }

  /** The `long` nearest to x: x itself when it fits, else the bound it passes. */
  function Clamp(x: int): (r: Long)
  {
    if x > MaxLong then MaxLong else if x < MinLong then MinLong else x
  }

  /**
   * `TimeUnit.MILLISECONDS.toNanos(d)`: compares d against
   * `Long.MAX_VALUE / 1_000_000` and saturates instead of overflowing.
   */
  function MillisToNanos(d: Long): (r: Long)
    ensures r == Clamp(d * NanosPerMilli)
  {
    var limit := MaxLong / NanosPerMilli;
    if d > limit then MaxLong
    else if d < -limit then MinLong
    else d * NanosPerMilli
  }
}
