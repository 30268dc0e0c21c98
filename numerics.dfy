/**
 * The C++ numeric conversions the effect stages rely on, written out over
 * Dafny's unbounded integers and reals, plus the facts about Euclidean `%`
 * that the ring-buffer proofs use.
 */
module Numerics {

  /** `std::vector::size()` yields a 64-bit `size_t`; unsigned arithmetic wraps modulo this value. */
  const SizeTModulus: int := 0x1_0000_0000_0000_0000

  /** The largest 32-bit `int`: ring sizes, delays and sample indices are `int`s. */
  const IntMax: int := 0x7fff_ffff

  /** A C++ `(int)` cast of a floating-point value: truncation toward zero. */
  function TruncateTowardZero(x: real): (r: int)
    ensures 0.0 <= x ==> 0 <= r && r as real <= x < r as real + 1.0
    ensures x < 0.0 ==> r <= 0 && r as real - 1.0 < x <= r as real
  {
    if x >= 0.0 then x.Floor else -((-x).Floor)
  }

  /** `juce::jlimit(lower, upper, value)`: the point of [lower, upper] nearest to `value`. */
  function Limit(lower: int, upper: int, value: int): (r: int)
    requires lower <= upper
    ensures lower <= r <= upper
    ensures r == value <==> lower <= value <= upper
    ensures forall y :: lower <= y <= upper ==> Distance(r, value) <= Distance(y, value)
  {
    if value < lower then lower else if upper < value then upper else value
  }

  function Distance(a: int, b: int): nat
  {
    if a <= b then b - a else a - b
  }

  lemma {:induction false} MulAtLeast(n: int, k: int)
    requires 0 < n && 1 <= k
    ensures n <= n * k
  {
    if k > 1 {
      MulAtLeast(n, k - 1);
      assert n * k == n * (k - 1) + n;
    }
  }

  /** Quotient and remainder are unique: any `x == n * q + r` with `0 <= r < n` fixes `x % n`. */
  lemma DivModUnique(x: int, n: int, q: int, r: int)
    requires 0 < n && 0 <= r < n && x == n * q + r
    ensures x % n == r
  {
    var k := q - x / n;
    assert n * k == x % n - r;
    if k >= 1 {
      MulAtLeast(n, k);
    } else if k <= -1 {
      MulAtLeast(n, -k);
    }
  }

  /** Reducing the left operand first does not change a sum's residue. */
  lemma ModAddLeft(a: int, b: int, n: int)
    requires 0 < n
    ensures (a % n + b) % n == (a + b) % n
  {
    DivModUnique(a % n + b, n, (a % n + b) / n, (a % n + b) % n);
    DivModUnique(a + b, n, (a % n + b) / n + a / n, (a % n + b) % n);
  }

  /** `%` on a value less than one modulus away from [0, n). */
  lemma ModNear(x: int, n: int)
    requires 0 < n && -n <= x < 2 * n
    ensures x % n == if x < 0 then x + n else if x < n then x else x - n
  {
  }
}
