/** Numeric primitives shared by the model: the rounding and truncation rules of
    Python's `round`, `np.round` and `int()`, powers of two, and the maximum of a
    non-empty sequence (`np.amax`). */
module Arith {

  /** Result of an operation that the source can abort with an exception. */
  datatype Result<+T, +E> = Success(value: T) | Failure(error: E)

  /** A value that may be absent. */
  datatype Option<+T> = None | Some(value: T)

  /** Python's `round(x)` and `np.round(x)` on a real: nearest integer, ties to even. */
  function Round(x: real): (r: int)
    ensures r as real - 0.5 <= x <= r as real + 0.5
    ensures (x == r as real + 0.5 || x == r as real - 0.5) ==> r % 2 == 0
  {
    var f := x.Floor;
    var d := x - f as real;
    if d < 0.5 then f
    else if d > 0.5 then f + 1
    else if f % 2 == 0 then f
    else f + 1
  }

  /** Rounding is monotone. */
  lemma RoundMonotone(x: real, y: real)
    requires x <= y
    ensures Round(x) <= Round(y)
  {
  }

  /** Rounding an integer gives it back. */
  lemma RoundOfInt(n: int)
    ensures Round(n as real) == n
  {
  }

  /** Python's `int(x)` on a real: truncation toward zero. */
  function Trunc(x: real): (r: int)
    ensures x >= 0.0 ==> 0 <= r && r as real <= x < r as real + 1.0
    ensures x < 0.0 ==> r <= 0 && r as real - 1.0 < x <= r as real
  {
    if x >= 0.0 then x.Floor else -((-x).Floor)
  }

  /** 2^k for a natural exponent. */
  function Pow2(k: nat): (p: nat)
    ensures p >= 1
  {
    if k == 0 then 1 else 2 * Pow2(k - 1)
  }

  /** Python's `2**k` for an integer exponent, which is a float when k < 0. */
  function Pow2Real(k: int): (p: real)
    ensures p > 0.0
    decreases if k < 0 then -k else k
  {
    if k == 0 then 1.0
    else if k > 0 then 2.0 * Pow2Real(k - 1)
    else Pow2Real(k + 1) / 2.0
  }

  /** For a non-negative exponent, the float `2**k` is the integer 2^k. */
  lemma {:induction false} Pow2RealOfNat(k: nat)
    ensures Pow2Real(k) == Pow2(k) as real
  {
    if k > 0 {
      Pow2RealOfNat(k - 1);
    }
  }

  /** n is a power of two (1, 2, 4, ...). */
  predicate IsPow2(n: int)
    decreases if n < 0 then 0 else n
  {
    n == 1 || (n >= 2 && n % 2 == 0 && IsPow2(n / 2))
  }

  /** The maximum of a non-empty sequence, as `np.amax` returns it. */
  function Max(s: seq<real>): (m: real)
    requires |s| > 0
    ensures forall i :: 0 <= i < |s| ==> s[i] <= m
    ensures exists i :: 0 <= i < |s| && s[i] == m
  {
    if |s| == 1 then s[0]
    else
      var rest := Max(s[1..]);
      assert forall i :: 1 <= i < |s| ==> s[i] == s[1..][i - 1];
      if s[0] >= rest then s[0] else rest
  }
}
