/** Shared vocabulary: an optional value, and JavaScript's remainder operator. */
module Prelude {

  /** A value that may be absent (`undefined` in the source). */
  datatype Option<+T> = None | Some(value: T)

  /** JavaScript's `a % b` for a positive divisor. It truncates toward zero, so the
      remainder takes the sign of `a`; Dafny's `%` is never negative. */
  function JsRem(a: int, b: int): (r: int)
    requires b > 0
    ensures a >= 0 ==> r == a % b
    ensures a < 0 ==> -b < r <= 0
    ensures (a - r) % b == 0
  {
    if a >= 0 then
      assert a - a % b == (a / b) * b;
      MultipleHasNoRemainder(a / b, b);
      a % b
    else
      var q := (-a) / b;
      assert -a == q * b + (-a) % b;
      assert a + (-a) % b == (-q) * b;
      MultipleHasNoRemainder(-q, b);
      -((-a) % b)
  }

  /** A positive multiple of a positive number is at least that number. */
  lemma {:induction false} MultipleAtLeast(k: nat, b: int)
    requires b > 0 && k >= 1
    ensures k * b >= b
  {
    if k > 1 {
      MultipleAtLeast(k - 1, b);
      assert k * b == (k - 1) * b + b;
    }
  }

  /** Dafny's remainder is the only r in [0, b) with x == q * b + r. */
  lemma RemainderUnique(x: int, q: int, r: int, b: int)
    requires b > 0 && 0 <= r < b && x == q * b + r
    ensures x % b == r
  {
    var d := q - x / b;
    assert d * b == x % b - r by {
      assert x == (x / b) * b + x % b;
      assert q * b - (x / b) * b == d * b;
    }
    if d >= 1 {
      MultipleAtLeast(d, b);
    } else if d <= -1 {
      MultipleAtLeast(-d, b);
    }
  }

  /** A multiple of `b` leaves no remainder. */
  lemma MultipleHasNoRemainder(q: int, b: int)
    requires b > 0
    ensures (q * b) % b == 0
  {
    RemainderUnique(q * b, q, 0, b);
  }
}
