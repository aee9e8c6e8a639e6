/** Arithmetic the modules share: bounds on reals and integers, and the division
    facts behind the rotation of dig points. */
module Arithmetic {
  function Abs(x: real): real { if x >= 0.0 then x else -x }

  function Max(a: real, b: real): real { if a >= b then a else b }

  function Min(a: real, b: real): real { if a <= b then a else b }

  function Clamp(x: real, lower: real, upper: real): real { Max(lower, Min(upper, x)) }

  function IntMin(a: int, b: int): int { if a < b then a else b }

  lemma MulAtLeast(k: int, n: int)
    requires k >= 1 && n >= 0
    ensures k * n >= n
  {
    assert (k - 1) * n >= 0;
    assert (k - 1) * n == k * n - n;
  }

  lemma RemainderIsUnique(a: nat, n: nat, q: int, r: nat)
    requires n > 0 && r < n && a == q * n + r
    ensures a % n == r
  {
    var q', r' := a / n, a % n;
    assert a == q' * n + r';
    assert (q - q') * n == q * n - q' * n;
    assert (q' - q) * n == q' * n - q * n;
    if q > q' { MulAtLeast(q - q', n); }
    if q' > q { MulAtLeast(q' - q, n); }
  }

  lemma ModSuccessor(x: nat, n: nat)
    requires n > 0
    ensures (x % n + 1) % n == (x + 1) % n
  {
    var q, r := x / n, x % n;
    assert x == q * n + r;
    if r + 1 == n {
      assert (q + 1) * n == q * n + n;
      RemainderIsUnique(x + 1, n, q + 1, 0);
      RemainderIsUnique(n, n, 1, 0);
    } else {
      RemainderIsUnique(x + 1, n, q, r + 1);
      RemainderIsUnique(r + 1, n, 0, r + 1);
    }
  }
}
