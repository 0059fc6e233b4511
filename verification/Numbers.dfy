/** Integer and rounding arithmetic shared by the models: the JavaScript rounding functions on exact
    reals, and the arena's integer square root and vector scaling. */
module Numbers {

  /** Math.trunc: towards zero. */
  function Trunc(x: real): int {
    if x >= 0.0 then x.Floor else -((-x).Floor)
  }

  /** Math.round: to the nearest integer, halves towards plus infinity. */
  function Round(x: real): int {
    (x + 0.5).Floor
  }

  function Min(a: int, b: int): int {
    if a <= b then a else b
  }

  function Max(a: int, b: int): int {
    if a >= b then a else b
  }

  function MaxReal(a: real, b: real): real {
    if a >= b then a else b
  }

  function MinReal(a: real, b: real): real {
    if a <= b then a else b
  }

  function Clamp(v: int, lo: int, hi: int): int {
    if v < lo then lo else if v > hi then hi else v
  }

  function Abs(x: int): nat {
    if x < 0 then -x else x
  }

  /** Division of integers towards zero, as Math.trunc(a / b) computes it. */
  function TruncDiv(a: int, b: int): int
    requires b > 0
  {
    if a >= 0 then a / b else -((-a) / b)
  }

  /** Reference square root: the one natural r with r * r <= n < (r + 1) * (r + 1). */
  function FloorSqrt(n: nat): (r: nat)
    ensures r * r <= n < (r + 1) * (r + 1)
  {
    if n == 0 then 0
    else
      var r := FloorSqrt(n - 1);
      if (r + 1) * (r + 1) <= n then r + 1 else r
  }

  lemma FloorSqrtUnique(n: nat, r: nat)
    requires r * r <= n < (r + 1) * (r + 1)
    ensures r == FloorSqrt(n)
  {
    var q := FloorSqrt(n);
    if r < q {
      SquareMonotone(r + 1, q);
    } else if q < r {
      SquareMonotone(q + 1, r);
    }
  }

  lemma SquareMonotone(a: nat, b: nat)
    requires a <= b
    ensures a * a <= b * b
  {
    assert b * b - a * a == (b - a) * (b + a);
  }

  /** One Newton step from any positive x lands at or above the root: the arithmetic mean of x and
      n / x, even after both floors, is never more than one short of the geometric mean. */
  lemma NewtonStepAboveRoot(n: nat, x: nat)
    requires x > 0
    ensures FloorSqrt(n) <= (x + n / x) / 2
  {
    var s, q := FloorSqrt(n), n / x;
    if x + q <= 2 * s - 1 {
      DividedBelow(n, x);
      MulMonotone(x, q + 1, 2 * s - x);
      MeanSquare(x, s);
    }
  }

  lemma DividedBelow(n: nat, x: nat)
    requires x > 0
    ensures n < x * (n / x + 1)
  {
    assert n == x * (n / x) + n % x;
  }

  lemma MeanSquare(x: int, s: int)
    ensures x * (2 * s - x) <= s * s
  {
    var d := s - x;
    assert x * (2 * s - x) == (s - d) * (s + d);
    assert (s - d) * (s + d) == s * s - d * d;
    assert d * d >= 0;
  }

  lemma MulMonotone(x: nat, a: int, b: int)
    requires a <= b
    ensures x * a <= x * b
  {
    assert x * b - x * a == x * (b - a);
  }

  /** Newton's iteration from above, exactly as the arena computes it: the first value that does not
      decrease is the floor square root. */
  method ISqrt(n: nat) returns (r: nat)
    ensures r == FloorSqrt(n)
  {
    if n < 2 {
      FloorSqrtUnique(n, n);
      return n;
    }
    var x := n;
    var y := (x + 1) / 2;
    SelfQuotient(n);
    NewtonStepAboveRoot(n, n);
    SqrtBelow(n);
    while y < x
      invariant 0 < x && FloorSqrt(n) <= x
      invariant y == (x + n / x) / 2
      invariant FloorSqrt(n) <= y
      decreases x
    {
      x := y;
      assert x > 0 by {
        SqrtPositive(n);
      }
      NewtonStepAboveRoot(n, x);
      y := (x + n / x) / 2;
    }
    NewtonStop(n, x);
    r := x;
  }

  /** Newton's iteration stops at the root: x <= (x + n / x) / 2 means x * x <= n. */
  lemma NewtonStop(n: nat, x: nat)
    requires x > 0 && FloorSqrt(n) <= x <= (x + n / x) / 2
    ensures x == FloorSqrt(n)
  {
    QuotientBelow(n, x);
    MeanStop(n, x, n / x);
    SqrtAtLeast(n, x);
  }

  lemma QuotientBelow(n: nat, x: nat)
    requires x > 0
    ensures x * (n / x) <= n
  {
    assert n == x * (n / x) + n % x;
  }

  lemma MeanStop(n: nat, x: nat, q: nat)
    requires x <= (x + q) / 2 && x * q <= n
    ensures x * x <= n
  {
    MulMonotone(x, x, q);
  }

  lemma SelfQuotient(n: nat)
    requires n > 0
    ensures n / n == 1
  {
  }

  lemma SqrtBelow(n: nat)
    ensures FloorSqrt(n) <= n
  {
    var s := FloorSqrt(n);
    assert s * s >= s;
  }

  lemma SqrtPositive(n: nat)
    requires n > 0
    ensures FloorSqrt(n) > 0
  {
  }

  lemma SqrtAtLeast(n: nat, k: nat)
    requires k * k <= n
    ensures k <= FloorSqrt(n)
  {
    var s := FloorSqrt(n);
    if s < k {
      SquareMonotone(s + 1, k);
    }
  }

  // ----- Products of reals -----

  lemma PositiveProduct(a: real, b: real)
    requires a > 0.0 && b > 0.0
    ensures a * b > 0.0
  {
  }

  lemma NonNegative(a: real, b: real)
    requires a >= 0.0 && b >= 0.0
    ensures a * b >= 0.0
  {
  }

  lemma AtMost(x: real, y: real, m: real)
    requires m > 0.0 && x * m <= y * m
    ensures x <= y
  {
    if x > y {
      PositiveProduct(x - y, m);
    }
  }

  lemma Scales(x: real, y: real, m: real)
    requires x <= y && m > 0.0
    ensures x * m <= y * m
  {
    NonNegative(y - x, m);
    assert (y - x) * m == y * m - x * m;
  }
}
