/**
 * `MathService._optimized_factorial` and its helper `_product_range`: a loop up to 100, and above
 * that a split at n // 2 into a smaller factorial times a balanced range product.
 */
module Factorial {
  import Decimal

  /** The reference definition: n! = n * (n-1)!, with 0! = 1. */
  function Fact(n: nat): nat
  {
    if n == 0 then 1 else n * Fact(n - 1)
  }

  /** The reference definition of a range product: s * (s+1) * ... * e, and 1 when the range is empty. */
  function Prod(s: int, e: int): int
    decreases e - s
  {
    if s > e then 1 else Prod(s, e - 1) * e
  }

  /** The largest input `compute_factorial` accepts. */
  const MaxInput := 50000

  /** Up to this input the factorial is a plain loop. */
  const LoopLimit := 100

  lemma MultiplyAssociates(x: int, y: int, z: int)
    ensures (x * y) * z == x * (y * z)
  {
  }

  /** A range product splits at any point inside (or at the edges of) the range. */
  lemma {:induction false} ProdSplit(s: int, m: int, e: int)
    requires s - 1 <= m <= e
    ensures Prod(s, e) == Prod(s, m) * Prod(m + 1, e)
    decreases e - m
  {
    if m < e {
      ProdSplit(s, m, e - 1);
      var left, middle := Prod(s, m), Prod(m + 1, e - 1);
      assert Prod(s, e) == Prod(s, e - 1) * e;
      assert Prod(m + 1, e) == middle * e;
      MultiplyAssociates(left, middle, e);
    }
  }

  /** The factorial is the product of the range 1..n. */
  lemma {:induction false} FactIsProd(n: nat)
    ensures Fact(n) == Prod(1, n)
  {
    if n > 0 {
      FactIsProd(n - 1);
    }
  }

  /** The divide-and-conquer identity: n! = m! * ((m+1) * ... * n). */
  lemma FactSplit(n: nat, m: nat)
    requires m <= n
    ensures Fact(n) == Fact(m) * Prod(m + 1, n)
  {
    FactIsProd(n);
    FactIsProd(m);
    ProdSplit(1, m, n);
  }

  /**
   * `_product_range(start, end)`: 1 for an empty range, `start` for a single element, otherwise
   * the product of the two halves split at (start + end) // 2. Python's `//` floors; for the
   * divisor 2 Dafny's Euclidean `/` floors too, so negative bounds split at the same point.
   */
  function ProductRange(start: int, end: int): (r: int)
    ensures r == Prod(start, end)
    decreases end - start
  {
    if start > end then
      1
    else if start == end then
      start
    else
      var mid := (start + end) / 2;
      ProdSplit(start, mid, end);
      ProductRange(start, mid) * ProductRange(mid + 1, end)
  }

  /**
   * `_optimized_factorial(n)`: 1 for n <= 1 (negative inputs included), a running product for
   * n <= 100, and (n // 2)! * ProductRange(n // 2 + 1, n) above that.
   */
  method OptimizedFactorial(n: int) returns (r: int)
    ensures n <= 1 ==> r == 1
    ensures n >= 0 ==> r == Fact(n)
    decreases n
  {
    if n <= 1 {
      return 1;
    }
    if n <= LoopLimit {
      r := 1;
      for i := 2 to n + 1
        invariant r == Fact(i - 1)
      {
        r := r * i;
      }
      return;
    }
    var mid := n / 2;
    var left := OptimizedFactorial(mid);
    r := left * ProductRange(mid + 1, n);
    FactSplit(n, mid);
  }

  /** From 10 on every factor is at least 10, so n! >= 10^(n-9): from 4309 on the result has more than 4300 digits. */
  lemma {:induction false} FactAtLeast(n: nat)
    requires n >= 9
    ensures Fact(n) >= Decimal.Pow10(n - 9)
  {
    if n > 9 {
      FactAtLeast(n - 1);
      assert n * Fact(n - 1) >= 10 * Fact(n - 1);
    }
  }

  /** From k+9 on, a factorial is at least 10^k. */
  lemma FactAtLeastFrom(n: nat, k: nat)
    requires n >= k + 9
    ensures Fact(n) >= Decimal.Pow10(k)
  {
    FactAtLeast(n);
    Decimal.Pow10Monotone(k, n - 9);
  }

  /** Up to 1000 every factor is at most 1000, so n! <= 10^(3n). */
  lemma {:induction false} FactAtMost(n: nat)
    requires n <= 1000
    ensures Fact(n) <= Decimal.Pow10(3 * n)
  {
    if n > 0 {
      FactAtMost(n - 1);
      assert Decimal.Pow10(3 * n) == 10 * Decimal.Pow10(3 * n - 1);
      assert Decimal.Pow10(3 * n - 1) == 10 * Decimal.Pow10(3 * n - 2);
      assert Decimal.Pow10(3 * n - 2) == 10 * Decimal.Pow10(3 * (n - 1));
      assert n * Fact(n - 1) <= 1000 * Fact(n - 1);
    }
  }
}
