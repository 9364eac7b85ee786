/**
 * The two Fibonacci methods of `MathService` (`_iterative_fibonacci` and `_matrix_fibonacci`
 * with its inner `matrix_mult` and `matrix_power`) and the switch between them at 1000.
 */
module Fibonacci {
  import Decimal

  /** The reference definition: the recurrence F(0) = 0, F(1) = 1, F(n) = F(n-1) + F(n-2). */
  function Fib(n: nat): nat
  {
    if n < 2 then n else Fib(n - 1) + Fib(n - 2)
  }

  lemma {:induction false} FibMonotone(m: nat, n: nat)
    requires m <= n
    ensures Fib(m) <= Fib(n)
    decreases n - m
  {
    if m < n {
      FibMonotone(m, n - 1);
    }
  }

  /** Six steps of the recurrence multiply by at least 10: F(m+6) == 8 F(m+1) + 5 F(m) >= 13 F(m). */
  lemma FibGrowth(m: nat)
    ensures Fib(m + 6) >= 10 * Fib(m)
  {
    FibMonotone(m, m + 1);
    var x, y := Fib(m), Fib(m + 1);
    assert Fib(m + 2) == x + y;
    assert Fib(m + 3) == x + 2 * y;
    assert Fib(m + 4) == 2 * x + 3 * y;
    assert Fib(m + 5) == 3 * x + 5 * y;
    assert Fib(m + 6) == 5 * x + 8 * y;
  }

  /** F(6k+1) >= 10^k: from 25801 on a Fibonacci number has more than 4300 digits. */
  lemma {:induction false} FibAtLeast(k: nat)
    ensures Fib(6 * k + 1) >= Decimal.Pow10(k)
  {
    if k > 0 {
      FibAtLeast(k - 1);
      FibGrowth(6 * (k - 1) + 1);
    }
  }

  /** From 6k+1 on, a Fibonacci number is at least 10^k. */
  lemma FibAtLeastFrom(n: nat, k: nat)
    requires n >= 6 * k + 1
    ensures Fib(n) >= Decimal.Pow10(k)
  {
    FibAtLeast(k);
    FibMonotone(6 * k + 1, n);
  }

  /** Above this input the service switches from the linear loop to the matrix method. */
  const MatrixThreshold := 1000

  /**
   * `_iterative_fibonacci(n)`: an input of at most 1 (negative ones included) is returned as it is;
   * otherwise two accumulators walk the recurrence from (F(0), F(1)) up to F(n).
   */
  method IterativeFibonacci(n: int) returns (r: int)
    ensures n <= 1 ==> r == n
    ensures n >= 0 ==> r == Fib(n)
  {
    if n <= 1 {
      return n;
    }
    var a, b := 0, 1;
    for i := 2 to n + 1
      invariant a == Fib(i - 2) && b == Fib(i - 1)
    {
      a, b := b, a + b;
    }
    return b;
  }

  /** A 2x2 integer matrix [[a, b], [c, d]], the nested lists of `_matrix_fibonacci`. */
  datatype Matrix = Matrix(a: int, b: int, c: int, d: int)

  const Identity := Matrix(1, 0, 0, 1)

  /** The Fibonacci step matrix [[1, 1], [1, 0]]. */
  const Step := Matrix(1, 1, 1, 0)

  /** A column vector, what a matrix acts on. */
  datatype Vector = Vector(u: int, v: int)

  function Apply(m: Matrix, p: Vector): Vector
  {
    Vector(m.a * p.u + m.b * p.v, m.c * p.u + m.d * p.v)
  }

  /** `matrix_mult`: the row-by-column product, which acts on a vector as `y` followed by `x`. */
  function Mult(x: Matrix, y: Matrix): (r: Matrix)
    ensures forall p :: Apply(r, p) == Apply(x, Apply(y, p))
  {
    var Matrix(xa, xb, xc, xd) := x;
    var Matrix(ya, yb, yc, yd) := y;
    Matrix(xa * ya + xb * yc, xa * yb + xb * yd, xc * ya + xd * yc, xc * yb + xd * yd)
  }

  lemma MultIdentity(x: Matrix)
    ensures Mult(Identity, x) == x && Mult(x, Identity) == x
  {
  }

  /** One entry of (xy)z against the same entry of x(yz): row (p, q) of x, all of y, column (s, t) of z. */
  lemma EntryAssociates(p: int, q: int, ya: int, yb: int, yc: int, yd: int, s: int, t: int)
    ensures (p * ya + q * yc) * s + (p * yb + q * yd) * t == p * (ya * s + yb * t) + q * (yc * s + yd * t)
  {
  }

  lemma MultAssociative(x: Matrix, y: Matrix, z: Matrix)
    ensures Mult(Mult(x, y), z) == Mult(x, Mult(y, z))
  {
    var Matrix(xa, xb, xc, xd) := x;
    var Matrix(ya, yb, yc, yd) := y;
    var Matrix(za, zb, zc, zd) := z;
    EntryAssociates(xa, xb, ya, yb, yc, yd, za, zc);
    EntryAssociates(xa, xb, ya, yb, yc, yd, zb, zd);
    EntryAssociates(xc, xd, ya, yb, yc, yd, za, zc);
    EntryAssociates(xc, xd, ya, yb, yc, yd, zb, zd);
  }

  /** Multiplying by the step matrix on the left adds the rows. */
  lemma StepTimes(p: Matrix)
    ensures Mult(Step, p) == Matrix(p.a + p.c, p.b + p.d, p.a, p.b)
  {
  }

  /** The reference definition of a matrix power: `k` factors of `m`. */
  function MatPow(m: Matrix, k: nat): Matrix
  {
    if k == 0 then Identity else Mult(m, MatPow(m, k - 1))
  }

  lemma {:induction false} MatPowAdd(m: Matrix, i: nat, j: nat)
    ensures MatPow(m, i + j) == Mult(MatPow(m, i), MatPow(m, j))
  {
    if i == 0 {
      MultIdentity(MatPow(m, j));
    } else {
      MatPowAdd(m, i - 1, j);
      MultAssociative(m, MatPow(m, i - 1), MatPow(m, j));
    }
  }

  /**
   * `matrix_power(matrix, k)`: recursive halving, squaring the half power for an even `k` and
   * multiplying one more factor in front for an odd one.
   */
  function MatrixPower(m: Matrix, k: nat): (r: Matrix)
    requires k >= 1
    ensures r == MatPow(m, k)
  {
    if k == 1 then
      MultIdentity(m);
      m
    else if k % 2 == 0 then
      var half := MatrixPower(m, k / 2);
      MatPowAdd(m, k / 2, k / 2);
      Mult(half, half)
    else
      Mult(m, MatrixPower(m, k - 1))
  }

  /** The powers of the step matrix hold consecutive Fibonacci numbers. */
  lemma {:induction false} StepPower(k: nat)
    requires k >= 1
    ensures MatPow(Step, k) == Matrix(Fib(k + 1), Fib(k), Fib(k), Fib(k - 1))
  {
    if k == 1 {
      MultIdentity(Step);
    } else {
      StepPower(k - 1);
      StepTimes(MatPow(Step, k - 1));
    }
  }

  /** `_matrix_fibonacci(n)`: `n` itself for n <= 1, otherwise the upper-right entry of Step^n. */
  function MatrixFibonacci(n: int): (r: int)
    ensures n <= 1 ==> r == n
    ensures n >= 0 ==> r == Fib(n)
  {
    if n <= 1 then
      n
    else
      StepPower(n);
      MatrixPower(Step, n).b
  }

  /** The choice made by `compute_fibonacci`: the matrix method above 1000, the loop otherwise. */
  method FibonacciValue(n: int) returns (r: int)
    ensures n <= 1 ==> r == n
    ensures n >= 0 ==> r == Fib(n)
  {
    if n > MatrixThreshold {
      r := MatrixFibonacci(n);
    } else {
      r := IterativeFibonacci(n);
    }
  }
}
